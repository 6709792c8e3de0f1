/**
 * The names run_test derives for one test unit (path, device):
 * the test name from the path, the device identifier from the device name,
 * and the snapshot name that joins them. Strings are sequences of characters;
 * lower-casing is modelled for ASCII letters only.
 */
module Naming {

  /** Applies f to every character, keeping length and order. */
  function MapChars(s: string, f: char -> char): (r: string)
    ensures |r| == |s|
    ensures forall k :: 0 <= k < |s| ==> r[k] == f(s[k])
  {
    seq(|s|, k requires 0 <= k < |s| => f(s[k]))
  }

  /** Python's str.replace(from, to) for single-character arguments. */
  function ReplaceChar(s: string, from: char, to: char): (r: string)
    ensures |r| == |s|
    ensures from != to ==> from !in r
    ensures forall k :: 0 <= k < |s| && s[k] != from ==> r[k] == s[k]
    ensures forall k :: 0 <= k < |s| && s[k] == from ==> r[k] == to
  {
    MapChars(s, c => if c == from then to else c)
  }

  predicate AllSlashes(s: string)
  {
    forall k :: 0 <= k < |s| ==> s[k] == '/'
  }

  /** The length of the run of slashes that starts s. */
  function LeadingSlashes(s: string): (n: nat)
    ensures n <= |s|
    ensures forall k :: 0 <= k < n ==> s[k] == '/'
    ensures n < |s| ==> s[n] != '/'
  {
    if s != [] && s[0] == '/' then 1 + LeadingSlashes(s[1..]) else 0
  }

  /** The length of the run of slashes that ends s. */
  function TrailingSlashes(s: string): (n: nat)
    ensures n <= |s|
    ensures forall k :: |s| - n <= k < |s| ==> s[k] == '/'
    ensures n < |s| ==> s[|s| - 1 - n] != '/'
  {
    if s != [] && s[|s| - 1] == '/' then 1 + TrailingSlashes(s[..|s| - 1]) else 0
  }

  /**
   * Python's str.strip("/"): every leading and every trailing slash is removed,
   * not just one. The result is the piece of s right after its leading slashes,
   * everything after that piece is a slash, and the piece neither starts nor
   * ends with a slash.
   */
  function StripSlashes(s: string): (r: string)
    ensures r == [] <==> AllSlashes(s)
    ensures r != [] ==> r[0] != '/' && r[|r| - 1] != '/'
    ensures LeadingSlashes(s) + |r| <= |s|
    ensures r == s[LeadingSlashes(s)..LeadingSlashes(s) + |r|]
    ensures forall k :: LeadingSlashes(s) + |r| <= k < |s| ==> s[k] == '/'
  {
    var i := LeadingSlashes(s);
    if i == |s| then [] else s[i..|s| - TrailingSlashes(s)]
  }

  /**
   * test_name: the path stripped of its outer slashes, each remaining slash
   * turned into an underscore, and "root" when nothing is left.
   */
  function TestName(path: string): (r: string)
    ensures r != []
    ensures '/' !in r
    ensures AllSlashes(path) ==> r == "root"
    ensures !AllSlashes(path) ==> |r| == |StripSlashes(path)|
    ensures !AllSlashes(path) ==>
      forall k :: 0 <= k < |r| ==> r[k] == if StripSlashes(path)[k] == '/' then '_' else StripSlashes(path)[k]
  {
    var t := ReplaceChar(StripSlashes(path), '/', '_');
    if t == [] then "root" else t
  }

  /** Python's str.lower() on one character, for ASCII letters. */
  function LowerChar(c: char): (r: char)
    ensures 'A' <= c <= 'Z' ==> 'a' <= r <= 'z' && r as int == c as int + 32
    ensures !('A' <= c <= 'Z') ==> r == c
  {
    if 'A' <= c <= 'Z' then (c as int + 32) as char else c
  }

  /** device_identifier: the device name lower-cased, each space turned into an underscore. */
  function DeviceIdentifier(deviceName: string): (r: string)
    ensures |r| == |deviceName|
    ensures ' ' !in r
    ensures forall k :: 0 <= k < |r| ==> !('A' <= r[k] <= 'Z')
    ensures forall k :: 0 <= k < |r| && deviceName[k] != ' ' ==> r[k] == LowerChar(deviceName[k])
    ensures forall k :: 0 <= k < |r| && deviceName[k] == ' ' ==> r[k] == '_'
  {
    ReplaceChar(MapChars(deviceName, LowerChar), ' ', '_')
  }

  /** snapshot_name: the test name, an underscore, and the device identifier. */
  function SnapshotName(path: string, deviceName: string): (r: string)
    ensures |r| == |TestName(path)| + 1 + |deviceName|
    ensures r[|TestName(path)|] == '_'
  {
    TestName(path) + "_" + DeviceIdentifier(deviceName)
  }

  /** The document title run_test sets for the snapshot service's dashboard. */
  function PageTitle(path: string, deviceName: string): (r: string)
    ensures |r| == 14 + |TestName(path)| + |deviceName|
    ensures r[..11] == "Snapshot - "
    ensures r[11..11 + |TestName(path)|] == TestName(path)
    ensures r[11 + |TestName(path)|..14 + |TestName(path)|] == " - "
    ensures r[14 + |TestName(path)|..] == DeviceIdentifier(deviceName)
  {
    var t, d := TestName(path), DeviceIdentifier(deviceName);
    var r := "Snapshot - " + t + " - " + d;
    assert r[..11] == "Snapshot - ";
    assert r[11..11 + |t|] == t;
    assert r[11 + |t|..14 + |t|] == " - ";
    assert r[14 + |t|..] == d;
    r
  }

  /**
   * Holds a character that can end a single-quoted JavaScript string literal
   * early or leave it unterminated: the quote itself or a line break.
   */
  predicate BreaksQuotedLiteral(s: string)
  {
    '\'' in s || '\n' in s || '\r' in s
  }

  /**
   * run_test writes the title by evaluating a script that holds it in single
   * quotes. The model takes that script to fail whenever the test name or the
   * device identifier holds such a character. A quote can also close and
   * reopen the literal into valid JavaScript (test name `'+'`); the model does
   * not tell that case apart.
   */
  predicate TitleScriptFails(path: string, deviceName: string)
  {
    BreaksQuotedLiteral(TestName(path)) || BreaksQuotedLiteral(DeviceIdentifier(deviceName))
  }

  /** The URL visited: the base URL with the path appended verbatim. */
  function Url(baseUrl: string, path: string): (r: string)
    ensures |r| == |baseUrl| + |path|
    ensures r[..|baseUrl|] == baseUrl && r[|baseUrl|..] == path
  {
    baseUrl + path
  }

  /** Every character of the path other than a slash appears in its test name. */
  lemma NonSlashSurvives(path: string, c: char)
    requires c != '/' && c in path
    ensures c in TestName(path)
  {
    var k :| 0 <= k < |path| && path[k] == c;
    var n := LeadingSlashes(path);
    var t := StripSlashes(path);
    assert n <= k < n + |t|;
    assert t[k - n] == c;
    assert TestName(path)[k - n] == c;
  }

  /** A quote in the path or in the device name makes the title script fail. */
  lemma QuoteBreaksTitle(path: string, deviceName: string)
    requires '\'' in path || '\'' in deviceName
    ensures TitleScriptFails(path, deviceName)
  {
    if '\'' in path {
      NonSlashSurvives(path, '\'');
    } else {
      var k :| 0 <= k < |deviceName| && deviceName[k] == '\'';
      assert DeviceIdentifier(deviceName)[k] == '\'';
    }
  }

  /** The test name is "root" exactly when the path is all slashes or strips to "root" itself. */
  lemma TestNameIsRoot(path: string)
    ensures TestName(path) == "root" <==> AllSlashes(path) || StripSlashes(path) == "root"
  {
    var t := StripSlashes(path);
    if !AllSlashes(path) {
      var r := TestName(path);
      if r == "root" {
        forall k | 0 <= k < |t| ensures t[k] == r[k] {
          assert r[k] != '_';
        }
        assert t == r;
      }
      if t == "root" {
        assert '/' !in t;
        assert r == t;
      }
    }
  }

  /**
   * Stripping is determined by its result: a path made of a run of slashes, a
   * body that neither starts nor ends with a slash, and another run of slashes
   * strips to that body.
   */
  lemma {:induction false} StripSlashesOfTrimmed(pre: string, body: string, post: string)
    requires AllSlashes(pre) && AllSlashes(post)
    requires body != [] && body[0] != '/' && body[|body| - 1] != '/'
    ensures StripSlashes(pre + body + post) == body
  {
    var s := pre + body + post;
    var n := LeadingSlashes(s);
    assert s[|pre|] == body[0];
    assert forall k :: 0 <= k < |pre| ==> s[k] == pre[k];
    assert n == |pre|;
    var r := StripSlashes(s);
    assert !AllSlashes(s);
    assert s[|pre| + |body| - 1] == body[|body| - 1];
    assert forall k :: |pre| + |body| <= k < |s| ==> s[k] == post[k - |pre| - |body|];
    assert |r| == |body|;
    assert r == s[|pre|..|pre| + |body|];
    assert s[|pre|..|pre| + |body|] == body;
  }

  /** The test name of a path that is "/" + body, with body free of slashes and not empty, is body. */
  lemma SingleSegment(body: string)
    requires body != [] && '/' !in body
    ensures TestName("/" + body) == body
  {
    var p := "/" + body;
    assert p[1] == body[0];
    assert LeadingSlashes(p) == 1;
    assert p[1..] == body;
    assert StripSlashes(p) == body;
    assert ReplaceChar(body, '/', '_') == body;
  }

  /** Replacing slashes in s gives t, checked character by character. */
  lemma ReplaceExample(s: string, t: string)
    requires |s| == |t|
    requires forall k :: 0 <= k < |s| ==> t[k] == if s[k] == '/' then '_' else s[k]
    ensures ReplaceChar(s, '/', '_') == t
  {
    var r := ReplaceChar(s, '/', '_');
    assert forall k :: 0 <= k < |s| ==> r[k] == t[k];
  }

  /** Worked example: both outer slashes go, the inner one becomes an underscore. */
  lemma TestNameProductsShoes()
    ensures TestName("/products/shoes/") == "products_shoes"
  {
    var p := "/products/shoes/";
    assert LeadingSlashes(p) == 1;
    assert TrailingSlashes(p) == 1;
    assert StripSlashes(p) == "products/shoes";
    ReplaceExample("products/shoes", "products_shoes");
  }

  /** Worked example: every outer slash goes, not just one, and inner runs are kept. */
  lemma TestNameDoubledSlashes()
    ensures TestName("//a//b//") == "a__b"
  {
    var q := "//a//b//";
    assert LeadingSlashes(q) == 2;
    assert TrailingSlashes(q) == 2;
    assert StripSlashes(q) == "a//b";
    ReplaceExample("a//b", "a__b");
  }

  lemma TestNameOnlySlashes()
    ensures TestName("") == "root" && TestName("///") == "root"
  {
  }

  /** Worked example: upper case is lowered and spaces become underscores. */
  lemma DeviceIdentifierIPad()
    ensures DeviceIdentifier("iPad (gen 7)") == "ipad_(gen_7)"
  {
  }

  lemma DeviceIdentifierDesktop()
    ensures DeviceIdentifier("desktop") == "desktop"
  {
  }

  /**
   * A snapshot name splits at position |TestName(path)| into the test name, one
   * underscore, and the device identifier, which is as long as the device name.
   */
  lemma SnapshotNameParts(path: string, deviceName: string)
    ensures var r, t := SnapshotName(path, deviceName), TestName(path);
      |r| == |t| + 1 + |deviceName| && r[..|t|] == t && r[|t|] == '_' && r[|t| + 1..] == DeviceIdentifier(deviceName)
  {
  }

  lemma TestNameAbout()
    ensures TestName("/about") == "about"
  {
    SingleSegment("about");
  }

  /** Worked example of a snapshot name. */
  lemma SnapshotNameExample()
    ensures SnapshotName("/about", "desktop") == "about_desktop"
  {
    TestNameAbout();
    DeviceIdentifierDesktop();
  }

  /** An inner slash becomes an underscore. */
  lemma TestNameInnerSlash()
    ensures TestName("/a/b") == "a_b"
  {
  }

  lemma TestNameUnderscore()
    ensures TestName("/a_b") == "a_b"
  {
    SingleSegment("a_b");
  }

  /** Snapshot names do not identify their unit: distinct paths share one on every device. */
  lemma SnapshotNameCollides(deviceName: string)
    ensures "/a/b" != "/a_b" && SnapshotName("/a/b", deviceName) == SnapshotName("/a_b", deviceName)
  {
    assert "/a/b"[2] != "/a_b"[2];
    TestNameInnerSlash();
    TestNameUnderscore();
  }

  lemma TestNameRoot()
    ensures TestName("/root") == "root"
  {
    SingleSegment("root");
  }

  /** The site root and a page literally named root share their snapshot name on every device. */
  lemma SnapshotNameCollidesAtRoot(deviceName: string)
    ensures "" != "/root" && SnapshotName("", deviceName) == SnapshotName("/root", deviceName)
  {
    TestNameRoot();
  }
}
