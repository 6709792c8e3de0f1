/**
 * One test unit (run_test): resolve the device, open a browser session, bring
 * the page into a snapshot-ready state, capture the snapshot and close the
 * session. The browser, its page and the snapshot service are foreign; the
 * unit is modelled as the sequence of requests it makes of them, and the
 * value it returns or the error it raises.
 */
module Runner {
  import opened Wrappers
  import opened Naming
  import opened Devices

  /** The requests a unit makes of the browser engine and the snapshot service, in order. */
  datatype Event<D> =
    | LaunchBrowser
    | NewContext(emulation: Option<D>)
    | NewPage
    | Goto(url: string)
    | SetTitle(title: string)
    | ClickAccept(locator: string)
    | SlowScroll
    | RemoveWidget(selector: string)
    | Snapshot(name: string)
    | CloseContext
    | CloseBrowser

  /** Why a unit fails: the device lookup, or the title script, which the page rejects as malformed. */
  datatype UnitError = LookupFailed(error: Error) | TitleScriptFailed(title: string)

  datatype UnitRun<D> = UnitRun(events: seq<Event<D>>, outcome: Result<string, UnitError>)

  /** The floating feedback widget removed before every snapshot. */
  const WidgetSelector := "#QSIFeedbackButton-btn"

  /** The consent click is attempted only for a non-empty locator and happens only if the control is visible. */
  function ConsentStep<D>(acceptLocator: Option<string>, acceptVisible: bool): (r: seq<Event<D>>)
    ensures r != [] <==> acceptLocator.Some? && acceptLocator.value != "" && acceptVisible
    ensures r != [] ==> r == [ClickAccept(acceptLocator.value)]
  {
    if acceptLocator.Some? && acceptLocator.value != "" && acceptVisible then [ClickAccept(acceptLocator.value)] else []
  }

  /** The start of every session: launch, open a context and a page, navigate, write the title. */
  function Opening<D>(emulation: Option<D>, url: string, title: string): (s: seq<Event<D>>)
    ensures |s| == 5
    ensures s[0] == LaunchBrowser && s[1] == NewContext(emulation) && s[2] == NewPage
    ensures s[3] == Goto(url) && s[4] == SetTitle(title)
  {
    [LaunchBrowser, NewContext(emulation), NewPage, Goto(url), SetTitle(title)]
  }

  /** The session a registered unit runs: open, prepare the page, capture, close. */
  function Ritual<D>(emulation: Option<D>, url: string, title: string, consent: seq<Event<D>>, name: string)
    : (s: seq<Event<D>>)
    ensures |s| == 10 + |consent|
    ensures s[..5] == Opening(emulation, url, title)
    ensures s[5..5 + |consent|] == consent
    ensures s[5 + |consent|..|s| - 2] == [SlowScroll, RemoveWidget(WidgetSelector), Snapshot(name)]
    ensures s[|s| - 2..] == [CloseContext, CloseBrowser]
  {
    var s := Opening(emulation, url, title) + consent
      + [SlowScroll, RemoveWidget(WidgetSelector), Snapshot(name), CloseContext, CloseBrowser];
    assert s[..5] == Opening(emulation, url, title);
    assert s[5..5 + |consent|] == consent;
    s
  }

  /** With no snapshot among the consent requests, the session's only snapshot is third from last. */
  lemma RitualSnapshot<D>(emulation: Option<D>, url: string, title: string, consent: seq<Event<D>>, name: string)
    requires forall e :: e in consent ==> !e.Snapshot?
    ensures var s := Ritual(emulation, url, title, consent, name);
      forall n :: Snapshot(n) in s <==> n == name
    ensures var s := Ritual(emulation, url, title, consent, name);
      forall i :: 0 <= i < |s| && s[i].Snapshot? ==>
        i == |s| - 3 && s[i - 1] == RemoveWidget(WidgetSelector) && s[i - 2] == SlowScroll
  {
    var a := Opening(emulation, url, title);
    var b: seq<Event<D>> := [SlowScroll, RemoveWidget(WidgetSelector), Snapshot(name), CloseContext, CloseBrowser];
    var s := Ritual(emulation, url, title, consent, name);
    assert s == a + consent + b;
    forall i | 0 <= i < |s| && i != |s| - 3
      ensures !s[i].Snapshot?
    {
      if i < 5 {
        assert s[i] == a[i];
      } else if i < 5 + |consent| {
        assert s[i] == consent[i - 5] && consent[i - 5] in consent;
      } else {
        assert s[i] == b[i - 5 - |consent|];
      }
    }
  }

  /** The opening of a session takes no snapshot. */
  lemma OpeningSnapshotFree<D>(emulation: Option<D>, url: string, title: string)
    ensures forall e :: e in Opening(emulation, url, title) ==> !e.Snapshot?
    ensures forall i :: 0 <= i < 5 ==> !Opening(emulation, url, title)[i].Snapshot?
  {
  }

  /** The session clicks the consent control only through its consent requests. */
  lemma RitualClicks<D>(emulation: Option<D>, url: string, title: string, consent: seq<Event<D>>, name: string,
                        locator: string)
    ensures ClickAccept(locator) in Ritual(emulation, url, title, consent, name) <==> ClickAccept(locator) in consent
  {
    var a := Opening(emulation, url, title);
    var b: seq<Event<D>> := [SlowScroll, RemoveWidget(WidgetSelector), Snapshot(name), CloseContext, CloseBrowser];
    assert Ritual(emulation, url, title, consent, name) == a + consent + b;
    assert ClickAccept(locator) !in a && ClickAccept(locator) !in b;
  }

  /**
   * run_test. The device lookup comes first: an unregistered device raises
   * KeyError before the browser is launched. The title is written by a script
   * that quotes it; a malformed script raises after navigation and the unit
   * ends there, without closing its session. Otherwise the unit goes through
   * its fixed ritual and returns the snapshot name it captured under.
   * acceptVisible stands for the page's answer to the visibility query; a
   * failing query or click is swallowed and is treated as no click.
   */
  function RunTest<D>(registry: map<string, Option<string>>, catalog: map<string, D>, baseUrl: string,
                      path: string, deviceName: string, acceptLocator: Option<string>, acceptVisible: bool)
    : (u: UnitRun<D>)
    ensures u.outcome.Err? <==> deviceName !in registry || TitleScriptFails(path, deviceName)
    ensures deviceName !in registry ==>
      u.outcome == Err(LookupFailed(KeyError(deviceName))) && LaunchBrowser !in u.events
    ensures deviceName in registry && TitleScriptFails(path, deviceName) ==>
      && u.outcome == Err(TitleScriptFailed(PageTitle(path, deviceName)))
      && u.events == Opening(ResolveDevice(registry, catalog, deviceName).value, Url(baseUrl, path), PageTitle(path, deviceName))
    ensures deviceName in registry && !TitleScriptFails(path, deviceName) ==>
      && u.outcome == Ok(SnapshotName(path, deviceName))
      && u.events == Ritual(ResolveDevice(registry, catalog, deviceName).value, Url(baseUrl, path),
                            PageTitle(path, deviceName), ConsentStep(acceptLocator, acceptVisible),
                            SnapshotName(path, deviceName))
      && |u.events| >= 10
      && u.events[..5] == Opening(ResolveDevice(registry, catalog, deviceName).value, Url(baseUrl, path), PageTitle(path, deviceName))
      && u.events[|u.events| - 2..] == [CloseContext, CloseBrowser]
  {
    match ResolveDevice(registry, catalog, deviceName)
    case Err(e) => UnitRun([], Err(LookupFailed(e)))
    case Ok(emulation) =>
      var url, title := Url(baseUrl, path), PageTitle(path, deviceName);
      if TitleScriptFails(path, deviceName) then
        UnitRun(Opening(emulation, url, title), Err(TitleScriptFailed(title)))
      else
        var name := SnapshotName(path, deviceName);
        UnitRun(Ritual(emulation, url, title, ConsentStep(acceptLocator, acceptVisible), name), Ok(name))
  }

  /** A unit captures exactly one snapshot, under the name it returns, and none when it fails. */
  lemma SnapshotOnce<D>(registry: map<string, Option<string>>, catalog: map<string, D>, baseUrl: string,
                        path: string, deviceName: string, acceptLocator: Option<string>, acceptVisible: bool)
    ensures var u := RunTest(registry, catalog, baseUrl, path, deviceName, acceptLocator, acceptVisible);
      forall n :: Snapshot(n) in u.events <==> u.outcome == Ok(n)
  {
    var u := RunTest(registry, catalog, baseUrl, path, deviceName, acceptLocator, acceptVisible);
    if deviceName in registry {
      var emulation := ResolveDevice(registry, catalog, deviceName).value;
      var url, title := Url(baseUrl, path), PageTitle(path, deviceName);
      if TitleScriptFails(path, deviceName) {
        assert u.events == Opening(emulation, url, title);
        OpeningSnapshotFree(emulation, url, title);
      } else {
        var consent: seq<Event<D>> := ConsentStep(acceptLocator, acceptVisible);
        var name := SnapshotName(path, deviceName);
        assert u == UnitRun(Ritual(emulation, url, title, consent, name), Ok(name));
        RitualSnapshot(emulation, url, title, consent, name);
      }
    }
  }

  /**
   * A unit's snapshot is its last request before closing the session, taken
   * once the page has been scrolled and the widget removed.
   */
  lemma SnapshotLast<D>(registry: map<string, Option<string>>, catalog: map<string, D>, baseUrl: string,
                        path: string, deviceName: string, acceptLocator: Option<string>, acceptVisible: bool)
    ensures var u := RunTest(registry, catalog, baseUrl, path, deviceName, acceptLocator, acceptVisible);
      forall i :: 0 <= i < |u.events| && u.events[i].Snapshot? ==>
        i == |u.events| - 3 && u.events[i - 1] == RemoveWidget(WidgetSelector) && u.events[i - 2] == SlowScroll
  {
    var u := RunTest(registry, catalog, baseUrl, path, deviceName, acceptLocator, acceptVisible);
    if deviceName in registry {
      var emulation := ResolveDevice(registry, catalog, deviceName).value;
      var url, title := Url(baseUrl, path), PageTitle(path, deviceName);
      if TitleScriptFails(path, deviceName) {
        assert u.events == Opening(emulation, url, title);
        OpeningSnapshotFree(emulation, url, title);
      } else {
        var consent: seq<Event<D>> := ConsentStep(acceptLocator, acceptVisible);
        var name := SnapshotName(path, deviceName);
        assert u.events == Ritual(emulation, url, title, consent, name);
        RitualSnapshot(emulation, url, title, consent, name);
      }
    }
  }

  /**
   * The consent control is clicked exactly when a non-empty locator was given,
   * the control was visible and the unit got past its title script.
   */
  lemma ConsentClicked<D>(registry: map<string, Option<string>>, catalog: map<string, D>, baseUrl: string,
                          path: string, deviceName: string, locator: string, acceptVisible: bool)
    ensures var u := RunTest(registry, catalog, baseUrl, path, deviceName, Some(locator), acceptVisible);
      ClickAccept(locator) in u.events <==>
        deviceName in registry && !TitleScriptFails(path, deviceName) && locator != "" && acceptVisible
  {
    if deviceName in registry && !TitleScriptFails(path, deviceName) {
      var emulation := ResolveDevice(registry, catalog, deviceName).value;
      RitualClicks(emulation, Url(baseUrl, path), PageTitle(path, deviceName),
                   ConsentStep(Some(locator), acceptVisible), SnapshotName(path, deviceName), locator);
    }
  }

  /**
   * In the model, a path holding a single quote (such as `/it's`) breaks the
   * title script: a registered unit stops after navigating, takes no snapshot
   * and leaves its session open.
   */
  lemma QuotedPathAborts<D>(registry: map<string, Option<string>>, catalog: map<string, D>, baseUrl: string,
                            path: string, deviceName: string, acceptLocator: Option<string>, acceptVisible: bool)
    requires deviceName in registry && '\'' in path
    ensures var u := RunTest(registry, catalog, baseUrl, path, deviceName, acceptLocator, acceptVisible);
      && u.outcome == Err(TitleScriptFailed(PageTitle(path, deviceName)))
      && Goto(Url(baseUrl, path)) in u.events
      && CloseBrowser !in u.events
      && forall n :: Snapshot(n) !in u.events
  {
    QuoteBreaksTitle(path, deviceName);
  }

  /**
   * With the shipped registry, "desktop" runs in the default context and
   * succeeds unless its title script breaks; any other name fails before launch.
   */
  lemma ShippedRun<D>(catalog: map<string, D>, baseUrl: string, path: string, deviceName: string,
                      acceptLocator: Option<string>, acceptVisible: bool)
    ensures var u := RunTest(DeviceConfigs, catalog, baseUrl, path, deviceName, acceptLocator, acceptVisible);
      deviceName == "desktop" ==>
        && u.events[1] == NewContext(None)
        && (u.outcome == Ok(SnapshotName(path, "desktop")) <==> !TitleScriptFails(path, "desktop"))
    ensures var u := RunTest(DeviceConfigs, catalog, baseUrl, path, deviceName, acceptLocator, acceptVisible);
      deviceName != "desktop" ==> u.outcome == Err(LookupFailed(KeyError(deviceName))) && u.events == []
  {
  }
}
