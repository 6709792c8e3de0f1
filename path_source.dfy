/**
 * read_urls_from_excel: the paths are the truthy first-column values of every
 * row after the header, in row order. Loading the workbook is left out: the
 * sheet is given as the sequence of its first-column cells, header included.
 */
module PathSource {

  /** A first-column cell: blank (None) or a text value. */
  datatype Cell = Empty | Text(value: string)

  /** Python truthiness of a cell value: present and not the empty string. */
  predicate Truthy(c: Cell)
  {
    c.Text? && c.value != ""
  }

  /** The rows iter_rows(min_row=2) visits: all but the first. */
  function DataRows(firstColumn: seq<Cell>): (r: seq<Cell>)
    ensures |firstColumn| > 0 ==> r == firstColumn[1..]
    ensures |firstColumn| == 0 ==> r == []
  {
    if |firstColumn| == 0 then [] else firstColumn[1..]
  }

  /** The values of the truthy cells, in order: the reference definition the loop is proved against. */
  function TruthyValues(cells: seq<Cell>): (r: seq<string>)
    ensures |r| <= |cells|
    ensures forall i :: 0 <= i < |r| ==> r[i] != ""
  {
    if cells == [] then []
    else
      var last := cells[|cells| - 1];
      TruthyValues(cells[..|cells| - 1]) + (if Truthy(last) then [last.value] else [])
  }

  /** Filtering distributes over concatenation, so the order of rows is kept. */
  lemma {:induction false} TruthyValuesConcat(a: seq<Cell>, b: seq<Cell>)
    ensures TruthyValues(a + b) == TruthyValues(a) + TruthyValues(b)
  {
    if b == [] {
      assert a + b == a;
    } else {
      var b' := b[..|b| - 1];
      assert (a + b)[..|a + b| - 1] == a + b';
      TruthyValuesConcat(a, b');
    }
  }

  /** A string is returned exactly when some cell holds it and it is not empty. */
  lemma {:induction false} TruthyValuesMembers(cells: seq<Cell>, s: string)
    ensures s in TruthyValues(cells) <==> s != "" && Text(s) in cells
  {
    if cells != [] {
      var init := cells[..|cells| - 1];
      TruthyValuesMembers(init, s);
      assert cells == init + [cells[|cells| - 1]];
    }
  }

  /** read_urls_from_excel, as the loop that appends each truthy first cell. */
  method ReadUrls(firstColumn: seq<Cell>) returns (paths: seq<string>)
    ensures paths == TruthyValues(DataRows(firstColumn))
    ensures forall i :: 0 <= i < |paths| ==> paths[i] != ""
    ensures |paths| <= |firstColumn| - 1 || firstColumn == []
    ensures forall s :: s in paths <==> s != "" && Text(s) in DataRows(firstColumn)
  {
    var rows := DataRows(firstColumn);
    paths := [];
    for i := 0 to |rows|
      invariant paths == TruthyValues(rows[..i])
    {
      assert rows[..i + 1][..i] == rows[..i];
      if Truthy(rows[i]) {
        paths := paths + [rows[i].value];
      }
    }
    assert rows[..|rows|] == rows;
    forall s ensures s in paths <==> s != "" && Text(s) in rows {
      TruthyValuesMembers(rows, s);
    }
  }
}
