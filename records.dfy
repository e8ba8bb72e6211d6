/** The per-item result rows the scripts write, the identifier cleaning most
    of them apply, the spreadsheet table they read identifiers from, and the
    batch loop that turns a list of identifiers into one row each. */
module Records {
  import opened Outcomes
  import opened Text
  import opened Cascade

  /** One output row.  The scripts name the columns 'Item Number',
      'Product Name', 'Case Qty' or 'Case Quantity', 'Unit Price', 'URL'
      (only some scripts) and 'Status'. */
  datatype Record = Record(item: string, name: string, caseQty: string, price: string,
                           url: Option<string>, status: string)

  /** The message an error row carries: its status after the "Error: "
      prefix, or nothing for a row whose status lacks that prefix. */
  function ErrorMessage(r: Record): Option<string> {
    if |r.status| >= 7 && r.status[..7] == "Error: " then Some(r.status[7..]) else None
  }

  /** The row written when scraping an item raised.  It keeps the item,
      fills every field with 'Error' (so it carries no price), is never
      counted as 'Found' but is counted by `'Error' in status`, and the
      exception message reads back from its status. */
  function ErrorRecord(item: string, message: string, withUrl: bool): (r: Record)
    ensures r.item == item && r.name == "Error" && r.caseQty == "Error" && r.price == "Error"
    ensures '$' !in r.price
    ensures r.url.Some? <==> withUrl
    ensures r.status != "Found" && Contains(r.status, "Error")
    ensures ErrorMessage(r) == Some(message)
  {
    assert OccursAt("Error: " + message, "Error", 0);
    assert ("Error: " + message)[..7] == "Error: ";
    assert ("Error: " + message)[7..] == message;
    Record(item, "Error", "Error", "Error", if withUrl then Some("Error") else None, "Error: " + message)
  }

  /** `str(item).strip().replace('Y', '').replace('#', '')`. */
  function CleanId(item: string): (r: string)
    ensures 'Y' !in r && '#' !in r
    ensures multiset(r) == multiset(Strip(item))['Y' := 0]['#' := 0]
  {
    var a := Remove(Strip(item), 'Y');
    var b := Remove(a, '#');
    assert multiset(a)['Y'] == 0;
    assert multiset(b)['Y'] == multiset(a)['Y'];
    assert 'Y' !in multiset(b) && '#' !in multiset(b);
    b
  }

  /** A CSV data row holds an identifier when its first cell is not blank. */
  predicate KeepsItem(row: seq<string>) {
    row != [] && Strip(row[0]) != []
  }

  /** The identifier a data row contributes: its stripped first cell. */
  function RowItem(row: seq<string>): (r: Option<string>)
    ensures r.Some? <==> KeepsItem(row)
    ensures r.Some? ==> r.value == Strip(row[0])
  {
    if KeepsItem(row) then Some(Strip(row[0])) else None
  }

  /** The identifiers of the data rows, stripped, in file order. */
  function FirstCells(rows: seq<seq<string>>): seq<string> {
    Collect(rows, RowItem)
  }

  /** `csv.reader` after `next(reader, None)`: the header row is skipped, then
      `row[0].strip()` is kept for every row whose first cell is not blank. */
  function CsvItems(rows: seq<seq<string>>): seq<string> {
    if rows == [] then [] else FirstCells(rows[1..])
  }

  /** Every non-blank row contributes its stripped first cell, every kept
      identifier is the stripped first cell of a non-blank row, and each is
      non-empty and already stripped. */
  lemma FirstCellsExactly(rows: seq<seq<string>>)
    ensures forall i :: 0 <= i < |rows| && KeepsItem(rows[i]) ==> Strip(rows[i][0]) in FirstCells(rows)
    ensures forall x :: x in FirstCells(rows) ==>
              exists i :: 0 <= i < |rows| && KeepsItem(rows[i]) && x == Strip(rows[i][0])
    ensures forall x :: x in FirstCells(rows) ==> x != [] && Strip(x) == x
  {
    CollectExactly(rows, RowItem);
    forall i | 0 <= i < |rows| && KeepsItem(rows[i]) ensures Strip(rows[i][0]) in FirstCells(rows) {
      assert RowItem(rows[i]).Some?;
    }
    forall x | x in FirstCells(rows)
      ensures (exists i :: 0 <= i < |rows| && KeepsItem(rows[i]) && x == Strip(rows[i][0]))
              && x != [] && Strip(x) == x
    {
      var i :| 0 <= i < |rows| && RowItem(rows[i]) == Some(x);
      StripIdempotent(rows[i][0]);
    }
  }

  /** The reader loop: skip the header, then append each non-blank first cell. */
  method ReadItems(rows: seq<seq<string>>) returns (items: seq<string>)
    ensures items == CsvItems(rows)
  {
    items := [];
    if rows == [] {
      return;
    }
    var i := 1;
    while i < |rows|
      invariant 1 <= i <= |rows|
      invariant items + FirstCells(rows[i..]) == FirstCells(rows[1..])
    {
      var head: seq<string> := match RowItem(rows[i]) case Some(v) => [v] case None => [];
      assert rows[i..][1..] == rows[i + 1..];
      assert FirstCells(rows[i..]) == head + FirstCells(rows[i + 1..]);
      assert (items + head) + FirstCells(rows[i + 1..]) == items + (head + FirstCells(rows[i + 1..]));
      items := items + head;
      i := i + 1;
    }
    assert rows[i..] == [];
  }

  /** A spreadsheet as pandas reads it: column names in file order and each
      column's cells as text, a missing cell being `None`. */
  datatype Table = Table(columns: seq<string>, cells: map<string, seq<Option<string>>>)

  /** `df[col]`, as the list of its cells. */
  function Column(t: Table, col: string): seq<Option<string>> {
    if col in t.cells then t.cells[col] else []
  }

  /** `df[col].astype(str).tolist()`: a missing cell reads as 'nan'. */
  function ColumnAsText(t: Table, col: string): (r: seq<string>)
    ensures |r| == |Column(t, col)|
    ensures forall i :: 0 <= i < |r| ==> r[i] == Column(t, col)[i].GetOr("nan")
  {
    var c := Column(t, col);
    seq(|c|, i requires 0 <= i < |c| => c[i].GetOr("nan"))
  }

  /** The batch loop: `results.append(scrape(item))` for every item, in order.
      A scrape that fails yields an error row of its own rather than ending
      the loop, so `f` is total. */
  method MapItems<X, Y>(xs: seq<X>, f: X -> Y) returns (ys: seq<Y>)
    ensures |ys| == |xs|
    ensures forall i :: 0 <= i < |xs| ==> ys[i] == f(xs[i])
  {
    ys := [];
    var i := 0;
    while i < |xs|
      invariant i <= |xs|
      invariant |ys| == i
      invariant forall k :: 0 <= k < i ==> ys[k] == f(xs[k])
    {
      ys := ys + [f(xs[i])];
      i := i + 1;
    }
  }
}
