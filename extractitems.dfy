/** The spreadsheet extractor: pick the identifier column by keyword, take
    each filled cell's first run of digits (or the whole cell when it has
    none), and keep each identifier once. */
module ExtractItems {
  import opened Outcomes
  import opened Text
  import opened Cascade
  import opened Records

  // ---------------------------------------------------------------------------
  // The column

  const Keywords := ["item", "product", "number", "code", "id"]

  /** A column name that holds one of the keywords once lower-cased. */
  predicate IsItemColumn(col: string) {
    exists k :: 0 <= k < |Keywords| && Contains(Lower(col), Keywords[k])
  }

  /** A column name as a rule: itself when it holds a keyword. */
  function KeywordColumn(col: string): Option<string> {
    if IsItemColumn(col) then Some(col) else None
  }

  /** `item_columns`: the keyword columns in table order. */
  function ItemColumns(columns: seq<string>): seq<string> {
    Collect(columns, KeywordColumn)
  }

  /** The column read: the first keyword column, else the first column; a
      table without columns has none (`df.columns[0]` raises). */
  function ChosenColumn(columns: seq<string>): Option<string> {
    var found := ItemColumns(columns);
    if found != [] then Some(found[0])
    else if columns != [] then Some(columns[0])
    else None
  }

  /** The column read is the earliest column holding a keyword; when none
      does, it is the first column; there is none only for a table without
      columns. */
  lemma ChosenColumnRule(columns: seq<string>)
    ensures ChosenColumn(columns).None? <==> columns == []
    ensures (exists i :: 0 <= i < |columns| && IsItemColumn(columns[i])) ==>
              exists i :: 0 <= i < |columns| && ChosenColumn(columns) == Some(columns[i]) && IsItemColumn(columns[i])
                          && forall j :: 0 <= j < i ==> !IsItemColumn(columns[j])
    ensures (forall i :: 0 <= i < |columns| ==> !IsItemColumn(columns[i])) && columns != [] ==>
              ChosenColumn(columns) == Some(columns[0])
  {
    CollectHead(columns, KeywordColumn);
    FirstMatchIsWinner(columns, KeywordColumn);
    if FirstMatch(columns, KeywordColumn).None? {
      forall i | 0 <= i < |columns| ensures !IsItemColumn(columns[i]) {
        assert KeywordColumn(columns[i]).None?;
      }
    } else {
      var w := Winner(columns, KeywordColumn).value;
      assert KeywordColumn(columns[w]) == FirstMatch(columns, KeywordColumn);
      forall j | 0 <= j < w ensures !IsItemColumn(columns[j]) {
        assert KeywordColumn(columns[j]).None?;
      }
    }
  }

  // ---------------------------------------------------------------------------
  // The values

  /** One cell: a missing one is dropped (`dropna`); the stripped text is
      skipped when empty or 'nan'; otherwise its first run of digits, or the
      text itself when it has no digit. */
  function CellItem(cell: Option<string>): (r: Option<string>)
    ensures r.Some? ==> r.value != []
    ensures r.Some? ==> cell.Some? && Strip(cell.value) != [] && Strip(cell.value) != "nan"
    ensures cell.Some? && Strip(cell.value) != [] && Strip(cell.value) != "nan" ==> r.Some?
    ensures r.Some? ==>
              (if HasDigit(Strip(cell.value)) then exists i :: IsFirstRun(Strip(cell.value), i, r.value)
               else r.value == Strip(cell.value))
  {
    match cell
    case None => None
    case Some(v) =>
      var t := Strip(v);
      if t == [] || t == "nan" then None
      else
        match FirstDigitRun(t)
        case Some(g) => Some(g)
        case None => Some(t)
  }

  /** `items` before de-duplication: one entry per usable cell, in order. */
  function Extracted(t: Table, col: string): seq<string> {
    Collect(Column(t, col), CellItem)
  }

  /** `[item for item in items if item and len(str(item)) > 0]`. */
  function Filled(xs: seq<string>): (r: seq<string>)
    ensures forall k :: 0 <= k < |r| ==> r[k] != []
    ensures forall x :: x in r <==> x in xs && x != []
  {
    if xs == [] then []
    else
      var rest := Filled(xs[1..]);
      assert forall x :: x in xs <==> x == xs[0] || x in xs[1..];
      if xs[0] != [] then [xs[0]] + rest else rest
  }

  /** Every extracted value is non-empty, so the filter drops nothing. */
  lemma FilledKeepsExtracted(t: Table, col: string)
    ensures Filled(Extracted(t, col)) == Extracted(t, col)
  {
    var xs := Extracted(t, col);
    CollectExactly(Column(t, col), CellItem);
    FilledKeepsNonEmpty(xs);
  }

  lemma {:induction false} FilledKeepsNonEmpty(xs: seq<string>)
    requires forall x :: x in xs ==> x != []
    ensures Filled(xs) == xs
    decreases |xs|
  {
    if xs != [] {
      assert xs[0] in xs;
      assert forall x :: x in xs[1..] ==> x in xs;
      FilledKeepsNonEmpty(xs[1..]);
    }
  }

  /** Each value once, at its first occurrence, skipping those in `seen`. */
  function UniqueFrom(xs: seq<string>, seen: set<string>): (r: seq<string>)
    decreases |xs|
    ensures forall i, j :: 0 <= i < j < |r| ==> r[i] != r[j]
    ensures forall x :: x in r <==> x in xs && x !in seen
  {
    if xs == [] then []
    else if xs[0] in seen then
      assert forall x :: x in xs <==> x == xs[0] || x in xs[1..];
      UniqueFrom(xs[1..], seen)
    else
      var rest := UniqueFrom(xs[1..], seen + {xs[0]});
      assert forall x :: x in xs <==> x == xs[0] || x in xs[1..];
      [xs[0]] + rest
  }

  /** `list(set(items))`. */
  function Unique(xs: seq<string>): (r: seq<string>)
    ensures forall i, j :: 0 <= i < j < |r| ==> r[i] != r[j]
    ensures forall x :: x in r <==> x in xs
  {
    UniqueFrom(xs, {})
  }

  /** `extract_items_from_excel()` with `table` the spreadsheet, `None` when
      the file is missing or cannot be read (which gives `None`). */
  function ExtractItemsFromExcel(table: Option<Table>): Option<seq<string>> {
    match table
    case None => None
    case Some(t) =>
      match ChosenColumn(t.columns)
      case None => Some([])
      case Some(col) => Some(Unique(Filled(Extracted(t, col))))
  }

  /** The identifiers of a readable spreadsheet: none repeated, none empty,
      and as a set exactly the values extracted from the chosen column's
      usable cells; each is a cell's first run of digits, or a whole
      digit-free cell. */
  lemma ExtractRule(t: Table)
    ensures ExtractItemsFromExcel(Some(t)).Some?
    ensures var items := ExtractItemsFromExcel(Some(t)).value;
            && (forall i, j :: 0 <= i < j < |items| ==> items[i] != items[j])
            && (forall x :: x in items ==> x != [])
            && (t.columns == [] ==> items == [])
            && (ChosenColumn(t.columns).Some? ==>
                  var col := ChosenColumn(t.columns).value;
                  && (forall x :: x in items <==> x in Extracted(t, col))
                  && forall x :: x in items ==>
                       exists i :: 0 <= i < |Column(t, col)| && CellItem(Column(t, col)[i]) == Some(x))
  {
    ChosenColumnRule(t.columns);
    if ChosenColumn(t.columns).Some? {
      var col := ChosenColumn(t.columns).value;
      FilledKeepsExtracted(t, col);
      CollectExactly(Column(t, col), CellItem);
    }
  }

  // ---------------------------------------------------------------------------
  // The loops

  /** The de-duplication as a loop with a set of values already kept. */
  method UniqueLoop(xs: seq<string>) returns (r: seq<string>)
    ensures r == Unique(xs)
  {
    r := [];
    var seen: set<string> := {};
    var i := 0;
    while i < |xs|
      invariant i <= |xs|
      invariant r + UniqueFrom(xs[i..], seen) == Unique(xs)
    {
      var rest := xs[i..];
      assert rest[1..] == xs[i + 1..];
      if xs[i] !in seen {
        var tail := UniqueFrom(xs[i + 1..], seen + {xs[i]});
        assert UniqueFrom(rest, seen) == [xs[i]] + tail;
        assert (r + [xs[i]]) + tail == r + ([xs[i]] + tail);
        r := r + [xs[i]];
        seen := seen + {xs[i]};
      }
      i := i + 1;
    }
    assert r + [] == r;
  }

  /** The extractor as the source runs it: the column loop, the value loop,
      the filter, the de-duplication. */
  method ExtractItemsLoop(table: Option<Table>) returns (r: Option<seq<string>>)
    ensures r == ExtractItemsFromExcel(table)
  {
    if table.None? {
      return None;
    }
    var t := table.value;
    var itemColumns := CollectLoop(t.columns, KeywordColumn);
    var col: string;
    if itemColumns != [] {
      col := itemColumns[0];
    } else if t.columns != [] {
      col := t.columns[0];
    } else {
      return Some([]);
    }
    var items := CollectLoop(Column(t, col), CellItem);
    FilledKeepsExtracted(t, col);
    var unique := UniqueLoop(items);
    return Some(unique);
  }
}
