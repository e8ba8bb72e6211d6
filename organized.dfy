/** The scraper with custom output folders: a filesystem-safe folder name,
    identifiers from a given list, a spreadsheet column or typed lines, the
    Material-UI login, and per item the `/item/` page's raw `h1`, price text
    and the token after `C/`. */
module Organized {
  import opened Outcomes
  import opened Text
  import opened Cascade
  import opened Dom
  import opened Records

  // ---------------------------------------------------------------------------
  // create_output_folder

  /** A character the folder name keeps: a letter or digit, a space, `-` or `_`. */
  predicate SafeChar(c: char) {
    IsAlnum(c) || c == ' ' || c == '-' || c == '_'
  }

  /** The safe characters of `s`, in order. */
  function KeepSafe(s: string): (r: string)
    ensures |r| <= |s|
    ensures forall k :: 0 <= k < |r| ==> SafeChar(r[k])
    ensures forall c :: c in r <==> c in s && SafeChar(c)
    ensures (forall k :: 0 <= k < |s| ==> SafeChar(s[k])) ==> r == s
  {
    if s == [] then []
    else
      var rest := KeepSafe(s[1..]);
      assert forall c :: c in s <==> c == s[0] || c in s[1..];
      if SafeChar(s[0]) then [s[0]] + rest else rest
  }

  /** The folder name: unsafe characters dropped, then trailing whitespace. */
  function SafeName(name: string): (r: string)
    ensures forall k :: 0 <= k < |r| ==> SafeChar(r[k])
    ensures r == [] || !IsSpace(r[|r| - 1])
    ensures forall c :: c in r ==> c in name
  {
    var kept := KeepSafe(name);
    var r := RStrip(kept);
    SafePrefix(kept, r);
    r
  }

  /** A prefix of safe text is safe and holds only characters of that text. */
  lemma SafePrefix(kept: string, r: string)
    requires |r| <= |kept| && r == kept[..|r|]
    requires forall k :: 0 <= k < |kept| ==> SafeChar(kept[k])
    ensures forall k :: 0 <= k < |r| ==> SafeChar(r[k])
    ensures forall c :: c in r ==> c in kept
  {
    assert forall k :: 0 <= k < |r| ==> r[k] == kept[k];
  }

  /** Sanitising a safe name leaves it as it is. */
  lemma SafeNameIdempotent(name: string)
    ensures SafeName(SafeName(name)) == SafeName(name)
  {
    var x := SafeName(name);
    assert KeepSafe(x) == x;
    if x != [] {
      assert !IsSpace(x[|x| - 1]);
    }
  }

  /** A name that is already safe and ends without whitespace is kept whole. */
  lemma SafeNameKeepsSafe(name: string)
    requires forall k :: 0 <= k < |name| ==> SafeChar(name[k])
    requires name == [] || !IsSpace(name[|name| - 1])
    ensures SafeName(name) == name
  {
    assert KeepSafe(name) == name;
  }

  /** The folder in use and the directories that exist once it is made. */
  datatype Folder = Folder(path: string, dirs: set<string>)

  /** `create_output_folder(folder_name)` as written, with `stamp` the local
      time as `%Y%m%d_%H%M%S` and `dirs` the paths that exist.  Only a missing
      name is replaced by `results_<stamp>`; a name that sanitises to the
      empty string reaches `os.makedirs('')`, which raises. */
  function CreateOutputFolder(name: Option<string>, stamp: string, dirs: set<string>): (r: Result<Folder>)
    ensures var safe := SafeName(name.GetOr("results_" + stamp));
            && (r.Failure? <==> safe == [])
            && (r.Success? ==> r.value == Folder(safe, dirs + {safe}))
  {
    var safe := SafeName(name.GetOr("results_" + stamp));
    if safe == [] then Failure("[Errno 2] No such file or directory: ''")
    else if safe in dirs then Success(Folder(safe, dirs))
    else Success(Folder(safe, dirs + {safe}))
  }

  /** The caller prompts "press Enter for auto-generated" and passes the
      stripped answer, so pressing Enter hands the function the empty string,
      not `None`: the folder creation raises instead of using a timestamp. */
  lemma EnterRaisesAsWritten(stamp: string, dirs: set<string>)
    ensures CreateOutputFolder(Some(Strip("")), stamp, dirs).Failure?
  {
    assert KeepSafe("") == "";
  }

  /** Every character of a timestamp `%Y%m%d_%H%M%S` is a digit or `_`. */
  predicate IsStamp(stamp: string) {
    forall k :: 0 <= k < |stamp| ==> IsDigit(stamp[k]) || stamp[k] == '_'
  }

  /** The auto-generated name, which sanitising leaves as it is. */
  function AutoName(stamp: string): (r: string)
    requires IsStamp(stamp)
    ensures r == "results_" + stamp
    ensures SafeName(r) == r && r != []
  {
    var r := "results_" + stamp;
    assert forall k :: 0 <= k < |r| ==> SafeChar(r[k]) by {
      forall k | 0 <= k < |r| ensures SafeChar(r[k]) {
        if k >= 8 {
          assert r[k] == stamp[k - 8];
        }
      }
    }
    assert r[|r| - 1] == if stamp == [] then '_' else stamp[|stamp| - 1];
    SafeNameKeepsSafe(r);
    r
  }

  /** The folder creation as the prompt promises it: a name that is missing
      or sanitises to nothing means the auto-generated one.  It never
      raises, the folder it uses is a non-empty safe name that exists
      afterwards, and a name with anything safe in it is used sanitised. */
  function CreateOutputFolderFixed(name: Option<string>, stamp: string, dirs: set<string>): (r: Folder)
    requires IsStamp(stamp)
    ensures r.path != [] && r.path in r.dirs && r.dirs == dirs + {r.path}
    ensures SafeName(r.path) == r.path
    ensures name.Some? && SafeName(name.value) != [] ==> r.path == SafeName(name.value)
    ensures (name.None? || SafeName(name.value) == []) ==> r.path == "results_" + stamp
  {
    var requested := if name.Some? then SafeName(name.value) else [];
    if requested != [] then
      SafeNameIdempotent(name.value);
      Folder(requested, dirs + {requested})
    else
      var auto := AutoName(stamp);
      Folder(auto, dirs + {auto})
  }

  /** Wherever the as-written function succeeds, the corrected one uses the
      same folder; the two differ only where the original raises. */
  lemma FixedAgreesWhereWrittenSucceeds(name: Option<string>, stamp: string, dirs: set<string>)
    requires IsStamp(stamp)
    ensures CreateOutputFolder(name, stamp, dirs).Success? ==>
              CreateOutputFolder(name, stamp, dirs).value == CreateOutputFolderFixed(name, stamp, dirs)
  {
    if name.None? {
      var a := AutoName(stamp);
    }
  }

  // ---------------------------------------------------------------------------
  // login_to_pacific_giftware

  /** `login_to_pacific_giftware(driver)`: `True` exactly when the login page
      loads and the email field, password field and button resolve; nothing
      is checked after the click. */
  function Login(s: Session): (r: bool)
    ensures r <==> MuiFormResolves(s)
  {
    match Navigate(s, LoginUrl)
    case Failure(_) => false
    case Success(p) =>
      match FindElement(p, MuiEmail)
      case Failure(_) => false
      case Success(_) =>
        match FindElement(p, MuiPassword)
        case Failure(_) => false
        case Success(_) => FindElement(p, LoginButton).Success?
  }

  // ---------------------------------------------------------------------------
  // scrape_item_data

  const NameNotFound := "Name not found"
  const PriceNotFound := "Price not found"
  const CaseNotFound := "Case info not found"

  const PriceElement := Locator(Css, "span.price, .price-display, [data-testid='price']")
  const CaseSpan := Locator(XPath, "//span[contains(text(), 'C/')]")

  /** `text.split('C/')[1].split()[0]`, or `None` where either index raises. */
  function CaseToken(t: string): (r: Option<string>)
    ensures r.Some? ==> Contains(t, "C/")
  {
    match SecondPart(t, "C/")
    case None => None
    case Some(part) => FirstToken(part)
  }

  /** `s.split()[0]` is the first run of non-whitespace in `s`: only
      whitespace comes before it, and whitespace or the end after it. */
  lemma FirstTokenAt(s: string, tok: string) returns (a: nat)
    requires FirstToken(s) == Some(tok)
    ensures OccursAt(s, tok, a)
    ensures forall j :: 0 <= j < a ==> IsSpace(s[j])
    ensures a + |tok| == |s| || IsSpace(s[a + |tok|])
  {
    var low := LStrip(s);
    a := |s| - |low|;
    PrefixOfSuffix(s, low, a, WordEnd(low, 0));
  }

  /** A prefix of the suffix of `s` from `a` occurs in `s` at `a`. */
  lemma PrefixOfSuffix(s: string, low: string, a: nat, e: nat)
    requires a <= |s| && low == s[a..] && e <= |low|
    ensures OccursAt(s, low[..e], a)
    ensures e < |low| ==> s[a + e] == low[e]
  {
    assert s[a..a + e] == low[..e];
  }

  /** A token found in a prefix `part` of `rest`, with only whitespace
      before it and whitespace or the prefix's end after it, sits in `rest`
      the same way. */
  lemma PrefixCarries(rest: string, part: string, tok: string, a: nat)
    requires |part| <= |rest| && part == rest[..|part|]
    requires OccursAt(part, tok, a)
    requires forall j :: 0 <= j < a ==> IsSpace(part[j])
    requires a + |tok| == |part| || IsSpace(part[a + |tok|])
    ensures OccursAt(rest, tok, a) && (forall j :: 0 <= j < a ==> IsSpace(rest[j]))
    ensures a + |tok| == |part| || IsSpace(rest[a + |tok|])
  {
    assert rest[a..a + |tok|] == part[a..a + |tok|];
    forall j | 0 <= j < a ensures IsSpace(rest[j]) {
      assert rest[j] == part[j];
    }
    if a + |tok| < |part| {
      assert rest[a + |tok|] == part[a + |tok|];
    }
  }

  /** `tok` sits in `rest` at `a` with only whitespace before it, and is
      ended by whitespace, the end of `rest` or a `sep`. */
  predicate TokenSitsAt(rest: string, tok: string, a: nat, sep: string) {
    && OccursAt(rest, tok, a)
    && (forall j :: 0 <= j < a ==> IsSpace(rest[j]))
    && (a + |tok| == |rest| || IsSpace(rest[a + |tok|]) || OccursAt(rest, sep, a + |tok|))
  }

  /** A first token of the text before the first `sep` of `rest` sits in
      `rest` at the same place, ended there by whitespace, the end or `sep`. */
  lemma TokenBeforeSeparator(rest: string, sep: string, part: string, tok: string) returns (a: nat)
    requires part == BeforeFirst(rest, sep)
    requires FirstToken(part) == Some(tok)
    ensures TokenSitsAt(rest, tok, a, sep)
  {
    a := FirstTokenAt(part, tok);
    PrefixCarries(rest, part, tok, a);
  }

  /** The token is the first run of non-whitespace after the first `C/`,
      reached over whitespace only, and ended by whitespace, the text's end
      or the next `C/`; there is none when `C/` is missing or only whitespace
      follows it before the next `C/`. */
  lemma CaseTokenRule(t: string)
    ensures CaseToken(t).Some? ==>
              var rest := AfterFirst(t, "C/").value;
              var tok := CaseToken(t).value;
              && tok != [] && (forall k :: 0 <= k < |tok| ==> !IsSpace(tok[k]))
              && !Contains(tok, "C/")
              && exists a :: TokenSitsAt(rest, tok, a, "C/")
    ensures CaseToken(t).None? <==>
              !Contains(t, "C/") || forall k :: 0 <= k < |BeforeFirst(AfterFirst(t, "C/").value, "C/")| ==>
                                      IsSpace(BeforeFirst(AfterFirst(t, "C/").value, "C/")[k])
  {
    if Contains(t, "C/") {
      var rest := AfterFirst(t, "C/").value;
      var part := BeforeFirst(rest, "C/");
      CaseTokenOfPart(t, rest, part);
      if CaseToken(t).Some? {
        var tok := CaseToken(t).value;
        var a := TokenBeforeSeparator(rest, "C/", part, tok);
        var b := FirstTokenAt(part, tok);
        ContainsInSlice(part, b, tok, "C/");
      }
    }
  }

  /** Past a `C/`, the token is the first token of the part before its
      next `C/`. */
  lemma CaseTokenOfPart(t: string, rest: string, part: string)
    requires AfterFirst(t, "C/") == Some(rest)
    requires part == BeforeFirst(rest, "C/")
    ensures CaseToken(t) == FirstToken(part)
  {
  }

  /** The row for a page that loaded: the `h1` text as it is, the price
      element's text as it is, the case token; always 'Found'. */
  function PageRecord(p: Page, item: string): Record {
    var name := match FindElement(p, H1) case Success(t) => t case Failure(_) => NameNotFound;
    var price := match FindElement(p, PriceElement) case Success(t) => t case Failure(_) => PriceNotFound;
    var caseQty := match FindElement(p, CaseSpan)
                   case Success(t) => CaseToken(t).GetOr(CaseNotFound)
                   case Failure(_) => CaseNotFound;
    Record(item, name, caseQty, price, None, "Found")
  }

  /** The URL scraped: the `/item/` path of the cleaned identifier. */
  function ItemPage(item: string): (r: string)
    ensures r == ItemUrl(CleanId(item))
  {
    ItemUrl(CleanId(item))
  }

  /** `scrape_item_data(driver, item_number)`: the row keeps the identifier
      as given; a page that fails to load gives the error row. */
  function Scrape(s: Session, item: string): (r: Record)
    ensures r.item == item && r.url.None?
    ensures Navigate(s, ItemPage(item)).Failure? ==> r == ErrorRecord(item, Navigate(s, ItemPage(item)).error, false)
    ensures Navigate(s, ItemPage(item)).Success? ==> r == PageRecord(Navigate(s, ItemPage(item)).value, item)
  {
    match Navigate(s, ItemPage(item))
    case Failure(e) => ErrorRecord(item, e, false)
    case Success(p) => PageRecord(p, item)
  }

  /** For a page that loaded: the name is the first `h1`'s text unstripped,
      the price the first price element's text unstripped, each else its
      default; the case quantity is a non-empty whitespace-free token found
      after `C/` in the first span holding `C/`, else the default; the status
      is 'Found'. */
  lemma PageRecordRule(p: Page, item: string)
    ensures var r := PageRecord(p, item);
            && (Present(p, H1) ==> r.name == FindElement(p, H1).value)
            && (!Present(p, H1) ==> r.name == NameNotFound)
            && (Present(p, PriceElement) ==> r.price == FindElement(p, PriceElement).value)
            && (!Present(p, PriceElement) ==> r.price == PriceNotFound)
            && (r.caseQty != CaseNotFound ==>
                  Present(p, CaseSpan) && r.caseQty == CaseToken(FindElement(p, CaseSpan).value).value
                  && Contains(FindElement(p, CaseSpan).value, "C/")
                  && forall k :: 0 <= k < |r.caseQty| ==> !IsSpace(r.caseQty[k]))
            && (Present(p, CaseSpan) && CaseToken(FindElement(p, CaseSpan).value).Some? ==>
                  r.caseQty == CaseToken(FindElement(p, CaseSpan).value).value)
            && (!Present(p, CaseSpan) ==> r.caseQty == CaseNotFound)
            && r.status == "Found"
  {
    if Present(p, CaseSpan) {
      CaseTokenRule(FindElement(p, CaseSpan).value);
    }
  }

  /** The scrape as the source runs it: three `try` blocks in a row. */
  method ScrapeItemData(s: Session, item: string) returns (r: Record)
    ensures r == Scrape(s, item)
  {
    var url := ItemUrl(CleanId(item));
    var loaded := Navigate(s, url);
    if loaded.Failure? {
      return ErrorRecord(item, loaded.error, false);
    }
    var p := loaded.value;
    var name := NameNotFound;
    var h1 := FindElement(p, H1);
    if h1.Success? {
      name := h1.value;
    }
    var price := PriceNotFound;
    var priceElement := FindElement(p, PriceElement);
    if priceElement.Success? {
      price := priceElement.value;
    }
    var caseQty := CaseNotFound;
    var caseElement := FindElement(p, CaseSpan);
    if caseElement.Success? {
      var token := CaseToken(caseElement.value);
      if token.Some? {
        caseQty := token.value;
      }
    }
    return Record(item, name, caseQty, price, None, "Found");
  }

  // ---------------------------------------------------------------------------
  // scrape_with_custom_folder

  /** The identifier column names tried, in priority order. */
  const Aliases := ["Item Number", "Item", "Item#", "SKU", "Product Code"]

  /** An alias as a cascade rule over the table's column names. */
  function NamedIn(columns: seq<string>): string -> Option<string> {
    a => if a in columns then Some(a) else None
  }

  /** The first alias, in priority order, that is exactly a column name. */
  function ItemColumn(columns: seq<string>): Option<string> {
    FirstMatch(Aliases, NamedIn(columns))
  }

  /** The column used is the earliest alias that is a column name, matched
      exactly; there is none exactly when no alias is a column name. */
  lemma ItemColumnRule(columns: seq<string>)
    ensures ItemColumn(columns).None? <==> forall i :: 0 <= i < |Aliases| ==> Aliases[i] !in columns
    ensures ItemColumn(columns).Some? ==>
              exists i :: 0 <= i < |Aliases| && ItemColumn(columns) == Some(Aliases[i]) && Aliases[i] in columns
                          && forall j :: 0 <= j < i ==> Aliases[j] !in columns
  {
    FirstMatchIsWinner(Aliases, NamedIn(columns));
    if ItemColumn(columns).None? {
      forall i | 0 <= i < |Aliases| ensures Aliases[i] !in columns {
        assert NamedIn(columns)(Aliases[i]).None?;
      }
    } else {
      var w := Winner(Aliases, NamedIn(columns)).value;
      assert NamedIn(columns)(Aliases[w]) == ItemColumn(columns);
      forall j | 0 <= j < w ensures Aliases[j] !in columns {
        assert NamedIn(columns)(Aliases[j]).None?;
      }
    }
  }

  /** The loop over the aliases. */
  method PickItemColumn(columns: seq<string>) returns (r: Option<string>)
    ensures r == ItemColumn(columns)
  {
    r := None;
    var i := 0;
    while i < |Aliases|
      invariant i <= |Aliases|
      invariant forall j :: 0 <= j < i ==> NamedIn(columns)(Aliases[j]).None?
    {
      if Aliases[i] in columns {
        FirstMatchSkip(Aliases, NamedIn(columns), i);
        return Some(Aliases[i]);
      }
      i := i + 1;
    }
    FirstMatchIsWinner(Aliases, NamedIn(columns));
  }

  /** The typed identifiers: each answer stripped, up to the first blank one
      (or the last answer). */
  function TypedItems(lines: seq<string>): (r: seq<string>)
    ensures |r| <= |lines|
  {
    if lines == [] || Strip(lines[0]) == [] then []
    else [Strip(lines[0])] + TypedItems(lines[1..])
  }

  /** Each identifier is a stripped answer, non-empty, in answer order;
      they stop at the first blank answer or at the last answer. */
  lemma {:induction false} TypedItemsRule(lines: seq<string>)
    ensures var r := TypedItems(lines);
            && (forall k :: 0 <= k < |r| ==> r[k] == Strip(lines[k]) && r[k] != [])
            && (|r| < |lines| ==> Strip(lines[|r|]) == [])
  {
    if lines != [] && Strip(lines[0]) != [] {
      TypedItemsRule(lines[1..]);
      var r := TypedItems(lines);
      var tail := TypedItems(lines[1..]);
      assert r == [Strip(lines[0])] + tail;
      forall k | 0 < k < |r| ensures r[k] == Strip(lines[k]) {
        assert r[k] == tail[k - 1];
        assert lines[1..][k - 1] == lines[k];
      }
      if |r| < |lines| {
        assert lines[1..][|tail|] == lines[|r|];
      }
    }
  }

  /** The prompt loop: `item = input().strip(); if not item: break`. */
  method ReadTypedItems(lines: seq<string>) returns (items: seq<string>)
    ensures items == TypedItems(lines)
  {
    items := [];
    var i := 0;
    while i < |lines| && Strip(lines[i]) != []
      invariant i <= |lines|
      invariant items + TypedItems(lines[i..]) == TypedItems(lines)
    {
      var x := Strip(lines[i]);
      var tail := TypedItems(lines[i + 1..]);
      assert lines[i..][1..] == lines[i + 1..];
      assert TypedItems(lines[i..]) == [x] + tail;
      assert (items + [x]) + tail == items + ([x] + tail);
      items := items + [x];
      i := i + 1;
    }
    assert TypedItems(lines[i..]) == [];
    assert items + [] == items;
  }

  /** Where the identifiers come from: a list passed in, a spreadsheet that
      exists, or, when there is neither, the answers typed at the prompt. */
  datatype ItemSource = Given(items: seq<string>) | FromTable(table: Table) | Typed(lines: seq<string>)

  /** The identifiers to scrape, or `None` when the spreadsheet has no
      identifier column. */
  function ItemNumbers(src: ItemSource): Option<seq<string>> {
    match src
    case Given(items) => Some(items)
    case FromTable(t) =>
      (match ItemColumn(t.columns)
       case None => None
       case Some(c) => Some(ColumnAsText(t, c)))
    case Typed(lines) => Some(TypedItems(lines))
  }

  /** The identifiers as the source gathers them: the argument, the column
      loop then the column's values, or the prompt loop. */
  method GatherItems(src: ItemSource) returns (items: Option<seq<string>>)
    ensures items == ItemNumbers(src)
  {
    match src {
      case Given(given) =>
        items := Some(given);
      case FromTable(t) =>
        var col := PickItemColumn(t.columns);
        if col.None? {
          return None;
        }
        items := Some(ColumnAsText(t, col.value));
      case Typed(lines) =>
        var typed := ReadTypedItems(lines);
        items := Some(typed);
    }
  }

  /** How a run ends. */
  datatype Outcome = FolderFailed | NoColumn | NoItems | LoginFailed | Done(results: seq<Record>)

  /** `scrape_with_custom_folder`: the folder comes first (the argument, else
      the stripped answer to the prompt) and is made by `create_output_folder`
      as written, whose raise ends the run before anything else; then the
      identifiers; a missing column, an empty list or a failed login each
      stop the run before any item is scraped; otherwise there is one row per
      identifier, in order. */
  method ScrapeWithCustomFolder(s: Session, outputFolder: Option<string>, answer: string, stamp: string,
                                dirs: set<string>, src: ItemSource) returns (folder: Result<Folder>, outcome: Outcome)
    ensures folder == CreateOutputFolder(Some(outputFolder.GetOr(Strip(answer))), stamp, dirs)
    ensures outcome == FolderFailed <==> SafeName(outputFolder.GetOr(Strip(answer))) == []
    ensures outcome == NoColumn <==> folder.Success? && ItemNumbers(src).None?
    ensures outcome == NoItems <==> folder.Success? && ItemNumbers(src) == Some([])
    ensures outcome == LoginFailed <==>
              folder.Success? && ItemNumbers(src).Some? && ItemNumbers(src).value != [] && !Login(s)
    ensures outcome.Done? ==> folder.Success? && ItemNumbers(src).Some? && ItemNumbers(src).value != [] && Login(s)
    ensures outcome.Done? ==> |outcome.results| == |ItemNumbers(src).value|
                              && forall i :: 0 <= i < |outcome.results| ==>
                                   outcome.results[i] == Scrape(s, ItemNumbers(src).value[i])
  {
    var requested := if outputFolder.Some? then outputFolder.value else Strip(answer);
    folder := CreateOutputFolder(Some(requested), stamp, dirs);
    if folder.Failure? {
      return folder, FolderFailed;
    }
    var found := GatherItems(src);
    if found.None? {
      return folder, NoColumn;
    }
    var items := found.value;
    if items == [] {
      return folder, NoItems;
    }
    if !Login(s) {
      return folder, LoginFailed;
    }
    var results := MapItems(items, item => Scrape(s, item));
    return folder, Done(results);
  }
}
