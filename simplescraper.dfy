/** The plain-HTTP fallback scraper: the `/product/` page of each identifier
    read from a CSV file, its title by a selector cascade, its case pack by
    selectors overridden by a `CASE PACK` search of the page text, and no
    price, which needs a login. */
module SimpleScraper {
  import opened Outcomes
  import opened Text
  import opened Patterns
  import opened Cascade
  import opened Dom
  import opened Records

  const NotFound := "Not found"
  const LoginRequired := "Login required"
  const Scraped := "Scraped (Basic)"
  const NoProduct := "Not Found"

  const TitleCss := ["h1", ".product-title", "[data-testid=\"product-title\"]", ".pdp-product-name"]

  /** `tag:contains("text")`, the jQuery-only text selector. */
  function TextSelector(tag: string, text: string): string {
    tag + ":contains(" + "\"" + text + "\")"
  }

  /** The last four are text selectors, which the loop skips. */
  const CaseCss := [".case-pack", ".case-quantity", "[data-testid=\"case-pack\"]",
                    TextSelector("span", "CASE PACK"), TextSelector("div", "CASE PACK"),
                    TextSelector("span", "case pack"), TextSelector("div", "case pack")]

  /** `CASE PACK[:\s]*(\d+)` under `re.IGNORECASE`. */
  const CasePack := Pattern([Lit("CASE PACK"), Repeat(ColonOrSpace, false)], Number, "", true)

  // ---------------------------------------------------------------------------
  // scrape_product_basic

  /** A case selector as a rule: skipped when it holds `:contains(`;
      otherwise its first element's stripped text, even when blank. */
  function CaseElementIn(p: Page): Locator -> Option<string> {
    (l: Locator) => if Contains(l.value, ":contains(") then None
         else match FindElement(p, l)
              case Success(t) => Some(Strip(t))
              case Failure(_) => None
  }

  /** The title: the first selector whose element has non-blank text. */
  function ProductName(p: Page): string {
    FirstMatch(With(Css, TitleCss), NonBlankIn(p)).GetOr(NotFound)
  }

  /** The case quantity: the digits after the first `CASE PACK` in the page
      text in any letter case; else the first case element's text; else the
      default. */
  function CaseQuantity(p: Page): string {
    match Search(p.text, CasePack)
    case Some(g) => g
    case None => FirstMatch(With(Css, CaseCss), CaseElementIn(p)).GetOr(NotFound)
  }

  /** The row for a page that loaded. */
  function PageRecord(p: Page, item: string): Record {
    var name := ProductName(p);
    Record(item, name, CaseQuantity(p), LoginRequired, None, if name != NotFound then Scraped else NoProduct)
  }

  /** The row for a request that failed: it keeps the item, carries no
      price, is counted among the errors of the summary, and the request's
      error message reads back from the end of its status. */
  function NetworkErrorRecord(item: string, e: string): (r: Record)
    ensures r.item == item && r.name == "Error" && r.caseQty == "Error" && r.price == "Error"
    ensures '$' !in r.price
    ensures IsError(r)
    ensures |r.status| >= |e| && r.status[|r.status| - |e|..] == e
  {
    NetworkErrorIsError(e);
    var st := "Network Error: " + e;
    assert st[|st| - |e|..] == e;
    Record(item, "Error", "Error", "Error", None, "Network Error: " + e)
  }

  /** `scrape_product_basic(item_number)`: the `/product/` page of the
      identifier as given. */
  function Scrape(s: Session, item: string): (r: Record)
    ensures r.item == item
    ensures Navigate(s, ProductUrl(item)).Failure? ==> r == NetworkErrorRecord(item, Navigate(s, ProductUrl(item)).error)
    ensures Navigate(s, ProductUrl(item)).Success? ==> r == PageRecord(Navigate(s, ProductUrl(item)).value, item)
  {
    match Navigate(s, ProductUrl(item))
    case Failure(e) => NetworkErrorRecord(item, e)
    case Success(p) => PageRecord(p, item)
  }

  /** A text holds `sub` only if it holds the first character of `sub`. */
  lemma HeadOccurs(s: string, sub: string)
    requires sub != []
    ensures Contains(s, sub) ==> sub[0] in s
  {
    if Contains(s, sub) {
      var i :| OccursAt(s, sub, i);
      assert s[i] == s[i..i + |sub|][0];
    }
  }

  /** The first three case selectors hold no colon; the other four hold
      `:contains(`. */
  lemma CaseSelector(k: nat)
    requires k < |CaseCss|
    ensures k < 3 <==> !Contains(CaseCss[k], ":contains(")
  {
    var sel := CaseCss[k];
    if k < 3 {
      HeadOccurs(sel, ":contains(");
      assert ':' !in sel;
    } else if k == 3 {
      TextSelectorSkipped("span", "CASE PACK");
    } else if k == 4 {
      TextSelectorSkipped("div", "CASE PACK");
    } else if k == 5 {
      TextSelectorSkipped("span", "case pack");
    } else {
      TextSelectorSkipped("div", "case pack");
    }
  }

  lemma TextSelectorSkipped(tag: string, text: string)
    ensures Contains(TextSelector(tag, text), ":contains(")
  {
    var sel := TextSelector(tag, text);
    assert sel == tag + (":contains(" + ("\"" + text + "\")"));
    assert sel[|tag|..|tag| + 10] == ":contains(";
    assert OccursAt(sel, ":contains(", |tag|);
  }

  /** Only the first three case selectors can decide: the other four are
      skipped. */
  lemma CaseSelectorsSkipped(p: Page)
    ensures FirstMatch(With(Css, CaseCss), CaseElementIn(p)) == FirstMatch(With(Css, CaseCss[..3]), CaseElementIn(p))
  {
    var head := With(Css, CaseCss[..3]);
    var tail := With(Css, CaseCss[3..]);
    assert With(Css, CaseCss) == head + tail;
    forall j | 0 <= j < |tail| ensures CaseElementIn(p)(tail[j]).None? {
      CaseSelector(j + 3);
    }
    FirstMatchIsWinner(tail, CaseElementIn(p));
    FirstMatchAppend(head, tail, CaseElementIn(p));
  }

  /** The page-text search overrides every selector; without it the case
      quantity is the stripped text of the first of the three usable case
      selectors that resolves, blank or not, with every earlier one absent. */
  lemma CaseQuantityRule(p: Page)
    ensures Search(p.text, CasePack).Some? ==>
              CaseQuantity(p) == Search(p.text, CasePack).value && CaseQuantity(p) != [] && AllDigits(CaseQuantity(p))
    ensures Search(p.text, CasePack).None? && (forall i :: 0 <= i < 3 ==> !Present(p, Locator(Css, CaseCss[i]))) ==>
              CaseQuantity(p) == NotFound
    ensures Search(p.text, CasePack).None? && (exists i :: 0 <= i < 3 && Present(p, Locator(Css, CaseCss[i]))) ==>
              exists i :: 0 <= i < 3 && Present(p, Locator(Css, CaseCss[i]))
                          && CaseQuantity(p) == Strip(FindElement(p, Locator(Css, CaseCss[i])).value)
                          && forall j :: 0 <= j < i ==> !Present(p, Locator(Css, CaseCss[j]))
  {
    CaseSelectorsSkipped(p);
    var head := With(Css, CaseCss[..3]);
    FirstMatchIsWinner(head, CaseElementIn(p));
    forall i | 0 <= i < 3
      ensures CaseElementIn(p)(head[i]).Some? <==> Present(p, Locator(Css, CaseCss[i]))
    {
      assert head[i] == Locator(Css, CaseCss[i]);
      CaseSelector(i);
    }
    if FirstMatch(head, CaseElementIn(p)).Some? {
      var w := Winner(head, CaseElementIn(p)).value;
      assert head[w] == Locator(Css, CaseCss[w]);
      forall j | 0 <= j < w ensures !Present(p, Locator(Css, CaseCss[j])) {
        assert CaseElementIn(p)(head[j]).None?;
      }
    }
  }

  /** The name is the earliest title selector's non-blank text, stripped, or
      the default; the price always asks for a login; the status is
      'Scraped (Basic)' exactly when the name is not the default, and
      'Not Found' otherwise. */
  lemma PageRecordRule(p: Page, item: string)
    ensures var r := PageRecord(p, item);
            && (FirstMatch(With(Css, TitleCss), NonBlankIn(p)).None? ==> r.name == NotFound)
            && (FirstMatch(With(Css, TitleCss), NonBlankIn(p)).Some? ==>
                  exists i :: 0 <= i < |TitleCss| && Present(p, Locator(Css, TitleCss[i]))
                              && r.name == Strip(FindElement(p, Locator(Css, TitleCss[i])).value) && r.name != []
                              && forall j :: 0 <= j < i ==>
                                   !Present(p, Locator(Css, TitleCss[j])) || Strip(FindElement(p, Locator(Css, TitleCss[j])).value) == [])
            && r.price == LoginRequired
            && (r.status == Scraped <==> r.name != NotFound)
            && (r.status == NoProduct <==> r.name == NotFound)
  {
    var locs := With(Css, TitleCss);
    FirstNonBlank(p, locs);
    if FirstMatch(locs, NonBlankIn(p)).Some? {
      var i :| 0 <= i < |locs| && Present(p, locs[i]) && Strip(FindElement(p, locs[i]).value) != []
               && FirstMatch(locs, NonBlankIn(p)).value == Strip(FindElement(p, locs[i]).value)
               && forall j :: 0 <= j < i ==> !Present(p, locs[j]) || Strip(FindElement(p, locs[j]).value) == [];
      assert locs[i] == Locator(Css, TitleCss[i]);
      forall j | 0 <= j < i
        ensures !Present(p, Locator(Css, TitleCss[j])) || Strip(FindElement(p, Locator(Css, TitleCss[j])).value) == []
      {
        assert locs[j] == Locator(Css, TitleCss[j]);
      }
    }
  }

  /** The scrape as the source runs it: the title loop with its `break`, the
      case loop with its `continue` and `break`, then the search override. */
  method ScrapeProductBasic(s: Session, item: string) returns (r: Record)
    ensures r == Scrape(s, item)
  {
    var response := Navigate(s, ProductUrl(item));
    if response.Failure? {
      return NetworkErrorRecord(item, response.error);
    }
    var p := response.value;
    var name := NotFound;
    var caseQty := NotFound;
    var title, _ := FindFirst(With(Css, TitleCss), NonBlankIn(p));
    if title.Some? {
      name := title.value;
    }
    var element, _ := FindFirst(With(Css, CaseCss), CaseElementIn(p));
    if element.Some? {
      caseQty := element.value;
    }
    var m := Search(p.text, CasePack);
    if m.Some? {
      caseQty := m.value;
    }
    return Record(item, name, caseQty, LoginRequired, None, if name != NotFound then Scraped else NoProduct);
  }

  // ---------------------------------------------------------------------------
  // process_items_simple

  /** A row counts among the errors of the summary when its status holds
      'Error'. */
  predicate IsError(r: Record) {
    Contains(r.status, "Error")
  }

  /** A row is counted as an error exactly when its request failed. */
  lemma ErrorIffNetworkFailure(s: Session, item: string)
    ensures IsError(Scrape(s, item)) <==> Navigate(s, ProductUrl(item)).Failure?
  {
    if Navigate(s, ProductUrl(item)).Success? {
      PageStatusIsNotError();
    }
  }

  lemma NetworkErrorIsError(e: string)
    ensures Contains("Network Error: " + e, "Error")
  {
    var st := "Network Error: " + e;
    assert st[8..13] == "Error";
    assert OccursAt(st, "Error", 8);
  }

  lemma PageStatusIsNotError()
    ensures !Contains(Scraped, "Error") && !Contains(NoProduct, "Error")
  {
    HeadOccurs(Scraped, "Error");
    HeadOccurs(NoProduct, "Error");
    assert 'E' !in Scraped && 'E' !in NoProduct;
  }

  /** The error count of the summary. */
  function ErrorCount(rows: seq<Record>): (n: nat)
    ensures n <= |rows|
  {
    if rows == [] then 0 else (if IsError(rows[0]) then 1 else 0) + ErrorCount(rows[1..])
  }

  /** The identifiers whose request fails. */
  function FailedRequests(s: Session, items: seq<string>): (n: nat)
    ensures n <= |items|
  {
    if items == [] then 0
    else (if Navigate(s, ProductUrl(items[0])).Failure? then 1 else 0) + FailedRequests(s, items[1..])
  }

  /** The summary's errors are the identifiers whose request failed, and its
      successes the rest. */
  lemma {:induction false} SummaryCounts(s: Session, items: seq<string>, rows: seq<Record>)
    requires |rows| == |items|
    requires forall i :: 0 <= i < |items| ==> rows[i] == Scrape(s, items[i])
    ensures ErrorCount(rows) == FailedRequests(s, items)
    ensures |rows| - ErrorCount(rows) == |items| - FailedRequests(s, items)
    decreases |items|
  {
    if items != [] {
      ErrorIffNetworkFailure(s, items[0]);
      SummaryCounts(s, items[1..], rows[1..]);
    }
  }

  /** `process_items_simple(input_file, ...)` with `rows` the CSV rows: nothing
      when the file holds no identifier; otherwise one row per identifier, in
      file order. */
  method ProcessItemsSimple(s: Session, rows: seq<seq<string>>) returns (results: Option<seq<Record>>)
    ensures results.None? <==> CsvItems(rows) == []
    ensures results.Some? ==> |results.value| == |CsvItems(rows)|
                              && forall i :: 0 <= i < |CsvItems(rows)| ==> results.value[i] == Scrape(s, CsvItems(rows)[i])
  {
    var items := ReadItems(rows);
    if items == [] {
      return None;
    }
    var out := MapItems(items, item => Scrape(s, item));
    return Some(out);
  }
}
