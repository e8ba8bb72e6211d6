/** The batch-2 scraper with the corrected URL: three fixed identifiers, each
    looked up on its raw `/product/` path with no login; the price comes from
    the markup alone. */
module WorkingBatch2 {
  import opened Outcomes
  import opened Text
  import opened Patterns
  import opened Cascade
  import opened Dom
  import opened Records

  const PriceUnavailable := "Price not available"
  const CaseUnavailable := "Case info not available"

  /** The row for a title that says "not found"; it carries no URL. */
  const NotFoundRecord := Record("", "Item not found", "N/A", "N/A", None, "Not Found")

  /** `\$(\d+\.\d{2})`, then `Price`, `Cost` and `Wholesale` followed by
      `[:\s]*\$(\d+\.\d{2})`, case-sensitive. */
  const AmountPatterns := [DollarAmount] + LabelledAmounts(["Price", "Cost", "Wholesale"])

  /** `C/(\d+)`, `Case of (\d+)`, `Pack of (\d+)`, `(\d+) per case`, all
      under `re.IGNORECASE`. */
  const SourceCasePatterns := [CaseCodeAnyCase, CaseOf, PackOf, PerCase]

  /** The name: the stripped first part of a title holding " | ", else the
      whole title as it is, overridden by a non-blank `h1`. */
  function ProductName(p: Page): string {
    HeadingOr(p, TitlePrefixOr(p.title, p.title))
  }

  /** The price: the first amount pattern matching the markup, `$` put back. */
  function UnitPrice(p: Page): string {
    FirstMatch(AmountPatterns, AmountIn(p.source)).GetOr(PriceUnavailable)
  }

  /** The row for a page whose title was not rejected. */
  function PageRecord(p: Page, item: string): Record {
    var name := ProductName(p);
    Record(item, name, CodeThenSource(name, p.source, SourceCasePatterns, CaseUnavailable), UnitPrice(p), None, "Found")
  }

  /** `scrape_item_data(driver, item)`.  The URL is the product path of the
      identifier exactly as given: unlike the other scrapers, `Y` and `#`
      are kept. */
  function Scrape(s: Session, item: string): (r: Record)
    ensures r.item == item
    ensures Navigate(s, ProductUrl(item)).Failure? ==> r == ErrorRecord(item, Navigate(s, ProductUrl(item)).error, false)
    ensures Navigate(s, ProductUrl(item)).Success? && Contains(Lower(Navigate(s, ProductUrl(item)).value.title), "not found") ==>
              r == NotFoundRecord.(item := item)
    ensures Navigate(s, ProductUrl(item)).Success? && !Contains(Lower(Navigate(s, ProductUrl(item)).value.title), "not found") ==>
              r == PageRecord(Navigate(s, ProductUrl(item)).value, item) && r.status == "Found"
  {
    match Navigate(s, ProductUrl(item))
    case Failure(e) => ErrorRecord(item, e, false)
    case Success(p) =>
      if Contains(Lower(p.title), "not found") then NotFoundRecord.(item := item)
      else PageRecord(p, item)
  }

  /** The name is a non-blank `h1`, else the title's stripped first part
      before " | ", else the whole title; the price is the first bare `$`
      amount in the markup, since the labelled patterns only match where it
      does, else the default; the case quantity is `C/N` in the name, else
      the first page pattern that matches, else the default, and any found
      is a run of digits. */
  lemma PageRecordRule(p: Page, item: string)
    ensures var r := PageRecord(p, item);
            && r.name == HeadingOr(p, TitlePrefixOr(p.title, p.title))
            && (!(Present(p, H1) && Strip(FindElement(p, H1).value) != []) && !Contains(p.title, " | ") ==> r.name == p.title)
            && r.price == Dollar(Search(p.source, DollarAmount)).GetOr(PriceUnavailable)
            && (r.price != PriceUnavailable ==> |r.price| > 1 && r.price[0] == '$')
            && (Search(r.name, CaseCode).Some? ==> r.caseQty == Search(r.name, CaseCode).value)
            && (r.caseQty != CaseUnavailable ==> r.caseQty != [] && AllDigits(r.caseQty))
            && r.url.None? && r.status == "Found"
  {
    var r := PageRecord(p, item);
    assert r.name == ProductName(p) && r.price == UnitPrice(p);
    assert r.caseQty == CodeThenSource(r.name, p.source, SourceCasePatterns, CaseUnavailable);
    NameRule(p);
    PriceRule(p);
    CaseRule(r.name, p.source);
  }

  lemma NameRule(p: Page)
    ensures !(Present(p, H1) && Strip(FindElement(p, H1).value) != []) && !Contains(p.title, " | ") ==>
              ProductName(p) == p.title
  {
  }

  lemma PriceRule(p: Page)
    ensures UnitPrice(p) == Dollar(Search(p.source, DollarAmount)).GetOr(PriceUnavailable)
    ensures UnitPrice(p) != PriceUnavailable ==> |UnitPrice(p)| > 1 && UnitPrice(p)[0] == '$'
  {
    AmountsDecidedByDollar(p.source, ["Price", "Cost", "Wholesale"]);
    FirstAmountIsDollar(p.source, AmountPatterns);
  }

  lemma CaseRule(name: string, source: string)
    ensures var c := CodeThenSource(name, source, SourceCasePatterns, CaseUnavailable);
            && (Search(name, CaseCode).Some? ==> c == Search(name, CaseCode).value)
            && (c != CaseUnavailable ==> c != [] && AllDigits(c))
  {
    CodeThenSourceRule(name, source, SourceCasePatterns, CaseUnavailable);
  }

  /** The scrape as the source runs it: each field is reassigned through its
      pattern loop. */
  method ScrapeItemData(s: Session, item: string) returns (r: Record)
    ensures r == Scrape(s, item)
  {
    var loaded := Navigate(s, ProductUrl(item));
    if loaded.Failure? {
      return ErrorRecord(item, loaded.error, false);
    }
    var p := loaded.value;
    if Contains(Lower(p.title), "not found") {
      return NotFoundRecord.(item := item);
    }
    var name := TitlePrefixOr(p.title, p.title);
    name := HeadingOr(p, name);
    var price := PriceUnavailable;
    var amount, _ := FindFirst(AmountPatterns, AmountIn(p.source));
    if amount.Some? {
      price := amount.value;
    }
    var caseQty := CaseUnavailable;
    var code := Search(name, CaseCode);
    if code.Some? {
      caseQty := code.value;
    } else {
      var fromSource, _ := FindFirst(SourceCasePatterns, SearchIn(p.source));
      if fromSource.Some? {
        caseQty := fromSource.value;
      }
    }
    return Record(item, name, caseQty, price, None, "Found");
  }

  const Items := ["8990", "8773", "13841"]

  /** `main`: one row per fixed identifier, in order, with no login. */
  method Run(s: Session) returns (results: seq<Record>)
    ensures |results| == |Items|
    ensures forall i :: 0 <= i < |Items| ==> results[i] == Scrape(s, Items[i]) && results[i].item == Items[i]
  {
    results := MapItems(Items, item => Scrape(s, item));
  }
}
