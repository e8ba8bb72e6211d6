/** The scraper "with working login": the Material-UI login, treated as a
    success on every path past the click, then per item the product page's
    name, `C/N` case code and price, for three fixed identifiers. */
module WorkingLogin {
  import opened Outcomes
  import opened Text
  import opened Patterns
  import opened Cascade
  import opened Dom
  import opened Records
  import opened Pricing

  // ---------------------------------------------------------------------------
  // successful_login

  const DashboardSignals := Locator(XPath, "//*[contains(text(), 'Dashboard') or contains(text(), 'Account') or contains(text(), 'Logout')]")

  /** The checks after the click, in order; every branch, including the last
      ("status unclear"), answers `True`. */
  function VerdictAfterClick(after: Page): (r: bool)
    ensures r
  {
    if !Contains(Lower(after.url), "login") then true
    else if Texts(after, DashboardSignals) != [] then true
    else if !Contains(Lower(after.title), "login") && !Contains(Lower(after.title), "sign in") then true
    else true
  }

  /** `successful_login`: `True` exactly when the login page loads and the
      email field, password field and login button all resolve; whatever the
      browser shows after the click does not matter. */
  function SuccessfulLogin(s: Session, after: Page): (r: bool)
    ensures r <==> MuiFormResolves(s)
  {
    match Navigate(s, LoginUrl)
    case Failure(_) => false
    case Success(p) =>
      if !Present(p, MuiEmail) then false
      else if !Present(p, MuiPassword) then false
      else if !Present(p, LoginButton) then false
      else VerdictAfterClick(after)
  }

  /** The optimistic rule: the outcome does not depend on the page after the
      click, so a failed sign-in still reads as a success. */
  lemma LoginIgnoresOutcome(s: Session, after1: Page, after2: Page)
    ensures SuccessfulLogin(s, after1) == SuccessfulLogin(s, after2)
  {
  }

  // ---------------------------------------------------------------------------
  // scrape_with_pricing

  const NameUnavailable := "Name not available"
  const CaseUnspecified := "Not specified"
  const PriceSentinel := "Price not found"

  const PriceCss := [".price", "span.price", ".product-price", ".wholesale-price", ".price-display",
                     "[data-testid='price']", ".pricing", ".cost"]

  function PriceGroups(p: Page): seq<seq<string>> {
    Groups(p, With(Css, PriceCss))
  }

  /** A price element: its stripped text, when that is non-blank and holds `$`. */
  function PricedText(t: string): (r: Option<string>)
    ensures r.Some? <==> Strip(t) != [] && Contains(Strip(t), "$")
    ensures r.Some? ==> r.value == Strip(t)
  {
    var x := Strip(t);
    if x != [] && Contains(x, "$") then Some(x) else None
  }

  /** `\$(\d+\.\d{2})`, then `Price`, `Wholesale` and `Cost` followed by
      `[:\s]*\$(\d+\.\d{2})`, all case-sensitive. */
  const AmountPatterns := [DollarAmount] + LabelledAmounts(["Price", "Wholesale", "Cost"])

  /** The row for a product page that loaded and was not rejected. */
  function PageRecord(p: Page, item: string, url: string): Record {
    var name := HeadingOr(p, TitlePrefixOr(p.title, NameUnavailable));
    var caseQty := Search(name, CaseCode).GetOr(CaseUnspecified);
    var price := ElementsThenAmounts(PriceGroups(p), PricedText, PriceSentinel, p.source, AmountPatterns);
    Record(item, name, caseQty, price, Some(url), "Found")
  }

  /** The URL scraped: always the product path of the cleaned identifier. */
  function ItemPage(item: string): string {
    ProductUrl(CleanId(item))
  }

  /** `scrape_with_pricing(driver, item)`. */
  function Scrape(s: Session, item: string): (r: Record)
    ensures r.item == item
    ensures Navigate(s, ItemPage(item)).Failure? ==> r == ErrorRecord(item, Navigate(s, ItemPage(item)).error, true)
    ensures Navigate(s, ItemPage(item)).Success? && Contains(Lower(Navigate(s, ItemPage(item)).value.title), "not found") ==>
              r == Record(item, "Item not found", "N/A", "N/A", Some(ItemPage(item)), "Not Found")
    ensures Navigate(s, ItemPage(item)).Success? && !Contains(Lower(Navigate(s, ItemPage(item)).value.title), "not found") ==>
              r == PageRecord(Navigate(s, ItemPage(item)).value, item, ItemPage(item))
  {
    var url := ItemPage(item);
    match Navigate(s, url)
    case Failure(e) => ErrorRecord(item, e, true)
    case Success(p) =>
      if Contains(Lower(p.title), "not found") then Record(item, "Item not found", "N/A", "N/A", Some(url), "Not Found")
      else PageRecord(p, item, url)
  }

  /** The row for a page that loaded: the name is a non-blank `h1`, else the
      title's first part before " | ", else the default; the case quantity
      comes from `C/N` in that name alone; the price holds `$` unless it is
      the sentinel, and comes from the elements before the markup, where the
      first bare `$` amount decides. */
  lemma PageRecordRule(p: Page, item: string, url: string)
    ensures var r := PageRecord(p, item, url);
            && r.name == HeadingOr(p, TitlePrefixOr(p.title, NameUnavailable))
            && (Search(r.name, CaseCode).Some? ==> r.caseQty == Search(r.name, CaseCode).value && r.caseQty != [] && AllDigits(r.caseQty))
            && (Search(r.name, CaseCode).None? ==> r.caseQty == CaseUnspecified)
            && (FirstMatch(Flatten(PriceGroups(p)), PricedText).Some? ==> r.price == FirstMatch(Flatten(PriceGroups(p)), PricedText).value)
            && (FirstMatch(Flatten(PriceGroups(p)), PricedText).None? ==>
                  r.price == FirstMatch(AmountPatterns, AmountIn(p.source)).GetOr(PriceSentinel)
                  && r.price == Dollar(Search(p.source, DollarAmount)).GetOr(PriceSentinel))
            && (r.price != PriceSentinel ==> Contains(r.price, "$"))
            && r.url == Some(url) && r.status == "Found"
  {
    CharOccurs(PriceSentinel, '$');
    assert '$' !in PriceSentinel;
    ElementsThenAmountsRule(PriceGroups(p), PricedText, PriceSentinel, p.source, AmountPatterns);
    AmountsDecidedByDollar(p.source, ["Price", "Wholesale", "Cost"]);
  }

  /** The scrape as the source runs it. */
  method ScrapeWithPricing(s: Session, item: string) returns (r: Record)
    ensures r == Scrape(s, item)
  {
    var url := ProductUrl(CleanId(item));
    var loaded := Navigate(s, url);
    if loaded.Failure? {
      return ErrorRecord(item, loaded.error, true);
    }
    var p := loaded.value;
    if Contains(Lower(p.title), "not found") {
      return Record(item, "Item not found", "N/A", "N/A", Some(url), "Not Found");
    }
    var name := TitlePrefixOr(p.title, NameUnavailable);
    name := HeadingOr(p, name);
    var caseQty := CaseUnspecified;
    var code := Search(name, CaseCode);
    if code.Some? {
      caseQty := code.value;
    }
    var price := ScanElementsThenAmounts(PriceGroups(p), PricedText, PriceSentinel, p.source, AmountPatterns);
    return Record(item, name, caseQty, price, Some(url), "Found");
  }

  // ---------------------------------------------------------------------------
  // main

  const Items := ["8990", "8773", "13841"]

  /** `main`: nothing is scraped when the login fails; otherwise one row per
      fixed identifier, in order. */
  method Run(s: Session, after: Page) returns (results: Option<seq<Record>>)
    ensures results.None? <==> !SuccessfulLogin(s, after)
    ensures results.Some? ==> |results.value| == |Items|
                              && forall i :: 0 <= i < |Items| ==> results.value[i] == Scrape(s, Items[i])
  {
    if !SuccessfulLogin(s, after) {
      return None;
    }
    var rows := MapItems(Items, item => Scrape(s, item));
    return Some(rows);
  }
}
