/** The first batch-2 scraper: a login judged by the URL the browser lands
    on, then per fixed identifier the `/item/` page's name, price and `C/N`
    case code. */
module Batch2 {
  import opened Outcomes
  import opened Text
  import opened Patterns
  import opened Cascade
  import opened Dom
  import opened Records
  import opened Pricing

  // ---------------------------------------------------------------------------
  // login_to_pacific_giftware

  /** `login_to_pacific_giftware(driver)`, where `after` is the page once the
      button has been clicked: `True` exactly when the login page loads, the
      two fields and the button resolve, and the URL the browser then shows
      does not hold "login" in any case.  A raise is `False`. */
  function LoginToPacificGiftware(s: Session, after: Page): (r: bool)
    ensures r <==> MuiFormResolves(s) && !Contains(Lower(after.url), "login")
  {
    match Navigate(s, LoginUrl)
    case Failure(_) => false
    case Success(p) =>
      match FindElement(p, MuiEmail)
      case Failure(_) => false
      case Success(_) =>
        match FindElement(p, MuiPassword)
        case Failure(_) => false
        case Success(_) =>
          match FindElement(p, LoginButton)
          case Failure(_) => false
          case Success(_) => !Contains(Lower(after.url), "login")
  }

  /** The URL test ignores letter case: landing on a page whose URL spells
      "LOGIN" in capitals also counts as a failure. */
  lemma LoginUrlTestIgnoresCase(s: Session, after: Page)
    requires Contains(after.url, "LOGIN")
    ensures !LoginToPacificGiftware(s, after)
  {
    var i :| OccursAt(after.url, "LOGIN", i);
    var low := Lower(after.url);
    forall k | 0 <= k < 5
      ensures low[i + k] == "login"[k]
    {
      assert after.url[i + k] == after.url[i..i + 5][k];
    }
    assert low[i..i + 5] == "login";
    assert OccursAt(low, "login", i);
  }

  // ---------------------------------------------------------------------------
  // scrape_item_data

  const NameNotFound := "Name not found"
  const PriceNotFound := "Price not found"
  const CaseNotFound := "Case info not found"

  const NameFallback := Locator(Css, "h1, .product-title, .item-name")

  /** The name: the stripped text of the first `h1`, even when blank; else
      that of the combined selector; else the default. */
  function ProductName(p: Page): (r: string)
    ensures Present(p, H1) ==> r == Strip(FindElement(p, H1).value)
    ensures !Present(p, H1) && Present(p, NameFallback) ==> r == Strip(FindElement(p, NameFallback).value)
    ensures !Present(p, H1) && !Present(p, NameFallback) ==> r == NameNotFound
  {
    match FindElement(p, H1)
    case Success(t) => Strip(t)
    case Failure(_) =>
      match FindElement(p, NameFallback)
      case Success(t) => Strip(t)
      case Failure(_) => NameNotFound
  }

  /** The last selector uses the jQuery-only `:contains(`, which Selenium
      refuses. */
  const PriceCss := ["span.price", ".price-display", "[data-testid='price']", ".product-price",
                     ".wholesale-price", "span:contains('$')"]

  /** A selector as a price rule: its first element, when its text holds `$`,
      stripped. */
  function FirstDollarIn(p: Page): Locator -> Option<string> {
    l => match FindElement(p, l)
         case Success(t) => DollarText(t)
         case Failure(_) => None
  }

  /** The price: the first selector whose first element holds `$`. */
  function UnitPrice(p: Page): string {
    FirstMatch(With(Css, PriceCss), FirstDollarIn(p)).GetOr(PriceNotFound)
  }

  /** The row for a page that loaded: always 'Found'. */
  function PageRecord(p: Page, item: string): Record {
    Record(item, ProductName(p), Search(p.source, CaseCode).GetOr(CaseNotFound), UnitPrice(p), None, "Found")
  }

  /** `scrape_item_data(driver, item)`: the `/item/` path of the identifier as
      given; a page that fails to load gives the error row. */
  function Scrape(s: Session, item: string): (r: Record)
    ensures r.item == item
    ensures Navigate(s, ItemUrl(item)).Failure? ==> r == ErrorRecord(item, Navigate(s, ItemUrl(item)).error, false)
    ensures Navigate(s, ItemUrl(item)).Success? ==>
              r == PageRecord(Navigate(s, ItemUrl(item)).value, item) && r.status == "Found"
  {
    match Navigate(s, ItemUrl(item))
    case Failure(e) => ErrorRecord(item, e, false)
    case Success(p) => PageRecord(p, item)
  }

  /** The price is the text of the earliest selector whose first element
      holds `$`, stripped, and never comes from the refused last selector:
      only the first five decide.  Any price found holds `$`. */
  lemma UnitPriceRule(p: Page)
    ensures UnitPrice(p) == FirstMatch(With(Css, PriceCss[..5]), FirstDollarIn(p)).GetOr(PriceNotFound)
    ensures UnitPrice(p) != PriceNotFound ==>
              exists i :: 0 <= i < 5 && Present(p, Locator(Css, PriceCss[i]))
                          && Contains(FindElement(p, Locator(Css, PriceCss[i])).value, "$")
                          && UnitPrice(p) == Strip(FindElement(p, Locator(Css, PriceCss[i])).value)
    ensures UnitPrice(p) != PriceNotFound ==> Contains(UnitPrice(p), "$")
  {
    var head := With(Css, PriceCss[..5]);
    OnlyFirstFiveSelectors(p);
    FirstMatchFrom(head, FirstDollarIn(p));
    if FirstMatch(head, FirstDollarIn(p)).Some? {
      var i :| 0 <= i < |head| && FirstDollarIn(p)(head[i]) == FirstMatch(head, FirstDollarIn(p));
      assert head[i] == Locator(Css, PriceCss[i]);
    }
    CharOccurs(PriceNotFound, '$');
    assert '$' !in PriceNotFound;
  }

  /** The refused last selector never yields a price, so the cascade is
      that of the first five. */
  lemma OnlyFirstFiveSelectors(p: Page)
    ensures FirstMatch(With(Css, PriceCss), FirstDollarIn(p)) == FirstMatch(With(Css, PriceCss[..5]), FirstDollarIn(p))
  {
    var last := Locator(Css, PriceCss[5]);
    assert With(Css, PriceCss) == With(Css, PriceCss[..5]) + [last];
    assert OccursAt(PriceCss[5], ":contains(", 4);
    assert FirstDollarIn(p)(last).None?;
    assert [last][1..] == [];
    FirstMatchAppend(With(Css, PriceCss[..5]), [last], FirstDollarIn(p));
  }

  /** The case quantity is the digits of the first `C/N` in the markup, or
      the default. */
  lemma CaseRule(p: Page, item: string)
    ensures var c := PageRecord(p, item).caseQty;
            && (Search(p.source, CaseCode).Some? ==> c == Search(p.source, CaseCode).value && c != [] && AllDigits(c))
            && (Search(p.source, CaseCode).None? ==> c == CaseNotFound)
  {
  }

  /** The scrape as the source runs it: the nested name fallbacks, the price
      selector loop, the case search. */
  method ScrapeItemData(s: Session, item: string) returns (r: Record)
    ensures r == Scrape(s, item)
  {
    var loaded := Navigate(s, ItemUrl(item));
    if loaded.Failure? {
      return ErrorRecord(item, loaded.error, false);
    }
    var p := loaded.value;
    var name := NameNotFound;
    var h1 := FindElement(p, H1);
    if h1.Success? {
      name := Strip(h1.value);
    } else {
      var other := FindElement(p, NameFallback);
      if other.Success? {
        name := Strip(other.value);
      }
    }
    var price := PriceNotFound;
    var found, _ := FindFirst(With(Css, PriceCss), FirstDollarIn(p));
    if found.Some? {
      price := found.value;
    }
    var caseQty := CaseNotFound;
    var code := Search(p.source, CaseCode);
    if code.Some? {
      caseQty := code.value;
    }
    return Record(item, name, caseQty, price, None, "Found");
  }

  // ---------------------------------------------------------------------------
  // main

  const Items := ["8990", "8773", "13841"]

  /** `main`: nothing is scraped when the login fails; otherwise one row per
      fixed identifier, in order. */
  method Run(s: Session, after: Page) returns (results: Option<seq<Record>>)
    ensures results.None? <==> !LoginToPacificGiftware(s, after)
    ensures results.Some? ==> |results.value| == |Items|
                              && forall i :: 0 <= i < |Items| ==> results.value[i] == Scrape(s, Items[i])
  {
    if !LoginToPacificGiftware(s, after) {
      return None;
    }
    var rows := MapItems(Items, item => Scrape(s, item));
    return Some(rows);
  }
}
