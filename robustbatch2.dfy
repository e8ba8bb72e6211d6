/** The "robust" batch-2 scraper: a login that tries several locator
    strategies per form field and reports success whatever the page shows
    after the click, then per fixed identifier the `/item/` page's name,
    price and case quantity, each by its own cascade. */
module RobustBatch2 {
  import opened Outcomes
  import opened Text
  import opened Patterns
  import opened Cascade
  import opened Dom
  import opened Records
  import opened Pricing

  // ---------------------------------------------------------------------------
  // enhanced_login

  /** The email strategies in order: ID, NAME, TYPE (an XPath on the input
      type), two XPaths and a CSS selector.  The TYPE strategy and the first
      XPath are the same locator. */
  const EmailStrategies := [Locator(Id, "mui-2"), Locator(Name, "email"),
                            Locator(XPath, "//input[@type='email']"), Locator(XPath, "//input[@type='email']"),
                            Locator(XPath, "//input[contains(@placeholder, 'email')]"),
                            Locator(Css, "input[type='email']")]

  const PasswordStrategies := [Locator(Id, "mui-3"), Locator(Name, "password"),
                               Locator(XPath, "//input[@type='password']"), Locator(XPath, "//input[@type='password']"),
                               Locator(Css, "input[type='password']")]

  const ButtonStrategies := [Locator(XPath, "//button[contains(text(), 'Login')]"),
                             Locator(XPath, "//button[contains(text(), 'LOG IN')]"),
                             Locator(XPath, "//button[contains(text(), 'Sign In')]"),
                             Locator(XPath, "//input[@type='submit']"),
                             Locator(Css, "button[type='submit']"),
                             Locator(Css, ".login-button"), Locator(Css, ".btn-login")]

  /** The three controls the login uses. */
  datatype Form = Form(email: Locator, password: Locator, button: Locator)

  /** The controls found on the login page: each the first strategy, in
      order, that resolves; nothing as soon as one cascade is exhausted. */
  function LoginForm(p: Page): (r: Option<Form>)
    ensures r.Some? <==> AnyPresent(p, EmailStrategies) && AnyPresent(p, PasswordStrategies) && AnyPresent(p, ButtonStrategies)
    ensures r.Some? ==> FirstPresent(p, EmailStrategies) == Some(r.value.email)
                        && FirstPresent(p, PasswordStrategies) == Some(r.value.password)
                        && FirstPresent(p, ButtonStrategies) == Some(r.value.button)
  {
    FirstPresentEarliest(p, EmailStrategies);
    FirstPresentEarliest(p, PasswordStrategies);
    FirstPresentEarliest(p, ButtonStrategies);
    match FirstPresent(p, EmailStrategies)
    case None => None
    case Some(e) =>
      match FirstPresent(p, PasswordStrategies)
      case None => None
      case Some(w) =>
        match FirstPresent(p, ButtonStrategies)
        case None => None
        case Some(b) => Some(Form(e, w, b))
  }

  /** `enhanced_login(driver)`, where `after` is the page once the button has
      been clicked: `False` when the login page fails to load or a strategy
      cascade is exhausted; otherwise `True`, whether or not the URL still
      holds "login". */
  function EnhancedLogin(s: Session, after: Page): (r: bool)
    ensures r <==> Navigate(s, LoginUrl).Success? && LoginForm(Navigate(s, LoginUrl).value).Some?
  {
    match Navigate(s, LoginUrl)
    case Failure(_) => false
    case Success(p) =>
      if LoginForm(p).None? then false
      else if !Contains(Lower(after.url), "login") || Contains(Lower(after.url), "dashboard")
              || Contains(Lower(after.url), "account") then true
      else true
  }

  /** The page after the click never changes the verdict. */
  lemma LoginIgnoresOutcome(s: Session, after1: Page, after2: Page)
    ensures EnhancedLogin(s, after1) == EnhancedLogin(s, after2)
  {
  }

  /** The fourth email strategy repeats the third, so it never decides: the
      email field found is the same with it left out. */
  lemma RepeatedEmailStrategy(p: Page)
    ensures FirstPresent(p, EmailStrategies) == FirstPresent(p, EmailStrategies[..3] + EmailStrategies[4..])
  {
    var short := EmailStrategies[..3] + EmailStrategies[4..];
    assert short[..3] == EmailStrategies[..3];
    assert short[3..] == EmailStrategies[4..];
    assert EmailStrategies == EmailStrategies[..3] + ([EmailStrategies[3]] + EmailStrategies[4..]);
    assert short == EmailStrategies[..3] + EmailStrategies[4..];
    FirstMatchAppend(EmailStrategies[..3], [EmailStrategies[3]] + EmailStrategies[4..], PresentIn(p));
    FirstMatchAppend(EmailStrategies[..3], EmailStrategies[4..], PresentIn(p));
    FirstMatchIsWinner(EmailStrategies[..3], PresentIn(p));
    if FirstMatch(EmailStrategies[..3], PresentIn(p)).None? {
      assert PresentIn(p)(EmailStrategies[..3][2]).None?;
      assert PresentIn(p)(EmailStrategies[3]).None?;
      assert ([EmailStrategies[3]] + EmailStrategies[4..])[1..] == EmailStrategies[4..];
    }
  }

  /** The login as the source runs it: the three strategy loops. */
  method RunEnhancedLogin(s: Session, after: Page) returns (r: bool, form: Option<Form>)
    ensures r == EnhancedLogin(s, after)
    ensures r ==> form == LoginForm(Navigate(s, LoginUrl).value)
    ensures !r ==> form.None?
  {
    var loaded := Navigate(s, LoginUrl);
    if loaded.Failure? {
      return false, None;
    }
    var p := loaded.value;
    var email := FindPresent(p, EmailStrategies);
    if email.None? {
      return false, None;
    }
    var password := FindPresent(p, PasswordStrategies);
    if password.None? {
      return false, None;
    }
    var button := FindPresent(p, ButtonStrategies);
    if button.None? {
      return false, None;
    }
    return true, Some(Form(email.value, password.value, button.value));
  }

  // ---------------------------------------------------------------------------
  // scrape_item_data

  const NameNotFound := "Name not found"
  const PriceNotFound := "Price not found"
  const CaseNotFound := "Case info not found"

  const NameCss := ["h1", ".product-title", ".item-name", ".product-name"]

  const PriceCss := ["span.price", ".price-display", "[data-testid='price']", ".product-price",
                     ".wholesale-price", ".price"]

  /** `Qty[:\s]+(\d+)` under `re.IGNORECASE`. */
  const QtyAnyCase := Pattern([Lit("Qty"), Repeat(ColonOrSpace, true)], Number, "", true)

  /** `C/(\d+)`, `Case of (\d+)`, `Pack of (\d+)`, `Qty[:\s]+(\d+)`, all
      under `re.IGNORECASE`. */
  const CasePatterns := [CaseCodeAnyCase, CaseOf, PackOf, QtyAnyCase]

  function PriceGroups(p: Page): seq<seq<string>> {
    Groups(p, With(Css, PriceCss))
  }

  /** The row for a page that loaded. */
  function PageRecord(p: Page, item: string): Record {
    var name := FirstMatch(With(Css, NameCss), NonBlankIn(p)).GetOr(NameNotFound);
    var price := Sweep(PriceNotFound, PriceNotFound, PriceGroups(p), DollarText).value;
    var caseQty := FirstMatch(CasePatterns, SearchIn(p.source)).GetOr(CaseNotFound);
    Record(item, name, caseQty, price, None, if name != NameNotFound then "Found" else "Not Found")
  }

  /** `scrape_item_data(driver, item)`: the `/item/` path of the identifier as
      given; a page that fails to load gives the error row. */
  function Scrape(s: Session, item: string): (r: Record)
    ensures r.item == item
    ensures Navigate(s, ItemUrl(item)).Failure? ==> r == ErrorRecord(item, Navigate(s, ItemUrl(item)).error, false)
    ensures Navigate(s, ItemUrl(item)).Success? ==> r == PageRecord(Navigate(s, ItemUrl(item)).value, item)
  {
    match Navigate(s, ItemUrl(item))
    case Failure(e) => ErrorRecord(item, e, false)
    case Success(p) => PageRecord(p, item)
  }

  /** The sentinel holds no `$`. */
  lemma PriceNotFoundHasNoDollar()
    ensures !Contains(PriceNotFound, "$")
  {
    CharOccurs(PriceNotFound, '$');
    assert '$' !in PriceNotFound;
  }

  /** The name is the earliest selector's non-blank text, or the default; the
      price is the first element, across the selectors in order, whose text
      holds `$`, stripped, or the default; the case quantity is the first
      pattern's first match, a run of digits, or the default; the status is
      'Found' exactly when the name is not the default. */
  lemma PageRecordRule(p: Page, item: string)
    ensures var r := PageRecord(p, item);
            && (FirstMatch(With(Css, NameCss), NonBlankIn(p)).None? ==> r.name == NameNotFound)
            && (FirstMatch(With(Css, NameCss), NonBlankIn(p)).Some? ==>
                  exists i :: 0 <= i < |NameCss| && Present(p, Locator(Css, NameCss[i]))
                              && r.name == Strip(FindElement(p, Locator(Css, NameCss[i])).value) && r.name != []
                              && forall j :: 0 <= j < i ==>
                                   !Present(p, Locator(Css, NameCss[j])) || Strip(FindElement(p, Locator(Css, NameCss[j])).value) == [])
            && r.price == FirstMatch(Flatten(PriceGroups(p)), DollarText).GetOr(PriceNotFound)
            && (r.price != PriceNotFound ==> Contains(r.price, "$"))
            && (forall i: nat :: WinsAt(CasePatterns, SearchIn(p.source), i) ==>
                  r.caseQty == Search(p.source, CasePatterns[i]).value)
            && ((forall i :: 0 <= i < |CasePatterns| ==> Search(p.source, CasePatterns[i]).None?) ==>
                  r.caseQty == CaseNotFound)
            && (r.caseQty != CaseNotFound ==> r.caseQty != [] && AllDigits(r.caseQty))
            && (r.status == "Found" <==> r.name != NameNotFound)
            && (r.status == "Found" || r.status == "Not Found")
  {
    var r := PageRecord(p, item);
    NameRule(p);
    PriceRule(p);
    CaseRule(p.source);
  }

  /** The name is the text of the earliest selector whose element is present
      with non-blank stripped text. */
  lemma NameRule(p: Page)
    ensures var found := FirstMatch(With(Css, NameCss), NonBlankIn(p));
            found.Some? ==>
              exists i :: 0 <= i < |NameCss| && Present(p, Locator(Css, NameCss[i]))
                          && found.value == Strip(FindElement(p, Locator(Css, NameCss[i])).value) && found.value != []
                          && forall j :: 0 <= j < i ==>
                               !Present(p, Locator(Css, NameCss[j])) || Strip(FindElement(p, Locator(Css, NameCss[j])).value) == []
  {
    var locs := With(Css, NameCss);
    FirstNonBlank(p, locs);
    if FirstMatch(locs, NonBlankIn(p)).Some? {
      var i :| 0 <= i < |locs| && Present(p, locs[i]) && Strip(FindElement(p, locs[i]).value) != []
               && FirstMatch(locs, NonBlankIn(p)).value == Strip(FindElement(p, locs[i]).value)
               && forall j :: 0 <= j < i ==> !Present(p, locs[j]) || Strip(FindElement(p, locs[j]).value) == [];
      assert locs[i] == Locator(Css, NameCss[i]);
      forall j | 0 <= j < i
        ensures !Present(p, Locator(Css, NameCss[j])) || Strip(FindElement(p, Locator(Css, NameCss[j])).value) == []
      {
        assert locs[j] == Locator(Css, NameCss[j]);
      }
    }
  }

  /** The case quantity is the earliest pattern's match, or the default when
      no pattern matches; whatever is found is a run of digits. */
  lemma CaseRule(source: string)
    ensures var found := FirstMatch(CasePatterns, SearchIn(source));
            && (forall i: nat :: WinsAt(CasePatterns, SearchIn(source), i) ==> found == Search(source, CasePatterns[i]))
            && ((forall i :: 0 <= i < |CasePatterns| ==> Search(source, CasePatterns[i]).None?) ==> found.None?)
            && (found.Some? ==> found.value != [] && AllDigits(found.value))
  {
    FirstSearchRule(source, CasePatterns);
    FirstSearchIsGroup(source, CasePatterns, Number);
  }

  lemma PriceRule(p: Page)
    ensures var price := Sweep(PriceNotFound, PriceNotFound, PriceGroups(p), DollarText).value;
            && price == FirstMatch(Flatten(PriceGroups(p)), DollarText).GetOr(PriceNotFound)
            && (price != PriceNotFound ==> Contains(price, "$"))
  {
    PriceNotFoundHasNoDollar();
    forall e ensures DollarText(e) != Some(PriceNotFound) {
      if DollarText(e).Some? {
        assert Contains(DollarText(e).value, "$");
      }
    }
    SweepIsFirstMatch(PriceNotFound, PriceGroups(p), DollarText);
    FirstMatchFrom(Flatten(PriceGroups(p)), DollarText);
  }

  /** The scrape as the source runs it: the name loop, the price loops, the
      case-pattern loop. */
  method ScrapeItemData(s: Session, item: string) returns (r: Record)
    ensures r == Scrape(s, item)
  {
    var loaded := Navigate(s, ItemUrl(item));
    if loaded.Failure? {
      return ErrorRecord(item, loaded.error, false);
    }
    var p := loaded.value;
    var name := NameNotFound;
    var found, _ := FindFirst(With(Css, NameCss), NonBlankIn(p));
    if found.Some? {
      name := found.value;
    }
    var price := SweepGroups(PriceNotFound, PriceNotFound, PriceGroups(p), DollarText);
    var caseQty := CaseNotFound;
    var m, _ := FindFirst(CasePatterns, SearchIn(p.source));
    if m.Some? {
      caseQty := m.value;
    }
    var status := if name != NameNotFound then "Found" else "Not Found";
    return Record(item, name, caseQty, price.value, None, status);
  }

  // ---------------------------------------------------------------------------
  // main

  const Items := ["8990", "8773", "13841"]

  /** `main`: the login runs, but its result only decides a warning: every
      fixed identifier is scraped, in order, either way. */
  method Run(s: Session, after: Page) returns (loggedIn: bool, results: seq<Record>)
    ensures loggedIn == EnhancedLogin(s, after)
    ensures |results| == |Items|
    ensures forall i :: 0 <= i < |Items| ==> results[i] == Scrape(s, Items[i])
  {
    var form;
    loggedIn, form := RunEnhancedLogin(s, after);
    results := MapItems(Items, item => Scrape(s, item));
  }
}
