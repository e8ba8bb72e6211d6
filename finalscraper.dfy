/** The "final" scraper: an optional login through the site's Material-UI
    form, then per item a record built by successive cascades over the
    product page (title, name headings, case patterns and elements, price
    elements), each writing into the same result row. */
module FinalScraper {
  import opened Outcomes
  import opened Text
  import opened Patterns
  import opened Cascade
  import opened Dom
  import opened Records

  // ---------------------------------------------------------------------------
  // login

  const CredentialsMissing := "PACIFIC_EMAIL / PACIFIC_PASSWORD not set"
  const FormMissing := "Login form not found on any login URL"

  /** The only entry of `LOGIN_URLS`. */
  const LoginPageUrl := Site + "/pages/login"

  /** Any of these shows the login form has loaded. */
  const FormProbes := [Locator(Id, "mui-2"), Locator(Css, "input[type=\"text\"]"),
                       Locator(Css, "input[type=\"email\"]")]

  const EmailFields := [Locator(Id, "mui-2"), Locator(Css, "input[type=\"text\"]"),
                        Locator(Css, "input[type=\"email\"]"), Locator(Css, "input[name=\"email\"]"),
                        Locator(Id, "email")]

  const PasswordFields := [Locator(Id, "mui-3"), Locator(Css, "input[type=\"password\"]"),
                           Locator(Css, "input[name=\"password\"]"), Locator(Id, "password")]

  const SubmitControls := [Locator(Css, "button[type=\"submit\"]"),
                           Locator(XPath, "//button[contains(translate(., 'LOGIN', 'login'),'login') or contains(translate(., 'SIGN IN','sign in'),'sign in')]"),
                           Locator(Css, "input[type=\"submit\"]")]

  /** Any of these on the page after submitting means the login took. */
  const SignedInSignals := [Locator(XPath, "//*[contains(., 'Log out') or contains(., 'Logout')]"),
                            Locator(XPath, "//a[contains(., 'Account') or contains(., 'My Account')]"),
                            Locator(XPath, "//span[contains(text(), '$')]")]

  /** How the form was submitted: by clicking a submit control, or, when none
      resolves, by submitting the password field itself. */
  datatype Submission = Clicked(control: Locator) | SubmittedPassword(field: Locator)

  /** A login that ran to the end: the fields used, how it submitted, and
      whether a signed-in signal appeared. */
  datatype LoginRun = LoginRun(emailField: Locator, passwordField: Locator,
                               submission: Submission, signedIn: bool)

  /** `_first_present` as a raise-or-return: the `NoSuchElementException` it
      re-raises is the one of the last locator tried. */
  function Lookup(p: Page, locs: seq<Locator>): (r: Result<Locator>)
    requires locs != []
    ensures r.Success? <==> AnyPresent(p, locs)
    ensures r.Success? ==> FirstPresent(p, locs) == Some(r.value)
  {
    FirstPresentEarliest(p, locs);
    match FirstPresent(p, locs)
    case Some(l) => Success(l)
    case None => Failure("no such element: " + locs[|locs| - 1].value)
  }

  /** `login(driver, email, password)`, where `after` is the page the browser
      shows once the form has been submitted.  A raise is a `Failure`. */
  function Login(s: Session, email: string, password: string, after: Page): (r: Result<LoginRun>)
    ensures email == "" || password == "" ==> r == Failure(CredentialsMissing)
    ensures r.Success? ==> email != "" && password != "" && Navigate(s, LoginPageUrl).Success?
                           && AnyPresent(Navigate(s, LoginPageUrl).value, FormProbes)
    ensures r.Success? ==> (r.value.signedIn <==> AnyPresent(after, SignedInSignals))
    ensures r.Success? ==>
              (r.value.submission.SubmittedPassword? <==> !AnyPresent(Navigate(s, LoginPageUrl).value, SubmitControls))
    ensures r.Success? ==>
              Some(r.value.emailField) == FirstPresent(Navigate(s, LoginPageUrl).value, EmailFields)
              && Some(r.value.passwordField) == FirstPresent(Navigate(s, LoginPageUrl).value, PasswordFields)
  {
    if email == "" || password == "" then Failure(CredentialsMissing)
    else
      match Navigate(s, LoginPageUrl)
      case Failure(e) => Failure(e)
      case Success(p) =>
        if !AnyPresent(p, FormProbes) then Failure(FormMissing)
        else
          match Lookup(p, EmailFields)
          case Failure(e) => Failure(e)
          case Success(emailField) =>
            match Lookup(p, PasswordFields)
            case Failure(e) => Failure(e)
            case Success(passwordField) =>
              FirstPresentEarliest(p, SubmitControls);
              var submission := match FirstPresent(p, SubmitControls)
                                case Some(c) => Clicked(c)
                                case None => SubmittedPassword(passwordField);
              Success(LoginRun(emailField, passwordField, submission, AnyPresent(after, SignedInSignals)))
  }

  /** Once the form has loaded, the email field is always found: the form
      probes are the first three email locators. */
  lemma FormFoundEmailFound(p: Page)
    requires AnyPresent(p, FormProbes)
    ensures FirstPresent(p, EmailFields).Some?
    ensures FirstPresent(p, EmailFields).value in FormProbes
  {
    var i :| 0 <= i < |FormProbes| && Present(p, FormProbes[i]);
    assert EmailFields[i] == FormProbes[i];
    FirstPresentEarliest(p, EmailFields);
    var w :| 0 <= w < |EmailFields| && FirstPresent(p, EmailFields) == Some(EmailFields[w])
             && forall j :: 0 <= j < w ==> !Present(p, EmailFields[j]);
    assert w <= i;
  }

  /** `login_success` in `main`: a raise counts as not logged in. */
  function LoggedIn(s: Session, email: string, password: string, after: Page): bool {
    match Login(s, email, password, after)
    case Success(run) => run.signedIn
    case Failure(_) => false
  }

  /** The login as the source runs it: the guard, the form wait, the three
      locator scans, the submit fallback and the signed-in wait. */
  method RunLogin(s: Session, email: string, password: string, after: Page) returns (r: Result<LoginRun>)
    ensures r == Login(s, email, password, after)
  {
    if email == "" || password == "" {
      return Failure(CredentialsMissing);
    }
    var loaded := Navigate(s, LoginPageUrl);
    if loaded.Failure? {
      return Failure(loaded.error);
    }
    var p := loaded.value;
    if !AnyPresent(p, FormProbes) {
      return Failure(FormMissing);
    }
    var emailField := FindPresent(p, EmailFields);
    if emailField.None? {
      return Failure(Lookup(p, EmailFields).error);
    }
    var passwordField := FindPresent(p, PasswordFields);
    if passwordField.None? {
      return Failure(Lookup(p, PasswordFields).error);
    }
    var submit := FindPresent(p, SubmitControls);
    var submission := if submit.Some? then Clicked(submit.value) else SubmittedPassword(passwordField.value);
    return Success(LoginRun(emailField.value, passwordField.value, submission, AnyPresent(after, SignedInSignals)));
  }

  // ---------------------------------------------------------------------------
  // scrape_product_enhanced

  const NotFound := "Not found"

  /** The product name the page title gives, when it looks like a product title. */
  function TitleName(title: string): (r: Option<string>)
    ensures r.Some? <==> title != "" && title != "Loading..." && Contains(Lower(title), "pacific")
                         && |Strip(RemoveAll(title, " | Pacific Trading"))| > 3
    ensures r.Some? ==> r.value == Strip(RemoveAll(title, " | Pacific Trading"))
  {
    if title != "" && title != "Loading..." && Contains(Lower(title), "pacific") then
      var clean := Strip(RemoveAll(title, " | Pacific Trading"));
      if clean != [] && |clean| > 3 then Some(clean) else None
    else None
  }

  /** A title-derived name is stripped and longer than three characters. */
  lemma TitleNameShape(title: string)
    ensures TitleName(title).Some? ==>
              |TitleName(title).value| > 3 && Strip(TitleName(title).value) == TitleName(title).value
  {
    if TitleName(title).Some? {
      StripIdempotent(RemoveAll(title, " | Pacific Trading"));
    }
  }

  const NameXPaths := ["//h1", "//h2", "//*[@class='product-title']", "//*[@class='product-name']",
                       "//title", "//*[contains(@class, 'title')]"]

  /** A name element's stripped text, when it is longer than five characters
      and not the loading placeholder. */
  function NameText(t: string): (r: Option<string>)
    ensures r.Some? <==> |Strip(t)| > 5 && Strip(t) != "Loading..."
    ensures r.Some? ==> r.value == Strip(t)
  {
    var x := Strip(t);
    if x != [] && |x| > 5 && x != "Loading..." then Some(x) else None
  }

  /** The elements of each name selector, in selector order. */
  function NameGroups(p: Page): seq<seq<string>> {
    Groups(p, With(XPath, NameXPaths))
  }

  /** The name sweep, started from the title-derived name or the sentinel. */
  function NameSweep(p: Page): Swept<string> {
    Sweep(TitleName(p.title).GetOr(NotFound), NotFound, NameGroups(p), NameText)
  }

  /** `case\s*pack[:\s]*(\d+)`, `case\s*quantity[:\s]*(\d+)`, `case[:\s]*(\d+)`,
      `pack[:\s]*(\d+)` and `qty[:\s]*(\d+)`, all under `re.IGNORECASE`. */
  const CasePatterns := [
    Pattern([Lit("case"), Repeat(Space, false), Lit("pack"), Repeat(ColonOrSpace, false)], Number, "", true),
    Pattern([Lit("case"), Repeat(Space, false), Lit("quantity"), Repeat(ColonOrSpace, false)], Number, "", true),
    Pattern([Lit("case"), Repeat(ColonOrSpace, false)], Number, "", true),
    Pattern([Lit("pack"), Repeat(ColonOrSpace, false)], Number, "", true),
    Pattern([Lit("qty"), Repeat(ColonOrSpace, false)], Number, "", true)]

  /** Method 1: the first case pattern that matches the markup anywhere. */
  function SourceCase(source: string): Option<string> {
    FirstMatch(CasePatterns, SearchIn(source))
  }

  const CaseXPaths := ["//*[contains(text(), 'CASE PACK')]", "//*[contains(text(), 'Case Pack')]",
                       "//*[contains(text(), 'case pack')]", "//*[contains(text(), 'Pack:')]",
                       "//*[contains(text(), 'Quantity:')]"]

  function CaseGroups(p: Page): seq<seq<string>> {
    Groups(p, With(XPath, CaseXPaths))
  }

  /** Method 2: the first run of digits of an element's text, run after
      method 1 and able to overwrite it. */
  function CaseSweep(p: Page): Swept<string> {
    Sweep(SourceCase(p.source).GetOr(NotFound), NotFound, CaseGroups(p), FirstDigitRun)
  }

  const PriceXPaths := [
    "//h5[contains(@class, 'MuiTypography-h5') and contains(text(), '$')]",
    "//*[contains(@class, 'MuiTypography-h5') and contains(text(), '$')]",
    "//*[contains(@class, 'price')]",
    "//*[contains(@class, 'money')]",
    "//*[contains(@class, 'current-price')]",
    "//*[contains(@class, 'product-price')]",
    "//span[contains(text(), '$')]",
    "//div[contains(text(), '$')]",
    "//*[@data-testid='price']",
    "//*[contains(@class, 'MuiTypography-root') and contains(text(), '$')]"]

  /** Words that mark a dollar amount as something other than the unit price. */
  const NonPriceWords := ["cart", "total", "shipping", "tax", "free"]

  predicate NamesNonPrice(t: string) {
    exists w :: w in NonPriceWords && Contains(Lower(t), w)
  }

  /** A price element's stripped text, when it holds `$`, is between 3 and 29
      characters long, and mentions none of the non-price words. */
  function PriceText(t: string): (r: Option<string>)
    ensures r.Some? <==> (var x := Strip(t); Contains(x, "$") && 2 < |x| < 30 && !NamesNonPrice(x))
    ensures r.Some? ==> r.value == Strip(t)
  {
    var x := Strip(t);
    if Contains(x, "$") && |x| < 30 && |x| > 2 && !NamesNonPrice(x) then Some(x) else None
  }

  function PriceGroups(p: Page): seq<seq<string>> {
    Groups(p, With(XPath, PriceXPaths))
  }

  /** The price field: untouched when not logged in, else the price sweep. */
  function Price(p: Page, loggedIn: bool): string {
    if !loggedIn then "Login required"
    else Sweep(NotFound, NotFound, PriceGroups(p), PriceText).value
  }

  /** The row for a page that loaded. */
  function PageRecord(p: Page, item: string, loggedIn: bool): (r: Record)
    ensures r.item == item && r.url.None?
    ensures r.status == "Found" || r.status == "Processing"
    ensures !loggedIn ==> r.price == "Login required"
  {
    var name := NameSweep(p);
    var status := if TitleName(p.title).Some? || name.hit then "Found" else "Processing";
    Record(item, name.value, CaseSweep(p).value, Price(p, loggedIn), None, status)
  }

  /** `scrape_product_enhanced(driver, item, logged_in)`. */
  function Scrape(s: Session, item: string, loggedIn: bool): (r: Record)
    ensures r.item == item && r.url.None?
    ensures r.status == "Error" <==> Navigate(s, ProductUrl(item)).Failure?
    ensures Navigate(s, ProductUrl(item)).Failure? ==>
              r == Record(item, "Error: " + Navigate(s, ProductUrl(item)).error, "Error", "Error", None, "Error")
    ensures Navigate(s, ProductUrl(item)).Success? ==> r == PageRecord(Navigate(s, ProductUrl(item)).value, item, loggedIn)
  {
    match Navigate(s, ProductUrl(item))
    case Failure(e) => Record(item, "Error: " + e, "Error", "Error", None, "Error")
    case Success(p) => PageRecord(p, item, loggedIn)
  }

  /** The status turns 'Found' exactly when the title gives a name or some
      name element is accepted. */
  lemma StatusRule(p: Page, item: string, loggedIn: bool)
    ensures PageRecord(p, item, loggedIn).status == "Found" <==>
              TitleName(p.title).Some?
              || exists i, k :: 0 <= i < |NameGroups(p)| && 0 <= k < |NameGroups(p)[i]| && NameText(NameGroups(p)[i][k]).Some?
  {
    if TitleName(p.title).None? {
      SweepHitFromSentinel(NotFound, NameGroups(p), NameText);
    }
  }

  /** A name other than the sentinel is the title-derived name or the text
      of an accepted name element. */
  lemma NameOrigin(p: Page)
    ensures NameSweep(p).value != NotFound ==>
              Some(NameSweep(p).value) == TitleName(p.title)
              || exists i, k :: 0 <= i < |NameGroups(p)| && 0 <= k < |NameGroups(p)[i]|
                                && NameText(NameGroups(p)[i][k]) == Some(NameSweep(p).value)
  {
    SweepOrigin(TitleName(p.title).GetOr(NotFound), NotFound, NameGroups(p), NameText);
  }

  /** Without a title-derived name, the name is the first accepted element
      text across the selectors in order, each selector's elements in page
      order, or the sentinel when none is accepted; an element whose text
      reads exactly as the sentinel would let the loop run on, so none may. */
  lemma NameFirstMatch(p: Page)
    requires TitleName(p.title).None?
    requires forall e :: e in Flatten(NameGroups(p)) ==> NameText(e) != Some(NotFound)
    ensures NameSweep(p).value == FirstMatch(Flatten(NameGroups(p)), NameText).GetOr(NotFound)
    ensures NameSweep(p).hit == FirstMatch(Flatten(NameGroups(p)), NameText).Some?
  {
    SweepIsFirstMatch(NotFound, NameGroups(p), NameText);
  }

  /** With a title-derived name, only the first name selector (`//h1`) can
      change it, unless one of the two reads as the sentinel. */
  lemma TitleNameKept(p: Page)
    requires TitleName(p.title).Some? && TitleName(p.title).value != NotFound
    requires FirstMatch(NameGroups(p)[0], NameText) != Some(NotFound)
    ensures NameSweep(p).value == FirstMatch(NameGroups(p)[0], NameText).GetOr(TitleName(p.title).value)
  {
    var groups := NameGroups(p);
    assert groups != [];
  }

  /** A digit run is never the sentinel. */
  lemma DigitRunNotSentinel(t: string)
    ensures FirstDigitRun(t) != Some(NotFound)
  {
    match FirstDigitRun(t)
    case None =>
    case Some(g) =>
      var i :| IsFirstRun(t, i, g);
      assert IsDigit(g[0]);
      assert !IsDigit(NotFound[0]);
  }

  /** Method 1 takes the first pattern, in the fixed order, with any match. */
  lemma SourceCaseRule(source: string)
    ensures SourceCase(source).None? <==> forall i :: 0 <= i < |CasePatterns| ==> Search(source, CasePatterns[i]).None?
    ensures forall i: nat :: WinsAt(CasePatterns, SearchIn(source), i) ==> SourceCase(source) == Search(source, CasePatterns[i])
  {
    FirstMatchIsWinner(CasePatterns, SearchIn(source));
    if SourceCase(source).None? {
      forall i | 0 <= i < |CasePatterns| ensures Search(source, CasePatterns[i]).None? {
        assert SearchIn(source)(CasePatterns[i]).None?;
      }
    }
  }

  /** What method 1 finds is a non-empty run of digits. */
  lemma SourceCaseDigits(source: string)
    ensures SourceCase(source).Some? ==> SourceCase(source).value != [] && AllDigits(SourceCase(source).value)
  {
    FirstSearchIsGroup(source, CasePatterns, Number);
  }

  /** When method 1 finds nothing, the case is the first digit run among all
      case elements in selector order; when it finds a value, only the first
      case selector can overwrite it. */
  lemma CaseRule(p: Page)
    ensures SourceCase(p.source).None? ==>
              CaseSweep(p).value == FirstMatch(Flatten(CaseGroups(p)), FirstDigitRun).GetOr(NotFound)
    ensures SourceCase(p.source).Some? ==>
              CaseSweep(p).value == FirstMatch(CaseGroups(p)[0], FirstDigitRun).GetOr(SourceCase(p.source).value)
  {
    var groups := CaseGroups(p);
    forall e ensures FirstDigitRun(e) != Some(NotFound) {
      DigitRunNotSentinel(e);
    }
    if SourceCase(p.source).None? {
      SweepIsFirstMatch(NotFound, groups, FirstDigitRun);
    } else {
      SourceCaseDigits(p.source);
      var m := SourceCase(p.source).value;
      assert IsDigit(m[0]) && !IsDigit(NotFound[0]);
      SweepFromValue(SourceCase(p.source).value, NotFound, groups, FirstDigitRun);
    }
  }

  /** Any case value found is a non-empty run of digits. */
  lemma CaseDigits(p: Page)
    ensures CaseSweep(p).value != NotFound ==> CaseSweep(p).value != [] && AllDigits(CaseSweep(p).value)
  {
    var groups := CaseGroups(p);
    SourceCaseDigits(p.source);
    SweepOrigin(SourceCase(p.source).GetOr(NotFound), NotFound, groups, FirstDigitRun);
    if CaseSweep(p).hit {
      var i, k :| 0 <= i < |groups| && 0 <= k < |groups[i]| && FirstDigitRun(groups[i][k]) == Some(CaseSweep(p).value);
      var j :| IsFirstRun(groups[i][k], j, CaseSweep(p).value);
    }
  }

  /** When logged in, the price is the first acceptable text among all price
      elements in selector order, or the sentinel; an accepted price holds
      `$`, is 3 to 29 characters long and names no cart, total, shipping, tax
      or free amount. */
  lemma PriceRule(p: Page)
    ensures Price(p, true) == FirstMatch(Flatten(PriceGroups(p)), PriceText).GetOr(NotFound)
    ensures Price(p, true) != NotFound ==>
              Contains(Price(p, true), "$") && 2 < |Price(p, true)| < 30 && !NamesNonPrice(Price(p, true))
  {
    var groups := PriceGroups(p);
    CharOccurs(NotFound, '$');
    assert '$' !in NotFound;
    SweepIsFirstMatch(NotFound, groups, PriceText);
    SweepOrigin(NotFound, NotFound, groups, PriceText);
    var v := Price(p, true);
    if v != NotFound {
      var i, k :| 0 <= i < |groups| && 0 <= k < |groups[i]| && PriceText(groups[i][k]) == Some(v);
      StripIdempotent(groups[i][k]);
    }
  }

  /** The scrape as the source runs it: one cascade after another, each
      writing into the row. */
  method ScrapeProductEnhanced(s: Session, item: string, loggedIn: bool) returns (r: Record)
    ensures r == Scrape(s, item, loggedIn)
  {
    var loaded := Navigate(s, ProductUrl(item));
    if loaded.Failure? {
      return Record(item, "Error: " + loaded.error, "Error", "Error", None, "Error");
    }
    var p := loaded.value;
    var name, status := NotFound, "Processing";
    var titleName := TitleName(p.title);
    if titleName.Some? {
      name, status := titleName.value, "Found";
    }
    var named := SweepGroups(name, NotFound, NameGroups(p), NameText);
    name := named.value;
    if named.hit {
      status := "Found";
    }
    var caseQty := NotFound;
    var fromSource, _ := FindFirst(CasePatterns, SearchIn(p.source));
    if fromSource.Some? {
      caseQty := fromSource.value;
    }
    var cased := SweepGroups(caseQty, NotFound, CaseGroups(p), FirstDigitRun);
    caseQty := cased.value;
    var price := if loggedIn then NotFound else "Login required";
    if loggedIn {
      var priced := SweepGroups(price, NotFound, PriceGroups(p), PriceText);
      price := priced.value;
    }
    return Record(item, name, caseQty, price, None, status);
  }

  // ---------------------------------------------------------------------------
  // main

  /** `main`: the CSV's identifiers, one login attempt, then one row per
      identifier in file order, scraped with or without prices. */
  method Run(s: Session, rows: seq<seq<string>>, email: string, password: string, after: Page)
    returns (results: seq<Record>)
    ensures |results| == |CsvItems(rows)|
    ensures forall i :: 0 <= i < |results| ==>
              results[i] == Scrape(s, CsvItems(rows)[i], LoggedIn(s, email, password, after))
  {
    var items := ReadItems(rows);
    var login := RunLogin(s, email, password, after);
    var loggedIn := login.Success? && login.value.signedIn;
    results := MapItems(items, item => Scrape(s, item, loggedIn));
  }
}
