/** The comprehensive filler: finds each item's page among two candidate
    URLs, reads its name, case quantity and (when logged in) price, and
    fills one row per identifier of a spreadsheet column. */
module ComprehensiveFiller {
  import opened Outcomes
  import opened Text
  import opened Patterns
  import opened Cascade
  import opened Dom
  import opened Records
  import opened Pricing

  // ---------------------------------------------------------------------------
  // The page search

  /** The URLs tried for an identifier, product path first. */
  function Candidates(item: string): seq<string> {
    [ProductUrl(CleanId(item)), ItemUrl(CleanId(item))]
  }

  /** `working_url`: the first candidate that loads with an accepted title. */
  function WorkingUrl(item: string, s: Session): Option<string> {
    FirstMatch(Candidates(item), Accepting(s))
  }

  /** The product path wins when accepted; the item path is used only when the
      product path is not; a page that fails to load is skipped; and there is
      no working URL exactly when neither is accepted. */
  lemma WorkingUrlOrder(item: string, s: Session)
    ensures Accepts(s, ProductUrl(CleanId(item))) ==> WorkingUrl(item, s) == Some(ProductUrl(CleanId(item)))
    ensures !Accepts(s, ProductUrl(CleanId(item))) && Accepts(s, ItemUrl(CleanId(item))) ==>
              WorkingUrl(item, s) == Some(ItemUrl(CleanId(item)))
    ensures WorkingUrl(item, s).None? <==> !Accepts(s, ProductUrl(CleanId(item))) && !Accepts(s, ItemUrl(CleanId(item)))
    ensures WorkingUrl(item, s).Some? ==> Accepts(s, WorkingUrl(item, s).value)
  {
    var c := Candidates(item);
    FirstMatchIsWinner(c, Accepting(s));
    assert Accepting(s)(c[0]).Some? <==> Accepts(s, ProductUrl(CleanId(item)));
    assert Accepting(s)(c[1]).Some? <==> Accepts(s, ItemUrl(CleanId(item)));
    if !Accepts(s, ProductUrl(CleanId(item))) && Accepts(s, ItemUrl(CleanId(item))) {
      assert WinsAt(c, Accepting(s), 1);
    }
    if Accepts(s, ProductUrl(CleanId(item))) {
      assert WinsAt(c, Accepting(s), 0);
    }
  }

  /** The row when neither candidate is accepted. */
  function NotFoundRecord(item: string): Record {
    Record(item, "Item not found", "N/A", "N/A", Some("Item not available"), "Not Found")
  }

  // ---------------------------------------------------------------------------
  // Name

  const NameUnavailable := "Name not available"

  /** The name read off the page: the title's text before the first " | ",
      stripped, overridden by a non-blank `h1`. */
  function ProductName(p: Page): string {
    HeadingOr(p, TitlePrefixOr(p.title, NameUnavailable))
  }

  /** A non-blank `h1` decides the name; otherwise a title holding " | "
      gives its stripped first part, which holds no " | "; otherwise the
      name is the default. */
  lemma ProductNameRule(p: Page)
    ensures Present(p, H1) && Strip(FindElement(p, H1).value) != [] ==> ProductName(p) == Strip(FindElement(p, H1).value)
    ensures !(Present(p, H1) && Strip(FindElement(p, H1).value) != []) ==>
              (Contains(p.title, " | ") ==> ProductName(p) == Strip(BeforeFirst(p.title, " | ")) && !Contains(ProductName(p), " | "))
              && (!Contains(p.title, " | ") ==> ProductName(p) == NameUnavailable)
  {
  }

  // ---------------------------------------------------------------------------
  // Case quantity

  const CaseUnspecified := "Not specified"

  /** `Quantity[:\s]*(\d+)` under `re.IGNORECASE`. */
  const QuantityAnyCase := Pattern([Lit("Quantity"), Repeat(ColonOrSpace, false)], Number, "", true)

  /** The page-source patterns, in the order they are tried. */
  const SourceCasePatterns := [CaseCodeAnyCase, CaseOf, PackOf, PerCase, QuantityAnyCase]

  /** The case quantity: `C/N` in the name wins, then the first page-source
      pattern with a match, then the default. */
  function CaseQuantity(p: Page, name: string): string {
    CodeThenSource(name, p.source, SourceCasePatterns, CaseUnspecified)
  }

  /** `C/N` in the name takes priority over the page; only without it do the
      page patterns decide, the earliest matching one winning; whatever is
      found is a run of digits. */
  lemma CaseQuantityRule(p: Page, name: string)
    ensures Search(name, CaseCode).Some? ==> CaseQuantity(p, name) == Search(name, CaseCode).value
    ensures Search(name, CaseCode).None? ==>
              forall i: nat :: WinsAt(SourceCasePatterns, SearchIn(p.source), i) ==>
                CaseQuantity(p, name) == Search(p.source, SourceCasePatterns[i]).value
    ensures Search(name, CaseCode).None? && (forall i :: 0 <= i < |SourceCasePatterns| ==> Search(p.source, SourceCasePatterns[i]).None?)
            ==> CaseQuantity(p, name) == CaseUnspecified
    ensures CaseQuantity(p, name) != CaseUnspecified ==> CaseQuantity(p, name) != [] && AllDigits(CaseQuantity(p, name))
  {
    SourceCaseNumbers();
    CodeThenSourceRule(name, p.source, SourceCasePatterns, CaseUnspecified);
  }

  /** Every page-source case pattern captures a number. */
  lemma SourceCaseNumbers()
    ensures forall i :: 0 <= i < |SourceCasePatterns| ==> SourceCasePatterns[i].capture == Number
  {
  }

  // ---------------------------------------------------------------------------
  // Unit price

  const PriceSentinel := "Login required for pricing"

  const PriceCss := ["span.price", ".price-display", "[data-testid='price']", ".product-price",
                     ".wholesale-price", ".price", "span:contains('$')"]

  function PriceGroups(p: Page): seq<seq<string>> {
    Groups(p, With(Css, PriceCss))
  }

  /** `\$(\d+\.\d{2})`, `Price[:\s]*\$(\d+\.\d{2})` and
      `Wholesale[:\s]*\$(\d+\.\d{2})`, case-sensitive. */
  const AmountPatterns := [DollarAmount] + LabelledAmounts(["Price", "Wholesale"])

  /** The price: the sentinel unless logged in; then the element sweep, and
      the page-source amounts only when the sweep found nothing. */
  function UnitPrice(p: Page, withLogin: bool): string {
    if !withLogin then PriceSentinel
    else ElementsThenAmounts(PriceGroups(p), DollarText, PriceSentinel, p.source, AmountPatterns)
  }

  /** The sentinel never holds `$`. */
  lemma SentinelHasNoDollar()
    ensures !Contains(PriceSentinel, "$")
  {
    CharOccurs(PriceSentinel, '$');
    assert '$' !in PriceSentinel;
  }

  /** Without login the price is the sentinel.  Logged in, it is the first
      element text holding `$` across the selectors in order; when there is
      none, the first amount pattern that matches the markup gives the amount
      with `$` put back, which is always the first bare `$` amount, since the
      labelled patterns only match where it does; otherwise the sentinel
      stays.  Any price found holds `$`. */
  lemma UnitPriceRule(p: Page, withLogin: bool)
    ensures !withLogin ==> UnitPrice(p, withLogin) == PriceSentinel
    ensures withLogin && FirstMatch(Flatten(PriceGroups(p)), DollarText).Some? ==>
              UnitPrice(p, withLogin) == FirstMatch(Flatten(PriceGroups(p)), DollarText).value
    ensures withLogin && FirstMatch(Flatten(PriceGroups(p)), DollarText).None? ==>
              UnitPrice(p, withLogin) == FirstMatch(AmountPatterns, AmountIn(p.source)).GetOr(PriceSentinel)
              && UnitPrice(p, withLogin) == Dollar(Search(p.source, DollarAmount)).GetOr(PriceSentinel)
    ensures UnitPrice(p, withLogin) != PriceSentinel ==> Contains(UnitPrice(p, withLogin), "$")
  {
    SentinelHasNoDollar();
    AmountsDecidedByDollar(p.source, ["Price", "Wholesale"]);
    ElementsThenAmountsRule(PriceGroups(p), DollarText, PriceSentinel, p.source, AmountPatterns);
  }

  // ---------------------------------------------------------------------------
  // extract_comprehensive_data

  /** The row for the page found at `url`. */
  function PageRecord(p: Page, item: string, url: string, withLogin: bool): Record {
    var name := ProductName(p);
    Record(item, name, CaseQuantity(p, name), UnitPrice(p, withLogin), Some(url), "Found")
  }

  /** The row for an identifier: the not-found row when no candidate is
      accepted, else the row read off the working URL's page, which records
      that URL. */
  function Extract(s: Session, item: string, withLogin: bool): (r: Record)
    ensures r.item == item
    ensures WorkingUrl(item, s).None? ==>
              r == Record(item, "Item not found", "N/A", "N/A", Some("Item not available"), "Not Found")
    ensures WorkingUrl(item, s).Some? ==>
              Accepts(s, WorkingUrl(item, s).value)
              && r == PageRecord(Navigate(s, WorkingUrl(item, s).value).value, item, WorkingUrl(item, s).value, withLogin)
    ensures WorkingUrl(item, s).Some? ==> r.status == "Found" && r.url == WorkingUrl(item, s)
    ensures r.status == "Found" <==> WorkingUrl(item, s).Some?
  {
    AcceptedIsAccepted(s, Candidates(item));
    match WorkingUrl(item, s)
    case None => NotFoundRecord(item)
    case Some(url) => PageRecord(Navigate(s, url).value, item, url, withLogin)
  }

  /** Reading the found page: the name, the case patterns, the price loops. */
  method ReadPage(p: Page, item: string, url: string, withLogin: bool) returns (r: Record)
    ensures r == PageRecord(p, item, url, withLogin)
  {
    var name := ProductName(p);
    var caseQty := CaseUnspecified;
    var inName := Search(name, CaseCode);
    if inName.Some? {
      caseQty := inName.value;
    } else {
      var fromSource, _ := FindFirst(SourceCasePatterns, SearchIn(p.source));
      if fromSource.Some? {
        caseQty := fromSource.value;
      }
    }
    var price := PriceSentinel;
    if withLogin {
      price := ScanElementsThenAmounts(PriceGroups(p), DollarText, PriceSentinel, p.source, AmountPatterns);
    }
    return Record(item, name, caseQty, price, Some(url), "Found");
  }

  /** `extract_comprehensive_data` as the source runs it. */
  method ExtractComprehensiveData(s: Session, item: string, withLogin: bool) returns (r: Record)
    ensures r == Extract(s, item, withLogin)
  {
    var working := FindAccepted(s, Candidates(item));
    if working.None? {
      return NotFoundRecord(item);
    }
    AcceptedIsAccepted(s, Candidates(item));
    r := ReadPage(Navigate(s, working.value).value, item, working.value, withLogin);
  }

  // ---------------------------------------------------------------------------
  // fill_comprehensive_data

  const ItemAliases := ["Item Number", "Item", "Item#", "Item #", "SKU", "Product Code", "Number"]

  /** A column whose lower-cased name contains some lower-cased alias. */
  function AliasColumn(col: string): (r: Option<string>)
    ensures r.Some? <==> exists a :: a in ItemAliases && Contains(Lower(col), Lower(a))
    ensures r.Some? ==> r.value == col
  {
    if exists a :: a in ItemAliases && Contains(Lower(col), Lower(a)) then Some(col) else None
  }

  /** `item_column`: the first column, in file order, matching an alias. */
  function ItemColumn(columns: seq<string>): Option<string> {
    FirstMatch(columns, AliasColumn)
  }

  /** The item column is the earliest column matching an alias, and there is
      none exactly when no column matches one. */
  lemma ItemColumnRule(columns: seq<string>)
    ensures ItemColumn(columns).None? <==> forall i :: 0 <= i < |columns| ==> AliasColumn(columns[i]).None?
    ensures ItemColumn(columns).Some? ==>
              exists i :: 0 <= i < |columns| && columns[i] == ItemColumn(columns).value
                          && AliasColumn(columns[i]).Some?
                          && forall j :: 0 <= j < i ==> AliasColumn(columns[j]).None?
  {
    FirstMatchIsWinner(columns, AliasColumn);
    if ItemColumn(columns).Some? {
      var w := Winner(columns, AliasColumn).value;
      assert AliasColumn(columns[w]) == ItemColumn(columns);
    }
  }

  /** The filler's main loop: no column means nothing is scraped; otherwise
      one row per cell of the column, as text, in order. */
  method FillComprehensiveData(s: Session, t: Table, loggedIn: bool) returns (results: Option<seq<Record>>)
    ensures results.None? <==> ItemColumn(t.columns).None?
    ensures results.Some? ==>
              var items := ColumnAsText(t, ItemColumn(t.columns).value);
              |results.value| == |items| && forall i :: 0 <= i < |items| ==> results.value[i] == Extract(s, items[i], loggedIn)
  {
    var col, _ := FindFirst(t.columns, AliasColumn);
    if col.None? {
      return None;
    }
    var items := ColumnAsText(t, col.value);
    var rows := MapItems(items, item => Extract(s, item, loggedIn));
    return Some(rows);
  }
}
