/** The browser, abstractly.  A page is what the scripts read from a loaded
    document: its title, current URL, raw markup, text content, the texts of
    the elements each locator finds (in document order), and the text nodes
    of the parsed markup.  A session says what navigating to each URL loads;
    a URL it does not hold, or holds as a failure, makes navigation raise. */
module Dom {
  import opened Outcomes
  import opened Text
  import opened Cascade

  /** Selenium's `By` strategies. */
  datatype By = Id | Name | Css | XPath | TagName

  datatype Locator = Locator(how: By, value: string)

  /** A text node of the parsed markup: its text, the tag name of its parent
      element, and the text of that parent's next sibling element, if any. */
  datatype TextNode = TextNode(text: string, parent: string, siblingText: Option<string>)

  datatype Page = Page(
    title: string,                        // driver.title
    url: string,                          // driver.current_url
    source: string,                       // driver.page_source
    text: string,                         // the document's text content
    elements: map<Locator, seq<string>>,  // texts of the elements a locator finds
    nodes: seq<TextNode>)                 // text nodes, in document order

  datatype Session = Session(pages: map<string, Result<Page>>)

  /** `driver.get(url)` followed by reading the loaded page. */
  function Navigate(s: Session, url: string): (r: Result<Page>)
    ensures r.Success? ==> url in s.pages && s.pages[url] == r
    ensures url !in s.pages ==> r.Failure?
  {
    if url in s.pages then s.pages[url] else Failure("cannot reach " + url)
  }

  /** Selenium rejects the jQuery-only `:contains(` pseudo-class in CSS. */
  predicate InvalidSelector(l: Locator) {
    l.how == Css && Contains(l.value, ":contains(")
  }

  /** `driver.find_elements(by, value)`: the texts of all matching elements. */
  function FindElements(p: Page, l: Locator): (r: Result<seq<string>>)
    ensures r.Failure? <==> InvalidSelector(l)
  {
    if InvalidSelector(l) then Failure("invalid selector: " + l.value)
    else if l in p.elements then Success(p.elements[l])
    else Success([])
  }

  /** `driver.find_element(by, value)`: the first matching element, or a raise. */
  function FindElement(p: Page, l: Locator): (r: Result<string>)
    ensures r.Success? <==> (FindElements(p, l).Success? && FindElements(p, l).value != [])
    ensures r.Success? ==> r.value == FindElements(p, l).value[0]
  {
    match FindElements(p, l)
    case Failure(e) => Failure(e)
    case Success(es) => if es == [] then Failure("no such element: " + l.value) else Success(es[0])
  }

  /** A locator resolves: waiting for its presence succeeds. */
  predicate Present(p: Page, l: Locator) {
    FindElement(p, l).Success?
  }

  /** `find_elements` inside `try: ... except: continue`: a raise finds nothing. */
  function Texts(p: Page, l: Locator): (r: seq<string>)
    ensures InvalidSelector(l) ==> r == []
    ensures !InvalidSelector(l) && l in p.elements ==> r == p.elements[l]
  {
    match FindElements(p, l)
    case Failure(_) => []
    case Success(es) => es
  }

  /** The element lists of a selector cascade, one per locator. */
  function Groups(p: Page, locs: seq<Locator>): (r: seq<seq<string>>)
    ensures |r| == |locs|
    ensures forall i :: 0 <= i < |locs| ==> r[i] == Texts(p, locs[i])
  {
    seq(|locs|, i requires 0 <= i < |locs| => Texts(p, locs[i]))
  }

  /** `find_element` inside `try: ... except: continue`: the first element, or nothing. */
  function FirstOnly(p: Page, l: Locator): (r: seq<string>)
    ensures |r| <= 1
    ensures r != [] <==> Present(p, l)
    ensures r != [] ==> r[0] == FindElement(p, l).value
  {
    match FindElement(p, l)
    case Failure(_) => []
    case Success(t) => [t]
  }

  /** Locators of one strategy for a list of selector strings. */
  function With(how: By, sels: seq<string>): (r: seq<Locator>)
    ensures |r| == |sels|
    ensures forall i :: 0 <= i < |sels| ==> r[i] == Locator(how, sels[i])
  {
    seq(|sels|, i requires 0 <= i < |sels| => Locator(how, sels[i]))
  }

  /** A locator as a cascade rule: it yields itself when it resolves. */
  function PresentIn(p: Page): Locator -> Option<Locator> {
    l => if Present(p, l) then Some(l) else None
  }

  /** The first locator, in list order, that resolves on the page. */
  function FirstPresent(p: Page, locs: seq<Locator>): Option<Locator> {
    FirstMatch(locs, PresentIn(p))
  }

  /** `EC.any_of(presence_of_element_located(l) for l in locs)`. */
  predicate AnyPresent(p: Page, locs: seq<Locator>) {
    exists i :: 0 <= i < |locs| && Present(p, locs[i])
  }

  /** The chosen locator is the earliest one that resolves, and there is none
      exactly when no locator resolves. */
  lemma FirstPresentEarliest(p: Page, locs: seq<Locator>)
    ensures FirstPresent(p, locs).None? <==> !AnyPresent(p, locs)
    ensures FirstPresent(p, locs).Some? ==>
              exists i :: 0 <= i < |locs| && FirstPresent(p, locs) == Some(locs[i]) && Present(p, locs[i])
                          && forall j :: 0 <= j < i ==> !Present(p, locs[j])
  {
    FirstMatchIsWinner(locs, PresentIn(p));
    if FirstPresent(p, locs).None? {
      forall i | 0 <= i < |locs| ensures !Present(p, locs[i]) {
        assert PresentIn(p)(locs[i]).None?;
      }
    } else {
      var w := Winner(locs, PresentIn(p)).value;
      assert FirstPresent(p, locs) == PresentIn(p)(locs[w]);
      forall j | 0 <= j < w ensures !Present(p, locs[j]) {
        assert PresentIn(p)(locs[j]).None?;
      }
    }
  }

  /** The scan `_first_present` and the strategy loops run: each locator in
      turn, stopping at the first that resolves. */
  method FindPresent(p: Page, locs: seq<Locator>) returns (r: Option<Locator>)
    ensures r == FirstPresent(p, locs)
  {
    var i := 0;
    while i < |locs|
      invariant i <= |locs|
      invariant forall j :: 0 <= j < i ==> PresentIn(p)(locs[j]).None?
    {
      if Present(p, locs[i]) {
        FirstMatchSkip(locs, PresentIn(p), i);
        return Some(locs[i]);
      }
      i := i + 1;
    }
    FirstMatchIsWinner(locs, PresentIn(p));
    return None;
  }

  /** A selector as a text rule: the stripped text of its first element,
      when that is not blank (`el = find(sel); if el and el.text.strip()`). */
  function NonBlankIn(p: Page): Locator -> Option<string> {
    l => match FindElement(p, l)
         case Success(t) => if Strip(t) != [] then Some(Strip(t)) else None
         case Failure(_) => None
  }

  /** The first selector whose first element has non-blank text supplies that
      text, stripped; every earlier selector resolves to nothing or to blank
      text; there is no text exactly when no selector gives a non-blank one. */
  lemma FirstNonBlank(p: Page, locs: seq<Locator>)
    ensures FirstMatch(locs, NonBlankIn(p)).None? <==>
              forall i :: 0 <= i < |locs| ==> !Present(p, locs[i]) || Strip(FindElement(p, locs[i]).value) == []
    ensures FirstMatch(locs, NonBlankIn(p)).Some? ==>
              exists i :: 0 <= i < |locs| && Present(p, locs[i]) && Strip(FindElement(p, locs[i]).value) != []
                          && FirstMatch(locs, NonBlankIn(p)).value == Strip(FindElement(p, locs[i]).value)
                          && forall j :: 0 <= j < i ==> !Present(p, locs[j]) || Strip(FindElement(p, locs[j]).value) == []
  {
    FirstMatchIsWinner(locs, NonBlankIn(p));
    forall i | 0 <= i < |locs|
      ensures NonBlankIn(p)(locs[i]).None? <==> !Present(p, locs[i]) || Strip(FindElement(p, locs[i]).value) == []
    {
    }
    if FirstMatch(locs, NonBlankIn(p)).Some? {
      var w := Winner(locs, NonBlankIn(p)).value;
      assert NonBlankIn(p)(locs[w]) == FirstMatch(locs, NonBlankIn(p));
    }
  }

  /** The first `h1` element, by tag name. */
  const H1 := Locator(TagName, "h1")

  /** A title the site shows for a missing or failing page. */
  predicate TitleRejects(title: string) {
    Contains(Lower(title), "not found") || Contains(Lower(title), "error")
  }

  /** A candidate URL is accepted when it loads and its title does not
      reject it. */
  predicate Accepts(s: Session, url: string) {
    Navigate(s, url).Success? && !TitleRejects(Navigate(s, url).value.title)
  }

  /** A candidate URL as a cascade rule: it yields itself when accepted. */
  function Accepting(s: Session): string -> Option<string> {
    url => if Accepts(s, url) then Some(url) else None
  }

  /** The URL a candidate search settles on is one that is accepted. */
  lemma AcceptedIsAccepted(s: Session, urls: seq<string>)
    ensures FirstMatch(urls, Accepting(s)).Some? ==> Accepts(s, FirstMatch(urls, Accepting(s)).value)
  {
    FirstMatchFrom(urls, Accepting(s));
  }

  /** The candidate loop: load each URL in turn, skip one that fails to load
      or whose title rejects it, and stop at the first accepted. */
  method FindAccepted(s: Session, urls: seq<string>) returns (r: Option<string>)
    ensures r == FirstMatch(urls, Accepting(s))
  {
    var i := 0;
    while i < |urls|
      invariant i <= |urls|
      invariant forall j :: 0 <= j < i ==> Accepting(s)(urls[j]).None?
    {
      var loaded := Navigate(s, urls[i]);
      if loaded.Success? && !TitleRejects(loaded.value.title) {
        FirstMatchSkip(urls, Accepting(s), i);
        return Some(urls[i]);
      }
      i := i + 1;
    }
    FirstMatchIsWinner(urls, Accepting(s));
    return None;
  }

  /** `title.split(' | ')[0].strip() if ' | ' in title else fallback`. */
  function TitlePrefixOr(title: string, fallback: string): (r: string)
    ensures Contains(title, " | ") ==> r == Strip(BeforeFirst(title, " | ")) && !Contains(r, " | ")
    ensures !Contains(title, " | ") ==> r == fallback
  {
    if Contains(title, " | ") then
      var head := BeforeFirst(title, " | ");
      StripInside(head, " | ");
      Strip(head)
    else fallback
  }

  /** The stripped text of the first `h1` when it is not blank, else `fallback`. */
  function HeadingOr(p: Page, fallback: string): (r: string)
    ensures Present(p, H1) && Strip(FindElement(p, H1).value) != [] ==> r == Strip(FindElement(p, H1).value)
    ensures !(Present(p, H1) && Strip(FindElement(p, H1).value) != []) ==> r == fallback
  {
    match FindElement(p, H1)
    case Success(t) => if Strip(t) != [] then Strip(t) else fallback
    case Failure(_) => fallback
  }

  // ---------------------------------------------------------------------------
  // The site's URL shapes.

  const Site := "https://www.pacificgiftware.com"

  function ProductUrl(id: string): string { Site + "/product/" + id }
  function ItemUrl(id: string): string { Site + "/item/" + id }
  function ItemsUrl(id: string): string { Site + "/items/" + id }

  const LoginUrl := Site + "/login"

  /** The Material-UI login form: the email field `mui-2`, the password field
      `mui-3` and the button whose text holds 'Login'. */
  const MuiEmail := Locator(Id, "mui-2")
  const MuiPassword := Locator(Id, "mui-3")
  const LoginButton := Locator(XPath, "//button[contains(text(), 'Login')]")

  /** The login page loads and its three controls resolve. */
  predicate MuiFormResolves(s: Session) {
    && Navigate(s, LoginUrl).Success?
    && Present(Navigate(s, LoginUrl).value, MuiEmail)
    && Present(Navigate(s, LoginUrl).value, MuiPassword)
    && Present(Navigate(s, LoginUrl).value, LoginButton)
  }
}
