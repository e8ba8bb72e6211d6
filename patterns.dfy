/** The regular expressions the scripts search markup and names with, e.g.
    `C/(\d+)`, `Case of (\d+)`, `(\d+) per case`, `Qty[:\s]+(\d+)` and
    `Price[:\s]*\$(\d+\.\d{2})`, as scanners.  Each such pattern is literal
    text and repeated classes, one capture group of digits, then optional
    literal text.  Every repeated class is disjoint from whatever may follow
    it, so greedy matching is the only way the pattern can match at a given
    start, and the scanner needs no backtracking. */
module Patterns {
  import opened Outcomes
  import opened Text
  import opened Cascade

  /** `\s` and `[:\s]`. */
  datatype Class = Space | ColonOrSpace

  datatype Piece =
    | Lit(text: string)                    // literal text
    | Repeat(cls: Class, atLeastOne: bool) // `cls*`, or `cls+` when atLeastOne

  /** The capture group: `(\d+)`, or `(\d+\.\d{2})`. */
  datatype Capture = Number | Money

  datatype Pattern = Pattern(lead: seq<Piece>, capture: Capture, trail: string, ignoreCase: bool)

  predicate InClass(c: char, cls: Class) {
    IsSpace(c) || (cls == ColonOrSpace && c == ':')
  }

  /** Character equality, ignoring ASCII case under `re.IGNORECASE`. */
  predicate SameChar(a: char, b: char, ignoreCase: bool) {
    if ignoreCase then LowerChar(a) == LowerChar(b) else a == b
  }

  predicate LitAt(s: string, i: nat, lit: string, ignoreCase: bool) {
    i + |lit| <= |s| && forall k :: 0 <= k < |lit| ==> SameChar(s[i + k], lit[k], ignoreCase)
  }

  /** Greedy repetition of a class from `i`. */
  function SkipClass(s: string, i: nat, cls: Class): (j: nat)
    requires i <= |s|
    decreases |s| - i
    ensures i <= j <= |s|
    ensures forall k :: i <= k < j ==> InClass(s[k], cls)
    ensures j == |s| || !InClass(s[j], cls)
  {
    if i < |s| && InClass(s[i], cls) then SkipClass(s, i + 1, cls) else i
  }

  /** Where the pieces before the group end, when they match from `i`. */
  function LeadEnd(s: string, i: nat, lead: seq<Piece>, ignoreCase: bool): (r: Option<nat>)
    requires i <= |s|
    decreases |lead|
    ensures r.Some? ==> i <= r.value <= |s|
  {
    if lead == [] then Some(i)
    else
      match lead[0]
      case Lit(t) =>
        if LitAt(s, i, t, ignoreCase) then LeadEnd(s, i + |t|, lead[1..], ignoreCase) else None
      case Repeat(cls, atLeastOne) =>
        var j := SkipClass(s, i, cls);
        if atLeastOne && j == i then None else LeadEnd(s, j, lead[1..], ignoreCase)
  }

  /** The text a capture group of kind `cap` can match. */
  predicate IsGroup(g: string, cap: Capture) {
    match cap
    case Number => g != [] && AllDigits(g)
    case Money =>
      && |g| >= 4 && g[|g| - 3] == '.'
      && AllDigits(g[..|g| - 3]) && AllDigits(g[|g| - 2..])
  }

  /** Where the capture group ends, when it matches from `i`. */
  function CaptureEnd(s: string, i: nat, cap: Capture): (r: Option<nat>)
    requires i <= |s|
    ensures r.Some? ==> i < r.value <= |s| && IsGroup(s[i..r.value], cap)
  {
    var j := RunEnd(s, i);
    if j == i then None
    else
      match cap
      case Number => Some(j)
      case Money =>
        if j + 3 <= |s| && s[j] == '.' && IsDigit(s[j + 1]) && IsDigit(s[j + 2]) then
          var g := s[i..j + 3];
          assert g[..|g| - 3] == s[i..j];
          assert g[|g| - 3] == s[j];
          assert g[|g| - 2..] == s[j + 1..j + 3];
          Some(j + 3)
        else None
  }

  /** The group of the match of `p` that starts at `i`, if there is one. */
  function MatchAt(s: string, i: nat, p: Pattern): (r: Option<string>)
    requires i <= |s|
    ensures r.Some? ==> IsGroup(r.value, p.capture) && Contains(s, r.value)
  {
    match LeadEnd(s, i, p.lead, p.ignoreCase)
    case None => None
    case Some(a) =>
      match CaptureEnd(s, a, p.capture)
      case None => None
      case Some(b) =>
        if LitAt(s, b, p.trail, p.ignoreCase) then
          assert OccursAt(s, s[a..b], a);
          Some(s[a..b])
        else None
  }

  /** The least index from `i` to `n` at which `ok` holds. */
  function LeastFrom(ok: nat -> bool, i: nat, n: nat): (r: Option<nat>)
    requires i <= n
    decreases n - i
    ensures r.Some? ==> i <= r.value <= n && ok(r.value)
    ensures r.Some? ==> forall j: nat :: i <= j < r.value ==> !ok(j)
    ensures r.None? ==> forall j: nat :: i <= j <= n ==> !ok(j)
  {
    if ok(i) then Some(i)
    else if i == n then None
    else LeastFrom(ok, i + 1, n)
  }

  /** The leftmost start at or after `i` where `p` matches. */
  function MatchFrom(s: string, p: Pattern, i: nat): (r: Option<nat>)
    requires i <= |s|
    ensures r.Some? ==> i <= r.value <= |s| && MatchAt(s, r.value, p).Some?
    ensures r.Some? ==> forall j :: i <= j < r.value ==> MatchAt(s, j, p).None?
    ensures r.None? ==> forall j :: i <= j <= |s| ==> MatchAt(s, j, p).None?
  {
    var ok := (j: nat) => j <= |s| && MatchAt(s, j, p).Some?;
    assert forall j: nat :: j <= |s| ==> (ok(j) <==> MatchAt(s, j, p).Some?);
    LeastFrom(ok, i, |s|)
  }

  /** `re.search(p, s).group(1)`, which is also `re.findall(p, s)[0]`. */
  function Search(s: string, p: Pattern): (r: Option<string>)
    ensures r.Some? ==> IsGroup(r.value, p.capture) && Contains(s, r.value)
    ensures r.None? <==> forall j :: 0 <= j <= |s| ==> MatchAt(s, j, p).None?
    ensures r.Some? ==> exists i :: 0 <= i <= |s| && MatchAt(s, i, p) == r
                                    && forall j :: 0 <= j < i ==> MatchAt(s, j, p).None?
  {
    match MatchFrom(s, p, 0)
    case None => None
    case Some(i) => MatchAt(s, i, p)
  }

  /** Searching a fixed text with each pattern of a cascade. */
  function SearchIn(s: string): Pattern -> Option<string> {
    p => Search(s, p)
  }

  /** A cascade of searches over patterns with one kind of capture group
      yields a group of that kind. */
  lemma {:induction false} FirstSearchIsGroup(s: string, pats: seq<Pattern>, cap: Capture)
    requires forall i :: 0 <= i < |pats| ==> pats[i].capture == cap
    ensures FirstMatch(pats, SearchIn(s)).Some? ==> IsGroup(FirstMatch(pats, SearchIn(s)).value, cap)
    decreases |pats|
  {
    if pats != [] && SearchIn(s)(pats[0]).None? {
      FirstSearchIsGroup(s, pats[1..], cap);
    }
  }

  /** The earliest pattern with a match supplies the value; no match from
      any pattern leaves nothing. */
  lemma FirstSearchRule(s: string, pats: seq<Pattern>)
    ensures forall i: nat :: WinsAt(pats, SearchIn(s), i) ==> FirstMatch(pats, SearchIn(s)) == Search(s, pats[i])
    ensures (forall i :: 0 <= i < |pats| ==> Search(s, pats[i]).None?) ==> FirstMatch(pats, SearchIn(s)).None?
  {
    FirstMatchIsWinner(pats, SearchIn(s));
    if forall i :: 0 <= i < |pats| ==> Search(s, pats[i]).None? {
      forall j | 0 <= j < |pats| ensures SearchIn(s)(pats[j]).None? {
        assert Search(s, pats[j]).None?;
      }
    }
  }

  /** `f"${m}"`: a captured amount with its dollar sign put back. */
  function Dollar(m: Option<string>): Option<string> {
    match m
    case None => None
    case Some(g) => Some("$" + g)
  }

  /** Searching a fixed text with each amount pattern, re-prefixing `$`. */
  function AmountIn(s: string): Pattern -> Option<string> {
    p => Dollar(Search(s, p))
  }

  /** A cascade of amount searches yields text that starts with `$`. */
  lemma {:induction false} FirstAmountIsDollar(s: string, pats: seq<Pattern>)
    ensures FirstMatch(pats, AmountIn(s)).Some? ==>
              |FirstMatch(pats, AmountIn(s)).value| > 1 && FirstMatch(pats, AmountIn(s)).value[0] == '$'
    decreases |pats|
  {
    if pats != [] {
      if AmountIn(s)(pats[0]).None? {
        FirstAmountIsDollar(s, pats[1..]);
      }
    }
  }

  // ---------------------------------------------------------------------------
  // The patterns the scripts share.

  /** `C/(\d+)`, case-sensitive (`re.search` on a name). */
  const CaseCode := Pattern([Lit("C/")], Number, "", false)
  /** `C/(\d+)` under `re.IGNORECASE`. */
  const CaseCodeAnyCase := Pattern([Lit("C/")], Number, "", true)
  /** `Case of (\d+)`, `re.IGNORECASE`. */
  const CaseOf := Pattern([Lit("Case of ")], Number, "", true)
  /** `Pack of (\d+)`, `re.IGNORECASE`. */
  const PackOf := Pattern([Lit("Pack of ")], Number, "", true)
  /** `(\d+) per case`, `re.IGNORECASE`. */
  const PerCase := Pattern([], Number, " per case", true)

  /** `\$(\d+\.\d{2})`. */
  const DollarAmount := Pattern([Lit("$")], Money, "", false)
  /** `<label>[:\s]*\$(\d+\.\d{2})`. */
  function LabelledAmount(tag: string): Pattern {
    Pattern([Lit(tag), Repeat(ColonOrSpace, false), Lit("$")], Money, "", false)
  }

  /** `<label>[:\s]*\$(\d+\.\d{2})` for each label, in order. */
  function LabelledAmounts(tags: seq<string>): (r: seq<Pattern>)
    ensures |r| == |tags|
    ensures forall k :: 0 <= k < |tags| ==> r[k] == LabelledAmount(tags[k])
  {
    seq(|tags|, k requires 0 <= k < |tags| => LabelledAmount(tags[k]))
  }

  /** Wherever a labelled amount matches, the bare dollar amount matches
      too, from the `$` on, with the same group. */
  lemma LabelledHasDollar(s: string, i: nat, tag: string)
    requires i <= |s|
    ensures var p := LabelledAmount(tag);
            MatchAt(s, i, p).Some? ==>
              exists j :: 0 <= j <= |s| && MatchAt(s, j, DollarAmount) == MatchAt(s, i, p)
  {
    var p := LabelledAmount(tag);
    if MatchAt(s, i, p).Some? {
      var j := LabelledLead(s, i, tag);
      SameLeadSameMatch(s, i, j, p, DollarAmount);
    }
  }

  /** The pieces of a labelled amount end where the `$` piece alone,
      started at the dollar sign, ends. */
  lemma LabelledLead(s: string, i: nat, tag: string) returns (j: nat)
    requires i <= |s|
    requires LeadEnd(s, i, LabelledAmount(tag).lead, false).Some?
    ensures j <= |s| && LeadEnd(s, j, DollarAmount.lead, false) == LeadEnd(s, i, LabelledAmount(tag).lead, false)
  {
    var lead := LabelledAmount(tag).lead;
    assert LitAt(s, i, tag, false);
    assert lead[1..] == [Repeat(ColonOrSpace, false), Lit("$")];
    j := SkipClass(s, i + |tag|, ColonOrSpace);
    assert lead[1..][1..] == [Lit("$")] == DollarAmount.lead;
  }

  /** Two patterns that differ only in their leading pieces match alike
      from starts where those pieces end at the same place. */
  lemma SameLeadSameMatch(s: string, i: nat, j: nat, p: Pattern, q: Pattern)
    requires i <= |s| && j <= |s|
    requires LeadEnd(s, i, p.lead, p.ignoreCase) == LeadEnd(s, j, q.lead, q.ignoreCase)
    requires p.capture == q.capture && p.trail == q.trail && p.ignoreCase == q.ignoreCase
    ensures MatchAt(s, i, p) == MatchAt(s, j, q)
  {
  }

  /** A labelled amount is found only where a bare dollar amount is. */
  lemma LabelledNeedsDollar(s: string, tag: string)
    ensures Search(s, LabelledAmount(tag)).Some? ==> Search(s, DollarAmount).Some?
  {
    var p := LabelledAmount(tag);
    if Search(s, p).Some? {
      var i :| 0 <= i <= |s| && MatchAt(s, i, p) == Search(s, p);
      LabelledHasDollar(s, i, tag);
    }
  }

  /** With no bare dollar amount in the text, no labelled amount is found. */
  lemma {:induction false} NoDollarNoLabelled(s: string, tags: seq<string>)
    requires Search(s, DollarAmount).None?
    ensures FirstMatch(LabelledAmounts(tags), AmountIn(s)).None?
    decreases |tags|
  {
    if tags != [] {
      LabelledNeedsDollar(s, tags[0]);
      assert LabelledAmounts(tags)[1..] == LabelledAmounts(tags[1..]);
      NoDollarNoLabelled(s, tags[1..]);
    }
  }

  /** In a cascade that tries the bare dollar amount first and labelled
      amounts after it, the labelled ones never decide: the result is the
      first dollar amount in the text. */
  lemma AmountsDecidedByDollar(s: string, tags: seq<string>)
    ensures FirstMatch([DollarAmount] + LabelledAmounts(tags), AmountIn(s)) == Dollar(Search(s, DollarAmount))
  {
    var pats := [DollarAmount] + LabelledAmounts(tags);
    assert pats[1..] == LabelledAmounts(tags);
    if Search(s, DollarAmount).None? {
      NoDollarNoLabelled(s, tags);
    }
  }

  /** The case-quantity cascade several scrapers share: `C/(\d+)` in the
      product name, else the first page-source pattern with a match, else
      the default. */
  function CodeThenSource(name: string, source: string, pats: seq<Pattern>, fallback: string): string {
    match Search(name, CaseCode)
    case Some(c) => c
    case None => FirstMatch(pats, SearchIn(source)).GetOr(fallback)
  }

  /** `C/N` in the name takes priority over the page; only without it do the
      page patterns decide, the earliest matching one winning; with no match
      anywhere the default stays; whatever is found is a run of digits. */
  lemma CodeThenSourceRule(name: string, source: string, pats: seq<Pattern>, fallback: string)
    requires forall i :: 0 <= i < |pats| ==> pats[i].capture == Number
    ensures Search(name, CaseCode).Some? ==> CodeThenSource(name, source, pats, fallback) == Search(name, CaseCode).value
    ensures Search(name, CaseCode).None? ==>
              forall i: nat :: WinsAt(pats, SearchIn(source), i) ==>
                CodeThenSource(name, source, pats, fallback) == Search(source, pats[i]).value
    ensures Search(name, CaseCode).None? && (forall i :: 0 <= i < |pats| ==> Search(source, pats[i]).None?)
            ==> CodeThenSource(name, source, pats, fallback) == fallback
    ensures CodeThenSource(name, source, pats, fallback) != fallback ==>
              CodeThenSource(name, source, pats, fallback) != [] && AllDigits(CodeThenSource(name, source, pats, fallback))
  {
    FirstMatchIsWinner(pats, SearchIn(source));
    FirstSearchIsGroup(source, pats, Number);
    if Search(name, CaseCode).None? {
      forall i: nat | WinsAt(pats, SearchIn(source), i)
        ensures CodeThenSource(name, source, pats, fallback) == Search(source, pats[i]).value
      {
        assert SearchIn(source)(pats[i]) == Search(source, pats[i]);
      }
      if forall i :: 0 <= i < |pats| ==> Search(source, pats[i]).None? {
        forall j | 0 <= j < |pats| ensures SearchIn(source)(pats[j]).None? {
          assert Search(source, pats[j]).None?;
        }
      }
    }
  }
}
