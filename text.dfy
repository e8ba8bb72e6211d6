/** The string operations the scripts apply to titles, element texts, markup
    and identifiers: Python's `str.strip`, `str.lower`, `in`, `split`,
    `replace`, `splitlines` and `isdigit`, written out on `seq<char>`. */
module Text {
  import opened Outcomes

  // ---------------------------------------------------------------------------
  // Character classes

  /** `str.isdigit`, restricted to the ASCII digits. */
  predicate IsDigit(c: char) { '0' <= c <= '9' }

  /** `str.isspace`: the characters Python treats as whitespace. */
  predicate IsSpace(c: char) {
    || ('\t' <= c <= '\r') || ('\U{1c}' <= c <= ' ')
    || c == '\U{85}' || c == '\U{a0}' || c == '\U{1680}' || ('\U{2000}' <= c <= '\U{200a}')
    || c == '\U{2028}' || c == '\U{2029}' || c == '\U{202f}' || c == '\U{205f}' || c == '\U{3000}'
  }

  /** The characters at which `str.splitlines` ends a line. */
  predicate IsLineBreak(c: char) {
    ('\n' <= c <= '\r') || ('\U{1c}' <= c <= '\U{1e}') || c == '\U{85}' || c == '\U{2028}' || c == '\U{2029}'
  }

  /** `str.isalnum`, restricted to ASCII letters and digits. */
  predicate IsAlnum(c: char) { IsDigit(c) || 'a' <= c <= 'z' || 'A' <= c <= 'Z' }

  predicate AllDigits(s: string) { forall k :: 0 <= k < |s| ==> IsDigit(s[k]) }

  /** `any(ch.isdigit() for ch in s)`. */
  predicate HasDigit(s: string) { exists k :: 0 <= k < |s| && IsDigit(s[k]) }

  // ---------------------------------------------------------------------------
  // Case

  function LowerChar(c: char): char {
    if 'A' <= c <= 'Z' then (c as int + 32) as char else c
  }

  /** `str.lower` on ASCII letters; every other character is kept. */
  function Lower(s: string): (r: string)
    ensures |r| == |s|
    ensures forall k :: 0 <= k < |s| ==> r[k] == LowerChar(s[k])
  {
    seq(|s|, k requires 0 <= k < |s| => LowerChar(s[k]))
  }

  // ---------------------------------------------------------------------------
  // Substrings

  predicate OccursAt(s: string, sub: string, i: int) {
    0 <= i && i + |sub| <= |s| && s[i..i + |sub|] == sub
  }

  /** The leftmost occurrence of `sub` in `s` at or after `i`. */
  function IndexFrom(s: string, sub: string, i: nat): (r: Option<nat>)
    requires i <= |s|
    decreases |s| - i
    ensures r.Some? ==> i <= r.value && OccursAt(s, sub, r.value)
    ensures r.Some? ==> forall j :: i <= j < r.value ==> !OccursAt(s, sub, j)
    ensures r.None? ==> forall j :: i <= j ==> !OccursAt(s, sub, j)
  {
    if OccursAt(s, sub, i) then Some(i)
    else if i + |sub| >= |s| then None
    else IndexFrom(s, sub, i + 1)
  }

  /** `s.find(sub)`, as an option. */
  function IndexOf(s: string, sub: string): Option<nat> {
    IndexFrom(s, sub, 0)
  }

  /** Python's `sub in s`. */
  function Contains(s: string, sub: string): (b: bool)
    ensures b <==> exists i :: OccursAt(s, sub, i)
  {
    IndexOf(s, sub).Some?
  }

  /** A character occurs as a substring only if it is one of the string's. */
  lemma CharOccurs(s: string, c: char)
    ensures Contains(s, [c]) ==> c in s
  {
    if Contains(s, [c]) {
      var i :| OccursAt(s, [c], i);
      assert s[i] == s[i..i + 1][0];
    }
  }

  /** `s.split(sep)[0]`: the text before the first `sep`, or all of `s`. */
  function BeforeFirst(s: string, sep: string): (r: string)
    ensures |r| <= |s| && r == s[..|r|]
    ensures Contains(s, sep) ==> OccursAt(s, sep, |r|)
    ensures !Contains(s, sep) ==> r == s
    ensures sep != [] ==> !Contains(r, sep)
  {
    match IndexOf(s, sep)
    case None => s
    case Some(i) =>
      assert forall j :: OccursAt(s[..i], sep, j) ==> OccursAt(s, sep, j) by {
        forall j | OccursAt(s[..i], sep, j) ensures OccursAt(s, sep, j) {
          assert s[..i][j..j + |sep|] == s[j..j + |sep|];
        }
      }
      s[..i]
  }

  /** The text after the first `sep`, when `sep` occurs. */
  function AfterFirst(s: string, sep: string): (r: Option<string>)
    ensures r.Some? <==> Contains(s, sep)
    ensures r.Some? ==> |BeforeFirst(s, sep)| + |sep| + |r.value| == |s|
    ensures r.Some? ==> r.value == s[|BeforeFirst(s, sep)| + |sep|..]
  {
    match IndexOf(s, sep)
    case None => None
    case Some(i) => Some(s[i + |sep|..])
  }

  /** `s.split(sep)[1]`: the part between the first and the second `sep`. */
  function SecondPart(s: string, sep: string): (r: Option<string>)
    ensures r.Some? <==> Contains(s, sep)
  {
    match AfterFirst(s, sep)
    case None => None
    case Some(rest) => Some(BeforeFirst(rest, sep))
  }

  /** `s.replace(pat, "")`: every occurrence, scanning left to right, removed. */
  function RemoveAll(s: string, pat: string): (r: string)
    requires pat != []
    decreases |s|
    ensures |r| <= |s|
  {
    if |s| < |pat| then s
    else if s[..|pat|] == pat then RemoveAll(s[|pat|..], pat)
    else [s[0]] + RemoveAll(s[1..], pat)
  }

  /** Where `pat` does not start the text, its first character is kept. */
  lemma RemoveAllKeepsHead(s: string, pat: string)
    requires pat != [] && |s| >= |pat| && !OccursAt(s, pat, 0)
    ensures RemoveAll(s, pat) == [s[0]] + RemoveAll(s[1..], pat)
  {
    assert s[..|pat|] != pat;
  }

  /** Where `pat` starts the text, it is dropped. */
  lemma RemoveAllDropsHead(s: string, pat: string)
    requires pat != [] && OccursAt(s, pat, 0)
    ensures RemoveAll(s, pat) == RemoveAll(s[|pat|..], pat)
  {
    assert s[..|pat|] == pat;
  }

  /** A text without `pat` is left as it is. */
  lemma {:induction false} RemoveAllAbsent(s: string, pat: string)
    requires pat != [] && forall j :: 0 <= j ==> !OccursAt(s, pat, j)
    ensures RemoveAll(s, pat) == s
    decreases |s|
  {
    if |s| >= |pat| {
      RemoveAllKeepsHead(s, pat);
      forall j | 0 <= j ensures !OccursAt(s[1..], pat, j) {
        if j + |pat| <= |s| - 1 {
          assert s[1..][j..j + |pat|] == s[j + 1..j + 1 + |pat|];
          assert !OccursAt(s, pat, j + 1);
        }
      }
      RemoveAllAbsent(s[1..], pat);
    }
  }

  /** `pat` occurs at `i` in `s` and nowhere before. */
  predicate LeftmostAt(s: string, pat: string, i: nat) {
    OccursAt(s, pat, i) && forall j :: 0 <= j < i ==> !OccursAt(s, pat, j)
  }

  /** At the leftmost occurrence `i` of `pat`, the text before it is kept,
      the occurrence is dropped, and the scan resumes after it. */
  lemma {:induction false} RemoveAllAt(s: string, pat: string, i: nat)
    requires pat != [] && LeftmostAt(s, pat, i)
    ensures RemoveAll(s, pat) == s[..i] + RemoveAll(s[i + |pat|..], pat)
    decreases i, 1
  {
    if i == 0 {
      assert OccursAt(s, pat, 0);
      RemoveAllDropsHead(s, pat);
      assert s[..0] + RemoveAll(s[|pat|..], pat) == RemoveAll(s[|pat|..], pat);
    } else {
      RemoveAllLater(s, pat, i);
    }
  }

  /** `RemoveAllAt` for an occurrence past the first character. */
  lemma {:induction false} RemoveAllLater(s: string, pat: string, i: nat)
    requires pat != [] && 0 < i && LeftmostAt(s, pat, i)
    ensures RemoveAll(s, pat) == s[..i] + RemoveAll(s[i + |pat|..], pat)
    decreases i, 0
  {
    assert |s| >= |pat| && !OccursAt(s, pat, 0);
    LeftmostInTail(s, pat, i);
    RemoveAllAt(s[1..], pat, i - 1);
    RemoveAllStep(s, pat, i);
  }

  /** One step of the scan before the leftmost occurrence at `i`: what the
      tail gives, with the first character put back in front. */
  lemma RemoveAllStep(s: string, pat: string, i: nat)
    requires pat != [] && 0 < i && i + |pat| <= |s| && !OccursAt(s, pat, 0)
    requires RemoveAll(s[1..], pat) == s[1..][..i - 1] + RemoveAll(s[1..][i - 1 + |pat|..], pat)
    ensures RemoveAll(s, pat) == s[..i] + RemoveAll(s[i + |pat|..], pat)
  {
    var t := s[1..];
    RemoveAllKeepsHead(s, pat);
    ConsPrefix(s, i, RemoveAll(s, pat), RemoveAll(t, pat), RemoveAll(t[i - 1 + |pat|..], pat));
    assert t[i - 1 + |pat|..] == s[i + |pat|..];
  }

  /** A text made of the first character and a prefix of the tail, then
      `rest`, is a prefix of the whole, then `rest`. */
  lemma ConsPrefix(s: string, i: nat, a: string, b: string, rest: string)
    requires 0 < i <= |s|
    requires a == [s[0]] + b && b == s[1..][..i - 1] + rest
    ensures a == s[..i] + rest
  {
    assert [s[0]] + s[1..][..i - 1] == s[..i];
  }

  /** Past a first character that does not start `pat`, the leftmost
      occurrence moves one place to the left. */
  lemma LeftmostInTail(s: string, pat: string, i: nat)
    requires 0 < i && LeftmostAt(s, pat, i)
    ensures LeftmostAt(s[1..], pat, i - 1)
  {
    var t := s[1..];
    assert t[i - 1..i - 1 + |pat|] == s[i..i + |pat|];
    forall j | 0 <= j < i - 1 ensures !OccursAt(t, pat, j) {
      if OccursAt(t, pat, j) {
        assert t[j..j + |pat|] == s[j + 1..j + 1 + |pat|];
        assert OccursAt(s, pat, j + 1);
      }
    }
  }

  /** `s.replace(pat, "")`: a text without `pat` is kept; otherwise the text
      before the first `pat` is kept, that `pat` is dropped and the rest is
      treated the same way, so at least `|pat|` characters go. */
  lemma {:induction false} RemoveAllRule(s: string, pat: string)
    requires pat != []
    ensures IndexOf(s, pat).None? ==> RemoveAll(s, pat) == s
    ensures IndexOf(s, pat).Some? ==>
              RemoveAll(s, pat) == s[..IndexOf(s, pat).value] + RemoveAll(s[IndexOf(s, pat).value + |pat|..], pat)
    ensures IndexOf(s, pat).Some? ==> |RemoveAll(s, pat)| <= |s| - |pat|
  {
    var found := IndexOf(s, pat);
    if found.None? {
      RemoveAllAbsent(s, pat);
    } else {
      var i := found.value;
      assert LeftmostAt(s, pat, i);
      RemoveAllAt(s, pat, i);
    }
  }

  // ---------------------------------------------------------------------------
  // Characters removed or kept

  /** `s.replace(c, "")` for a single character. */
  function Remove(s: string, c: char): (r: string)
    ensures multiset(r) == multiset(s)[c := 0]
    ensures c !in s ==> r == s
  {
    if s == [] then []
    else
      assert s == [s[0]] + s[1..];
      (if s[0] == c then [] else [s[0]]) + Remove(s[1..], c)
  }

  /** `"".join(ch for ch in s if ch.isdigit())`. */
  function Digits(s: string): (r: string)
    ensures AllDigits(r)
    ensures r == [] <==> forall k :: 0 <= k < |s| ==> !IsDigit(s[k])
    ensures AllDigits(s) ==> r == s
  {
    if s == [] then []
    else (if IsDigit(s[0]) then [s[0]] else []) + Digits(s[1..])
  }

  // ---------------------------------------------------------------------------
  // Whitespace

  /** `s.lstrip()`. */
  function LStrip(s: string): (r: string)
    ensures |r| <= |s| && r == s[|s| - |r|..]
    ensures r == [] || !IsSpace(r[0])
    ensures forall k :: 0 <= k < |s| - |r| ==> IsSpace(s[k])
  {
    if s != [] && IsSpace(s[0]) then LStrip(s[1..]) else s
  }

  /** `s.rstrip()`. */
  function RStrip(s: string): (r: string)
    ensures |r| <= |s| && r == s[..|r|]
    ensures r == [] || !IsSpace(r[|r| - 1])
    ensures forall k :: |r| <= k < |s| ==> IsSpace(s[k])
  {
    if s != [] && IsSpace(s[|s| - 1]) then RStrip(s[..|s| - 1]) else s
  }

  /** Where the whitespace of `s` starting at `i` ends. */
  function SpaceEnd(s: string, i: nat): (j: nat)
    requires i <= |s|
    decreases |s| - i
    ensures i <= j <= |s|
    ensures forall k :: i <= k < j ==> IsSpace(s[k])
    ensures j == |s| || !IsSpace(s[j])
  {
    if i < |s| && IsSpace(s[i]) then SpaceEnd(s, i + 1) else i
  }

  /** Where the whitespace of `s` ending at `j`, and starting no earlier
      than `lo`, starts. */
  function SpaceStart(s: string, lo: nat, j: nat): (e: nat)
    requires lo <= j <= |s|
    decreases j
    ensures lo <= e <= j
    ensures forall k :: e <= k < j ==> IsSpace(s[k])
    ensures e == lo || !IsSpace(s[e - 1])
  {
    if lo < j && IsSpace(s[j - 1]) then SpaceStart(s, lo, j - 1) else j
  }

  /** `s.strip()`: the text between the leading and the trailing whitespace. */
  function Strip(s: string): (r: string)
    ensures r == [] || (!IsSpace(r[0]) && !IsSpace(r[|r| - 1]))
    ensures var a := SpaceEnd(s, 0);
              && a + |r| <= |s| && r == s[a..a + |r|]
              && (forall k :: 0 <= k < a ==> IsSpace(s[k]))
              && (forall k :: a + |r| <= k < |s| ==> IsSpace(s[k]))
  {
    var a := SpaceEnd(s, 0);
    s[a..SpaceStart(s, a, |s|)]
  }

  /** Stripping twice strips nothing more. */
  lemma StripIdempotent(s: string)
    ensures Strip(Strip(s)) == Strip(s)
  {
    var r := Strip(s);
    if r != [] {
      assert SpaceEnd(r, 0) == 0;
      assert SpaceStart(r, 0, |r|) == |r|;
      assert r[0..|r|] == r;
    }
  }

  /** Stripping keeps every character that is not whitespace. */
  lemma StripKeeps(s: string, c: char)
    requires !IsSpace(c)
    ensures Contains(s, [c]) ==> Contains(Strip(s), [c])
  {
    KeptBetweenSpaces(s, SpaceEnd(s, 0), Strip(s), c);
  }

  /** A non-space character of `s` lies in any slice `r` of `s` outside
      which `s` holds only whitespace. */
  lemma KeptBetweenSpaces(s: string, a: nat, r: string, c: char)
    requires a + |r| <= |s| && r == s[a..a + |r|]
    requires forall k :: 0 <= k < a ==> IsSpace(s[k])
    requires forall k :: a + |r| <= k < |s| ==> IsSpace(s[k])
    requires !IsSpace(c)
    ensures Contains(s, [c]) ==> Contains(r, [c])
  {
    if Contains(s, [c]) {
      var i :| OccursAt(s, [c], i);
      assert s[i] == s[i..i + 1][0];
      assert a <= i < a + |r|;
      assert r[i - a] == c;
      assert r[i - a..i - a + 1] == [c];
      assert OccursAt(r, [c], i - a);
    }
  }

  /** What `s.strip()` keeps is a substring of `s`, so a text `s` does not
      contain is not contained in it either. */
  lemma StripInside(s: string, sub: string)
    ensures Contains(Strip(s), sub) ==> Contains(s, sub)
  {
    ContainsInSlice(s, SpaceEnd(s, 0), Strip(s), sub);
  }

  /** A substring of a slice `r` of `s` is a substring of `s`. */
  lemma ContainsInSlice(s: string, a: nat, r: string, sub: string)
    requires a + |r| <= |s| && r == s[a..a + |r|]
    ensures Contains(r, sub) ==> Contains(s, sub)
  {
    if Contains(r, sub) {
      var i :| OccursAt(r, sub, i);
      forall k | 0 <= k < |sub|
        ensures s[a + i..a + i + |sub|][k] == sub[k]
      {
        assert sub[k] == r[i..i + |sub|][k];
      }
      assert OccursAt(s, sub, a + i);
    }
  }

  /** The first character `s.strip()` keeps is a character of `s`. */
  lemma StripHead(s: string)
    ensures Strip(s) != [] ==> Contains(s, [Strip(s)[0]])
  {
    var r := Strip(s);
    if r != [] {
      var a := SpaceEnd(s, 0);
      assert s[a..a + 1] == [r[0]];
      assert OccursAt(s, [r[0]], a);
    }
  }

  /** Where a run of non-space characters starting at `i` ends. */
  function WordEnd(s: string, i: nat): (j: nat)
    requires i <= |s|
    decreases |s| - i
    ensures i <= j <= |s|
    ensures forall k :: i <= k < j ==> !IsSpace(s[k])
    ensures j == |s| || IsSpace(s[j])
  {
    if i < |s| && !IsSpace(s[i]) then WordEnd(s, i + 1) else i
  }

  /** `s.split()[0]`, or `None` where Python raises `IndexError`. */
  function FirstToken(s: string): (r: Option<string>)
    ensures r.None? <==> forall k :: 0 <= k < |s| ==> IsSpace(s[k])
    ensures r.Some? ==> r.value != [] && forall k :: 0 <= k < |r.value| ==> !IsSpace(r.value[k])
  {
    var t := LStrip(s);
    if t == [] then None else Some(t[..WordEnd(t, 0)])
  }

  // ---------------------------------------------------------------------------
  // Digit runs

  /** Where the run of digits starting at `i` ends. */
  function RunEnd(s: string, i: nat): (j: nat)
    requires i <= |s|
    decreases |s| - i
    ensures i <= j <= |s|
    ensures forall k :: i <= k < j ==> IsDigit(s[k])
    ensures j == |s| || !IsDigit(s[j])
  {
    if i < |s| && IsDigit(s[i]) then RunEnd(s, i + 1) else i
  }

  /** The first index at or after `i` that holds a digit. */
  function DigitFrom(s: string, i: nat): (r: Option<nat>)
    requires i <= |s|
    decreases |s| - i
    ensures r.Some? ==> i <= r.value < |s| && IsDigit(s[r.value])
    ensures r.Some? ==> forall k :: i <= k < r.value ==> !IsDigit(s[k])
    ensures r.None? ==> forall k :: i <= k < |s| ==> !IsDigit(s[k])
  {
    if i == |s| then None
    else if IsDigit(s[i]) then Some(i)
    else DigitFrom(s, i + 1)
  }

  /** `g` is the first maximal run of digits in `s`, and it starts at `i`. */
  predicate IsFirstRun(s: string, i: nat, g: string) {
    && i + |g| <= |s| && g == s[i..i + |g|]
    && g != [] && AllDigits(g)
    && (i + |g| == |s| || !IsDigit(s[i + |g|]))
    && (forall k :: 0 <= k < i ==> !IsDigit(s[k]))
  }

  /** `re.findall(r'\d+', s)[0]`, or `None` when `s` has no digit. */
  function FirstDigitRun(s: string): (r: Option<string>)
    ensures r.None? <==> forall k :: 0 <= k < |s| ==> !IsDigit(s[k])
    ensures r.Some? ==> exists i :: IsFirstRun(s, i, r.value)
  {
    match DigitFrom(s, 0)
    case None => None
    case Some(i) =>
      var j := RunEnd(s, i);
      assert IsFirstRun(s, i, s[i..j]);
      Some(s[i..j])
  }

  // ---------------------------------------------------------------------------
  // Lines

  /** The first index at or after `i` that holds a line break, or `|s|`. */
  function BreakFrom(s: string, i: nat): (j: nat)
    requires i <= |s|
    decreases |s| - i
    ensures i <= j <= |s|
    ensures forall k :: i <= k < j ==> !IsLineBreak(s[k])
    ensures j < |s| ==> IsLineBreak(s[j])
  {
    if i == |s| || IsLineBreak(s[i]) then i else BreakFrom(s, i + 1)
  }

  predicate NoLineBreak(s: string) { forall k :: 0 <= k < |s| ==> !IsLineBreak(s[k]) }

  /** `s.splitlines()`: `\r\n` ends one line, and a final break adds no empty line. */
  function Lines(s: string): (r: seq<string>)
    decreases |s|
    ensures s == [] <==> r == []
    ensures forall i :: 0 <= i < |r| ==> NoLineBreak(r[i])
    ensures NoLineBreak(s) && s != [] ==> r == [s]
  {
    if s == [] then []
    else
      var k := BreakFrom(s, 0);
      if k == |s| then [s]
      else
        var next := if s[k] == '\r' && k + 1 < |s| && s[k + 1] == '\n' then k + 2 else k + 1;
        [s[..k]] + Lines(s[next..])
  }
}
