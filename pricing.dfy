/** The price cascade several scrapers share: a sweep over price elements,
    and, only when it accepts nothing, the first dollar amount in the markup,
    re-prefixed with `$`. */
module Pricing {
  import opened Outcomes
  import opened Text
  import opened Patterns
  import opened Cascade

  /** A price element: any text holding `$`, taken stripped. */
  function DollarText(t: string): (r: Option<string>)
    ensures r.Some? <==> Contains(t, "$")
    ensures r.Some? ==> r.value == Strip(t) && Contains(r.value, "$")
  {
    StripKeeps(t, '$');
    if Contains(t, "$") then Some(Strip(t)) else None
  }

  /** The price the two stages give, `sentinel` when neither finds one. */
  function ElementsThenAmounts(groups: seq<seq<string>>, pick: string -> Option<string>, sentinel: string,
                               source: string, amounts: seq<Pattern>): string
  {
    var swept := Sweep(sentinel, sentinel, groups, pick).value;
    if swept != sentinel then swept else FirstMatch(amounts, AmountIn(source)).GetOr(sentinel)
  }

  /** With a sentinel that holds no `$` and an element filter that only
      accepts text holding `$`: the price is the first accepted element text
      across the selectors in order; when there is none, the first amount
      pattern that matches gives its amount with `$` put back; otherwise the
      sentinel stays.  Any price found holds `$`. */
  lemma ElementsThenAmountsRule(groups: seq<seq<string>>, pick: string -> Option<string>, sentinel: string,
                                source: string, amounts: seq<Pattern>)
    requires !Contains(sentinel, "$")
    requires forall e :: pick(e).Some? ==> Contains(pick(e).value, "$")
    ensures FirstMatch(Flatten(groups), pick).Some? ==>
              ElementsThenAmounts(groups, pick, sentinel, source, amounts) == FirstMatch(Flatten(groups), pick).value
    ensures FirstMatch(Flatten(groups), pick).None? ==>
              ElementsThenAmounts(groups, pick, sentinel, source, amounts) == FirstMatch(amounts, AmountIn(source)).GetOr(sentinel)
    ensures ElementsThenAmounts(groups, pick, sentinel, source, amounts) != sentinel ==>
              Contains(ElementsThenAmounts(groups, pick, sentinel, source, amounts), "$")
  {
    forall e ensures pick(e) != Some(sentinel) {
      if pick(e).Some? {
        assert Contains(pick(e).value, "$");
      }
    }
    SweepIsFirstMatch(sentinel, groups, pick);
    FirstMatchFrom(Flatten(groups), pick);
    FirstAmountIsDollar(source, amounts);
    var fallback := FirstMatch(amounts, AmountIn(source));
    if fallback.Some? {
      assert OccursAt(fallback.value, "$", 0);
    }
  }

  /** The two stages as the scrapers run them: the selector loop with its
      inner element loop, then, if the price is still the sentinel, the
      pattern loop. */
  method ScanElementsThenAmounts(groups: seq<seq<string>>, pick: string -> Option<string>, sentinel: string,
                                 source: string, amounts: seq<Pattern>) returns (price: string)
    ensures price == ElementsThenAmounts(groups, pick, sentinel, source, amounts)
  {
    price := sentinel;
    var i := 0;
    while i < |groups|
      invariant i <= |groups|
      invariant price == sentinel
      invariant Sweep(sentinel, sentinel, groups, pick).value == Sweep(price, sentinel, groups[i..], pick).value
    {
      assert groups[i..][1..] == groups[i + 1..];
      var found, _ := FindFirst(groups[i], pick);
      if found.Some? {
        price := found.value;
      }
      if price != sentinel {
        return;
      }
      i := i + 1;
    }
    var amount, _ := FindFirst(amounts, AmountIn(source));
    if amount.Some? {
      price := amount.value;
    }
  }
}
