/** The "first match wins" combinator every cascade in the scripts is an
    instance of, in two shapes:
    - FirstMatch: try rules in order, stop at the first that yields a value
      (`for rule in rules: try: v = rule(); break; except: continue`);
    - Sweep: per selector, take the first element a filter accepts, then stop
      once the value is no longer the sentinel the loop started from
      (`for sel in sels: for el in find(sel): if ok(el): v = f(el); break`
       followed by `if v != sentinel: break`). */
module Cascade {
  import opened Outcomes

  /** The value of the first rule, in list order, that yields one. */
  function FirstMatch<T, V>(rules: seq<T>, pick: T -> Option<V>): Option<V>
    decreases |rules|
  {
    if rules == [] then None
    else if pick(rules[0]).Some? then pick(rules[0])
    else FirstMatch(rules[1..], pick)
  }

  /** Rule `i` yields a value and no earlier rule does. */
  predicate WinsAt<T, V>(rules: seq<T>, pick: T -> Option<V>, i: nat) {
    i < |rules| && pick(rules[i]).Some? && forall j :: 0 <= j < i ==> pick(rules[j]).None?
  }

  /** Which rule supplied the value: the cascade's strategy source. */
  function Winner<T, V>(rules: seq<T>, pick: T -> Option<V>): (r: Option<nat>)
    decreases |rules|
    ensures r.Some? ==> WinsAt(rules, pick, r.value)
    ensures r.None? <==> forall j :: 0 <= j < |rules| ==> pick(rules[j]).None?
  {
    if rules == [] then None
    else if pick(rules[0]).Some? then Some(0)
    else
      match Winner(rules[1..], pick)
      case None => None
      case Some(i) => Some(i + 1)
  }

  /** The cascade's value is the winning rule's value, and nothing when no rule
      yields one; a rule after the winner never decides it. */
  lemma {:induction false} FirstMatchIsWinner<T, V>(rules: seq<T>, pick: T -> Option<V>)
    ensures FirstMatch(rules, pick).None? <==> forall j :: 0 <= j < |rules| ==> pick(rules[j]).None?
    ensures forall i: nat :: WinsAt(rules, pick, i) ==> FirstMatch(rules, pick) == pick(rules[i])
    decreases |rules|
  {
    if rules != [] && pick(rules[0]).None? {
      FirstMatchIsWinner(rules[1..], pick);
      forall i: nat | WinsAt(rules, pick, i) ensures FirstMatch(rules, pick) == pick(rules[i]) {
        assert WinsAt(rules[1..], pick, i - 1);
      }
    }
  }

  /** The cascade's value is the value of one of its rules. */
  lemma FirstMatchFrom<T, V>(rules: seq<T>, pick: T -> Option<V>)
    ensures FirstMatch(rules, pick).Some? ==>
              exists i :: 0 <= i < |rules| && pick(rules[i]) == FirstMatch(rules, pick)
  {
    FirstMatchIsWinner(rules, pick);
    if FirstMatch(rules, pick).Some? {
      var w := Winner(rules, pick).value;
      assert pick(rules[w]) == FirstMatch(rules, pick);
    }
  }

  /** Rules that all fail can be dropped from the front of a cascade. */
  lemma {:induction false} FirstMatchSkip<T, V>(rules: seq<T>, pick: T -> Option<V>, k: nat)
    requires k <= |rules|
    requires forall j :: 0 <= j < k ==> pick(rules[j]).None?
    ensures FirstMatch(rules, pick) == FirstMatch(rules[k..], pick)
    decreases k
  {
    if k > 0 {
      assert rules[1..][k - 1..] == rules[k..];
      FirstMatchSkip(rules[1..], pick, k - 1);
    }
  }

  /** A cascade over two rule lists is the first list's cascade, then the second's. */
  lemma {:induction false} FirstMatchAppend<T, V>(a: seq<T>, b: seq<T>, pick: T -> Option<V>)
    ensures FirstMatch(a + b, pick) == if FirstMatch(a, pick).Some? then FirstMatch(a, pick) else FirstMatch(b, pick)
    decreases |a|
  {
    if a == [] {
      assert a + b == b;
    } else {
      assert (a + b)[0] == a[0];
      assert (a + b)[1..] == a[1..] + b;
      FirstMatchAppend(a[1..], b, pick);
    }
  }

  /** The loop the scripts write for a cascade: try each rule in order and stop
      at the first that yields a value.  `tried` counts the rules evaluated. */
  method FindFirst<T, V>(rules: seq<T>, pick: T -> Option<V>) returns (r: Option<V>, tried: nat)
    ensures r == FirstMatch(rules, pick)
    ensures tried == match Winner(rules, pick) case Some(i) => i + 1 case None => |rules|
  {
    var k := 0;
    while k < |rules|
      invariant k <= |rules|
      invariant forall j :: 0 <= j < k ==> pick(rules[j]).None?
    {
      var v := pick(rules[k]);
      if v.Some? {
        FirstMatchSkip(rules, pick, k);
        assert WinsAt(rules, pick, k);
        return v, k + 1;
      }
      k := k + 1;
    }
    FirstMatchIsWinner(rules, pick);
    return None, |rules|;
  }

  /** The values of every rule that yields one, in rule order: the loops that
      append `v` for each row where a rule applies. */
  function Collect<T, V>(rules: seq<T>, pick: T -> Option<V>): (r: seq<V>)
    decreases |rules|
    ensures |r| <= |rules|
  {
    if rules == [] then []
    else (match pick(rules[0]) case Some(v) => [v] case None => []) + Collect(rules[1..], pick)
  }

  /** Every value a rule yields is collected, and every collected value is one
      a rule yields. */
  lemma {:induction false} CollectExactly<T, V>(rules: seq<T>, pick: T -> Option<V>)
    ensures forall i :: 0 <= i < |rules| && pick(rules[i]).Some? ==> pick(rules[i]).value in Collect(rules, pick)
    ensures forall x :: x in Collect(rules, pick) ==> exists i :: 0 <= i < |rules| && pick(rules[i]) == Some(x)
    decreases |rules|
  {
    if rules != [] {
      var rest := rules[1..];
      CollectExactly(rest, pick);
      var head: seq<V> := match pick(rules[0]) case Some(v) => [v] case None => [];
      assert Collect(rules, pick) == head + Collect(rest, pick);
      forall i | 0 <= i < |rules| && pick(rules[i]).Some? ensures pick(rules[i]).value in Collect(rules, pick) {
        if i > 0 {
          assert rest[i - 1] == rules[i];
        }
      }
      forall x | x in Collect(rules, pick)
        ensures exists i :: 0 <= i < |rules| && pick(rules[i]) == Some(x)
      {
        if x !in head {
          var i :| 0 <= i < |rest| && pick(rest[i]) == Some(x);
          assert rest[i] == rules[i + 1];
        }
      }
    }
  }

  /** The first value collected is the cascade's value: the `[0]` of an
      appended list is the first rule that applies. */
  lemma {:induction false} CollectHead<T, V>(rules: seq<T>, pick: T -> Option<V>)
    ensures Collect(rules, pick) == [] <==> FirstMatch(rules, pick).None?
    ensures Collect(rules, pick) != [] ==> Collect(rules, pick)[0] == FirstMatch(rules, pick).value
    decreases |rules|
  {
    if rules != [] && pick(rules[0]).None? {
      CollectHead(rules[1..], pick);
    }
  }

  /** The appending loop itself. */
  method CollectLoop<T, V>(rules: seq<T>, pick: T -> Option<V>) returns (r: seq<V>)
    ensures r == Collect(rules, pick)
  {
    r := [];
    var i := 0;
    while i < |rules|
      invariant i <= |rules|
      invariant r + Collect(rules[i..], pick) == Collect(rules, pick)
    {
      var head: seq<V> := if pick(rules[i]).Some? then [pick(rules[i]).value] else [];
      CollectStep(rules, i, pick);
      AppendAssoc(r, head, Collect(rules[i + 1..], pick));
      r := r + head;
      i := i + 1;
    }
    assert r + [] == r;
  }

  /** One step of the appending loop: the values collected from `i` on are
      those of rule `i`, then those from `i + 1` on. */
  lemma CollectStep<T, V>(rules: seq<T>, i: nat, pick: T -> Option<V>)
    requires i < |rules|
    ensures Collect(rules[i..], pick) ==
              (if pick(rules[i]).Some? then [pick(rules[i]).value] else []) + Collect(rules[i + 1..], pick)
  {
    assert rules[i..][1..] == rules[i + 1..];
  }

  lemma AppendAssoc<V>(a: seq<V>, b: seq<V>, c: seq<V>)
    ensures (a + b) + c == a + (b + c)
  {
  }

  /** The rule lists of each item, one after the other: the rules of nested
      `for` loops in the order the loops visit them. */
  function FlatMap<X, Y>(xs: seq<X>, f: X -> seq<Y>): seq<Y>
    decreases |xs|
  {
    if xs == [] then [] else f(xs[0]) + FlatMap(xs[1..], f)
  }

  /** A rule of a nested loop is a rule of one of its items. */
  lemma {:induction false} FlatMapMember<X, Y>(xs: seq<X>, f: X -> seq<Y>, y: Y)
    ensures y in FlatMap(xs, f) <==> exists i :: 0 <= i < |xs| && y in f(xs[i])
    decreases |xs|
  {
    if xs != [] {
      FlatMapMember(xs[1..], f, y);
      if y in FlatMap(xs[1..], f) {
        var i :| 0 <= i < |xs[1..]| && y in f(xs[1..][i]);
        assert xs[1..][i] == xs[i + 1];
      }
      if exists i :: 0 <= i < |xs| && y in f(xs[i]) {
        var i :| 0 <= i < |xs| && y in f(xs[i]);
        if i > 0 {
          assert xs[1..][i - 1] == xs[i];
        }
      }
    }
  }

  /** An item as a rule: the cascade over its own rules. */
  function Nested<X, Y, V>(f: X -> seq<Y>, pick: Y -> Option<V>): X -> Option<V> {
    x => FirstMatch(f(x), pick)
  }

  /** A cascade over the rules of nested loops is the cascade over the items,
      each item tried through its own rules: stopping at the first match
      anywhere is stopping the outer loop at the first item with one. */
  lemma {:induction false} FirstMatchFlatMap<X, Y, V>(xs: seq<X>, f: X -> seq<Y>, pick: Y -> Option<V>)
    ensures FirstMatch(FlatMap(xs, f), pick) == FirstMatch(xs, Nested(f, pick))
    decreases |xs|
  {
    if xs != [] {
      FirstMatchAppend(f(xs[0]), FlatMap(xs[1..], f), pick);
      FirstMatchFlatMap(xs[1..], f, pick);
    }
  }

  /** Steps run in order with no `try` around them: every value when none
      raises, else the error of the first that raises, which ends the run. */
  function RunAll<X, T>(xs: seq<X>, f: X -> Result<T>): (r: Result<seq<T>>)
    decreases |xs|
    ensures r.Success? <==> forall i :: 0 <= i < |xs| ==> f(xs[i]).Success?
    ensures r.Success? ==> |r.value| == |xs| && forall i :: 0 <= i < |xs| ==> r.value[i] == f(xs[i]).value
    ensures r.Failure? ==>
              exists i :: 0 <= i < |xs| && f(xs[i]) == Failure(r.error) && forall m :: 0 <= m < i ==> f(xs[m]).Success?
  {
    if xs == [] then Success([])
    else
      match f(xs[0])
      case Failure(e) => Failure(e)
      case Success(v) =>
        match RunAll(xs[1..], f)
        case Failure(e) =>
          var i :| 0 <= i < |xs[1..]| && f(xs[1..][i]) == Failure(e) && forall m :: 0 <= m < i ==> f(xs[1..][m]).Success?;
          assert f(xs[i + 1]) == Failure(e);
          Failure(e)
        case Success(rest) =>
          assert forall i :: 1 <= i < |xs| ==> xs[i] == xs[1..][i - 1];
          Success([v] + rest)
  }

  /** The loop: run each step, and let the first raise propagate. */
  method RunSteps<X, T>(xs: seq<X>, f: X -> Result<T>) returns (r: Result<seq<T>>)
    ensures r == RunAll(xs, f)
  {
    var done: seq<T> := [];
    var i := 0;
    while i < |xs|
      invariant i <= |xs|
      invariant |done| == i
      invariant forall m :: 0 <= m < i ==> f(xs[m]).Success? && done[m] == f(xs[m]).value
    {
      var step := f(xs[i]);
      if step.Failure? {
        var whole := RunAll(xs, f);
        if whole.Failure? {
          var n :| 0 <= n < |xs| && f(xs[n]) == Failure(whole.error) && forall m :: 0 <= m < n ==> f(xs[m]).Success?;
          assert n == i;
        }
        return Failure(step.error);
      }
      done := done + [step.value];
      i := i + 1;
    }
    var whole := RunAll(xs, f);
    assert whole.value == done;
    return Success(done);
  }

  // ---------------------------------------------------------------------------
  // The sentinel-guarded sweep over per-selector element lists.

  /** The swept value, and whether any element was accepted on the way. */
  datatype Swept<V> = Swept(value: V, hit: bool)

  function Sweep<E, V(==)>(v: V, sentinel: V, groups: seq<seq<E>>, pick: E -> Option<V>): Swept<V>
    decreases |groups|
  {
    if groups == [] then Swept(v, false)
    else
      var m := FirstMatch(groups[0], pick);
      var v' := m.GetOr(v);
      if v' != sentinel then Swept(v', m.Some?)
      else
        var rest := Sweep(v', sentinel, groups[1..], pick);
        Swept(rest.value, m.Some? || rest.hit)
  }

  /** All element lists, one after the other. */
  function Flatten<E>(groups: seq<seq<E>>): seq<E>
    decreases |groups|
  {
    if groups == [] then [] else groups[0] + Flatten(groups[1..])
  }

  /** A sweep keeps its starting value unless it accepted an element, and then
      holds the value of an element it accepted. */
  lemma {:induction false} SweepOrigin<E, V>(v: V, sentinel: V, groups: seq<seq<E>>, pick: E -> Option<V>)
    ensures !Sweep(v, sentinel, groups, pick).hit ==> Sweep(v, sentinel, groups, pick).value == v
    ensures Sweep(v, sentinel, groups, pick).hit ==>
              exists i, k :: 0 <= i < |groups| && 0 <= k < |groups[i]|
                             && pick(groups[i][k]) == Some(Sweep(v, sentinel, groups, pick).value)
    decreases |groups|
  {
    if groups != [] {
      var m := FirstMatch(groups[0], pick);
      var v' := m.GetOr(v);
      FirstMatchIsWinner(groups[0], pick);
      if m.Some? {
        var w := Winner(groups[0], pick).value;
        assert pick(groups[0][w]) == Some(v');
      }
      if v' == sentinel {
        SweepOrigin(v', sentinel, groups[1..], pick);
        var rest := Sweep(v', sentinel, groups[1..], pick);
        if rest.hit {
          var i, k :| 0 <= i < |groups[1..]| && 0 <= k < |groups[1..][i]|
                      && pick(groups[1..][i][k]) == Some(rest.value);
          assert groups[1..][i] == groups[i + 1];
        }
      }
    }
  }

  /** Started from the sentinel, a sweep accepts some element exactly when the
      filter accepts any element of any selector: it stops early only after
      accepting one. */
  lemma {:induction false} SweepHitFromSentinel<E, V>(sentinel: V, groups: seq<seq<E>>, pick: E -> Option<V>)
    ensures Sweep(sentinel, sentinel, groups, pick).hit <==>
              exists i, k :: 0 <= i < |groups| && 0 <= k < |groups[i]| && pick(groups[i][k]).Some?
    decreases |groups|
  {
    if groups != [] {
      FirstMatchIsWinner(groups[0], pick);
      if FirstMatch(groups[0], pick).Some? {
        var w := Winner(groups[0], pick).value;
        assert pick(groups[0][w]).Some?;
      } else {
        SweepHitFromSentinel(sentinel, groups[1..], pick);
        if Sweep(sentinel, sentinel, groups, pick).hit {
          var i, k :| 0 <= i < |groups[1..]| && 0 <= k < |groups[1..][i]| && pick(groups[1..][i][k]).Some?;
          assert groups[1..][i] == groups[i + 1];
        }
        if exists i, k :: 0 <= i < |groups| && 0 <= k < |groups[i]| && pick(groups[i][k]).Some? {
          var i, k :| 0 <= i < |groups| && 0 <= k < |groups[i]| && pick(groups[i][k]).Some?;
          assert i > 0;
          assert groups[1..][i - 1] == groups[i];
        }
      }
    }
  }

  /** Started from the sentinel, and with no swept element that the filter
      reads as the sentinel, a sweep is the cascade over all elements in
      selector order. */
  lemma {:induction false} SweepIsFirstMatch<E, V>(sentinel: V, groups: seq<seq<E>>, pick: E -> Option<V>)
    requires forall e :: e in Flatten(groups) ==> pick(e) != Some(sentinel)
    ensures Sweep(sentinel, sentinel, groups, pick).value == FirstMatch(Flatten(groups), pick).GetOr(sentinel)
    ensures Sweep(sentinel, sentinel, groups, pick).hit == FirstMatch(Flatten(groups), pick).Some?
    decreases |groups|
  {
    if groups != [] {
      assert Flatten(groups) == groups[0] + Flatten(groups[1..]);
      FirstMatchIsWinner(groups[0], pick);
      if FirstMatch(groups[0], pick).Some? {
        var w := Winner(groups[0], pick).value;
        assert groups[0][w] in Flatten(groups);
        assert pick(groups[0][w]) == FirstMatch(groups[0], pick);
      }
      FirstMatchAppend(groups[0], Flatten(groups[1..]), pick);
      SweepIsFirstMatch(sentinel, groups[1..], pick);
    }
  }

  /** Started from a value other than the sentinel, and with a filter that
      never yields the sentinel, a sweep reads only the first selector's
      elements: later selectors can never change the value. */
  lemma SweepFromValue<E, V>(v: V, sentinel: V, groups: seq<seq<E>>, pick: E -> Option<V>)
    requires v != sentinel
    requires forall e :: pick(e) != Some(sentinel)
    requires groups != []
    ensures Sweep(v, sentinel, groups, pick).value == FirstMatch(groups[0], pick).GetOr(v)
  {
    FirstMatchIsWinner(groups[0], pick);
    if FirstMatch(groups[0], pick).Some? {
      var w := Winner(groups[0], pick).value;
      assert pick(groups[0][w]) == FirstMatch(groups[0], pick);
    }
  }

  /** The nested loop itself. */
  method SweepGroups<E, V(==)>(v: V, sentinel: V, groups: seq<seq<E>>, pick: E -> Option<V>) returns (r: Swept<V>)
    ensures r == Sweep(v, sentinel, groups, pick)
  {
    var cur, hit, i := v, false, 0;
    while i < |groups|
      invariant i <= |groups|
      invariant Sweep(v, sentinel, groups, pick)
                == var rest := Sweep(cur, sentinel, groups[i..], pick); Swept(rest.value, hit || rest.hit)
    {
      assert groups[i..][1..] == groups[i + 1..];
      var m, _ := FindFirst(groups[i], pick);
      if m.Some? {
        cur, hit := m.value, true;
      }
      if cur != sentinel {
        return Swept(cur, hit);
      }
      i := i + 1;
    }
    return Swept(cur, hit);
  }
}
