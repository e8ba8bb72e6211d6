/** The format probe: for each identifier, each prefix and each URL
    template in turn, the first candidate page that loads without a
    rejecting title; and the re-check of identifiers known to have worked. */
module VerifyItems {
  import opened Outcomes
  import opened Text
  import opened Cascade
  import opened Dom

  // ---------------------------------------------------------------------------
  // test_item_formats

  /** The prefixes tried, in order (the middle loop). */
  const Prefixes := ["", "Y", "#"]

  /** A URL tried and the identifier it was built from. */
  datatype Candidate = Candidate(url: string, testItem: string)

  /** The templates `/item/{}`, `/product/{}` and `/items/{}`, in order (the
      inner loop), filled with one candidate identifier. */
  function ForIdentifier(testItem: string): (r: seq<Candidate>)
    ensures forall c :: c in r ==> c.testItem == testItem
  {
    [Candidate(ItemUrl(testItem), testItem), Candidate(ProductUrl(testItem), testItem),
     Candidate(ItemsUrl(testItem), testItem)]
  }

  /** A prefix, for one item, as the identifier `f"{prefix}{item}"`'s URLs. */
  function ForPrefix(item: string): string -> seq<Candidate> {
    prefix => ForIdentifier(prefix + item)
  }

  /** The candidates of one item: the prefix loop around the template loop. */
  function ItemCandidates(item: string): seq<Candidate> {
    FlatMap(Prefixes, ForPrefix(item))
  }

  /** Every candidate, the item loop outermost. */
  function AllCandidates(items: seq<string>): seq<Candidate> {
    FlatMap(items, ItemCandidates)
  }

  /** A candidate is kept when its page loads and its title names neither
      "not found" nor "error", in any case; a page that raises is skipped. */
  function Accepted(s: Session): Candidate -> Option<Candidate> {
    (c: Candidate) => if Accepts(s, c.url) then Some(c) else None
  }

  /** `test_item_formats(item_numbers)`: the first candidate kept, or
      `(None, None)` as `None`. */
  function TestItemFormats(s: Session, items: seq<string>): Option<Candidate> {
    FirstMatch(AllCandidates(items), Accepted(s))
  }

  /** The nine candidates of an item, in the order they are tried: the bare
      identifier on the three templates, then with `Y`, then with `#`. */
  lemma ItemCandidatesOrder(item: string)
    ensures ItemCandidates(item) == ForIdentifier(item) + ForIdentifier("Y" + item) + ForIdentifier("#" + item)
  {
    assert "" + item == item;
    assert Prefixes[1..][1..][1..] == [];
    assert FlatMap(Prefixes[1..][1..], ForPrefix(item)) == ForIdentifier("#" + item) + [];
  }

  /** The candidate returned is kept, is built from a prefix and one of the
      items, and is the first kept in loop order; `None` means no candidate
      at all is kept. */
  lemma TestItemFormatsRule(s: Session, items: seq<string>)
    ensures TestItemFormats(s, items).None? <==>
              forall c :: c in AllCandidates(items) ==> !Accepts(s, c.url)
    ensures TestItemFormats(s, items).Some? ==>
              var c := TestItemFormats(s, items).value;
              && Accepts(s, c.url)
              && (exists i, j :: 0 <= i < |items| && 0 <= j < |Prefixes| && c.testItem == Prefixes[j] + items[i])
              && c in ForIdentifier(c.testItem)
              && exists n: nat :: WinsAt(AllCandidates(items), Accepted(s), n) && c == AllCandidates(items)[n]
  {
    var all := AllCandidates(items);
    FirstMatchIsWinner(all, Accepted(s));
    if TestItemFormats(s, items).None? {
      forall c | c in all ensures !Accepts(s, c.url) {
        var n :| 0 <= n < |all| && all[n] == c;
        assert Accepted(s)(all[n]).None?;
      }
    } else {
      var n := Winner(all, Accepted(s)).value;
      var c := all[n];
      assert Accepted(s)(c) == TestItemFormats(s, items);
      FlatMapMember(items, ItemCandidates, c);
      var i :| 0 <= i < |items| && c in ItemCandidates(items[i]);
      FlatMapMember(Prefixes, ForPrefix(items[i]), c);
      var j :| 0 <= j < |Prefixes| && c in ForPrefix(items[i])(Prefixes[j]);
      assert c.testItem == Prefixes[j] + items[i];
    }
  }

  /** The prefix loop for one item, around the template loop: the first
      candidate of the item that is kept. */
  method ProbeItem(s: Session, item: string) returns (r: Option<Candidate>)
    ensures r == FirstMatch(ItemCandidates(item), Accepted(s))
  {
    var keep := Accepted(s);
    var nest := Nested(ForPrefix(item), keep);
    FirstMatchFlatMap(Prefixes, ForPrefix(item), keep);
    var j := 0;
    while j < |Prefixes|
      invariant j <= |Prefixes|
      invariant FirstMatch(Prefixes[j..], nest) == FirstMatch(ItemCandidates(item), keep)
    {
      var rest := Prefixes[j..];
      assert rest[1..] == Prefixes[j + 1..];
      var found, _ := FindFirst(ForIdentifier(Prefixes[j] + item), keep);
      assert found == nest(rest[0]);
      if found.Some? {
        return found;
      }
      j := j + 1;
    }
    return None;
  }

  /** The item loop as the source runs it, returning at the first page kept. */
  method TestFormats(s: Session, items: seq<string>) returns (r: Option<Candidate>)
    ensures r == TestItemFormats(s, items)
  {
    var keep := Accepted(s);
    var nest := Nested(ItemCandidates, keep);
    FirstMatchFlatMap(items, ItemCandidates, keep);
    var i := 0;
    while i < |items|
      invariant i <= |items|
      invariant FirstMatch(items[i..], nest) == TestItemFormats(s, items)
    {
      var rest := items[i..];
      assert rest[1..] == items[i + 1..];
      var found := ProbeItem(s, items[i]);
      assert found == nest(rest[0]);
      if found.Some? {
        return found;
      }
      i := i + 1;
    }
    return None;
  }

  // ---------------------------------------------------------------------------
  // test_known_working_items

  const KnownItems := ["12238", "11358", "Y7282"]

  /** One known identifier, the URL it was checked at, and whether the title
      there lacks "not found". */
  datatype KnownCheck = KnownCheck(item: string, url: string, accessible: bool)

  /** `item.replace('Y', '')`: nothing but `Y` is removed, so unlike the
      identifier cleaning elsewhere a `#` and surrounding whitespace stay
      (the known "Y7282" is checked as "7282"). */
  function KnownId(item: string): (r: string)
    ensures 'Y' !in r
    ensures multiset(r) == multiset(item)['Y' := 0]
  {
    var r := Remove(item, 'Y');
    assert multiset(r)['Y'] == 0;
    r
  }

  /** The `/item/` path of the identifier with its `Y`s removed. */
  function KnownUrl(item: string): string {
    ItemUrl(KnownId(item))
  }

  /** One known identifier: its page loads, or the check raises. */
  function CheckOne(s: Session, item: string): (r: Result<KnownCheck>)
    ensures r.Success? <==> Navigate(s, KnownUrl(item)).Success?
    ensures r.Failure? ==> r.error == Navigate(s, KnownUrl(item)).error
    ensures r.Success? ==>
              r.value == KnownCheck(item, KnownUrl(item), !Contains(Lower(Navigate(s, KnownUrl(item)).value.title), "not found"))
  {
    match Navigate(s, KnownUrl(item))
    case Failure(e) => Failure(e)
    case Success(p) => Success(KnownCheck(item, KnownUrl(item), !Contains(Lower(p.title), "not found")))
  }

  function Checker(s: Session): string -> Result<KnownCheck> {
    item => CheckOne(s, item)
  }

  /** `test_known_working_items()` over `items`: one check per identifier, in
      order; the first page that fails to load raises out of the whole check. */
  function CheckKnown(s: Session, items: seq<string>): Result<seq<KnownCheck>> {
    RunAll(items, Checker(s))
  }

  /** The loop as the source runs it: no `try` inside, so the first page
      that fails to load ends it. */
  method TestKnownWorkingItems(s: Session, items: seq<string>) returns (r: Result<seq<KnownCheck>>)
    ensures r == CheckKnown(s, items)
  {
    r := RunSteps(items, Checker(s));
  }

  // ---------------------------------------------------------------------------
  // main

  const NewItems := ["8990", "8773", "13841"]

  /** `main`: the known identifiers first, whose check raising ends the
      script; then the format probe on the new identifiers. */
  method RunVerification(s: Session) returns (r: Result<(seq<KnownCheck>, Option<Candidate>)>)
    ensures r.Failure? <==> CheckKnown(s, KnownItems).Failure?
    ensures r.Success? ==> r.value.0 == CheckKnown(s, KnownItems).value && r.value.1 == TestItemFormats(s, NewItems)
  {
    var known := TestKnownWorkingItems(s, KnownItems);
    if known.Failure? {
      return Failure(known.error);
    }
    var found := TestFormats(s, NewItems);
    return Success((known.value, found));
  }
}
