/** Picking one batch (crates/sni-cache/src/engine.rs, `select_bulk`). */
module Select {
  import opened Types
  import opened Sorting
  import opened Fulfil

  /** The oldest refresh among the members, for a read that has any. */
  function OldestOf(ms: seq<Member>, st: ReadStates): nat {
    if ms == [] then 0
    else if |ms| == 1 then Refresh(st, ms[0].id)
    else Min(Refresh(st, ms[0].id), OldestOf(ms[1..], st))
  }

  /** Cycles since the least recently refreshed member was read; never refreshed counts as cycle 0. */
  function Staleness(r: CoalescedRead, st: ReadStates, cycle: nat): nat {
    var oldest := OldestOf(r.members, st);
    if cycle >= oldest then cycle - oldest else 0
  }

  /** Stalest first; priority, then address, break ties. */
  predicate Before(a: CoalescedRead, b: CoalescedRead, st: ReadStates, cycle: nat) {
    var sa, sb := Staleness(a, st, cycle), Staleness(b, st, cycle);
    || sa > sb
    || (sa == sb && a.priority.Rank() < b.priority.Rank())
    || (sa == sb && a.priority.Rank() == b.priority.Rank() && a.region.address <= b.region.address)
  }

  function Order(st: ReadStates, cycle: nat): (CoalescedRead, CoalescedRead) -> bool {
    (a, b) => Before(a, b, st, cycle)
  }

  lemma OrderTotal(st: ReadStates, cycle: nat)
    ensures TotalPreorder(Order(st, cycle))
  {
    var le := Order(st, cycle);
    forall a, b, c | le(a, b) && le(b, c) ensures le(a, c) {
      assert Before(a, b, st, cycle) && Before(b, c, st, cycle);
    }
  }

  function TotalSize(rs: seq<CoalescedRead>): nat {
    if rs == [] then 0 else rs[0].region.size + TotalSize(rs[1..])
  }

  /** First fit over reads already in order; only the very first may exceed the budget. */
  function Admitted(rs: seq<CoalescedRead>, remaining: nat, first: bool): seq<CoalescedRead> {
    if rs == [] then []
    else if rs[0].region.size <= remaining then [rs[0]] + Admitted(rs[1..], remaining - rs[0].region.size, false)
    else if first then [rs[0]]
    else Admitted(rs[1..], remaining, false)
  }

  function Ordered(rs: seq<CoalescedRead>, st: ReadStates, cycle: nat): seq<CoalescedRead> {
    Sort(rs, Order(st, cycle))
  }

  /** The reads `select_bulk` admits. */
  function Selected(rs: seq<CoalescedRead>, budget: nat, st: ReadStates, cycle: nat): seq<CoalescedRead> {
    Admitted(Ordered(rs, st, cycle), budget, true)
  }

  /** `select_bulk`: `capped` reports whether the budget turned at least one read away or was exceeded. */
  method SelectBulk(rs: seq<CoalescedRead>, budget: nat, st: ReadStates, cycle: nat)
      returns (selected: seq<CoalescedRead>, capped: bool)
    ensures selected == Selected(rs, budget, st, cycle)
    ensures capped <==> TotalSize(rs) > budget
  {
    var rest := Ordered(rs, st, cycle);
    SortBag(rs, Order(st, cycle));
    SameTotal(rest, rs);
    var remaining: nat := budget;
    capped, selected := false, [];
    while rest != []
      invariant selected + Admitted(rest, remaining, selected == []) == Selected(rs, budget, st, cycle)
      invariant remaining <= budget && TotalSize(rs) == TotalSize(Ordered(rs, st, cycle))
      invariant if capped then TotalSize(rs) > budget else TotalSize(rs) == (budget - remaining) + TotalSize(rest)
      decreases |rest|
    {
      var r := rest[0];
      rest := rest[1..];
      if r.region.size <= remaining {
        remaining, selected := remaining - r.region.size, selected + [r];
      } else {
        capped := true;
        if selected == [] {
          selected := [r];
          break;
        }
      }
    }
  }

  lemma {:induction false} TotalSplit(rs: seq<CoalescedRead>, i: nat)
    requires i < |rs|
    ensures TotalSize(rs) == rs[i].region.size + TotalSize(rs[..i] + rs[i + 1..])
    decreases i
  {
    if i == 0 {
      assert rs[..0] + rs[1..] == rs[1..];
    } else {
      TotalSplit(rs[1..], i - 1);
      var without := rs[..i] + rs[i + 1..];
      assert without[0] == rs[0] && without[1..] == rs[1..][..i - 1] + rs[1..][i..];
    }
  }

  lemma Removed(b: seq<CoalescedRead>, i: nat)
    requires i < |b|
    ensures multiset(b) == multiset{b[i]} + multiset(b[..i] + b[i + 1..])
  {
    assert b == b[..i] + ([b[i]] + b[i + 1..]);
  }

  lemma IndexIn(b: seq<CoalescedRead>, x: CoalescedRead) returns (i: nat)
    requires x in multiset(b)
    ensures i < |b| && b[i] == x
  {
    i :| 0 <= i < |b| && b[i] == x;
  }

  /** Without one read they share, two lists with the same reads still have the same reads. */
  lemma RemovedBoth(a: seq<CoalescedRead>, b: seq<CoalescedRead>, i: nat)
    requires a != [] && multiset(a) == multiset(b) && i < |b| && b[i] == a[0]
    ensures multiset(a[1..]) == multiset(b[..i] + b[i + 1..])
  {
    Removed(b, i);
    Removed(a, 0);
    assert a[..0] + a[1..] == a[1..];
    Cancel(a[0], multiset(a[1..]), multiset(b[..i] + b[i + 1..]));
  }

  lemma {:induction false} SameTotal(a: seq<CoalescedRead>, b: seq<CoalescedRead>)
    requires multiset(a) == multiset(b)
    ensures TotalSize(a) == TotalSize(b)
    decreases |a|
  {
    if a == [] {
      assert |multiset(b)| == 0;
    } else {
      assert a[0] in multiset(a);
      var i := IndexIn(b, a[0]);
      RemovedBoth(a, b, i);
      TotalSplit(b, i);
      SameTotal(a[1..], b[..i] + b[i + 1..]);
    }
  }

  lemma Cancel(x: CoalescedRead, a: multiset<CoalescedRead>, b: multiset<CoalescedRead>)
    requires multiset{x} + a == multiset{x} + b
    ensures a == b
  {
    assert a == (multiset{x} + a) - multiset{x};
    assert b == (multiset{x} + b) - multiset{x};
  }

  // ---------------------------------------------------------------------------
  // What a batch is.

  lemma {:induction false} AdmittedFits(rs: seq<CoalescedRead>, remaining: nat, first: bool)
    ensures var sel := Admitted(rs, remaining, first);
            TotalSize(sel) <= remaining || (first && |sel| == 1 && sel[0] == rs[0] && rs[0].region.size > remaining)
    ensures forall r :: r in Admitted(rs, remaining, first) ==> r in rs
    decreases |rs|
  {
    if rs != [] {
      if rs[0].region.size <= remaining {
        AdmittedFits(rs[1..], remaining - rs[0].region.size, false);
      } else if !first {
        AdmittedFits(rs[1..], remaining, false);
      }
    }
  }

  /** First fit leaves no room behind: what it turned away would not fit in what is left. */
  lemma {:induction false} AdmittedMaximal(rs: seq<CoalescedRead>, remaining: nat, first: bool, r: CoalescedRead)
    requires r in rs && r !in Admitted(rs, remaining, first)
    ensures TotalSize(Admitted(rs, remaining, first)) + r.region.size > remaining
    decreases |rs|
  {
    if rs[0].region.size <= remaining {
      AdmittedMaximal(rs[1..], remaining - rs[0].region.size, false, r);
    } else if !first && r != rs[0] {
      AdmittedMaximal(rs[1..], remaining, false, r);
    }
  }

  /** A batch is drawn from the pending reads and fits the budget, unless it is one oversized read. */
  lemma SelectedFits(rs: seq<CoalescedRead>, budget: nat, st: ReadStates, cycle: nat)
    ensures var sel := Selected(rs, budget, st, cycle);
            && (forall r :: r in sel ==> r in rs)
            && (TotalSize(sel) <= budget || (|sel| == 1 && sel[0].region.size > budget))
  {
    var sorted := Ordered(rs, st, cycle);
    AdmittedFits(sorted, budget, true);
    forall r | r in sorted ensures r in rs { SortMember(rs, Order(st, cycle), r); }
  }

  /** No pending read left out of the batch would still have fitted in it. */
  lemma SelectedMaximal(rs: seq<CoalescedRead>, budget: nat, st: ReadStates, cycle: nat, r: CoalescedRead)
    requires r in rs && r !in Selected(rs, budget, st, cycle)
    ensures TotalSize(Selected(rs, budget, st, cycle)) + r.region.size > budget
  {
    SortMember(rs, Order(st, cycle), r);
    AdmittedMaximal(Ordered(rs, st, cycle), budget, true, r);
  }

  lemma {:induction false} AdmittedAll(rs: seq<CoalescedRead>, remaining: nat, first: bool)
    requires TotalSize(rs) <= remaining
    ensures Admitted(rs, remaining, first) == rs
    decreases |rs|
  {
    if rs != [] { AdmittedAll(rs[1..], remaining - rs[0].region.size, false); }
  }

  lemma {:induction false} AdmittedSub(rs: seq<CoalescedRead>, remaining: nat, first: bool)
    ensures multiset(Admitted(rs, remaining, first)) <= multiset(rs)
    decreases |rs|
  {
    if rs != [] {
      assert rs == [rs[0]] + rs[1..];
      if rs[0].region.size <= remaining {
        AdmittedSub(rs[1..], remaining - rs[0].region.size, false);
      } else {
        AdmittedSub(rs[1..], remaining, false);
      }
    }
  }

  lemma SelectedSub(rs: seq<CoalescedRead>, budget: nat, st: ReadStates, cycle: nat)
    ensures multiset(Selected(rs, budget, st, cycle)) <= multiset(rs)
  {
    SortBag(rs, Order(st, cycle));
    AdmittedSub(Ordered(rs, st, cycle), budget, true);
  }

  lemma SingleSelected(rs: seq<CoalescedRead>, budget: nat, st: ReadStates, cycle: nat)
    requires |rs| <= 1
    ensures multiset(Selected(rs, budget, st, cycle)) == multiset(rs)
  {
    if rs != [] {
      var r := rs[0];
      assert rs == [r] && [r][1..] == [];
      assert Sort([r][1..], Order(st, cycle)) == [];
      assert Ordered(rs, st, cycle) == Insert(r, [], Order(st, cycle)) == [r];
      assert Admitted([r], budget, true) == [r];
    }
  }

  /** Nothing is left out exactly when everything fits the budget, or there is only one read. */
  lemma AllSelectedIff(rs: seq<CoalescedRead>, budget: nat, st: ReadStates, cycle: nat)
    ensures multiset(Selected(rs, budget, st, cycle)) == multiset(rs) <==> TotalSize(rs) <= budget || |rs| <= 1
  {
    var sorted, sel := Ordered(rs, st, cycle), Selected(rs, budget, st, cycle);
    SortBag(rs, Order(st, cycle));
    SameTotal(sorted, rs);
    if TotalSize(rs) <= budget { AdmittedAll(sorted, budget, true); }
    if |rs| <= 1 { SingleSelected(rs, budget, st, cycle); }
    if multiset(sel) == multiset(rs) {
      SameTotal(sel, rs);
      SelectedFits(rs, budget, st, cycle);
      assert |multiset(sel)| == |sel| && |multiset(rs)| == |rs|;
    }
  }

  /** A batch of something is never empty and starts with a stalest read, the most urgent of those. */
  lemma SelectedStalest(rs: seq<CoalescedRead>, budget: nat, st: ReadStates, cycle: nat, r: CoalescedRead)
    requires r in rs
    ensures var sel := Selected(rs, budget, st, cycle);
            && sel != [] && Staleness(sel[0], st, cycle) >= Staleness(r, st, cycle)
            && (Staleness(sel[0], st, cycle) == Staleness(r, st, cycle) ==> sel[0].priority.Rank() <= r.priority.Rank())
  {
    var le := Order(st, cycle);
    var sorted := Ordered(rs, st, cycle);
    OrderTotal(st, cycle);
    SortSorted(rs, le);
    SortBag(rs, le);
    SortMember(rs, le, r);
    var k :| 0 <= k < |sorted| && sorted[k] == r;
    assert k > 0 ==> le(sorted[0], sorted[k]);
    assert Selected(rs, budget, st, cycle)[0] == sorted[0];
  }

  lemma {:induction false} AdmittedOrdered(rs: seq<CoalescedRead>, remaining: nat, first: bool,
      le: (CoalescedRead, CoalescedRead) -> bool)
    requires Sorted(rs, le)
    ensures Sorted(Admitted(rs, remaining, first), le)
    decreases |rs|
  {
    if rs != [] {
      assert Sorted(rs[1..], le);
      if rs[0].region.size <= remaining {
        AdmittedOrdered(rs[1..], remaining - rs[0].region.size, false, le);
        AdmittedFits(rs[1..], remaining - rs[0].region.size, false);
        assert forall r :: r in rs[1..] ==> le(rs[0], r);
      } else if !first {
        AdmittedOrdered(rs[1..], remaining, false, le);
      }
    }
  }

  /** What comes before `r` in the order of selection: it is staler, or as stale and more urgent, or as both at no
      higher address. */
  predicate ComesFirst(q: CoalescedRead, r: CoalescedRead, st: ReadStates, cycle: nat) {
    || Staleness(q, st, cycle) > Staleness(r, st, cycle)
    || (Staleness(q, st, cycle) == Staleness(r, st, cycle) && q.priority.Rank() < r.priority.Rank())
    || (Staleness(q, st, cycle) == Staleness(r, st, cycle) && q.priority == r.priority
        && q.region.address <= r.region.address)
  }

  lemma {:induction false} AdmittedAhead(rs: seq<CoalescedRead>, remaining: nat, first: bool,
      le: (CoalescedRead, CoalescedRead) -> bool, r: CoalescedRead) returns (n: nat)
    requires Sorted(rs, le) && r in rs && r !in Admitted(rs, remaining, first)
    ensures n <= |Admitted(rs, remaining, first)|
    ensures forall q :: q in Admitted(rs, remaining, first)[..n] ==> le(q, r)
    ensures TotalSize(Admitted(rs, remaining, first)[..n]) + r.region.size > remaining
    decreases |rs|
  {
    var head, sel := rs[0], Admitted(rs, remaining, first);
    assert Sorted(rs[1..], le);
    if head.region.size <= remaining {
      n := AdmittedAhead(rs[1..], remaining - head.region.size, false, le, r);
      n := n + 1;
      assert sel[..n][1..] == sel[1..][..n - 1] && sel[..n][0] == head;
      assert le(head, r);
    } else if first {
      n := 1;
      assert sel[..1] == [head] && le(head, r);
      assert TotalSize([head]) == head.region.size + TotalSize([head][1..]);
    } else if head == r {
      n := 0;
    } else {
      n := AdmittedAhead(rs[1..], remaining, false, le, r);
    }
  }

  /** A pending read is left out only for reads that come before it: the first `n` of the batch all do, and with them it
      would exceed the budget. */
  lemma LeftOutForEarlier(rs: seq<CoalescedRead>, budget: nat, st: ReadStates, cycle: nat, r: CoalescedRead)
    returns (n: nat)
    requires r in rs && r !in Selected(rs, budget, st, cycle)
    ensures n <= |Selected(rs, budget, st, cycle)|
    ensures forall q :: q in Selected(rs, budget, st, cycle)[..n] ==> ComesFirst(q, r, st, cycle)
    ensures TotalSize(Selected(rs, budget, st, cycle)[..n]) + r.region.size > budget
  {
    var le := Order(st, cycle);
    OrderTotal(st, cycle);
    SortSorted(rs, le);
    SortMember(rs, le, r);
    n := AdmittedAhead(Ordered(rs, st, cycle), budget, true, le, r);
    forall q | q in Selected(rs, budget, st, cycle)[..n] ensures ComesFirst(q, r, st, cycle) { assert le(q, r); }
  }

  /** Within a batch no read is staler than one before it, none of equal staleness is more urgent, and none equal in
      both is at a lower address. */
  lemma SelectedOrdered(rs: seq<CoalescedRead>, budget: nat, st: ReadStates, cycle: nat, i: nat, j: nat)
    requires i < j < |Selected(rs, budget, st, cycle)|
    ensures var a, b := Selected(rs, budget, st, cycle)[i], Selected(rs, budget, st, cycle)[j];
            && Staleness(a, st, cycle) >= Staleness(b, st, cycle)
            && (Staleness(a, st, cycle) == Staleness(b, st, cycle) ==> a.priority.Rank() <= b.priority.Rank())
            && (Staleness(a, st, cycle) == Staleness(b, st, cycle) && a.priority == b.priority ==>
                  a.region.address <= b.region.address)
  {
    var le := Order(st, cycle);
    OrderTotal(st, cycle);
    SortSorted(rs, le);
    AdmittedOrdered(Ordered(rs, st, cycle), budget, true, le);
    assert le(Selected(rs, budget, st, cycle)[i], Selected(rs, budget, st, cycle)[j]);
  }

  // ---------------------------------------------------------------------------
  // Staleness in terms of members.

  lemma {:induction false} OldestLeast(ms: seq<Member>, st: ReadStates)
    ensures forall m :: m in ms ==> OldestOf(ms, st) <= Refresh(st, m.id)
    ensures ms == [] || exists m :: m in ms && Refresh(st, m.id) == OldestOf(ms, st)
    decreases |ms|
  {
    if ms != [] {
      OldestLeast(ms[1..], st);
      assert ms[0] in ms;
      assert forall m :: m in ms <==> m == ms[0] || m in ms[1..];
    }
  }

  /** The first read of a batch has a member refreshed no later than any member of any pending read. */
  lemma SelectedReachesOldest(rs: seq<CoalescedRead>, budget: nat, st: ReadStates, cycle: nat, r: CoalescedRead,
      m: Member)
      returns (oldest: Member)
    requires r in rs && m in r.members && Refresh(st, m.id) < cycle
    requires forall q :: q in rs ==> q.members != []
    ensures var sel := Selected(rs, budget, st, cycle);
            sel != [] && oldest in sel[0].members && Refresh(st, oldest.id) <= Refresh(st, m.id)
  {
    SelectedStalest(rs, budget, st, cycle, r);
    SelectedFits(rs, budget, st, cycle);
    var first := Selected(rs, budget, st, cycle)[0];
    assert first in rs;
    OldestLeast(r.members, st);
    OldestLeast(first.members, st);
    oldest :| oldest in first.members && Refresh(st, oldest.id) == OldestOf(first.members, st);
  }
}
