/** What splitting promises: the same slots, chunks that fit, nothing left to split, and the fewest chunks. */
module SplitTheorems {
  import opened Types
  import opened Sorting
  import opened Coalesce
  import opened Split

  // ---------------------------------------------------------------------------
  // Conservation.

  lemma {:induction false} SlotsInAppend(g: MemRegion, a: seq<Member>, b: seq<Member>)
    ensures SlotsIn(g, a + b) == SlotsIn(g, a) + SlotsIn(g, b)
    decreases |a|
  {
    if a == [] {
      assert a + b == b;
    } else {
      assert (a + b)[1..] == a[1..] + b;
      SlotsInAppend(g, a[1..], b);
    }
  }

  lemma {:induction false} InsertMemberSlots(g: MemRegion, m: Member, ms: seq<Member>)
    ensures multiset(SlotsIn(g, Insert(m, ms, OffsetLe))) == multiset{SlotAt(g, m)} + multiset(SlotsIn(g, ms))
    decreases |ms|
  {
    if ms == [] || OffsetLe(m, ms[0]) {
      assert ([m] + ms)[1..] == ms;
    } else {
      InsertMemberSlots(g, m, ms[1..]);
      var tail := Insert(m, ms[1..], OffsetLe);
      assert ([ms[0]] + tail)[1..] == tail;
    }
  }

  lemma {:induction false} SortMemberSlots(g: MemRegion, ms: seq<Member>)
    ensures multiset(SlotsIn(g, Sort(ms, OffsetLe))) == multiset(SlotsIn(g, ms))
    decreases |ms|
  {
    if ms != [] {
      SortMemberSlots(g, ms[1..]);
      InsertMemberSlots(g, ms[0], Sort(ms[1..], OffsetLe));
    }
  }

  lemma GrowSlots(r: CoalescedRead, start: nat, end: nat, acc: seq<Member>, m: Member, end': nat)
    requires start <= end && start <= end' && start <= r.region.address + m.off
    ensures MemberSlots(Chunk(r, start, end', acc + [Member(m.id, r.region.address + m.off - start, m.size)]))
         == MemberSlots(Chunk(r, start, end, acc)) + [SlotAt(r.region, m)]
  {
    var moved := Member(m.id, r.region.address + m.off - start, m.size);
    SlotsInAppend(Chunk(r, start, end', acc).region, acc, [moved]);
    SizeIrrelevant(Chunk(r, start, end', acc).region, Chunk(r, start, end, acc).region, acc);
    assert SlotsIn(Chunk(r, start, end', acc).region, [moved]) == [SlotAt(r.region, m)];
  }

  lemma {:induction false} SizeIrrelevant(g: MemRegion, h: MemRegion, ms: seq<Member>)
    requires g.address == h.address && g.SameSpace(h)
    ensures SlotsIn(g, ms) == SlotsIn(h, ms)
    decreases |ms|
  {
    if ms != [] { SizeIrrelevant(g, h, ms[1..]); }
  }

  lemma {:induction false} ChunksSlots(r: CoalescedRead, start: nat, end: nat, acc: seq<Member>, rest: seq<Member>,
      b: nat)
    requires start <= end && Ahead(r, start, rest)
    ensures AllSlots(Chunks(r, start, end, acc, rest, b))
         == MemberSlots(Chunk(r, start, end, acc)) + SlotsIn(r.region, rest)
    decreases |rest|, 1
  {
    if rest != [] {
      var m := rest[0];
      var at := r.region.address + m.off;
      Unfold(r, start, end, acc, rest, b);
      if Max(end, at + m.size) - start > b {
        ChunksFromSlots(r, rest, b);
        AllSlotsAppend([Chunk(r, start, end, acc)], ChunksFrom(r, rest, b));
      } else {
        ChunksSlots(r, start, Max(end, at + m.size), acc + [Member(m.id, at - start, m.size)], rest[1..], b);
        GrowSlots(r, start, end, acc, m, Max(end, at + m.size));
      }
    }
  }

  lemma {:induction false} ChunksFromSlots(r: CoalescedRead, ms: seq<Member>, b: nat)
    requires Sorted(ms, OffsetLe)
    ensures AllSlots(ChunksFrom(r, ms, b)) == SlotsIn(r.region, ms)
    decreases |ms|, 0
  {
    if ms != [] {
      var m := ms[0];
      var at := r.region.address + m.off;
      OpensAhead(r, ms);
      ChunksSlots(r, at, at + m.size, [Member(m.id, 0, m.size)], ms[1..], b);
      assert MemberSlots(Chunk(r, at, at + m.size, [Member(m.id, 0, m.size)])) == [SlotAt(r.region, m)];
    }
  }

  lemma SplitOneSlots(r: CoalescedRead, b: nat)
    ensures multiset(AllSlots(SplitOne(r, b))) == multiset(MemberSlots(r))
  {
    if r.region.size <= b {
      assert AllSlots([r]) == MemberSlots(r) + AllSlots([]);
    } else {
      OffsetOrder(); SortSorted(r.members, OffsetLe);
      ChunksFromSlots(r, Sort(r.members, OffsetLe), b);
      SortMemberSlots(r.region, r.members);
    }
  }

  lemma {:induction false} SplitAllSlots(rs: seq<CoalescedRead>, b: nat)
    ensures multiset(AllSlots(SplitAll(rs, b))) == multiset(AllSlots(rs))
    decreases |rs|
  {
    if rs != [] {
      SplitOneSlots(rs[0], b);
      SplitAllSlots(rs[1..], b);
      AllSlotsAppend(SplitOne(rs[0], b), SplitAll(rs[1..], b));
    }
  }

  /** Splitting moves no watch: ids, absolute addresses and sizes are all kept, with multiplicity. */
  lemma SplitConserves(rs: seq<CoalescedRead>, budget: nat)
    ensures multiset(AllSlots(SplitReads(rs, budget))) == multiset(AllSlots(rs))
  {
    SplitAllSlots(rs, Max(budget, 1));
  }

  // ---------------------------------------------------------------------------
  // Bounds: every chunk is a tight hull that fits the budget or carries one watch.

  predicate Within(c: CoalescedRead, b: nat) { c.region.size <= b || |c.members| == 1 }

  predicate GoodChunk(c: CoalescedRead, b: nat) { WellFormed(c) && Within(c, b) }

  predicate GoodChunks(cs: seq<CoalescedRead>, b: nat) { forall c :: c in cs ==> GoodChunk(c, b) }

  predicate MembersFit(r: CoalescedRead, ms: seq<Member>) {
    forall m :: m in ms ==> r.region.address + m.off + m.size <= U32_MAX
  }

  lemma GrowGood(r: CoalescedRead, start: nat, end: nat, acc: seq<Member>, m: Member, b: nat, end': nat,
      grown: seq<Member>)
    requires start <= end && start <= r.region.address + m.off && MembersFit(r, [m])
    requires GoodChunk(Chunk(r, start, end, acc), b)
    requires end' == Max(end, r.region.address + m.off + m.size) && end' - start <= b
    requires grown == acc + [Member(m.id, r.region.address + m.off - start, m.size)]
    ensures GoodChunk(Chunk(r, start, end', grown), b)
  {
    var moved := Member(m.id, r.region.address + m.off - start, m.size);
    assert m in [m] && moved in grown;
    assert forall x :: x in grown <==> x in acc || x == moved;
    var lo :| lo in acc && lo.off == 0;
    var hi :| hi in acc && hi.off + hi.size == end - start;
    assert lo in grown && hi in grown;
  }

  lemma OpenGood(r: CoalescedRead, m: Member, b: nat)
    requires MembersFit(r, [m])
    ensures var at := r.region.address + m.off; GoodChunk(Chunk(r, at, at + m.size, [Member(m.id, 0, m.size)]), b)
  {
    assert m in [m] && Member(m.id, 0, m.size) in [Member(m.id, 0, m.size)];
  }

  lemma MembersFitSplit(r: CoalescedRead, ms: seq<Member>)
    requires ms != [] && MembersFit(r, ms)
    ensures MembersFit(r, [ms[0]]) && MembersFit(r, ms[1..])
  {
  }

  lemma {:induction false} ChunksGood(r: CoalescedRead, start: nat, end: nat, acc: seq<Member>, rest: seq<Member>,
      b: nat)
    requires start <= end && Ahead(r, start, rest) && MembersFit(r, rest)
    requires GoodChunk(Chunk(r, start, end, acc), b)
    ensures GoodChunks(Chunks(r, start, end, acc, rest, b), b)
    decreases |rest|, 1
  {
    var c := Chunk(r, start, end, acc);
    if rest == [] {
      GoodCons(c, [], b);
    } else {
      var m := rest[0];
      var at := r.region.address + m.off;
      Unfold(r, start, end, acc, rest, b);
      MembersFitSplit(r, rest);
      if Max(end, at + m.size) - start > b {
        ChunksFromGood(r, rest, b);
        GoodCons(c, ChunksFrom(r, rest, b), b);
      } else {
        var end', grown := Max(end, at + m.size), acc + [Member(m.id, at - start, m.size)];
        GrowGood(r, start, end, acc, m, b, end', grown);
        ChunksGood(r, start, end', grown, rest[1..], b);
      }
    }
  }

  lemma GoodCons(c: CoalescedRead, cs: seq<CoalescedRead>, b: nat)
    requires GoodChunk(c, b) && GoodChunks(cs, b)
    ensures GoodChunks([c] + cs, b)
  {
  }

  lemma {:induction false} ChunksFromGood(r: CoalescedRead, ms: seq<Member>, b: nat)
    requires Sorted(ms, OffsetLe) && MembersFit(r, ms)
    ensures GoodChunks(ChunksFrom(r, ms, b), b)
    decreases |ms|, 0
  {
    if ms != [] {
      var m := ms[0];
      assert m in ms;
      OpensAhead(r, ms);
      OpenGood(r, m, b);
      ChunksGood(r, r.region.address + m.off, r.region.address + m.off + m.size, [Member(m.id, 0, m.size)], ms[1..], b);
    }
  }

  lemma SplitOneGood(r: CoalescedRead, b: nat)
    requires WellFormed(r)
    ensures GoodChunks(SplitOne(r, b), b)
  {
    if r.region.size > b {
      OffsetOrder(); SortSorted(r.members, OffsetLe);
      forall m | m in Sort(r.members, OffsetLe) ensures r.region.address + m.off + m.size <= U32_MAX {
        SortMember(r.members, OffsetLe, m);
      }
      ChunksFromGood(r, Sort(r.members, OffsetLe), b);
    }
  }

  lemma {:induction false} SplitAllGood(rs: seq<CoalescedRead>, b: nat)
    requires forall r :: r in rs ==> WellFormed(r)
    ensures GoodChunks(SplitAll(rs, b), b)
    decreases |rs|
  {
    if rs != [] {
      assert rs[0] in rs;
      SplitOneGood(rs[0], b);
      SplitAllGood(rs[1..], b);
    }
  }

  /** Every chunk is the tight hull of the members inside it, and fits the budget or carries one watch. */
  lemma SplitBounds(rs: seq<CoalescedRead>, budget: nat, c: CoalescedRead)
    requires forall r :: r in rs ==> WellFormed(r)
    requires c in SplitReads(rs, budget)
    ensures WellFormed(c) && (c.region.size <= Max(budget, 1) || |c.members| == 1)
  {
    SplitAllGood(rs, Max(budget, 1));
  }

  // ---------------------------------------------------------------------------
  // Splitting again at the same budget changes nothing.

  lemma ChunkSettled(c: CoalescedRead, b: nat)
    requires GoodChunk(c, b)
    ensures SplitOne(c, b) == [c]
  {
    if c.region.size > b {
      var m := c.members[0];
      assert c.members == [m];
      var lo :| lo in c.members && lo.off == 0;
      var hi :| hi in c.members && hi.off + hi.size == c.region.size;
      assert lo == m && hi == m;
      assert Sort(c.members[1..], OffsetLe) == [];
      assert Sort(c.members, OffsetLe) == [m];
      assert ChunksFrom(c, [m], b) == [Chunk(c, c.region.address, c.region.address + m.size, [m])];
    }
  }

  lemma {:induction false} SplitSettled(cs: seq<CoalescedRead>, b: nat)
    requires GoodChunks(cs, b)
    ensures SplitAll(cs, b) == cs
    decreases |cs|
  {
    if cs != [] {
      assert cs[0] in cs;
      ChunkSettled(cs[0], b);
      SplitSettled(cs[1..], b);
    }
  }

  lemma SplitIdempotent(rs: seq<CoalescedRead>, budget: nat)
    requires forall r :: r in rs ==> WellFormed(r)
    ensures SplitReads(SplitReads(rs, budget), budget) == SplitReads(rs, budget)
  {
    SplitAllGood(rs, Max(budget, 1));
    SplitSettled(SplitReads(rs, budget), Max(budget, 1));
  }

  // ---------------------------------------------------------------------------
  // No partition into consecutive groups that fit uses fewer chunks.

  function Flatten(groups: seq<seq<Member>>): seq<Member>
    decreases |groups|
  {
    if groups == [] then [] else groups[0] + Flatten(groups[1..])
  }

  /** The furthest end (offset) of `ms`, or `from` if none lies further. */
  function Reach(from: nat, ms: seq<Member>): nat
    decreases |ms|
  {
    if ms == [] then from else Reach(Max(from, ms[0].off + ms[0].size), ms[1..])
  }

  /** A group fits when it is a lone member or spans at most `b` bytes. */
  predicate GroupFits(g: seq<Member>, b: nat) {
    g != [] && (|g| == 1 || Reach(0, g) <= g[0].off + b)
  }

  predicate Partition(ms: seq<Member>, groups: seq<seq<Member>>, b: nat) {
    Flatten(groups) == ms && forall g :: g in groups ==> GroupFits(g, b)
  }

  lemma {:induction false} ReachMonotone(a: nat, c: nat, ms: seq<Member>)
    requires a <= c
    ensures c <= Reach(c, ms) && Reach(a, ms) <= Reach(c, ms)
    decreases |ms|
  {
    if ms != [] { ReachMonotone(Max(a, ms[0].off + ms[0].size), Max(c, ms[0].off + ms[0].size), ms[1..]); }
  }

  /** A rival partition part-way: its current group opened at offset `open`, reaches `reach` so far and
      still takes `tail`; then it makes `groups`. */
  datatype Rival = Rival(open: nat, reach: nat, tail: seq<Member>, groups: seq<seq<Member>>)

  predicate RivalOk(rest: seq<Member>, b: nat, v: Rival) {
    && rest == v.tail + Flatten(v.groups)
    && (forall g :: g in v.groups ==> GroupFits(g, b))
    && (v.tail == [] || (Reach(v.reach, v.tail) <= v.open + b && v.open <= v.tail[0].off))
  }

  /** The rival after it took the next member `m`. */
  function RivalNext(v: Rival, m: Member): Rival
    requires v.tail != [] || (v.groups != [] && v.groups[0] != [])
  {
    if v.tail != [] then Rival(v.open, Max(v.reach, m.off + m.size), v.tail[1..], v.groups)
    else Rival(m.off, m.off + m.size, v.groups[0][1..], v.groups[1..])
  }

  lemma RivalStep(rest: seq<Member>, b: nat, v: Rival)
    requires rest != [] && Sorted(rest, OffsetLe) && RivalOk(rest, b, v)
    ensures v.tail != [] || (v.groups != [] && v.groups[0] != [])
    ensures RivalOk(rest[1..], b, RivalNext(v, rest[0]))
    ensures v.tail != [] ==> Max(v.reach, rest[0].off + rest[0].size) <= v.open + b && v.open <= rest[0].off
  {
    assert |rest| > 1 ==> OffsetLe(rest[0], rest[1]);
    if v.tail != [] {
      StepTail(rest, b, v);
    } else {
      assert v.groups[0] in v.groups;
      StepGroup(rest, b, v);
    }
  }

  lemma StepTail(rest: seq<Member>, b: nat, v: Rival)
    requires rest != [] && RivalOk(rest, b, v) && v.tail != [] && (|rest| > 1 ==> rest[0].off <= rest[1].off)
    ensures RivalOk(rest[1..], b, RivalNext(v, rest[0]))
    ensures Max(v.reach, rest[0].off + rest[0].size) <= v.open + b && v.open <= rest[0].off
  {
    var m, tail := v.tail[0], v.tail[1..];
    assert rest[1..] == tail + Flatten(v.groups);
    ReachMonotone(Max(v.reach, m.off + m.size), Max(v.reach, m.off + m.size), tail);
    assert tail != [] ==> rest[1] == tail[0];
  }

  lemma StepGroup(rest: seq<Member>, b: nat, v: Rival)
    requires rest != [] && RivalOk(rest, b, v) && v.tail == [] && (|rest| > 1 ==> rest[0].off <= rest[1].off)
    requires v.groups != [] && GroupFits(v.groups[0], b)
    ensures RivalOk(rest[1..], b, RivalNext(v, rest[0]))
  {
    var g := v.groups[0];
    assert rest == g + Flatten(v.groups[1..]);
    assert rest[1..] == g[1..] + Flatten(v.groups[1..]);
    assert |g| > 1 ==> rest[1] == g[1..][0];
  }

  /** With `slack == 0` the greedy chunk opened no earlier than the rival's group and reaches no further;
      with `slack == 1` greedy has already made one chunk fewer. */
  lemma {:induction false} GreedyStaysAhead(r: CoalescedRead, start: nat, end: nat, acc: seq<Member>,
      rest: seq<Member>, b: nat,
                                            v: Rival, slack: nat)
    requires start <= end && Ahead(r, start, rest) && slack <= 1 && RivalOk(rest, b, v)
    requires slack == 0 ==> r.region.address + v.open <= start && end <= r.region.address + v.reach
    ensures |Chunks(r, start, end, acc, rest, b)| <= 1 + |v.groups| + slack
    decreases |rest|, 1
  {
    if rest != [] {
      var m := rest[0];
      var at := r.region.address + m.off;
      Unfold(r, start, end, acc, rest, b);
      RivalStep(rest, b, v);
      var w := RivalNext(v, m);
      if Max(end, at + m.size) - start > b {
        GreedyCuts(r, rest, b, w);
      } else {
        GreedyStaysAhead(r, start, Max(end, at + m.size), acc + [Member(m.id, at - start, m.size)], rest[1..], b,
                         w, if v.tail == [] then 1 else slack);
      }
    }
  }

  lemma {:induction false} GreedyCuts(r: CoalescedRead, rest: seq<Member>, b: nat, w: Rival)
    requires rest != [] && Sorted(rest, OffsetLe) && RivalOk(rest[1..], b, w)
    requires w.open <= rest[0].off && rest[0].off + rest[0].size <= w.reach
    ensures |ChunksFrom(r, rest, b)| <= 1 + |w.groups|
    decreases |rest|, 0
  {
    var m := rest[0];
    var at := r.region.address + m.off;
    OpensAhead(r, rest);
    GreedyStaysAhead(r, at, at + m.size, [Member(m.id, 0, m.size)], rest[1..], b, w, 0);
  }

  /** Greedy splitting is optimal: no partition of the offset-ordered members of an oversized read
      into consecutive groups that fit has fewer groups than the read gets chunks. */
  lemma SplitOptimal(r: CoalescedRead, budget: nat, groups: seq<seq<Member>>)
    requires r.region.size > Max(budget, 1)
    requires Partition(Sort(r.members, OffsetLe), groups, Max(budget, 1))
    ensures |SplitReads([r], budget)| <= |groups|
  {
    var b := Max(budget, 1);
    OffsetOrder(); SortSorted(r.members, OffsetLe);
    var ms := Sort(r.members, OffsetLe);
    assert SplitAll([r], b) == SplitOne(r, b) + SplitAll([], b);
    if ms != [] {
      var none := Rival(0, 0, [], groups);
      assert [] + Flatten(groups) == ms;
      RivalStep(ms, b, none);
      GreedyCuts(r, ms, b, RivalNext(none, ms[0]));
    }
  }
}
