/** Request markers and what fulfils them (crates/sni-cache/src/engine.rs). */
module Fulfil {
  import opened Types
  import opened Coalesce

  /** Latest marker fulfilled by a successful read, and the cycle of that read. */
  datatype ReadState = ReadState(request: nat, refresh: nat)

  type ReadStates = map<WatchId, ReadState>
  type Requests = map<WatchId, nat>

  function Fulfilled(st: ReadStates, id: WatchId): nat { if id in st then st[id].request else 0 }

  function Refresh(st: ReadStates, id: WatchId): nat { if id in st then st[id].refresh else 0 }

  function Requested(req: Requests, id: WatchId): nat { if id in req then req[id] else 0 }

  predicate Unfulfilled(req: Requests, st: ReadStates, id: WatchId) { Requested(req, id) > Fulfilled(st, id) }

  /** `read_is_pending`. */
  predicate IsPending(r: CoalescedRead, req: Requests, st: ReadStates, done: set<WatchId>) {
    AnyWaiting(r.members, req, st, done)
  }

  predicate AnyWaiting(ms: seq<Member>, req: Requests, st: ReadStates, done: set<WatchId>) {
    exists m :: m in ms && m.id !in done && Unfulfilled(req, st, m.id)
  }

  function PendingReads(rs: seq<CoalescedRead>, req: Requests, st: ReadStates, done: set<WatchId>): seq<CoalescedRead> {
    if rs == [] then []
    else (if IsPending(rs[0], req, st, done) then [rs[0]] else []) + PendingReads(rs[1..], req, st, done)
  }

  lemma {:induction false} PendingReadsMember(rs: seq<CoalescedRead>, req: Requests, st: ReadStates,
      done: set<WatchId>, r: CoalescedRead)
    ensures r in PendingReads(rs, req, st, done) <==> r in rs && IsPending(r, req, st, done)
    decreases |rs|
  {
    if rs != [] {
      PendingReadsMember(rs[1..], req, st, done, r);
      assert r in rs <==> r == rs[0] || r in rs[1..];
    }
  }

  function MemberIds(ms: seq<Member>): set<WatchId> { set m | m in ms :: m.id }

  lemma IdsCons(r: CoalescedRead, rs: seq<CoalescedRead>)
    ensures Ids([r] + rs) == MemberIds(r.members) + Ids(rs)
  {
    assert forall q :: q in [r] + rs <==> q == r || q in rs;
  }

  lemma IdsSnoc(rs: seq<CoalescedRead>, r: CoalescedRead)
    ensures Ids(rs + [r]) == Ids(rs) + MemberIds(r.members)
  {
    assert forall q :: q in rs + [r] <==> q in rs || q == r;
  }

  lemma MemberIdsSnoc(ms: seq<Member>, m: Member)
    ensures MemberIds(ms + [m]) == MemberIds(ms) + {m.id}
  {
    assert forall x :: x in ms + [m] <==> x in ms || x == m;
  }

  /** A watch is in some read exactly when some slot names it. */
  lemma IdsSlots(rs: seq<CoalescedRead>, id: WatchId)
    ensures id in Ids(rs) <==> exists s :: s in AllSlots(rs) && s.id == id
  {
    if id in Ids(rs) {
      var r, m :| r in rs && m in r.members && m.id == id;
      SlotsInMember(r.region, r.members, SlotAt(r.region, m));
      AllSlotsMember(rs, SlotAt(r.region, m));
    }
    if s :| s in AllSlots(rs) && s.id == id {
      AllSlotsMember(rs, s);
      var r :| r in rs && s in MemberSlots(r);
      SlotsInMember(r.region, r.members, s);
    }
  }

  /** `ids`, where the cycle saw a marker for them, now hold that marker. */
  function Marked(st: ReadStates, ids: set<WatchId>, req: Requests, cycle: nat): ReadStates {
    map id | id in st.Keys + ids && (id in st || id in req) ::
      if id in ids && id in req then ReadState(req[id], cycle) else st[id]
  }

  lemma MarkedOne(st: ReadStates, ids: set<WatchId>, id: WatchId, req: Requests, cycle: nat)
    ensures Marked(st, ids + {id}, req, cycle)
         == if id in req then Marked(st, ids, req, cycle)[id := ReadState(req[id], cycle)]
            else Marked(st, ids, req, cycle)
  {
  }

  lemma MarkedTwice(st: ReadStates, a: set<WatchId>, b: set<WatchId>, req: Requests, cycle: nat)
    ensures Marked(Marked(st, a, req, cycle), b, req, cycle) == Marked(st, a + b, req, cycle)
  {
  }

  method MarkMembers(ms: seq<Member>, req: Requests, cycle: nat, st: ReadStates) returns (st': ReadStates)
    ensures st' == Marked(st, MemberIds(ms), req, cycle)
  {
    st' := st;
    assert MemberIds(ms[..0]) == {} && Marked(st, {}, req, cycle) == st;
    for j := 0 to |ms|
      invariant st' == Marked(st, MemberIds(ms[..j]), req, cycle)
    {
      MarkedOne(st, MemberIds(ms[..j]), ms[j].id, req, cycle);
      MemberIdsSnoc(ms[..j], ms[j]);
      assert ms[..j + 1] == ms[..j] + [ms[j]];
      if ms[j].id in req {
        st' := st'[ms[j].id := ReadState(req[ms[j].id], cycle)];
      }
    }
    assert ms[..|ms|] == ms;
  }

  /** `mark_fulfilled`: every member with a marker in `req` holds that marker, refreshed in `cycle`. */
  method MarkFulfilled(rs: seq<CoalescedRead>, req: Requests, cycle: nat, st: ReadStates) returns (st': ReadStates)
    ensures st' == Marked(st, Ids(rs), req, cycle)
  {
    st' := st;
    assert Ids(rs[..0]) == {} && Marked(st, {}, req, cycle) == st;
    for i := 0 to |rs|
      invariant st' == Marked(st, Ids(rs[..i]), req, cycle)
    {
      st' := MarkMembers(rs[i].members, req, cycle, st');
      MarkedTwice(st, Ids(rs[..i]), MemberIds(rs[i].members), req, cycle);
      assert rs[..i + 1] == rs[..i] + [rs[i]];
      IdsSnoc(rs[..i], rs[i]);
    }
    assert rs[..|rs|] == rs;
  }

  /** `mark_done`. */
  method MarkDone(rs: seq<CoalescedRead>, done: set<WatchId>) returns (done': set<WatchId>)
    ensures done' == done + Ids(rs)
  {
    done' := done;
    assert Ids(rs[..0]) == {};
    for i := 0 to |rs|
      invariant done' == done + Ids(rs[..i])
    {
      var ms := rs[i].members;
      assert MemberIds(ms[..0]) == {};
      for j := 0 to |ms|
        invariant done' == done + Ids(rs[..i]) + MemberIds(ms[..j])
      {
        MemberIdsSnoc(ms[..j], ms[j]);
        assert ms[..j + 1] == ms[..j] + [ms[j]];
        done' := done' + {ms[j].id};
      }
      assert ms[..|ms|] == ms && rs[..i + 1] == rs[..i] + [rs[i]];
      IdsSnoc(rs[..i], rs[i]);
    }
    assert rs[..|rs|] == rs;
  }

  // ---------------------------------------------------------------------------
  // The backlog report.

  function Waiting(ids: set<WatchId>, req: Requests, st: ReadStates): set<WatchId> {
    set id | id in ids && Unfulfilled(req, st, id)
  }

  /** The watches whose request is still waiting. */
  function Backlog(rs: seq<CoalescedRead>, req: Requests, st: ReadStates): set<WatchId> { Waiting(Ids(rs), req, st) }

  function Age(st: ReadStates, cycle: nat, id: WatchId): nat {
    if cycle >= Refresh(st, id) then cycle - Refresh(st, id) else 0
  }

  ghost function AgeSum(ids: set<WatchId>, st: ReadStates, cycle: nat): nat
    decreases |ids|
  {
    if ids == {} then 0 else var id :| id in ids; Age(st, cycle, id) + AgeSum(ids - {id}, st, cycle)
  }

  lemma {:induction false} AgeSumAdd(ids: set<WatchId>, x: WatchId, st: ReadStates, cycle: nat)
    requires x !in ids
    ensures AgeSum(ids + {x}, st, cycle) == AgeSum(ids, st, cycle) + Age(st, cycle, x)
    decreases |ids|
  {
    var all := ids + {x};
    var id :| id in all && AgeSum(all, st, cycle) == Age(st, cycle, id) + AgeSum(all - {id}, st, cycle);
    if id == x {
      assert all - {id} == ids;
    } else {
      assert all - {id} == (ids - {id}) + {x};
      AgeSumAdd(ids - {id}, x, st, cycle);
      AgeSumAdd(ids - {id}, id, st, cycle);
      assert (ids - {id}) + {id} == ids;
    }
  }

  /** `oldest` is the greatest age in `ids`, or zero when there is none. */
  ghost predicate OldestAge(oldest: nat, ids: set<WatchId>, st: ReadStates, cycle: nat) {
    && (forall id :: id in ids ==> Age(st, cycle, id) <= oldest)
    && (oldest == 0 || exists id :: id in ids && Age(st, cycle, id) == oldest)
  }

  lemma OldestAgeUnique(a: nat, b: nat, ids: set<WatchId>, st: ReadStates, cycle: nat)
    requires OldestAge(a, ids, st, cycle) && OldestAge(b, ids, st, cycle)
    ensures a == b
  {
  }

  function Min(a: nat, b: nat): nat { if a < b then a else b }

  /** Bytes of those of the first `n` reads that bring a waiting watch no earlier read brought. */
  function PendingBytes(rs: seq<CoalescedRead>, n: nat, req: Requests, st: ReadStates): nat
    requires n <= |rs|
  {
    if n == 0 then 0
    else PendingBytes(rs, n - 1, req, st)
         + (if IsPending(rs[n - 1], req, st, Backlog(rs[..n - 1], req, st)) then rs[n - 1].region.size else 0)
  }

  datatype PendingSummary = PendingSummary(watches: nat, bytes: nat, oldest: nat, avg: real)

  /** The part of the report that is about watches rather than chunks. */
  ghost predicate Reports(p: PendingSummary, ids: set<WatchId>, st: ReadStates, cycle: nat) {
    && p.watches == |ids|
    && (exists oldest :: OldestAge(oldest, ids, st, cycle) && p.oldest == Min(oldest, U32_MAX))
    && p.avg == if ids == {} then 0.0 else Min(AgeSum(ids, st, cycle), U64_MAX) as real / |ids| as real
  }

  /** The running totals over the ids inserted so far. */
  ghost predicate Totals(seen: set<WatchId>, oldest: nat, ageSum: nat, st: ReadStates, cycle: nat) {
    OldestAge(oldest, seen, st, cycle) && ageSum == Min(AgeSum(seen, st, cycle), U64_MAX)
  }

  lemma TotalsAdd(seen: set<WatchId>, oldest: nat, ageSum: nat, st: ReadStates, cycle: nat, id: WatchId)
    requires Totals(seen, oldest, ageSum, st, cycle) && id !in seen
    ensures Totals(seen + {id}, Max(oldest, Age(st, cycle, id)), Min(ageSum + Age(st, cycle, id), U64_MAX), st, cycle)
  {
    AgeSumAdd(seen, id, st, cycle);
    assert id in seen + {id};
    if oldest != 0 {
      var x :| x in seen && Age(st, cycle, x) == oldest;
      assert x in seen + {id};
    }
  }

  /** The inner loop of `pending_summary`. */
  method SummarizeMembers(ms: seq<Member>, req: Requests, st: ReadStates, cycle: nat,
                          seen: set<WatchId>, oldest: nat, ageSum: nat)
      returns (seen': set<WatchId>, oldest': nat, ageSum': nat, readPending: bool)
    requires Totals(seen, oldest, ageSum, st, cycle)
    ensures seen' == seen + Waiting(MemberIds(ms), req, st)
    ensures Totals(seen', oldest', ageSum', st, cycle)
    ensures readPending == AnyWaiting(ms, req, st, seen)
  {
    seen', oldest', ageSum', readPending := seen, oldest, ageSum, false;
    assert MemberIds(ms[..0]) == {};
    for j := 0 to |ms|
      invariant seen' == seen + Waiting(MemberIds(ms[..j]), req, st)
      invariant Totals(seen', oldest', ageSum', st, cycle)
      invariant readPending == AnyWaiting(ms[..j], req, st, seen)
    {
      var id := ms[j].id;
      MemberIdsSnoc(ms[..j], ms[j]);
      assert ms[..j + 1] == ms[..j] + [ms[j]];
      StepWaiting(ms[..j], ms[j], req, st, seen, seen', readPending);
      if Unfulfilled(req, st, id) && id !in seen' {
        TotalsAdd(seen', oldest', ageSum', st, cycle, id);
        seen', readPending := seen' + {id}, true;
        oldest', ageSum' := Max(oldest', Age(st, cycle, id)), Min(ageSum' + Age(st, cycle, id), U64_MAX);
      }
    }
    assert ms[..|ms|] == ms;
  }

  lemma StepWaiting(ms: seq<Member>, m: Member, req: Requests, st: ReadStates, seen: set<WatchId>,
      seen': set<WatchId>, readPending: bool)
    requires seen' == seen + Waiting(MemberIds(ms), req, st)
    requires readPending == AnyWaiting(ms, req, st, seen)
    ensures seen + Waiting(MemberIds(ms) + {m.id}, req, st)
         == if Unfulfilled(req, st, m.id) && m.id !in seen' then seen' + {m.id} else seen'
    ensures AnyWaiting(ms + [m], req, st, seen)
       <==> readPending || (Unfulfilled(req, st, m.id) && m.id !in seen')
  {
    assert m in ms + [m];
    assert forall x :: x in ms + [m] <==> x in ms || x == m;
    if readPending {
      var x :| x in ms && x.id !in seen && Unfulfilled(req, st, x.id);
      assert x in ms + [m];
    }
  }

  lemma BacklogStep(rs: seq<CoalescedRead>, i: nat, req: Requests, st: ReadStates)
    requires i < |rs|
    ensures Backlog(rs[..i + 1], req, st) == Backlog(rs[..i], req, st) + Waiting(MemberIds(rs[i].members), req, st)
    ensures PendingBytes(rs, i + 1, req, st)
         == PendingBytes(rs, i, req, st)
            + (if AnyWaiting(rs[i].members, req, st, Backlog(rs[..i], req, st)) then rs[i].region.size else 0)
  {
    assert rs[..i + 1] == rs[..i] + [rs[i]];
    IdsSnoc(rs[..i], rs[i]);
  }

  /** The running totals after the first `i` reads. */
  ghost predicate SoFar(rs: seq<CoalescedRead>, i: nat, req: Requests, st: ReadStates, cycle: nat,
                        seen: set<WatchId>, bytes: nat, oldest: nat, ageSum: nat)
  {
    && i <= |rs| && seen == Backlog(rs[..i], req, st) && Totals(seen, oldest, ageSum, st, cycle)
    && bytes == Min(PendingBytes(rs, i, req, st), U32_MAX)
  }

  /** One turn of the outer loop of `pending_summary`. */
  method SummarizeRead(rs: seq<CoalescedRead>, i: nat, req: Requests, st: ReadStates, cycle: nat,
                       seen: set<WatchId>, bytes: nat, oldest: nat, ageSum: nat)
      returns (seen': set<WatchId>, bytes': nat, oldest': nat, ageSum': nat)
    requires i < |rs| && SoFar(rs, i, req, st, cycle, seen, bytes, oldest, ageSum)
    ensures SoFar(rs, i + 1, req, st, cycle, seen', bytes', oldest', ageSum')
  {
    BacklogStep(rs, i, req, st);
    var readPending;
    seen', oldest', ageSum', readPending := SummarizeMembers(rs[i].members, req, st, cycle, seen, oldest, ageSum);
    bytes' := if readPending then Min(bytes + rs[i].region.size, U32_MAX) else bytes;
  }

  /** `pending_summary`. */
  method SummarizePending(rs: seq<CoalescedRead>, req: Requests, st: ReadStates, cycle: nat) returns (p: PendingSummary)
    ensures Reports(p, Backlog(rs, req, st), st, cycle)
    ensures p.bytes == Min(PendingBytes(rs, |rs|, req, st), U32_MAX)
  {
    var seen: set<WatchId> := {};
    var bytes: nat, oldest: nat, ageSum: nat := 0, 0, 0;
    assert Ids(rs[..0]) == {};
    var i := 0;
    while i < |rs|
      invariant SoFar(rs, i, req, st, cycle, seen, bytes, oldest, ageSum)
    {
      seen, bytes, oldest, ageSum := SummarizeRead(rs, i, req, st, cycle, seen, bytes, oldest, ageSum);
      i := i + 1;
    }
    assert rs[..|rs|] == rs;
    TotalsReport(seen, bytes, oldest, ageSum, st, cycle);
    p := Summary(|seen|, bytes, oldest, ageSum);
  }

  function Summary(watches: nat, bytes: nat, oldest: nat, ageSum: nat): PendingSummary {
    PendingSummary(watches, bytes, Min(oldest, U32_MAX), if watches == 0 then 0.0 else ageSum as real / watches as real)
  }

  lemma TotalsReport(seen: set<WatchId>, bytes: nat, oldest: nat, ageSum: nat, st: ReadStates, cycle: nat)
    requires Totals(seen, oldest, ageSum, st, cycle)
    ensures Reports(Summary(|seen|, bytes, oldest, ageSum), seen, st, cycle)
  {
  }

  /** A backlog is empty exactly when no read is pending. */
  lemma BacklogEmpty(rs: seq<CoalescedRead>, req: Requests, st: ReadStates)
    ensures Backlog(rs, req, st) == {} <==> forall r :: r in rs ==> !IsPending(r, req, st, {})
  {
    forall r | r in rs && IsPending(r, req, st, {}) ensures Backlog(rs, req, st) != {} {
      var m :| m in r.members && Unfulfilled(req, st, m.id);
      assert m.id in Backlog(rs, req, st);
    }
    if id :| id in Backlog(rs, req, st) {
      var r, m :| r in rs && m in r.members && m.id == id;
      assert IsPending(r, req, st, {});
    }
  }
}
