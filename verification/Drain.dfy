/** The bulk drain loop: progress, termination, completeness, and agreement of its budget functions. */
module Drain {
  import opened Types
  import opened Split
  import ST = SplitTheorems
  import opened Select
  import opened Fulfil
  import opened Budget
  import opened Snapshots
  import opened Cycle
  import opened BatchedReads

  /** What holds between the capture and the end of the drain loop. */
  predicate Loopable(e: Engine) {
    && (forall r :: r in e.bulk ==> WellFormed(r))
    && (forall id :: id in Ids(e.bulk) ==> id in e.requests)
    && (forall id :: id in e.done ==> !Unfulfilled(e.requests, e.readState, id))
  }

  /** Watches of this cycle's bulk set whose marker is not fulfilled and that no batch has served yet. */
  function WaitingSet(e: Engine): set<WatchId> {
    set id | id in Ids(e.bulk) && id !in e.done && Unfulfilled(e.requests, e.readState, id)
  }

  lemma ChunkOf(e: Engine, budget: nat, id: WatchId) returns (r: CoalescedRead, m: Member)
    requires id in Ids(e.bulk)
    ensures r in SplitReads(e.bulk, budget) && m in r.members && m.id == id
  {
    SplitIds(e.bulk, budget);
    r, m :| r in SplitReads(e.bulk, budget) && m in r.members && m.id == id;
  }

  /** Some chunk is pending exactly when some watch is waiting, whatever the budget. */
  lemma PendingIff(e: Engine, budget: nat)
    ensures PendingChunks(e, budget) == [] <==> WaitingSet(e) == {}
  {
    var chunks := SplitReads(e.bulk, budget);
    var pending := PendingChunks(e, budget);
    if pending != [] {
      PendingReadsMember(chunks, e.requests, e.readState, e.done, pending[0]);
      var m :| m in pending[0].members && m.id !in e.done && Unfulfilled(e.requests, e.readState, m.id);
      SplitIds(e.bulk, budget);
      assert m.id in Ids(chunks);
      assert m.id in WaitingSet(e);
    }
    if id :| id in WaitingSet(e) {
      var r, m := ChunkOf(e, budget, id);
      assert IsPending(r, e.requests, e.readState, e.done);
      PendingReadsMember(chunks, e.requests, e.readState, e.done, r);
    }
  }

  lemma BatchNonEmpty(e: Engine, budget: nat)
    requires PendingChunks(e, budget) != []
    ensures Batch(e, budget) != []
  {
    SelectedStalest(PendingChunks(e, budget), budget, e.readState, e.cycle, PendingChunks(e, budget)[0]);
  }

  /** Every read of a batch is a pending chunk of this cycle's bulk reads. */
  lemma BatchPending(e: Engine, budget: nat, r: CoalescedRead)
    requires r in Batch(e, budget)
    ensures r in SplitReads(e.bulk, budget) && IsPending(r, e.requests, e.readState, e.done)
  {
    SelectedFits(PendingChunks(e, budget), budget, e.readState, e.cycle);
    PendingReadsMember(SplitReads(e.bulk, budget), e.requests, e.readState, e.done, r);
  }

  /** The loop leaves through `pending.is_empty()` exactly when every observed marker is fulfilled;
      the break on an empty selection is unreachable; and the first turn of a cycle only ever issues a
      batch or finds nothing to do, however late it is. */
  lemma TurnOutcomes(e: Engine, elapsedMs: nat)
    requires Loopable(e)
    ensures TurnAt(e, elapsedMs).CaughtUp? ==>
              forall id :: id in Ids(e.bulk) ==> !Unfulfilled(e.requests, e.readState, id)
    ensures !TurnAt(e, elapsedMs).NothingSelected?
    ensures TurnAt(e, elapsedMs).Issue? || TurnAt(e, elapsedMs).WouldOverrun? ==> WaitingSet(e) != {}
    ensures e.readsIssued == 0 ==>
              if WaitingSet(e) == {} then TurnAt(e, elapsedMs).CaughtUp? else TurnAt(e, elapsedMs).Issue?
  {
    if IterBudget(e, elapsedMs).Some? {
      var budget := IterBudget(e, elapsedMs).value;
      PendingIff(e, budget);
      if PendingChunks(e, budget) != [] { BatchNonEmpty(e, budget); }
      if WaitingSet(e) == {} {
        forall id | id in Ids(e.bulk) ensures !Unfulfilled(e.requests, e.readState, id) {
          assert id !in WaitingSet(e);
        }
      }
    }
  }

  /** A batch stays within its budget, or is one chunk of one watch that alone exceeds it. */
  lemma BatchBounds(e: Engine, budget: nat)
    requires Loopable(e)
    ensures var batch := Batch(e, budget);
            TotalSize(batch) <= budget
            || (|batch| == 1 && (|batch[0].members| == 1 || batch[0].region.size <= 1) && batch[0].region.size > budget)
    ensures budget <= U32_MAX ==> TotalSize(Batch(e, budget)) <= U32_MAX
  {
    var batch := Batch(e, budget);
    SelectedFits(PendingChunks(e, budget), budget, e.readState, e.cycle);
    if TotalSize(batch) > budget {
      assert batch == [batch[0]];
      BatchPending(e, budget, batch[0]);
      ST.SplitBounds(e.bulk, budget, batch[0]);
      assert TotalSize(batch) == batch[0].region.size + TotalSize(batch[1..]);
    }
  }

  /** The time check refuses only what selection could not cut down: a lone chunk that exceeds the
      iteration's budget and (unless it is a single byte) carries a single watch. */
  lemma OnlyOversizedRefused(e: Engine, elapsedMs: nat)
    requires Loopable(e) && TurnAt(e, elapsedMs).WouldOverrun?
    ensures var t := TurnAt(e, elapsedMs);
            && |t.selected| == 1 && t.selected[0].region.size > t.iterBudget
            && (|t.selected[0].members| == 1 || t.selected[0].region.size <= 1)
    ensures UsableThroughput(e.throughput).Some?
  {
    var t := TurnAt(e, elapsedMs);
    BatchBounds(e, t.iterBudget);
    if TotalSize(t.selected) <= t.iterBudget {
      AdmittedBytesFit(e.budget, TotalSize(t.selected), e.throughput, e.latencyFloor, elapsedMs, FrameMs(e));
    }
  }

  /** A successful batch strictly shrinks the waiting set, and what it served stays served. */
  lemma BatchShrinks(e: Engine, elapsedMs: nat, blobs: seq<seq<Byte>>, at: seq<nat>, rttMs: nat, later: nat)
    requires Loopable(e) && TurnAt(e, elapsedMs).Issue?
    ensures var e' := BulkAnswered(Turned(e, elapsedMs), Blobs(blobs, at), rttMs, later);
            Loopable(e') && WaitingSet(e') < WaitingSet(e)
  {
    var batch := TurnAt(e, elapsedMs).selected;
    var e' := BulkAnswered(Turned(e, elapsedMs), Blobs(blobs, at), rttMs, later);
    BatchIds(e, IterBudget(e, elapsedMs).value);
    BatchServes(e, elapsedMs);
    ServedShrinks(e, e', Ids(batch));
  }

  lemma BatchServes(e: Engine, elapsedMs: nat)
    requires TurnAt(e, elapsedMs).Issue?
    ensures exists id :: id in Ids(TurnAt(e, elapsedMs).selected) && id in WaitingSet(e)
  {
    var batch := TurnAt(e, elapsedMs).selected;
    var budget := IterBudget(e, elapsedMs).value;
    BatchPending(e, budget, batch[0]);
    var m :| m in batch[0].members && m.id !in e.done && Unfulfilled(e.requests, e.readState, m.id);
    SplitIds(e.bulk, budget);
    assert m.id in Ids(SplitReads(e.bulk, budget));
    assert m.id in Ids(batch) && m.id in WaitingSet(e);
  }

  lemma ServedShrinks(e: Engine, e': Engine, ids: set<WatchId>)
    requires Loopable(e) && ids <= Ids(e.bulk) && exists id :: id in ids && id in WaitingSet(e)
    requires e'.bulk == e.bulk && e'.requests == e.requests && e'.done == e.done + ids
    requires e'.readState == Marked(e.readState, ids, e.requests, e.cycle)
    ensures Loopable(e') && WaitingSet(e') < WaitingSet(e)
  {
    forall id | id in e'.done ensures !Unfulfilled(e'.requests, e'.readState, id) { MarkedFulfils(e, ids, id); }
    var served :| served in ids && served in WaitingSet(e);
    assert served !in WaitingSet(e');
    assert forall id :: id in WaitingSet(e') ==> id in WaitingSet(e);
  }

  lemma BatchIds(e: Engine, budget: nat)
    ensures Ids(Batch(e, budget)) <= Ids(e.bulk)
  {
    SplitIds(e.bulk, budget);
    forall id | id in Ids(Batch(e, budget)) ensures id in Ids(e.bulk) {
      var r, m :| r in Batch(e, budget) && m in r.members && m.id == id;
      BatchPending(e, budget, r);
      assert id in Ids(SplitReads(e.bulk, budget));
    }
  }

  lemma MarkedFulfils(e: Engine, ids: set<WatchId>, id: WatchId)
    requires (forall d :: d in e.done ==> !Unfulfilled(e.requests, e.readState, d)) && id in e.done + ids
    requires id in ids ==> id in e.requests
    ensures !Unfulfilled(e.requests, Marked(e.readState, ids, e.requests, e.cycle), id)
  {
  }
}
