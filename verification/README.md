# A verified model of the sni-lua poll engine

sni-lua shows overlays over a running SNES game. Lua scripts declare *watches* (memory regions) and read them
from a cached snapshot; a poll engine refreshes the watches over a slow link, within a frame's time budget. This
project models, in Dafny:

- **The poll engine** (`crates/sni-cache`). `WatchRegistry`, `SnapshotBuilder` and `PollEngine` are classes whose
  methods are the registry calls, the snapshot builder and the steps of one poll cycle; the loops of `coalesce`,
  `split_reads_to_budget`, `select_bulk`, `apply_reads`, `mark_fulfilled`, `pending_summary` and the drain loop
  are loops here. Each method is proved equal to a specification function, and the theorems are about those
  functions. `System.dfy` interleaves script steps and engine steps in every order, over a device whose memory
  changes arbitrarily between any two instants; elapsed times, round trips and replies are arbitrary inputs.
- **The HTTP bridge** (`crates/sni-lua-api`): the slot counter with submitters and the worker interleaved at each
  atomic step, and the callback protocol over runs with reloads.
- **The Lua/JSON conversions**, and exactly which documents survive the round trip.

## Reading order

| files | about |
|---|---|
| `Types`, `Sorting` | regions, watches, reads; the stable sort |
| `Coalesce`, `CoalesceTheorems` | merging watches into reads; connected components |
| `Split`, `SplitTheorems`, `ChunkUrgency` | cutting reads to a budget; conservation, optimality, and how urgent a chunk is |
| `Fulfil`, `Select`, `Budget` | request markers and the backlog report; one batch; the budget functions |
| `Aimd`, `BudgetLaws` | the budget controller in closed loop; its arithmetic written out, and the engine against the loop |
| `Snapshot`, `BatchedReads` | snapshots; batched reading refines single reads |
| `Registry`, `Cycle`, `PollEngine`, `Drain`, `DrainReasons` | the objects, the meaning of each step, the drain loop, and why it goes on or ends |
| `System`, `Invariant`, `EngineSteps` | all interleavings and what every step keeps |
| `Properties`, `Starvation`, `Answered`, `Realtime`, `Turns` | what scripts may rely on, over every run |
| `Activity`, `DrainEnds`, `Housekeeping` | which watches are polled; why a drain loop ended; latency, ages and removed watches |
| `LeftOut` | when one batch refreshes all that waits |
| `PollCycle` | one cycle of the object as a run of the system |
| `Witnesses` | reachable states that show what is not promised |
| `HttpSlots`, `HttpCallbacks`, `HttpOrder`, `HttpRefinement` | the in-flight cap; callback delivery and its order; one against the other |
| `LuaJson`, `LuaJsonTheorems`, `LuaJsonTables`, `LuaJsonNormal`, `LuaJsonReturns` | the conversions, the round trip of documents, tables entry by entry, what any document becomes, and the round trip of script values |

## Assumptions

- `address + size` of a registered region fits in 32 bits; the sums in `coalesce` rely on it
  (`crates/sni-cache/src/watch.rs:279`, `crates/sni-cache/src/watch.rs:284`).
- `min_byte_budget <= max_byte_budget`, else `clamp` panics (`crates/sni-cache/src/engine.rs:615`).
- One script thread: at most one marker is in hand, drawn but not stored. Drawing and storing are separate steps
  (`crates/sni-cache/src/watch.rs:136-137`), so the engine may capture markers between the two.
- A blob that arrives is a prefix of (or longer than) the memory of its region at one instant between sending
  the read and its answer. Blobs may be short or missing. Freshness then holds exactly for the watches a reply
  reaches: `ReplyFreshIffReached` states the condition, `ShortReplyFulfilsNothing` shows a request fulfilled
  without bytes, `FullRunsFulfilFreshly` gives the unconditional promise for full replies.
- Starvation freedom counts the cycles whose first bulk read does not fail, and allows 2 more for each watch
  registered meanwhile: one because it is new, one because a watch registered between
  `crates/sni-cache/src/engine.rs:216` and `crates/sni-cache/src/engine.rs:223` is missing from the retention set,
  so the collection at every 256th cycle drops its state (`crates/sni-cache/src/engine.rs:462-464`).
- Floats in a JSON document are finite doubles, which is their type in `serde_json`.
- The Lua VM's freedoms (the border `#t` reports, key order, how a float prints) are a parameter `Vm`. A whole number
  prints in decimal, which `DecimalReads` shows to be unambiguous.
- Tables of the VM the repository pins, LuaJIT (`Cargo.toml:54`), hold doubles. The binding crate mlua 0.10.5 is not
  part of this model; its reading rule is assumed to be: a number is an integer when its whole part is an i64 and
  it lies within one double epsilon (2^-52) of that part, and a float otherwise.

## Where the documentation and the code disagree

- `docs/SCRIPTING.md:77-84` promises a refresh every cycle for high, about every 3 cycles for normal and every 12
  for low priority. The scheduler never uses these periods (`crates/sni-cache/src/engine.rs:836-839`): it orders
  by staleness, priority only breaks ties. `StaleLowBeforeHigh` is a published snapshot that shows it.
  `RefreshEveryCycleIff` says exactly when one batch is sure to refresh every waiting watch, of any priority: when
  the pending chunks fit the iteration's budget together, or are one chunk. Otherwise a slow answer ends the cycle
  with a watch left waiting.
- `next_budget` aims growth at 80% of the whole frame, while an overrun is measured against the frame less the
  latency floor. So the loop does not settle for every link: `HalfFrameLatencyNeverSettles` is one that does not,
  `SettlesIff` gives the exact condition, `LowLatencyStable` a simple sufficient one (latency at most a fifth of
  the frame).
- `crates/sni-lua-api/src/runtime.rs:226-230` says the id is returned before any response can arrive.
  `ResponseMayComeFirst` is a run where the response is earlier. Nobody looks at it before the callback is
  stashed, because submitting and pumping share one thread, so `CalledByNextPump` holds all the same.
- `crates/sni-lua-api/src/lib.rs:2252-2254` calls `json_to_lua` the inverse of `lua_to_json`. Numbers inside arrays
  and objects pass through the VM's doubles, so it is that only on the domain of `RoundTrip`;
  `TinyFractionLost`, `WholeFloatChanges` and `LongWholeRounded` are documents outside it.

The straight-line methods of `SnapshotBuilder` and `PollEngine` are each proved equal to a function of `Snapshots`
or `Cycle`; the table names what is proved about those functions instead.

## Model

| member | source | states |
|---|---|---|
| `Sorting.SortStable` | crates/sni-cache/src/watch.rs:274-274 | the sort keeps elements that tie in their order, as the standard library promises |
| `Coalesce.CoalesceWatches` | crates/sni-cache/src/watch.rs:260-299 | the bucketing, sorting and scanning loops compute `Coalesced`, whose properties the next rows state |
| `CoalesceTheorems.CoalesceConserves` | crates/sni-cache/src/watch.rs:260-325 | every watch is a member of exactly one read: ids, absolute addresses and sizes are kept as a multiset, whatever the input |
| `CoalesceTheorems.CoalesceHulls` | crates/sni-cache/src/watch.rs:274-325 | each read is the tight hull of its members, over-reads at most gap bytes per seam, holds one chain of near watches, and same-space reads are more than gap apart |
| `CoalesceTheorems.CoalesceComponents` | crates/sni-cache/src/watch.rs:260-299 | two watches share a read if and only if a chain of watches of one space, each within gap of the next, links them |
| `CoalesceTheorems.CoalescePriority` | crates/sni-cache/src/watch.rs:301-325 | a read is exactly as urgent as its most urgent watch |
| `CoalesceTheorems.CoalesceOrderFree` | crates/sni-cache/src/watch.rs:260-299 | another input order gives reads with the same regions, priorities and watches |
| `Split.SplitToBudget` | crates/sni-cache/src/engine.rs:777-823 | the two nested loops compute `SplitReads`, which the next rows characterise: slots, sizes, priority and number of chunks |
| `SplitTheorems.SplitConserves` | crates/sni-cache/src/engine.rs:777-823 | splitting keeps the multiset of ids, absolute addresses and sizes |
| `SplitTheorems.SplitBounds` | crates/sni-cache/src/engine.rs:786-820 | every chunk is the tight hull of members inside it, and fits max(budget, 1) or has exactly one member |
| `SplitTheorems.SplitIdempotent` | crates/sni-cache/src/engine.rs:777-823 | splitting again at the same budget changes nothing |
| `SplitTheorems.SplitOptimal` | crates/sni-cache/src/engine.rs:786-820 | no partition of the offset-ordered members of an oversized read into consecutive fitting or single groups has fewer groups than the split has chunks |
| `ChunkUrgency.SplitPriority` | crates/sni-cache/src/engine.rs:777-823 | every chunk has the priority of a read that carries all of its watches, at their places |
| `ChunkUrgency.ChunkUrgencyExact` | crates/sni-cache/src/engine.rs:777-823 | however the coalesced reads are cut, a chunk is exactly as urgent as the most urgent watch linked by a chain within gap to any watch in it |
| `ChunkUrgency.PendingUrgency` | crates/sni-cache/src/engine.rs:221-324 | in every reachable cycle, at any budget, the same holds of each pending chunk and the captured bulk watches |
| `Fulfil.MarkFulfilled` | crates/sni-cache/src/engine.rs:704-723 | the loop sets, for exactly the members with a captured marker, that marker and this cycle |
| `Fulfil.MarkDone` | crates/sni-cache/src/engine.rs:725-731 | the done set grows by exactly the members |
| `Fulfil.SummarizePending` | crates/sni-cache/src/engine.rs:733-775 | the report counts each unfulfilled watch once: number, greatest age, saturated average age, and bytes of reads that bring a new one |
| `Fulfil.BacklogEmpty` | crates/sni-cache/src/engine.rs:691-702 | no watch is unfulfilled if and only if no read passes `read_is_pending` with an empty done set |
| `BatchedReads.BacklogChunkFree` | crates/sni-cache/src/engine.rs:397-402 | watch count, oldest and average age do not depend on the budget the reads were cut to |
| `Select.SelectBulk` | crates/sni-cache/src/engine.rs:512-561 | the loop computes `Selected`; the capped flag means the pending bytes exceed the budget |
| `Select.SelectedFits` | crates/sni-cache/src/engine.rs:538-555 | a batch comes from the pending reads and fits the budget, or is a single read |
| `Select.SelectedMaximal` | crates/sni-cache/src/engine.rs:538-555 | no pending read left out would still have fitted |
| `Select.AllSelectedIff` | crates/sni-cache/src/engine.rs:512-561 | the batch has all pending reads, with multiplicity, if and only if they fit the budget together or are at most one |
| `Select.SelectedStalest` | crates/sni-cache/src/engine.rs:520-536 | a batch of something is not empty and begins with a stalest read, the most urgent of those |
| `Select.SelectedOrdered` | crates/sni-cache/src/engine.rs:520-536 | within a batch staleness never rises, urgency never rises among the equally stale, and addresses never fall among those equal in both |
| `Select.LeftOutForEarlier` | crates/sni-cache/src/engine.rs:520-555 | a pending read is left out only if, together with reads of the batch that come before it, it would exceed the budget |
| `Select.SelectedReachesOldest` | crates/sni-cache/src/engine.rs:512-561 | the first read has a member refreshed no later than any member of any pending read |
| `Budget.ObserveLatencyFloor` | crates/sni-cache/src/engine.rs:565-571 | the floor is the smallest round trip seen, at least one millisecond |
| `Budget.AdmittedBytesFit` | crates/sni-cache/src/engine.rs:620-670 | bytes within the budget cut to the remaining time pass the remaining-time check |
| `BudgetLaws.RemainingExact` | crates/sni-cache/src/engine.rs:620-647 | the budget for the remaining time is the one asked for, or the most whole bytes 80% of the throughput moves in the time left; there is none if and only if no time is left or not one byte fits |
| `BudgetLaws.FitsExact` | crates/sni-cache/src/engine.rs:649-670 | a batch passes the time check if and only if the throughput, when known, moves its bytes in the whole milliseconds left |
| `BudgetLaws.TransferExact` | crates/sni-cache/src/engine.rs:576-579 | transfer time and whole latency floor add up to the round trip if it is longer than the floor; otherwise the transfer is one millisecond |
| `BudgetLaws.CutExact` | crates/sni-cache/src/engine.rs:596-607 | an overrun cuts the budget to the floor of b * target / (2 * transfer), and for an overshoot beyond 2.5 times the target to that of b / 5 |
| `BudgetLaws.NextBudgetExact` | crates/sni-cache/src/engine.rs:592-616 | the next budget in whole numbers: that cut, not below the minimum, or growth by max(256, a twentieth of the maximum) up to 80% of what the link moves in a frame, never down |
| `BudgetLaws.BatchMovesBudget` | crates/sni-cache/src/engine.rs:358-381 | after a successful batch the latency floor is the least seen, the throughput keeps 1 - alpha of its distance from what the batch showed, and with these the budget moves as the row above says |
| `Cycle.BlendBetween` | crates/sni-cache/src/engine.rs:374-377 | the smoothed throughput lies between the old average and the new sample |
| `Aimd.StepInRange` | crates/sni-cache/src/engine.rs:615-615 | every step stays inside the configured range |
| `Aimd.CutHalves` | crates/sni-cache/src/engine.rs:596-607 | an overrun at least halves the budget, down to the minimum, and never cuts below a fifth (rounded down); `BudgetLaws.CutExact` gives the exact cut |
| `Aimd.GrowStep` | crates/sni-cache/src/engine.rs:608-615 | without an overrun the budget grows by one increment up to a plateau, never shrinking |
| `Aimd.Converges` | crates/sni-cache/src/engine.rs:592-616 | in a stable loop the overrun ends within one step per halving, never recurs, growth is monotone, and a fixed point is reached in a bounded number of steps |
| `Aimd.OverrunsAgain` | crates/sni-cache/src/engine.rs:592-616 | an unstable loop overruns again from every start |
| `Aimd.SettlesIff` | crates/sni-cache/src/engine.rs:592-616 | the loop eventually stops overrunning if and only if the minimum budget and the growth ceiling fit the transfer target |
| `Aimd.HalfFrameLatencyNeverSettles` | crates/sni-cache/src/engine.rs:592-616 | a concrete link with latency of half a frame, which overruns again and again from every starting budget |
| `Aimd.LowLatencyStable` | crates/sni-cache/src/engine.rs:592-616 | a latency floor within a fifth of the frame is enough for that |
| `BudgetLaws.EngineIsLoop` | crates/sni-cache/src/engine.rs:358-381 | on a link with a known floor that answers in floor plus the whole milliseconds the bytes take, the engine never believes the link faster than it is, an overrun by a full batch moves the budget exactly as the closed loop, no batch as large as the budget grows it further than the loop, and with exact throughput it moves exactly as the loop |
| `Snapshots.ApplyReads` | crates/sni-cache/src/engine.rs:674-689 | the loops compute `Applied`: members a blob does not reach change nothing |
| `BatchedReads.BatchingRefinesSingleReads` | crates/sni-cache/src/engine.rs:674-823 | for every gap and budget, coalescing, splitting, reading in full and slicing back gives the cache that one read per watch gives |
| `BatchedReads.BatchingReadsEveryWatch` | crates/sni-cache/src/engine.rs:674-823 | and so every watch holds exactly the memory of its own region, at age zero |
| `Registry.WatchRegistry.Register` | crates/sni-cache/src/watch.rs:111-129 | the new watch gets an id no watch ever had, and a fresh marker |
| `Registry.WatchRegistry.Touch` | crates/sni-cache/src/watch.rs:135-141 | a live watch gets the next marker and the present clock as its last touch; for a dead id only the marker is used up |
| `Registry.WatchRegistry.Pin` | crates/sni-cache/src/watch.rs:147-154 | the watch stays active for good and gets the next marker |
| `Registry.WatchRegistry.UpgradePriority` | crates/sni-cache/src/watch.rs:162-172 | priority becomes the more urgent of the two, never less urgent |
| `Registry.WatchRegistry.Unregister` | crates/sni-cache/src/watch.rs:174-176 | only that watch goes |
| `Registry.WatchRegistry.Clear` | crates/sni-cache/src/watch.rs:178-180 | every watch goes; used ids and markers stay used |
| `Registry.WatchRegistry.All` | crates/sni-cache/src/watch.rs:185-191 | the handles of all entries |
| `Registry.WatchRegistry.ActiveWithRequests` | crates/sni-cache/src/watch.rs:207-218 | the loop computes the active entries |
| `Registry.HandlesMember` | crates/sni-cache/src/watch.rs:185-191 | a handle is listed if and only if it is registered |
| `Registry.ActiveMember` | crates/sni-cache/src/watch.rs:207-218 | a pair is listed if and only if it is an entry that is pinned or recently touched, with its current marker |
| `Registry.ActiveDistinct` | crates/sni-cache/src/watch.rs:207-218 | no watch is listed twice |
| `Activity.AskedIsPolled` | crates/sni-cache/src/watch.rs:135-218 | over every run: a watch registered, touched, pinned or upgraded at a clock and still registered is in the poll set of every later capture less than a window after it, as long as later requests for it carry no earlier clock |
| `Activity.DormantIsNotPolled` | crates/sni-cache/src/watch.rs:135-218 | over every run from start-up: a watch never pinned or upgraded is in no poll set from a window after the last time it was asked for |
| `PollEngines.PollEngine.NextTurn` | crates/sni-cache/src/engine.rs:301-356 | the head of the drain loop computes `TurnAt`: which of five ways out, or which batch to send; `DrainReasons.HeadExact` says when, in plain arithmetic |
| `DrainReasons.HeadExact` | crates/sni-cache/src/engine.rs:301-356 | the head of the drain loop sends a batch, with something waiting and, after the first batch of a cycle, time left for its bytes; or it leaves, changing nothing else, because nothing waits or a batch was sent and the frame is over, no time is left above the latency, not one byte fits 80% of it, or a waiting watch is too long for it |
| `DrainReasons.BatchExact` | crates/sni-cache/src/engine.rs:301-341 | the batch sent is selected from the pending chunks with the controller's budget, or with the whole bytes 80% of the throughput moves in the time left if that is less |
| `DrainReasons.AnswerExact` | crates/sni-cache/src/engine.rs:358-394 | after an answer the loop goes on if and only if the batch arrived and another round trip like it would end before the frame does |
| `DrainEnds.EndsForAReason` | crates/sni-cache/src/engine.rs:301-395 | over every run, in every interleaving: a drain loop that ends with a watch waiting was left by a failed read, by an answer whose repetition would reach the end of the frame, or at the head for one of these reasons |
| `PollEngines.RoundEndsFor` | crates/sni-cache/src/engine.rs:301-395 | the same for one round of the object's loop |
| `PollEngines.RoundProgress` | crates/sni-cache/src/engine.rs:301-395 | every round leaves the loop or takes a watch off the waiting set, and none starts to wait |
| `PollEngines.PollEngine.DrainBulk` | crates/sni-cache/src/engine.rs:301-395 | the loop is rounds of decide, send and take in until the first round that leaves it; that round comes whatever the clock shows, after at most one turn more than there are waiting watches; no watch starts to wait, and if one still waits at the end with no failed read, time was up |
| `Turns.CycleTurnsBounded` | crates/sni-cache/src/engine.rs:301-395 | in every interleaving, between two captures the drain loop gets to its head at most once more than there were waiting watches |
| `PollCycles.PollCycle` | crates/sni-cache/src/engine.rs:202-478 | one whole cycle of the engine object: the named rounds of the drain loop up to the first that leaves it, then the snapshot published under this cycle's number and the backlog report of what still waits; it is a run of the interleaved system with exactly the steps start, capture, realtime, drain, publish, finish, valid whenever the replies are honest |
| `PollEngines.PollEngine.ReportBacklog` | crates/sni-cache/src/engine.rs:397-402 | the report of a cycle: count and ages are about the waiting watches whatever the cut, bytes are those of the pending chunks, and the count is zero if and only if nothing waits |
| `Housekeeping.BacklogAgesAgree` | crates/sni-cache/src/engine.rs:733-775 | in every reachable cycle the age the backlog report gives a watch is the age scripts see in that cycle's snapshot, if the last reply reached it |
| `Housekeeping.FloorIsLeast` | crates/sni-cache/src/engine.rs:565-571 | over every run the latency floor is the least round trip of all successful reads of both tiers, at least one millisecond each |
| `Housekeeping.WorstIsGreatest` | crates/sni-cache/src/engine.rs:292-395 | within a cycle the recorded worst round trip is the greatest of its bulk reads, failed ones included |
| `Drain.PendingIff` | crates/sni-cache/src/engine.rs:314-324 | some chunk is pending if and only if some watch is waiting, whatever the budget |
| `Drain.TurnOutcomes` | crates/sni-cache/src/engine.rs:301-341 | leaving with nothing pending means every marker captured for a bulk watch is fulfilled; the empty-selection break is unreachable; the first turn of a cycle issues a batch if and only if something waits, however late it is |
| `Drain.BatchBounds` | crates/sni-cache/src/engine.rs:512-561 | a batch fits its budget, or is one chunk that alone exceeds it, of one watch or of one byte |
| `Drain.OnlyOversizedRefused` | crates/sni-cache/src/engine.rs:342-356 | the remaining-time check can refuse only such a lone chunk |
| `Drain.BatchShrinks` | crates/sni-cache/src/engine.rs:358-367 | every successful batch strictly shrinks the waiting set |
| `EngineSteps.StepKeepsInv` | crates/sni-cache/src/engine.rs:202-478 | every step of every interleaving keeps the invariant |
| `EngineSteps.RunKeepsInv` | crates/sni-cache/src/engine.rs:202-478 | so does every run |
| `Properties.FulfilledNeverRunsAhead` | crates/sni-cache/src/engine.rs:704-723 | a live watch's fulfilled marker never exceeds its registry marker, in every reachable state |
| `Properties.FulfilledMeansFresh` | crates/sni-cache/src/engine.rs:276-279 | once the fulfilled marker covers a request and the last reply reached the watch, its bytes are its region's memory at an instant after the request |
| `Properties.FullRunsFulfilFreshly` | crates/sni-cache/src/engine.rs:276-279 | the same for every run with full replies, without a condition on the watch |
| `Properties.ReplyFreshIffReached` | crates/sni-cache/src/engine.rs:251-264 | a reply of either tier marks every watch it was sent for; exactly those its blobs reach hold bytes read after sending |
| `Properties.FullRepliesNeverHollow` | crates/sni-cache/src/engine.rs:674-723 | with full replies no watch is fulfilled without its bytes |
| `Witnesses.ShortReplyFulfilsNothing` | crates/sni-cache/src/engine.rs:674-723 | on every device and for every region a run from start-up leads to a published snapshot without bytes for a registered watch whose request counts as fulfilled |
| `Witnesses.StaleLowBeforeHigh` | crates/sni-cache/src/engine.rs:266-275 | on every device a run leads to a published snapshot whose cycle refreshed a low-priority watch (age 0) and not a high-priority one (age 1) that was polled, requested before the cycle and still waits, with no read failed |
| `LeftOut.NoneLeftOutIff` | crates/sni-cache/src/engine.rs:314-341 | a batch leaves no waiting watch of any priority out if and only if the pending chunks fit the iteration's budget together, or are one chunk |
| `LeftOut.RefreshEveryCycleIff` | crates/sni-cache/src/engine.rs:301-394 | in every reachable cycle with a batch to send: however slow the answer, a cycle that ends with this batch, answered, leaves nothing it captured unfulfilled, if and only if the pending chunks fit the budget or are one chunk |
| `Properties.OnlyRepliesEndWaits` | crates/sni-cache/src/engine.rs:691-723 | only a successful reply carrying the very latest marker ends a wait; failures, publishing and garbage collection never do |
| `Properties.TouchStaysPending` | crates/sni-cache/src/engine.rs:276-279 | a touch stored at any point stays pending until markers are captured again, in every interleaving, also when a capture falls between drawing its marker and storing it |
| `Properties.PublishedCoherent` | crates/sni-cache/src/snapshot.rs:103-141 | every published snapshot has equal key sets; each value is device memory at the last read that reached the watch; its age is the cycles since, saturating |
| `Properties.FailuresChangeNothing` | crates/sni-cache/src/engine.rs:259-263 | over every run in which all reads fail, realtime and bulk, a watch that stays registered keeps its published bytes and its fulfilled marker, and the budget and what it is based on stay |
| `Properties.SnapshotMatchesRegistration` | crates/sni-cache/src/snapshot.rs:125-129 | an id both registered and in the snapshot has its registered region and that many bytes, also after removals and reloads in flight |
| `Housekeeping.StartSeesAll` | crates/sni-cache/src/engine.rs:216-218 | a cycle begins with the set of exactly the registered ids |
| `Housekeeping.RemovedLeavesSnapshot` | crates/sni-cache/src/snapshot.rs:125-129 | a watch removed before a cycle begins is absent from the snapshot that cycle publishes, whatever replies and script steps happen |
| `Properties.IdsNeverReused` | crates/sni-cache/src/watch.rs:111-129 | a later registration never gets an id that was in use, also after clear, and a surviving id keeps its region |
| `Properties.EntriesOnlyAdvance` | crates/sni-cache/src/watch.rs:111-180 | over every run a watch still registered kept its region, only became more urgent, only moved its marker forward and stayed pinned if it was |
| `Properties.GoneForGood` | crates/sni-cache/src/watch.rs:174-180 | a removed id is never registered again, in any later run |
| `Properties.PinnedAlwaysActive` | crates/sni-cache/src/watch.rs:143-172 | a pinned or upgraded watch is in the poll set of every later cycle while registered, whether it is read or not |
| `Properties.CaptureExact` | crates/sni-cache/src/engine.rs:221-227 | the capture takes exactly the active watches with their current markers, and the non-realtime ones into the bulk reads |
| `Properties.CapturedReadInBatches` | crates/sni-cache/src/engine.rs:221-300 | whatever is captured in a reachable state can be read in batches: at any budget full replies give every captured bulk watch its region's memory |
| `Properties.RealtimeServed` | crates/sni-cache/src/engine.rs:240-258 | a successful realtime read fulfils every captured realtime watch before the drain loop |
| `RealtimeTiers.RealtimeCaptured` | crates/sni-cache/src/engine.rs:221-244 | the realtime tier of a cycle is exactly the active realtime watches |
| `RealtimeTiers.RealtimeEveryCycle` | crates/sni-cache/src/engine.rs:234-264 | over every run through a cycle whose realtime read succeeds in full, each captured realtime watch is in the published snapshot at age 0, with its region's memory read after the capture, whatever the bulk tier and the script do |
| `RealtimeTiers.RealtimeTouchAnswered` | crates/sni-cache/src/engine.rs:234-264 | every touch of a realtime watch is answered by the next cycle that captures it, if its realtime read succeeds in full |
| `Starvation.RankStep` | crates/sni-cache/src/engine.rs:266-275 | only a registration raises the rank of an unserved watch, by 2 at most, and each published cycle that served a batch while it waited lowers it |
| `Starvation.NoStarvation` | crates/sni-cache/src/engine.rs:266-275 | a bulk watch goes unserved for fewer cycles than there are registered bulk watches plus 2 for each registered meanwhile, counting only cycles in which it waits and the first bulk read does not fail |
| `Answered.AnswerRun` | crates/sni-cache/src/engine.rs:276-279 | from a touch on, the touch is fulfilled, or fewer cycles have polled the watch than its rank allows, 2 more for each registration in the run |
| `Answered.TouchAnswered` | crates/sni-cache/src/engine.rs:266-279 | every touch of a bulk watch is answered, from any reachable state on: with full replies, after more polling cycles than there are bulk watches, plus those registered since the cycle began and 2 for each later registration, the published snapshot holds memory of its region read after the touch |
| `HttpSlots.CapHolds` | crates/sni-lua-api/src/runtime.rs:206-251 | in every interleaving at most 16 accepted requests are unfinished, and the counter equals those plus reservations still being confirmed or given back |
| `HttpSlots.RefusedIffFull` | crates/sni-lua-api/src/runtime.rs:206-251 | in every interleaving a reservation is refused if and only if 16 slots are held by accepted requests and submitters under way |
| `HttpSlots.IdsInOnePlace` | crates/sni-lua-api/src/runtime.rs:206-251 | in every interleaving an id is with one submitter, queued, running, finished or answered, never two of these and never twice; the next id is in none |
| `HttpSlots.SubmitIsItsSteps` | crates/sni-lua-api/src/runtime.rs:231-251 | the atomic steps of a submission, uninterrupted, have exactly the outcome of the one call |
| `HttpSlots.HttpBridge.Submit` | crates/sni-lua-api/src/runtime.rs:231-251 | the call has the outcome of its atomic steps: refused at the cap without a trace, refused by a dead worker with the id used up, or one slot, one fresh id, one queued request |
| `HttpCallbacks.CallsAtMostOnceAndOwn` | crates/sni-lua-api/src/lib.rs:1776-1822 | over every run with reloads no callback is called twice, and no response calls a callback of another script |
| `HttpCallbacks.CalledByNextPump` | crates/sni-lua-api/src/lib.rs:1776-1822 | a stashed callback whose response has arrived is called by the next pump unless the VM fails |
| `HttpOrder.CallsInArrivalOrder` | crates/sni-lua-api/src/lib.rs:1776-1822 | over every run with reloads the callbacks called answer responses in the order these arrived, each its own, and what is still on its way is exactly the rest of the arrivals, in order |
| `HttpCallbacks.ResponseMayComeFirst` | crates/sni-lua-api/src/lib.rs:1688-1710 | a run in which the response arrives before the callback is stashed |
| `HttpRefinement.StepRefines` | crates/sni-lua-api/src/runtime.rs:206-251 | every atomic step of the bridge is a step of the callback protocol over the same ids, or none |
| `HttpRefinement.BridgedCallsAtMostOnceAndOwn` | crates/sni-lua-api/src/lib.rs:1776-1822 | through the real bridge, too: at most 16 unfinished requests, no callback called twice, none called by an answer to another script |
| `LuaJsonTheorems.RoundTrip` | crates/sni-lua-api/src/lib.rs:2199-2283 | a document comes back unchanged if and only if it has no null inside an array or object, no empty array, inner whole numbers in i64 range with at most 53 significant bits, and no inner float that reads back whole |
| `LuaJsonTheorems.DoublesKept` | crates/sni-lua-api/src/lib.rs:2258-2266 | of the doubles, an inner float is kept if and only if it is out of i64 range, or has a fraction and is not within 2^-52 of zero |
| `LuaJsonTheorems.TinyFractionLost` | crates/sni-lua-api/src/lib.rs:2199-2283 | 2^-54 in an array comes back as the whole number 0 |
| `LuaJsonTheorems.WholeFloatChanges` | crates/sni-lua-api/src/lib.rs:2199-2283 | 1.0 in an array comes back as the integer 1 |
| `LuaJsonTheorems.LongWholeRounded` | crates/sni-lua-api/src/lib.rs:2199-2283 | 2^53 + 1 in an array comes back as 2^53 |
| `LuaJsonTheorems.PlainRoundTrip` | crates/sni-lua-api/src/lib.rs:2199-2283 | documents without inner nulls and empty arrays, with whole numbers up to 2^53 and doubles that have a fraction and are at least 2^-52 in size, come back unchanged |
| `LuaJsonTables.TableToObject` | crates/sni-lua-api/src/lib.rs:2199-2247 | a table that does not read as an array converts if and only if every value under a string or number key does; the result is the object whose field names are exactly the texts of those keys, each holding the value of a key with its text, the only one if there is one |
| `LuaJsonTables.TableToArray` | crates/sni-lua-api/src/lib.rs:2199-2247 | a table that reads as an array converts if and only if its entries 1 to n do, to exactly these in order |
| `LuaJsonTables.DecimalReads` | crates/sni-lua-api/src/lib.rs:2231-2241 | the text of a whole key reads back as that key, so no two whole keys share a field |
| `LuaJsonTables.ArrayToTable` | crates/sni-lua-api/src/lib.rs:2252-2283 | an array becomes exactly its items that are not null, each under its place from 1 on |
| `LuaJsonTables.ObjectToTable` | crates/sni-lua-api/src/lib.rs:2252-2283 | an object becomes exactly its fields that are not null, each under its name |
| `LuaJsonNormal.RoundedExact` | crates/sni-lua-api/src/lib.rs:2258-2266 | rounding a whole number to a double gives one that needs no second rounding |
| `LuaJsonNormal.OneTripNormalises` | crates/sni-lua-api/src/lib.rs:2199-2283 | every document, whatever it loses on one trip through Lua, comes back as one that a second trip does not change |
| `LuaJsonReturns.ReturnsIff` | crates/sni-lua-api/src/lib.rs:2199-2283 | whatever the VM decides, a script value that is stored and read again is the same value if and only if it holds no function, userdata, infinity or NaN, its tables are lists without holes or have string keys only, and the numbers in tables are such as tables hold |
| `LuaJsonReturns.NullOrRefused` | crates/sni-lua-api/src/lib.rs:2199-2250 | null is made of nil, infinities and NaN only; a value is refused if and only if it is a function or userdata or a table one of whose converted entries is refused |

## Left out

- The gRPC client, Tokio, `ArcSwap` and locks: replies are inputs, publishing is one atomic step.
- Clocks, round-trip times and sleeping: elapsed times are inputs, pacing between cycles has no effect on state.
- `PollStats` and its moving averages, apart from the backlog report and the throughput the budget uses.
- f32 rounding: throughput, latency floor and budget arithmetic use reals, with floor and saturation at the casts.
- Wrap-around of the 64-bit id, marker and cycle counters, and of the byte counters that only feed statistics.
- `WatchPriority::parse` and `period`, `len` and `active_len`: straight-line or unused by the scheduler.
- The typed little-endian accessors of `Snapshot` (`crates/sni-cache/src/snapshot.rs:54-92`): easy members only.
- Each read of a batch may be answered at its own instant, but one blob is read at one instant; a device that
  changes memory during one blob is not modelled.
- `DrainBulk` and `PollCycle` are single method calls and do not capture interleaving with the script;
  `System` does, and `PollCycle` is proved to be one of its runs.
- HTTP execution, headers and bodies, and the arguments of callbacks: only ids and owners matter to the protocol.
- The SNI actor, the egui application, capture, rendering, configuration, `Store` files and the other Lua bindings.
- The depth limit of recursion in the Lua/JSON conversions, and non-UTF-8 strings.
