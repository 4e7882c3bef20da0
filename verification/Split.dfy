/** Cutting reads down to a byte budget (crates/sni-cache/src/engine.rs, `split_reads_to_budget`). */
module Split {
  import opened Types
  import opened Sorting
  import opened Coalesce

  predicate OffsetLe(a: Member, b: Member) { a.off <= b.off }

  lemma OffsetOrder()
    ensures TotalPreorder(OffsetLe)
  {
  }

  /** The chunk [start, end) of `r` (absolute addresses). */
  function Chunk(r: CoalescedRead, start: nat, end: nat, acc: seq<Member>): CoalescedRead
    requires start <= end
  {
    CoalescedRead(MemRegion(start, end - start, r.region.space, r.region.mapping), acc, r.priority)
  }

  predicate Ahead(r: CoalescedRead, start: nat, rest: seq<Member>) {
    Sorted(rest, OffsetLe) && forall m :: m in rest ==> start <= r.region.address + m.off
  }

  lemma AheadStep(r: CoalescedRead, start: nat, rest: seq<Member>)
    requires rest != [] && Ahead(r, start, rest)
    ensures Ahead(r, start, rest[1..]) && Ahead(r, r.region.address + rest[0].off, rest[1..])
  {
    forall m | m in rest[1..] ensures rest[0].off <= m.off {
      var k :| 1 <= k < |rest| && rest[k] == m;
      assert OffsetLe(rest[0], rest[k]);
    }
  }

  /** Grow the chunk [start, end) while the next member keeps it within `b`; otherwise cut. */
  function Chunks(r: CoalescedRead, start: nat, end: nat, acc: seq<Member>, rest: seq<Member>,
      b: nat): seq<CoalescedRead>
    requires start <= end && Ahead(r, start, rest)
    decreases |rest|, 1
  {
    if rest == [] then [Chunk(r, start, end, acc)]
    else
      var m := rest[0];
      var at := r.region.address + m.off;
      AheadStep(r, start, rest);
      if Max(end, at + m.size) - start > b
      then [Chunk(r, start, end, acc)] + ChunksFrom(r, rest, b)
      else Chunks(r, start, Max(end, at + m.size), acc + [Member(m.id, at - start, m.size)], rest[1..], b)
  }

  /** The chunks of the members `ms`, the first of which opens a chunk. */
  function ChunksFrom(r: CoalescedRead, ms: seq<Member>, b: nat): seq<CoalescedRead>
    requires Sorted(ms, OffsetLe)
    decreases |ms|, 0
  {
    if ms == [] then []
    else
      var at := r.region.address + ms[0].off;
      OpensAhead(r, ms);
      Chunks(r, at, at + ms[0].size, [Member(ms[0].id, 0, ms[0].size)], ms[1..], b)
  }

  lemma OpensAhead(r: CoalescedRead, ms: seq<Member>)
    requires ms != [] && Sorted(ms, OffsetLe)
    ensures Ahead(r, r.region.address + ms[0].off, ms[1..])
  {
    forall m | m in ms ensures ms[0].off <= m.off {
      var k :| 0 <= k < |ms| && ms[k] == m;
      assert k > 0 ==> OffsetLe(ms[0], ms[k]);
    }
  }

  function SplitOne(r: CoalescedRead, b: nat): seq<CoalescedRead> {
    if r.region.size <= b then [r]
    else
      OffsetOrder(); SortSorted(r.members, OffsetLe);
      ChunksFrom(r, Sort(r.members, OffsetLe), b)
  }

  function SplitAll(rs: seq<CoalescedRead>, b: nat): seq<CoalescedRead> {
    if rs == [] then [] else SplitOne(rs[0], b) + SplitAll(rs[1..], b)
  }

  /** The chunks `split_reads_to_budget` makes; a zero budget counts as one byte. */
  function SplitReads(rs: seq<CoalescedRead>, budget: nat): seq<CoalescedRead> { SplitAll(rs, Max(budget, 1)) }

  /** One turn of the inner loop. */
  lemma Unfold(r: CoalescedRead, start: nat, end: nat, acc: seq<Member>, rest: seq<Member>, b: nat)
    requires start <= end && Ahead(r, start, rest) && rest != []
    ensures var m := rest[0];
            var at := r.region.address + m.off;
            && start <= at && Ahead(r, start, rest[1..])
            && Chunks(r, start, end, acc, rest, b)
               == if Max(end, at + m.size) - start > b then [Chunk(r, start, end, acc)] + ChunksFrom(r, rest, b)
                  else Chunks(r, start, Max(end, at + m.size), acc + [Member(m.id, at - start, m.size)], rest[1..], b)
  {
    AheadStep(r, start, rest);
    assert rest[0] in rest;
  }

  /** The inner loop: grow the chunk opened by the first of `ms` until the budget cuts it. */
  method GrowChunk(r: CoalescedRead, ms: seq<Member>, b: nat) returns (chunk: CoalescedRead, rest: seq<Member>)
    requires ms != [] && Sorted(ms, OffsetLe)
    ensures |rest| < |ms| && Sorted(rest, OffsetLe)
    ensures ChunksFrom(r, ms, b) == [chunk] + ChunksFrom(r, rest, b)
  {
    var start := r.region.address + ms[0].off;
    var end, acc := start + ms[0].size, [Member(ms[0].id, 0, ms[0].size)];
    rest := ms[1..];
    OpensAhead(r, ms);
    ghost var total := ChunksFrom(r, ms, b);
    while rest != []
      invariant |rest| < |ms| && start <= end && Ahead(r, start, rest)
      invariant total == Chunks(r, start, end, acc, rest, b)
      decreases |rest|
    {
      var m := rest[0];
      var at := r.region.address + m.off;
      Unfold(r, start, end, acc, rest, b);
      if Max(end, at + m.size) - start > b {
        break;
      }
      acc, end, rest := acc + [Member(m.id, at - start, m.size)], Max(end, at + m.size), rest[1..];
    }
    chunk := Chunk(r, start, end, acc);
  }

  /** The outer loop: chunk after chunk over the members in offset order. */
  method SplitOversized(r: CoalescedRead, b: nat) returns (out: seq<CoalescedRead>)
    requires r.region.size > b
    ensures out == SplitOne(r, b)
  {
    var rest := Sort(r.members, OffsetLe);
    OffsetOrder(); SortSorted(r.members, OffsetLe);
    out := [];
    while rest != []
      invariant Sorted(rest, OffsetLe) && out + ChunksFrom(r, rest, b) == SplitOne(r, b)
      decreases |rest|
    {
      var chunk, later := GrowChunk(r, rest, b);
      AppendAssoc(out, chunk, ChunksFrom(r, later, b));
      out, rest := out + [chunk], later;
    }
  }

  lemma AppendAssoc(a: seq<CoalescedRead>, c: CoalescedRead, d: seq<CoalescedRead>)
    ensures a + ([c] + d) == (a + [c]) + d
  {
  }

  lemma ConcatAssoc(a: seq<CoalescedRead>, c: seq<CoalescedRead>, d: seq<CoalescedRead>)
    ensures a + (c + d) == (a + c) + d
  {
  }

  /** `split_reads_to_budget`. */
  method SplitToBudget(rs: seq<CoalescedRead>, budget: nat) returns (out: seq<CoalescedRead>)
    requires forall r :: r in rs ==> WellFormed(r)
    ensures out == SplitReads(rs, budget)
  {
    var b := Max(budget, 1);
    out := [];
    for k := 0 to |rs|
      invariant out + SplitAll(rs[k..], b) == SplitReads(rs, budget)
    {
      assert rs[k..][0] == rs[k] && rs[k..][1..] == rs[k + 1..];
      ConcatAssoc(out, SplitOne(rs[k], b), SplitAll(rs[k + 1..], b));
      if rs[k].region.size <= b {
        out := out + [rs[k]];
      } else {
        var chunks := SplitOversized(rs[k], b);
        out := out + chunks;
      }
    }
  }
}
