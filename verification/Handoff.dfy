/** The hand-over of a record from a message handler to the recording thread: the payload is
    copied into a fresh block, the descriptor goes through the ring, the recorder copies the
    descriptor out after releasing the lock, and frees the block when it is done. */
module Handoff {
  import opened Options
  import opened RecorderState
  import Q = MetaQueue

  /** A descriptor as queued: its payload is a heap block. */
  datatype Desc = Desc(tod: nat, ts: nat, kind: Kind, block: nat)

  /** `slot` is the ring slot the recorder has been handed but not copied yet. */
  datatype Sys = Sys(
    ring: Q.Ring<Desc>,
    heap: map<nat, seq<Byte>>,
    next: nat,
    freed: seq<nat>,
    slot: Option<nat>,
    handled: seq<Record>,
    accepted: seq<Record>)

  /** Steps of the two threads, in any interleaving.
      `Produce` ends a locked enqueue whose wait for room answered `woken`; `Take` a locked dequeue
      whose wait for data answered `woken`; `Finish` copies the descriptor, records and frees. */
  datatype Action = Produce(r: Record, woken: bool) | Take(woken: bool) | Finish

  ghost predicate Ok(s: Sys) {
    Q.Ok(s.ring) && (s.slot.Some? ==> s.slot.value < Q.SIZE && Q.JustFreed(s.ring, s.slot.value))
  }

  function Init(): (s: Sys)
    ensures Ok(s)
  {
    Sys(Q.Ring(seq(Q.SIZE, _ => Desc(0, 0, GPS, 0)), 0, 0, false, true), map[], 0, [], None, [], [])
  }

  function RecordOf(heap: map<nat, seq<Byte>>, d: Desc): Record {
    Record(d.tod, d.ts, d.kind, if d.block in heap then heap[d.block] else [])
  }

  function Act(s: Sys, a: Action): (s': Sys)
    requires Ok(s)
    ensures Ok(s')
  {
    match a
    case Produce(r, woken) =>
      if !woken then s
      else s.(heap := s.heap[s.next := r.payload],
              next := s.next + 1,
              ring := Q.Enq(s.ring, Desc(r.tod, r.ts, r.kind, s.next)),
              accepted := if s.ring.full then s.accepted else s.accepted + [r])
    case Take(woken) =>
      if !woken || s.slot.Some? then s
      else var (ring, slot) := Q.Deq(s.ring); s.(ring := ring, slot := slot)
    case Finish =>
      if s.slot.None? then s
      else
        var d := s.ring.buf[s.slot.value];
        s.(handled := s.handled + [RecordOf(s.heap, d)],
           heap := s.heap - {d.block},
           freed := s.freed + [d.block],
           slot := None)
  }

  function Acts(s: Sys, acts: seq<Action>): (s': Sys)
    requires Ok(s)
    ensures Ok(s')
  {
    if acts == [] then s else Act(Acts(s, acts[..|acts| - 1]), acts[|acts| - 1])
  }

  /** Descriptors on their way: the one handed out, as its slot now reads, then the queue. */
  function InFlight(s: Sys): seq<Desc>
    requires Ok(s)
  {
    (if s.slot.Some? then [s.ring.buf[s.slot.value]] else []) + Q.Contents(s.ring)
  }

  function Records(heap: map<nat, seq<Byte>>, ds: seq<Desc>): (rs: seq<Record>)
    ensures |rs| == |ds| && forall i :: 0 <= i < |ds| ==> rs[i] == RecordOf(heap, ds[i])
  {
    seq(|ds|, i requires 0 <= i < |ds| => RecordOf(heap, ds[i]))
  }

  function Blocks(ds: seq<Desc>): (bs: seq<nat>)
    ensures |bs| == |ds| && forall i :: 0 <= i < |ds| ==> bs[i] == ds[i].block
  {
    seq(|ds|, i requires 0 <= i < |ds| => ds[i].block)
  }

  function UpTo(n: nat): (s: seq<nat>)
    ensures |s| == n && forall i :: 0 <= i < n ==> s[i] == i
  {
    seq(n, i => i)
  }

  /** Blocks are allocated 0, 1, 2, ...: those freed so far, followed by those in flight, are
      exactly the allocated ones, once each; and what is in flight is what was accepted and has
      not been handled yet. */
  ghost predicate Owned(s: Sys) {
    && Ok(s)
    && s.freed + Blocks(InFlight(s)) == UpTo(s.next)
    && (forall b :: b in s.heap <==> |s.freed| <= b < s.next)
    && s.handled + Records(s.heap, InFlight(s)) == s.accepted
  }

  /** A wait for room answers only when there is room, and the slot handed out is not the one
      this enqueue writes. */
  predicate SoundAction(s: Sys, a: Action) {
    a.Produce? && a.woken ==> !s.ring.full && (s.slot.Some? ==> s.ring.tail != s.slot.value)
  }

  predicate SoundActions(s: Sys, acts: seq<Action>)
    requires Ok(s)
  {
    acts == [] || (SoundActions(s, acts[..|acts| - 1]) && SoundAction(Acts(s, acts[..|acts| - 1]), acts[|acts| - 1]))
  }

  lemma TailIsSlot(s: Sys)
    requires Ok(s) && s.slot.Some? && !s.ring.full
    ensures s.ring.tail == s.slot.value <==> Q.Count(s.ring) == Q.SIZE - 1
  {}

  lemma ProduceInFlight(s: Sys, r: Record)
    requires Ok(s) && SoundAction(s, Produce(r, true))
    ensures InFlight(Act(s, Produce(r, true))) == InFlight(s) + [Desc(r.tod, r.ts, r.kind, s.next)]
  {
    var d := Desc(r.tod, r.ts, r.kind, s.next);
    if s.slot.Some? {
      TailIsSlot(s);
      Q.EnqKeepsSlot(s.ring, s.slot.value, d);
    }
  }

  lemma TakeInFlight(s: Sys, woken: bool)
    requires Ok(s)
    ensures InFlight(Act(s, Take(woken))) == InFlight(s)
  {
    var (ring, slot) := Q.Deq(s.ring);
    if woken && s.slot.None? && slot.Some? {
      assert Q.Contents(s.ring) == [Q.Contents(s.ring)[0]] + Q.Contents(s.ring)[1..];
    }
  }

  lemma ProduceOwned(s: Sys, r: Record)
    requires Owned(s) && SoundAction(s, Produce(r, true))
    ensures Owned(Act(s, Produce(r, true)))
  {
    var s' := Act(s, Produce(r, true));
    ProduceInFlight(s, r);
    assert Blocks(InFlight(s')) == Blocks(InFlight(s)) + [s.next];
    assert UpTo(s'.next) == UpTo(s.next) + [s.next];
    forall i | 0 <= i < |InFlight(s)| ensures InFlight(s)[i].block < s.next {
      assert UpTo(s.next)[|s.freed| + i] == InFlight(s)[i].block;
    }
    assert Records(s'.heap, InFlight(s')) == Records(s.heap, InFlight(s)) + [r];
  }

  lemma FinishInFlight(s: Sys)
    requires Ok(s) && s.slot.Some?
    ensures InFlight(s) == [s.ring.buf[s.slot.value]] + InFlight(Act(s, Finish))
  {}

  /** Freeing a block none of the others shares leaves their records readable. */
  lemma RecordsFrame(heap: map<nat, seq<Byte>>, ds: seq<Desc>, b: nat)
    requires forall d <- ds :: d.block != b
    ensures Records(heap - {b}, ds) == Records(heap, ds)
  {}

  /** The block freed is the oldest one allocated, and no other in flight shares it. */
  lemma FinishBlocks(freed: seq<nat>, d: Desc, rest: seq<Desc>, next: nat)
    requires freed + Blocks([d] + rest) == UpTo(next)
    ensures d.block == |freed| && (freed + [d.block]) + Blocks(rest) == UpTo(next)
    ensures forall e <- rest :: |freed| < e.block < next
  {
    assert Blocks([d] + rest) == [d.block] + Blocks(rest);
    assert UpTo(next)[|freed|] == d.block;
    forall i | 0 <= i < |rest| ensures |freed| < rest[i].block < next {
      assert UpTo(next)[|freed| + 1 + i] == rest[i].block;
    }
  }

  lemma RecordsCons(heap: map<nat, seq<Byte>>, d: Desc, rest: seq<Desc>)
    ensures Records(heap, [d] + rest) == [RecordOf(heap, d)] + Records(heap, rest)
  {}

  lemma FinishOwned(s: Sys)
    requires Owned(s) && s.slot.Some?
    ensures Owned(Act(s, Finish))
  {
    var s' := Act(s, Finish);
    var d := s.ring.buf[s.slot.value];
    var rest := InFlight(s');
    FinishInFlight(s);
    FinishBlocks(s.freed, d, rest, s.next);
    RecordsFrame(s.heap, rest, d.block);
    RecordsCons(s.heap, d, rest);
    assert s'.handled == s.handled + [RecordOf(s.heap, d)];
  }

  lemma ActOwned(s: Sys, a: Action)
    requires Owned(s) && SoundAction(s, a)
    ensures Owned(Act(s, a))
  {
    match a
    case Produce(r, woken) => if woken { ProduceOwned(s, r); }
    case Take(woken) => TakeInFlight(s, woken);
    case Finish => if s.slot.Some? { FinishOwned(s); }
  }

  /** Queue refinement with ownership: in every sound interleaving, records are handled in the
      order they were accepted, none lost or repeated, and every payload block is in flight or
      has been freed exactly once. */
  lemma {:induction false} ActsOwned(acts: seq<Action>)
    requires SoundActions(Init(), acts)
    ensures Owned(Acts(Init(), acts))
  {
    if acts != [] {
      ActsOwned(acts[..|acts| - 1]);
      ActOwned(Acts(Init(), acts[..|acts| - 1]), acts[|acts| - 1]);
    }
  }

  /** The condition is exact: an enqueue adds its record behind everything in flight if and only
      if it is sound. */
  lemma ProduceExact(s: Sys, r: Record)
    requires Owned(s)
    ensures InFlight(Act(s, Produce(r, true))) == InFlight(s) + [Desc(r.tod, r.ts, r.kind, s.next)]
      <==> SoundAction(s, Produce(r, true))
  {
    var d := Desc(r.tod, r.ts, r.kind, s.next);
    if SoundAction(s, Produce(r, true)) {
      ProduceInFlight(s, r);
    } else if !s.ring.full {
      TailIsSlot(s);
      Q.EnqKeepsSlot(s.ring, s.slot.value, d);
      assert UpTo(s.next)[|s.freed|] == InFlight(s)[0].block;
      assert InFlight(Act(s, Produce(r, true)))[0] == d;
    } else {
      assert |InFlight(Act(s, Produce(r, true)))| == |InFlight(s)|;
    }
  }

  /** A wake-up with a full ring leaks: the block stays allocated and nobody holds it. */
  lemma FullWakeLeaks(s: Sys, r: Record)
    requires Owned(s) && s.ring.full
    ensures var s' := Act(s, Produce(r, true));
      && s.next in s'.heap && s.next !in Blocks(InFlight(s')) && s.next !in s'.freed
      && s'.accepted == s.accepted
  {
    var s' := Act(s, Produce(r, true));
    assert InFlight(s') == InFlight(s);
    forall b | b in s.freed || b in Blocks(InFlight(s)) ensures b < s.next {
      assert b in s.freed + Blocks(InFlight(s));
      assert b in UpTo(s.next);
    }
  }
}
