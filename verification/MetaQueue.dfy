/** The ring buffer between the message handlers and the recording thread: ten slots, two cursors,
    a full and an empty flag. It refines a bounded FIFO sequence, and a dequeued slot keeps its
    value for a known number of later enqueues. */
module MetaQueue {
  import opened Options

  const SIZE: nat := 10

  datatype Ring<T> = Ring(buf: seq<T>, head: nat, tail: nat, full: bool, empty: bool)

  ghost predicate Ok<T>(q: Ring<T>) {
    && |q.buf| == SIZE && q.head < SIZE && q.tail < SIZE
    && !(q.full && q.empty)
    && (q.full || q.empty <==> q.head == q.tail)
  }

  function Count<T>(q: Ring<T>): nat
    requires Ok(q)
  {
    if q.full then SIZE else if q.head <= q.tail then q.tail - q.head else q.tail + SIZE - q.head
  }

  /** The queued elements, oldest first. */
  function Contents<T>(q: Ring<T>): (s: seq<T>)
    requires Ok(q)
    ensures |s| == Count(q)
  {
    seq(Count(q), i requires 0 <= i < Count(q) => q.buf[(q.head + i) % SIZE])
  }

  function Next(i: nat): nat { if i + 1 == SIZE then 0 else i + 1 }

  /** `meta_q_enq`: silently drops when full. */
  function Enq<T>(q: Ring<T>, x: T): (r: Ring<T>)
    requires Ok(q)
    ensures Ok(r)
    ensures Contents(r) == if q.full then Contents(q) else Contents(q) + [x]
  {
    if q.full then q
    else
      var t := Next(q.tail);
      var r := q.(buf := q.buf[q.tail := x], tail := t, full := t == q.head, empty := false);
      assert Contents(r) == Contents(q) + [x];
      r
  }

  /** `meta_q_deq`: answers the slot, not the element, and only moves the head. */
  function Deq<T>(q: Ring<T>): (r: (Ring<T>, Option<nat>))
    requires Ok(q)
    ensures Ok(r.0) && r.0.buf == q.buf
    ensures r.1.Some? <==> Contents(q) != []
    ensures r.1.Some? ==> r.1.value < SIZE && q.buf[r.1.value] == Contents(q)[0] && Contents(r.0) == Contents(q)[1..]
    ensures r.1.Some? ==> r.1.value == q.head && r.0.head == Next(q.head) && !r.0.full
    ensures r.1.None? ==> r.0 == q
  {
    if q.empty then (q, None)
    else
      var h := Next(q.head);
      var r := q.(head := h, empty := h == q.tail, full := false);
      assert Contents(r) == Contents(q)[1..];
      (r, Some(q.head))
  }

  // ---------- slot stability

  function EnqAll<T>(q: Ring<T>, xs: seq<T>): (r: Ring<T>)
    requires Ok(q)
    ensures Ok(r)
  {
    if xs == [] then q else Enq(EnqAll(q, xs[..|xs| - 1]), xs[|xs| - 1])
  }

  /** A freed slot is the last one enqueues come to. */
  ghost predicate JustFreed<T>(q: Ring<T>, slot: nat)
    requires Ok(q)
  {
    slot < SIZE && Next(slot) == q.head
  }

  lemma EnqKeepsSlot<T>(q: Ring<T>, slot: nat, x: T)
    requires Ok(q) && JustFreed(q, slot)
    ensures Count(q) < SIZE - 1 ==> Enq(q, x).buf[slot] == q.buf[slot]
    ensures Count(q) == SIZE - 1 ==> Enq(q, x).buf[slot] == x
    ensures JustFreed(Enq(q, x), slot)
  {}

  lemma {:induction false} EnqAllSlot<T>(q: Ring<T>, slot: nat, xs: seq<T>)
    requires Ok(q) && JustFreed(q, slot) && Count(q) <= SIZE - 1
    ensures var r := EnqAll(q, xs);
      && JustFreed(r, slot)
      && Count(r) == (if Count(q) + |xs| <= SIZE then Count(q) + |xs| else SIZE)
      && r.buf[slot] == if |xs| <= SIZE - 1 - Count(q) then q.buf[slot] else xs[SIZE - 1 - Count(q)]
  {
    if xs != [] {
      var init := xs[..|xs| - 1];
      EnqAllSlot(q, slot, init);
      EnqKeepsSlot(EnqAll(q, init), slot, xs[|xs| - 1]);
      var r := EnqAll(q, init);
      assert r.full ==> Enq(r, xs[|xs| - 1]) == r;
      assert |Contents(EnqAll(q, xs))| == Count(EnqAll(q, xs));
    }
  }

  /** Slot-stability bound: when a dequeue leaves c elements, reading its slot after the lock has
      been released still gives the dequeued element if and only if at most 9 - c enqueues came
      in between (of elements other than the dequeued one). */
  lemma SlotStable<T>(q: Ring<T>, xs: seq<T>)
    requires Ok(q) && Contents(q) != [] && Contents(q)[0] !in xs
    ensures var (r, slot) := Deq(q);
      && slot.Some?
      && (EnqAll(r, xs).buf[slot.value] == Contents(q)[0] <==> |xs| <= 9 - |Contents(r)|)
  {
    var (r, slot) := Deq(q);
    assert JustFreed(r, slot.value);
    assert Count(r) == Count(q) - 1;
    EnqAllSlot(r, slot.value, xs);
  }

  // ---------- the queue in place

  class Queue<T(0)> {
    const buf: array<T>
    var head: nat
    var tail: nat
    var full: bool
    var empty: bool

    ghost function Abs(): Ring<T>
      reads this, buf
    {
      Ring(buf[..], head, tail, full, empty)
    }

    ghost predicate Valid()
      reads this, buf
    {
      Ok(Abs())
    }

    /** `meta_q_init`. */
    constructor ()
      ensures Valid() && fresh(buf) && Contents(Abs()) == []
    {
      buf := new T[SIZE];
      head, tail, full, empty := 0, 0, false, true;
    }

    /** `meta_q_enq`. */
    method Enqueue(x: T)
      requires Valid()
      modifies this, buf
      ensures Valid() && Abs() == Enq(old(Abs()), x)
      ensures Contents(Abs()) == if old(full) then old(Contents(Abs())) else old(Contents(Abs())) + [x]
    {
      if !full {
        ghost var was := buf[..];
        buf[tail] := x;
        assert buf[..] == was[tail := x];
        tail := tail + 1;
        if tail == SIZE { tail := 0; }
        if tail == head { full := true; }
        empty := false;
      }
    }

    /** `meta_q_deq`: the slot that holds the oldest element, which stays in the buffer. */
    method Dequeue() returns (slot: Option<nat>)
      requires Valid()
      modifies this
      ensures Valid() && (Abs(), slot) == Deq(old(Abs()))
      ensures slot.Some? <==> old(Contents(Abs())) != []
      ensures slot.Some? ==> slot.value < buf.Length && buf[slot.value] == old(Contents(Abs()))[0]
      ensures slot.Some? ==> Contents(Abs()) == old(Contents(Abs()))[1..]
    {
      slot := None;
      if !empty {
        slot := Some(head);
        head := head + 1;
        if head == SIZE { head := 0; }
        if head == tail { empty := true; }
        if full { full := false; }
      }
    }
  }
}
