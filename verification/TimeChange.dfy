/** The forward-time-change flag, shared by a message handler that sets it and the recorder, which
    tests it and clears it in two separate critical sections. */
module TimeChange {
  import opened RecorderState

  /** Where the recorder stands in `is_new_chunk_required`. */
  datatype Phase = Outside | Tested(seen: bool) | Cleared

  /** One critical section, or one local decision. `Offset` is a time message with a source. */
  datatype Action = Offset(offset: int) | Test | Clear | Decide(other: bool)

  /** `decided` lists what the completed checks answered. */
  datatype Shared = Shared(flag: bool, previous: int, phase: Phase, decided: seq<bool>)

  const START := Shared(false, 0, Outside, [])

  /** The handler sets the flag when a negative offset gives way to zero. */
  predicate Sets(previous: int, offset: int) { previous < 0 && offset == 0 }

  /** Program order of the recorder: test, clear if the flag was seen, decide. */
  predicate Enabled(s: Shared, a: Action) {
    match a
    case Offset(_) => true
    case Test => s.phase.Outside?
    case Clear => s.phase == Tested(true)
    case Decide(_) => s.phase == Tested(false) || s.phase.Cleared?
  }

  function Act(s: Shared, a: Action): Shared {
    match a
    case Offset(o) => s.(flag := s.flag || Sets(s.previous, o), previous := o)
    case Test => s.(phase := Tested(s.flag))
    case Clear => s.(flag := false, phase := Cleared)
    case Decide(other) => s.(phase := Outside, decided := s.decided + [other || s.phase.Cleared?])
  }

  function After(es: seq<Action>, n: nat): Shared
    requires n <= |es|
  {
    if n == 0 then START else Act(After(es, n - 1), es[n - 1])
  }

  predicate Run(es: seq<Action>, n: nat)
    requires n <= |es|
  {
    n == 0 || (Run(es, n - 1) && Enabled(After(es, n - 1), es[n - 1]))
  }

  /** The offset of the last of the first n messages, zero before the first. */
  function LastOffset(es: seq<Action>, n: nat): int
    requires n <= |es|
  {
    if n == 0 then 0 else if es[n - 1].Offset? then es[n - 1].offset else LastOffset(es, n - 1)
  }

  /** The clock moves forward: a message with offset zero behind one with a negative offset. */
  predicate SetsAt(es: seq<Action>, i: nat)
    requires i < |es|
  {
    es[i].Offset? && es[i].offset == 0 && LastOffset(es, i) < 0
  }

  lemma {:induction false} PreviousIsLast(es: seq<Action>, n: nat)
    requires n <= |es|
    ensures After(es, n).previous == LastOffset(es, n)
  {
    if n > 0 { PreviousIsLast(es, n - 1); }
  }

  predicate RotatesAt(es: seq<Action>, m: nat)
    requires m < |es|
  {
    es[m].Decide? && (es[m].other || After(es, m).phase.Cleared?)
  }

  // ---------- no time change is lost

  /** The flag is up, or the recorder has seen it and is bound to rotate. */
  ghost predicate Pending(s: Shared) {
    s.flag || s.phase.Cleared?
  }

  lemma {:induction false} StaysPending(es: seq<Action>, i: nat, n: nat)
    requires i < n <= |es| && Run(es, n) && SetsAt(es, i)
    ensures Pending(After(es, n)) || exists m :: i < m < n && RotatesAt(es, m)
  {
    PreviousIsLast(es, i);
    if n > i + 1 {
      StaysPending(es, i, n - 1);
      if Pending(After(es, n - 1)) && !Pending(After(es, n)) {
        assert RotatesAt(es, n - 1);
      }
    }
  }

  lemma {:induction false} CheckStaysOpen(es: seq<Action>, j: nat, n: nat)
    requires j < n <= |es| && Run(es, n) && es[j].Test? && After(es, j).flag
    requires forall m :: j < m < n ==> !es[m].Decide?
    ensures After(es, n).phase in {Tested(true), Cleared}
  {
    if n > j + 1 { CheckStaysOpen(es, j, n - 1); }
    assert Enabled(After(es, n - 1), es[n - 1]);
  }

  lemma {:induction false} RunPrefix(es: seq<Action>, n: nat, k: nat)
    requires k <= n <= |es| && Run(es, n)
    ensures Run(es, k)
  {
    if k < n { RunPrefix(es, n - 1, k); }
  }

  lemma {:induction false} TestIsOutside(es: seq<Action>, j: nat, n: nat)
    requires j < n <= |es| && Run(es, n)
    ensures Enabled(After(es, j), es[j])
  {
    RunPrefix(es, n, j + 1);
  }

  /** No lost time change: in every interleaving, a setting of the flag is followed by a chunk
      rotation no later than the end of the first check that begins after it. */
  lemma NoLostChange(es: seq<Action>, i: nat, j: nat, k: nat)
    requires i < j < k < |es| && Run(es, |es|)
    requires SetsAt(es, i) && es[j].Test? && es[k].Decide?
    requires forall m :: j < m < k ==> !es[m].Decide?
    ensures exists m :: i < m <= k && RotatesAt(es, m)
  {
    RunPrefix(es, |es|, j);
    StaysPending(es, i, j);
    if Pending(After(es, j)) {
      TestIsOutside(es, j, |es|);
      RunPrefix(es, |es|, k);
      CheckStaysOpen(es, j, k);
      TestIsOutside(es, k, |es|);
      assert RotatesAt(es, k);
    }
  }

  // ---------- and none is invented

  function Settings(es: seq<Action>, n: nat): nat
    requires n <= |es|
  {
    if n == 0 then 0 else Settings(es, n - 1) + if SetsAt(es, n - 1) then 1 else 0
  }

  /** Rotations for which the time change was the only reason. */
  function ChangeRotations(es: seq<Action>, n: nat): nat
    requires n <= |es|
  {
    if n == 0 then 0
    else ChangeRotations(es, n - 1) + if es[n - 1].Decide? && !es[n - 1].other && RotatesAt(es, n - 1) then 1 else 0
  }

  /** Time-change rotations still to come. */
  function Owed(s: Shared): nat {
    (if s.flag then 1 else 0) + (if s.phase.Cleared? then 1 else 0)
  }

  lemma {:induction false} EachRotationHasItsSetting(es: seq<Action>, n: nat)
    requires n <= |es| && Run(es, n)
    ensures ChangeRotations(es, n) + Owed(After(es, n)) <= Settings(es, n)
    ensures After(es, n).phase == Tested(true) ==> After(es, n).flag
  {
    if n > 0 {
      EachRotationHasItsSetting(es, n - 1);
      PreviousIsLast(es, n - 1);
    }
  }

  // ---------- the check is atomic

  /** The same two threads when the whole check is one critical section. */
  datatype Atomic = Message(offset: int) | Check(other: bool)

  datatype Serial = Serial(flag: bool, previous: int, decided: seq<bool>)

  function Serially(s: Serial, a: Atomic): Serial {
    match a
    case Message(o) => s.(flag := s.flag || Sets(s.previous, o), previous := o)
    case Check(other) => s.(flag := false, decided := s.decided + [other || s.flag])
  }

  function SerialRun(s: Serial, steps: seq<Atomic>): Serial {
    if steps == [] then s else Serially(SerialRun(s, steps[..|steps| - 1]), steps[|steps| - 1])
  }

  const SERIAL_START := Serial(false, 0, [])

  /** The serial order of an interleaving: a message counts as before the check it overlaps when
      that check has seen the flag and not cleared it yet, and as after it otherwise. */
  datatype Order = Order(done: seq<Atomic>, later: seq<Atomic>)

  function Linearized(es: seq<Action>, n: nat): Order
    requires n <= |es|
  {
    if n == 0 then Order([], [])
    else
      var o := Linearized(es, n - 1);
      var phase := After(es, n - 1).phase;
      match es[n - 1]
      case Offset(v) =>
        if phase.Outside? || phase == Tested(true) then o.(done := o.done + [Message(v)])
        else o.(later := o.later + [Message(v)])
      case Decide(other) => Order(o.done + [Check(other)] + o.later, [])
      case _ => o
  }

  lemma SerialSnoc(s: Serial, steps: seq<Atomic>, a: Atomic)
    ensures SerialRun(s, steps + [a]) == Serially(SerialRun(s, steps), a)
  {
    assert (steps + [a])[..|steps|] == steps;
  }

  lemma {:induction false} SerialAppend(s: Serial, xs: seq<Atomic>, ys: seq<Atomic>)
    ensures SerialRun(s, xs + ys) == SerialRun(SerialRun(s, xs), ys)
  {
    if ys == [] {
      assert xs + ys == xs;
    } else {
      assert xs + ys == (xs + ys[..|ys| - 1]) + [ys[|ys| - 1]];
      SerialSnoc(s, xs + ys[..|ys| - 1], ys[|ys| - 1]);
      SerialAppend(s, xs, ys[..|ys| - 1]);
    }
  }

  /** The shared state seen through the serial order built so far. */
  ghost predicate Explains(o: Order, s: Shared) {
    var before := SerialRun(SERIAL_START, o.done);
    && before.decided == s.decided
    && match s.phase
       case Outside => o.later == [] && before == Serial(s.flag, s.previous, s.decided)
       case Tested(true) => o.later == [] && s.flag && before == Serial(true, s.previous, s.decided)
       case Tested(false) => !before.flag && SerialRun(before, o.later) == Serial(s.flag, s.previous, s.decided)
       case Cleared =>
          before.flag && SerialRun(before.(flag := false), o.later) == Serial(s.flag, s.previous, s.decided)
  }

  lemma {:induction false} LaterKeepsDecided(s: Serial, extra: seq<bool>, steps: seq<Atomic>)
    requires forall a <- steps :: a.Message?
    ensures SerialRun(s.(decided := extra), steps) == SerialRun(s, steps).(decided := extra)
  {
    if steps != [] { LaterKeepsDecided(s, extra, steps[..|steps| - 1]); }
  }

  lemma {:induction false} LaterAreMessages(es: seq<Action>, n: nat)
    requires n <= |es|
    ensures forall a <- Linearized(es, n).later :: a.Message?
  {
    if n > 0 { LaterAreMessages(es, n - 1); }
  }

  lemma DecideExplained(o: Order, s: Shared, other: bool)
    requires Explains(o, s) && Enabled(s, Decide(other)) && forall a <- o.later :: a.Message?
    ensures Explains(Order(o.done + [Check(other)] + o.later, []), Act(s, Decide(other)))
  {
    var before := SerialRun(SERIAL_START, o.done);
    var decided := s.decided + [other || s.phase.Cleared?];
    SerialSnoc(SERIAL_START, o.done, Check(other));
    SerialAppend(SERIAL_START, o.done + [Check(other)], o.later);
    LaterKeepsDecided(before.(flag := false), decided, o.later);
    assert Serially(before, Check(other)) == before.(flag := false, decided := decided);
  }

  lemma {:induction false} AlwaysExplained(es: seq<Action>, n: nat)
    requires n <= |es| && Run(es, n)
    ensures Explains(Linearized(es, n), After(es, n))
  {
    if n > 0 {
      AlwaysExplained(es, n - 1);
      LaterAreMessages(es, n - 1);
      var o, s := Linearized(es, n - 1), After(es, n - 1);
      match es[n - 1]
      case Offset(v) =>
        SerialSnoc(SERIAL_START, o.done, Message(v));
        var before := SerialRun(SERIAL_START, o.done);
        SerialSnoc(before, o.later, Message(v));
        SerialSnoc(before.(flag := false), o.later, Message(v));
      case Decide(other) => DecideExplained(o, s, other);
      case _ =>
    }
  }

  /** Linearizability: whenever no check is under way, the flag, the remembered offset and every
      answer given so far are those of a run in which checks are atomic. */
  lemma ChecksAreAtomic(es: seq<Action>, n: nat)
    requires n <= |es| && Run(es, n) && After(es, n).phase.Outside?
    ensures var s := After(es, n);
      SerialRun(SERIAL_START, Linearized(es, n).done) == Serial(s.flag, s.previous, s.decided)
  {
    AlwaysExplained(es, n);
  }

  /** A serial check is what the recorder does with its flag in one round. */
  lemma RecorderChecks(cfg: Config, s: State, r: Record, previous: int, decided: seq<bool>)
    requires Ok(cfg, s) && cfg.deltat != 0
    ensures var other := ChunkRequired(cfg, s.(timeChange := false), cfg.gmtime(r.tod));
      Serially(Serial(s.timeChange, previous, decided), Check(other))
        == Serial(GetChunkFile(cfg, s, r).timeChange, previous, decided + [Rotates(cfg, s, r)])
  {}
}
