/** What holds in every reachable state of the recorder, with no assumption on the run: the
    drives in use mirror each other, and a finalized file is never touched again. */
module RecorderSafety {
  import opened ChunkNames
  import opened Options
  import opened RecorderState

  /** The stream of a location is open, and a location in use writes through that stream. */
  ghost predicate Live(cfg: Config, d: Drive) {
    && DriveOk(d)
    && (d.fp.Some? ==> !d.files[d.fp.value].closed)
    && (d.used && d.out.Some? ==> d.out == d.fp)
    && (cfg.deltat == 0 ==> d.fp == None && d.out == None)
  }

  /** Two locations in use hold equal open files, or neither has one. */
  ghost predicate Mirrored(a: Drive, b: Drive)
    requires (a.fp.Some? ==> a.fp.value < |a.files|) && (b.fp.Some? ==> b.fp.value < |b.files|)
  {
    a.used && b.used ==>
      && (a.fp.Some? <==> b.fp.Some?)
      && (a.out.Some? <==> b.out.Some?)
      && (a.fp.Some? ==> a.files[a.fp.value] == b.files[b.fp.value])
  }

  ghost predicate SafePair(cfg: Config, a: Drive, b: Drive) {
    && Live(cfg, a) && Live(cfg, b)
    && (cfg.copies == 2 ==> Mirrored(a, b))
  }

  ghost predicate Safe(cfg: Config, s: State) {
    Ok(cfg, s) && SafePair(cfg, s.drives[0], s.drives[1])
  }

  ghost predicate OpenStream(cfg: Config, d: Drive)
    requires DriveOk(d)
  {
    && (d.fp.Some? ==> !d.files[d.fp.value].closed)
    && (cfg.deltat == 0 ==> d.fp == None && d.out == None)
  }

  /** Between following a new mode and the rotation it forces, only the streams are known to be open. */
  ghost predicate Transitional(cfg: Config, s: State) {
    && Ok(cfg, s) && OpenStream(cfg, s.drives[0]) && OpenStream(cfg, s.drives[1])
    && (SafePair(cfg, s.drives[0], s.drives[1]) || s.driveUpdated)
  }

  lemma UpdateTransitional(cfg: Config, s: State, chm: bool, ssd: bool)
    requires Safe(cfg, s)
    ensures Transitional(cfg, UpdateDrives(cfg, s, chm, ssd))
  {}

  /** A rotation opens the same empty file at every location in use. */
  lemma ReopenSafe(cfg: Config, s: State, stem: string)
    requires Ok(cfg, s) && cfg.deltat != 0 && OpenStream(cfg, s.drives[0]) && OpenStream(cfg, s.drives[1])
    ensures SafePair(cfg, OpenNew(CloseOld(cfg, s, s.drives[0]), stem),
                          OpenNew(CloseOld(cfg, s, s.drives[1]), stem))
  {}

  lemma HourDirSafe(cfg: Config, a: Drive, b: Drive, prev: Civil, tm: Civil)
    requires SafePair(cfg, a, b)
    ensures SafePair(cfg, WithHourDir(a, prev, tm), WithHourDir(b, prev, tm))
  {}

  /** The drives after `Placed`: rotated, or as they were. */
  lemma PlacedDrives(cfg: Config, s: State, r: Record)
    requires Ok(cfg, s)
    ensures var s2, tm := s.(duration := Usecs(r.ts, s.t0), timeChange := false), cfg.gmtime(r.tod);
      Placed(cfg, s, r).drives ==
        if Rotates(cfg, s, r) then
          [WithHourDir(OpenNew(CloseOld(cfg, s2, s.drives[0]), Stem(tm)), s.prevTm, tm),
           WithHourDir(OpenNew(CloseOld(cfg, s2, s.drives[1]), Stem(tm)), s.prevTm, tm)]
        else s.drives
  {}

  /** What a rotation does to the state beside the drives. */
  lemma RotationResets(cfg: Config, s: State, r: Record)
    requires Ok(cfg, s) && Rotates(cfg, s, r)
    ensures var s' := Placed(cfg, s, r);
      var tm := cfg.gmtime(r.tod);
      && !s'.sessionStarted && s'.num == 0 && s'.idx == s.idx && s'.duration == 0 && s'.fname == Stem(tm)
      && s'.prevTm == (if SameHour(s.prevTm, tm) then s.prevTm else tm)
      && s'.subpath == (if !SameHour(s.prevTm, tm) && AnyUsed(s) then HourDir(tm) else s.subpath)
      && AnyUsed(s') == AnyUsed(s) && (AnyUsed(s) ==> s'.pos == cfg.bodyStart)
  {
    hide CloseOld, HourDir, Stem, SameHour;
    CloseKeepsUse(cfg, s.(duration := Usecs(r.ts, s.t0), timeChange := false), s.drives[0]);
    CloseKeepsUse(cfg, s.(duration := Usecs(r.ts, s.t0), timeChange := false), s.drives[1]);
    PlacedDrives(cfg, s, r);
  }

  lemma CloseKeepsUse(cfg: Config, s: State, d: Drive)
    requires Ok(cfg, s) && DriveOk(d)
    ensures CloseOld(cfg, s, d).used == d.used
  {}

  lemma PlacedSafe(cfg: Config, s: State, r: Record)
    requires Transitional(cfg, s)
    ensures Safe(cfg, Placed(cfg, s, r))
  {
    PlacedDrives(cfg, s, r);
    if Rotates(cfg, s, r) {
      var s2, tm := s.(duration := Usecs(r.ts, s.t0), timeChange := false), cfg.gmtime(r.tod);
      ReopenSafe(cfg, s2, Stem(tm));
      HourDirSafe(cfg, OpenNew(CloseOld(cfg, s2, s.drives[0]), Stem(tm)),
                  OpenNew(CloseOld(cfg, s2, s.drives[1]), Stem(tm)), s.prevTm, tm);
    }
  }

  lemma WriteSafe(cfg: Config, s: State, r: Record)
    requires Safe(cfg, s)
    ensures Safe(cfg, WriteAll(cfg, AppendIndex(cfg, s, r), r))
  {}

  lemma IdleSafe(cfg: Config, s: State, now: nat)
    requires Safe(cfg, s)
    ensures Safe(cfg, IdleTick(cfg, s, now))
  {}

  lemma WriteRecordSafe(cfg: Config, s: State, e: Event)
    requires Safe(cfg, s) && e.Write?
    ensures Safe(cfg, WriteRecord(cfg, s, e))
  {
    var s1 := UpdateDrives(cfg, s, e.chm, e.ssd);
    UpdateTransitional(cfg, s, e.chm, e.ssd);
    PlacedSafe(cfg, s1, e.r);
    var s2 := Placed(cfg, s1, e.r);
    WriteSafe(cfg, s2, e.r);
    var s3 := WriteAll(cfg, AppendIndex(cfg, s2, e.r), e.r);
    assert WriteRecord(cfg, s, e).drives == s3.drives;
  }

  lemma StepSafe(cfg: Config, s: State, e: Event)
    requires Safe(cfg, s)
    ensures Safe(cfg, Step(cfg, s, e))
  {
    match e
    case Write(_, _, _, _) => WriteRecordSafe(cfg, s, e);
    case Idle(now) => IdleSafe(cfg, s, now);
    case TimeChange =>
  }

  /** Mirroring: in every reachable state the locations in use have equal open chunks, and
      each writes to the stream it would finalize. */
  lemma {:induction false} ReachableSafe(cfg: Config, chm: bool, ssd: bool, es: seq<Event>)
    ensures Safe(cfg, Run(cfg, Init(cfg, chm, ssd), es))
  {
    if es != [] {
      ReachableSafe(cfg, chm, ssd, es[..|es| - 1]);
      StepSafe(cfg, Run(cfg, Init(cfg, chm, ssd), es[..|es| - 1]), es[|es| - 1]);
    }
  }

  // ---------- finalized files are frozen

  ghost predicate Frozen(a: Drive, b: Drive) {
    && |a.files| <= |b.files|
    && (forall h :: 0 <= h < |a.files| && a.files[h].closed ==> b.files[h] == a.files[h])
  }

  ghost predicate AllFrozen(s: State, s': State)
    requires |s.drives| == 2 && |s'.drives| == 2
  {
    Frozen(s.drives[0], s'.drives[0]) && Frozen(s.drives[1], s'.drives[1])
  }

  lemma ReopenFrozen(cfg: Config, s: State, d: Drive, stem: string)
    requires Ok(cfg, s) && DriveOk(d) && OpenStream(cfg, d)
    ensures Frozen(d, OpenNew(CloseOld(cfg, s, d), stem))
  {}

  lemma PlacedFrozen(cfg: Config, s: State, r: Record)
    requires Transitional(cfg, s)
    ensures AllFrozen(s, Placed(cfg, s, r))
  {
    PlacedDrives(cfg, s, r);
    var s2 := s.(duration := Usecs(r.ts, s.t0), timeChange := false);
    ReopenFrozen(cfg, s2, s.drives[0], Stem(cfg.gmtime(r.tod)));
    ReopenFrozen(cfg, s2, s.drives[1], Stem(cfg.gmtime(r.tod)));
  }

  lemma WriteFrozen(cfg: Config, s: State, r: Record)
    requires Safe(cfg, s)
    ensures AllFrozen(s, WriteAll(cfg, AppendIndex(cfg, s, r), r))
  {}

  /** Finalization, also the last one when the thread is told to stop. */
  lemma FinalizeFrozen(cfg: Config, s: State)
    requires Safe(cfg, s)
    ensures AllFrozen(s, Finalize(cfg, s))
  {}

  lemma UpdateFrozen(cfg: Config, s: State, chm: bool, ssd: bool)
    requires Safe(cfg, s)
    ensures AllFrozen(s, UpdateDrives(cfg, s, chm, ssd))
  {
    var s1 := Commanded(s, chm, ssd);
    FinalizeFrozen(cfg, s1);
    var s2 := Finalize(cfg, s1);
    assert s1.driveUpdated ==>
      UpdateDrives(cfg, s, chm, ssd).drives == [s2.drives[0].(used := chm), s2.drives[1].(used := ssd)];
  }

  lemma IdleFrozen(cfg: Config, s: State, now: nat)
    requires Safe(cfg, s)
    ensures AllFrozen(s, IdleTick(cfg, s, now))
  {
    FinalizeFrozen(cfg, s.(duration := Usecs(now, s.t0)));
  }

  lemma FrozenTransitive(a: Drive, b: Drive, c: Drive)
    requires Frozen(a, b) && Frozen(b, c)
    ensures Frozen(a, c)
  {}

  lemma AllFrozenTransitive(a: State, b: State, c: State)
    requires |a.drives| == |b.drives| == |c.drives| == 2
    requires AllFrozen(a, b) && AllFrozen(b, c)
    ensures AllFrozen(a, c)
  {
    FrozenTransitive(a.drives[0], b.drives[0], c.drives[0]);
    FrozenTransitive(a.drives[1], b.drives[1], c.drives[1]);
  }

  lemma WriteRecordFrozen(cfg: Config, s: State, e: Event)
    requires Safe(cfg, s) && e.Write?
    ensures AllFrozen(s, WriteRecord(cfg, s, e))
  {
    var s1 := UpdateDrives(cfg, s, e.chm, e.ssd);
    var s2 := Placed(cfg, s1, e.r);
    UpdateTransitional(cfg, s, e.chm, e.ssd);
    UpdateFrozen(cfg, s, e.chm, e.ssd);
    PlacedFrozen(cfg, s1, e.r);
    PlacedSafe(cfg, s1, e.r);
    WriteFrozen(cfg, s2, e.r);
    var s3 := WriteAll(cfg, AppendIndex(cfg, s2, e.r), e.r);
    AllFrozenTransitive(s, s1, s2);
    AllFrozenTransitive(s, s2, s3);
    assert WriteRecord(cfg, s, e).drives == s3.drives;
  }

  lemma StepFrozen(cfg: Config, s: State, e: Event)
    requires Safe(cfg, s)
    ensures AllFrozen(s, Step(cfg, s, e))
  {
    match e
    case Write(_, _, _, _) => WriteRecordFrozen(cfg, s, e);
    case Idle(now) => IdleFrozen(cfg, s, now);
    case TimeChange =>
  }

  /** No write after finalize: once closed, a file keeps its index and its payload bytes, whatever
      happens afterwards. */
  lemma {:induction false} RunFrozen(cfg: Config, s: State, es: seq<Event>)
    requires Safe(cfg, s)
    ensures Safe(cfg, Run(cfg, s, es)) && AllFrozen(s, Run(cfg, s, es))
  {
    if es != [] {
      RunFrozen(cfg, s, es[..|es| - 1]);
      StepSafe(cfg, Run(cfg, s, es[..|es| - 1]), es[|es| - 1]);
      StepFrozen(cfg, Run(cfg, s, es[..|es| - 1]), es[|es| - 1]);
      AllFrozenTransitive(s, Run(cfg, s, es[..|es| - 1]), Run(cfg, s, es));
    }
  }
}
