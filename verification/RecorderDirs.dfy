/** Which directories there are. The hour's directory is made when the hour changes, and only on the
    drives in use at that moment; a chunk that has no directory to go to stays in staging. */
module RecorderDirs {
  import opened ChunkNames
  import opened Options
  import opened RecorderState
  import RecorderSafety
  import N = RecorderNames

  /** A step moves the recorder to another directory. */
  predicate Moves(cfg: Config, s: State, e: Event)
    requires Ok(cfg, s)
  {
    e.Write? &&
    var s1 := UpdateDrives(cfg, s, e.chm, e.ssd);
    Rotates(cfg, s1, e.r) && AnyUsed(s1) && !SameHour(s.prevTm, cfg.gmtime(e.r.tod))
  }

  /** A drive is in use once a step has followed the mode. */
  predicate UsedIn(cfg: Config, s: State, e: Event, i: nat)
    requires Ok(cfg, s) && i < 2
  {
    if e.Write? then UpdateDrives(cfg, s, e.chm, e.ssd).drives[i].used else s.drives[i].used
  }

  /** The directories a step makes on a drive. */
  function MadeBy(cfg: Config, s: State, e: Event, i: nat): set<string>
    requires Ok(cfg, s) && i < 2
  {
    if Moves(cfg, s, e) && UsedIn(cfg, s, e, i) then {HourDir(cfg.gmtime(e.r.tod))} else {}
  }

  function Made(cfg: Config, s: State, es: seq<Event>, i: nat): set<string>
    requires Ok(cfg, s) && i < 2
  {
    if es == [] then {} else Made(cfg, s, es[..|es| - 1], i) + MadeBy(cfg, Run(cfg, s, es[..|es| - 1]), es[|es| - 1], i)
  }

  // ---------- one step

  lemma FinalizeKeepsDirs(cfg: Config, s: State, d: Drive)
    requires Ok(cfg, s) && DriveOk(d)
    ensures FinalizeDrive(cfg, s, d).dirs == d.dirs && FinalizeDrive(cfg, s, d).used == d.used
  {}

  lemma ReopenDirs(cfg: Config, s: State, d: Drive, tm: Civil)
    requires Ok(cfg, s) && DriveOk(d)
    ensures N.Reopened(cfg, s, d, tm).dirs == d.dirs + if d.used && !SameHour(s.prevTm, tm) then {HourDir(tm)} else {}
    ensures N.Reopened(cfg, s, d, tm).used == d.used
  {
    hide FinalizeHeader, Replaced, ChunkPath, HourDir, SameHour;
  }

  lemma UpdateKeepsHour(cfg: Config, s: State, chm: bool, ssd: bool)
    requires Ok(cfg, s)
    ensures UpdateDrives(cfg, s, chm, ssd).prevTm == s.prevTm
  {}

  lemma StepDirs(cfg: Config, s: State, e: Event, i: nat)
    requires Ok(cfg, s) && i < 2
    ensures Step(cfg, s, e).drives[i].dirs == s.drives[i].dirs + MadeBy(cfg, s, e, i)
    ensures Step(cfg, s, e).drives[i].used == UsedIn(cfg, s, e, i)
  {
    hide Step, N.Reopened, FinalizeDrive, UpdateDrives, SameHour, HourDir, Rotates;
    N.StepNames(cfg, s, e, i);
    match e
    case Write(r, chm, ssd, _) =>
      var s1 := UpdateDrives(cfg, s, chm, ssd);
      N.UpdateFollows(cfg, s, chm, ssd, i);
      UpdateKeepsHour(cfg, s, chm, ssd);
      FinalizeKeepsDirs(cfg, s, s.drives[i]);
      ReopenDirs(cfg, N.MeasuredFor(s1, r), N.Followed(cfg, s, chm, ssd, i), cfg.gmtime(r.tod));
    case Idle(now) => FinalizeKeepsDirs(cfg, s.(duration := Usecs(now, s.t0)), s.drives[i]);
    case TimeChange =>
  }

  /** The directory in use changes exactly in the steps that move it. */
  lemma StepSubpath(cfg: Config, s: State, e: Event)
    requires Ok(cfg, s)
    ensures Step(cfg, s, e).subpath == if Moves(cfg, s, e) then HourDir(cfg.gmtime(e.r.tod)) else s.subpath
  {
    hide HourDir, SameHour, FinalizeDrive;
    match e
    case Write(r, chm, ssd, dead) =>
      var s1 := UpdateDrives(cfg, s, chm, ssd);
      UpdateKeepsHour(cfg, s, chm, ssd);
      N.UpdateKeepsName(cfg, s, chm, ssd);
      PlacedSubpath(cfg, s1, r);
      hide UpdateDrives, Rotates;
      WriteKeepsPlace(cfg, Placed(cfg, s1, r), r, dead);
    case Idle(now) =>
    case TimeChange =>
  }

  lemma PlacedSubpath(cfg: Config, s: State, r: Record)
    requires Ok(cfg, s)
    ensures Placed(cfg, s, r).subpath
      == if Rotates(cfg, s, r) && AnyUsed(s) && !SameHour(s.prevTm, cfg.gmtime(r.tod)) then HourDir(cfg.gmtime(r.tod))
         else s.subpath
  {
    hide HourDir, SameHour;
    if Rotates(cfg, s, r) { RecorderSafety.RotationResets(cfg, s, r); }
  }

  lemma WriteKeepsPlace(cfg: Config, s: State, r: Record, dead: nat)
    requires Ok(cfg, s)
    ensures var s' := Reposition(cfg, WriteAll(cfg, AppendIndex(cfg, s, r), r), dead);
      s'.subpath == s.subpath && s'.prevTm == s.prevTm
  {
    hide WriteDrive, Tell;
  }

  // ---------- whole runs

  /** The directories of a drive are exactly those made on it, for every run. */
  lemma {:induction false} RunDirs(cfg: Config, s: State, es: seq<Event>, i: nat)
    requires Ok(cfg, s) && i < 2
    ensures Run(cfg, s, es).drives[i].dirs == s.drives[i].dirs + Made(cfg, s, es, i)
  {
    hide Step, MadeBy;
    if es != [] {
      RunDirs(cfg, s, es[..|es| - 1], i);
      StepDirs(cfg, Run(cfg, s, es[..|es| - 1]), es[|es| - 1], i);
    }
  }

  /** A drive was in use when the directory last changed. */
  predicate UsedAtMove(cfg: Config, s: State, es: seq<Event>, i: nat)
    requires Ok(cfg, s) && i < 2
  {
    es == [] ||
    (var before := Run(cfg, s, es[..|es| - 1]);
     if Moves(cfg, before, es[|es| - 1]) then UsedIn(cfg, before, es[|es| - 1], i)
     else UsedAtMove(cfg, s, es[..|es| - 1], i))
  }

  /** A drive that was in use at the last hour change has the directory its chunks go to. */
  lemma {:induction false} UsedHasDirectory(cfg: Config, chm: bool, ssd: bool, es: seq<Event>, i: nat)
    requires i < 2 && UsedAtMove(cfg, Init(cfg, chm, ssd), es, i)
    ensures var s := Run(cfg, Init(cfg, chm, ssd), es); s.subpath in s.drives[i].dirs
  {
    hide Step, Moves, UsedIn;
    if es != [] {
      var before, e := Run(cfg, Init(cfg, chm, ssd), es[..|es| - 1]), es[|es| - 1];
      StepDirs(cfg, before, e, i);
      StepSubpath(cfg, before, e);
      if !Moves(cfg, before, e) { UsedHasDirectory(cfg, chm, ssd, es[..|es| - 1], i); }
    }
  }

  // ---------- drives without the directory

  lemma FinalizeWithout(cfg: Config, s: State, d: Drive)
    requires Ok(cfg, s) && DriveOk(d) && s.subpath !in d.dirs
    ensures FinalizeDrive(cfg, s, d).published == d.published
  {}

  lemma ReopenWithout(cfg: Config, s: State, d: Drive, tm: Civil)
    requires Ok(cfg, s) && DriveOk(d) && s.subpath !in d.dirs
    ensures N.Reopened(cfg, s, d, tm).published == d.published
  {}

  /** Without the directory a step publishes nothing, not even when it moves to another one. */
  lemma StepWithout(cfg: Config, s: State, e: Event, i: nat)
    requires Ok(cfg, s) && i < 2 && s.subpath !in s.drives[i].dirs
    ensures Step(cfg, s, e).drives[i].published == s.drives[i].published
  {
    hide Step, N.Reopened, FinalizeDrive, UpdateDrives, Rotates;
    N.StepNames(cfg, s, e, i);
    match e
    case Write(r, chm, ssd, _) =>
      var s1 := UpdateDrives(cfg, s, chm, ssd);
      FinalizeWithout(cfg, s, s.drives[i]);
      FinalizeKeepsDirs(cfg, s, s.drives[i]);
      N.UpdateKeepsName(cfg, s, chm, ssd);
      ReopenWithout(cfg, N.MeasuredFor(s1, r), N.Followed(cfg, s, chm, ssd, i), cfg.gmtime(r.tod));
    case Idle(now) => FinalizeWithout(cfg, s.(duration := Usecs(now, s.t0)), s.drives[i]);
    case TimeChange =>
  }

  /** No step moves to another directory. */
  predicate StaysPut(cfg: Config, s: State, es: seq<Event>)
    requires Ok(cfg, s)
  {
    es == [] || (StaysPut(cfg, s, es[..|es| - 1]) && !Moves(cfg, Run(cfg, s, es[..|es| - 1]), es[|es| - 1]))
  }

  /** A drive that lacks the directory, as one switched on within the hour does, publishes nothing
      until the hour has changed: not in any run within the hour, not in the step that changes it,
      and not when the thread is stopped. */
  lemma {:induction false} LatePublishesNothing(cfg: Config, s: State, es: seq<Event>, e: Event, i: nat)
    requires Ok(cfg, s) && i < 2 && s.subpath !in s.drives[i].dirs && StaysPut(cfg, s, es)
    ensures var s' := Run(cfg, s, es);
      && s'.subpath == s.subpath && s'.drives[i].dirs == s.drives[i].dirs
      && s'.drives[i].published == s.drives[i].published
      && Step(cfg, s', e).drives[i].published == s.drives[i].published
      && Finalize(cfg, s').drives[i].published == s.drives[i].published
  {
    hide Step, Moves, UsedIn, FinalizeDrive;
    if es != [] {
      var before, last := Run(cfg, s, es[..|es| - 1]), es[|es| - 1];
      LatePublishesNothing(cfg, s, es[..|es| - 1], last, i);
      StepDirs(cfg, before, last, i);
      StepSubpath(cfg, before, last);
    }
    StepWithout(cfg, Run(cfg, s, es), e, i);
    FinalizeWithout(cfg, Run(cfg, s, es), Run(cfg, s, es).drives[i]);
  }

  // ---------- a drive switched on within the hour

  lemma StepKeepsHour(cfg: Config, s: State, e: Event)
    requires Ok(cfg, s) && (e.Write? ==> SameHour(s.prevTm, cfg.gmtime(e.r.tod)))
    ensures Step(cfg, s, e).prevTm == s.prevTm
  {
    match e
    case Write(r, chm, ssd, dead) =>
      var s1 := UpdateDrives(cfg, s, chm, ssd);
      UpdateKeepsHour(cfg, s, chm, ssd);
      PlacedKeepsHour(cfg, s1, r);
      WriteKeepsPlace(cfg, Placed(cfg, s1, r), r, dead);
      hide UpdateDrives, Placed, AppendIndex, WriteAll, Reposition, SameHour;
    case Idle(now) => hide FinalizeDrive;
    case TimeChange =>
  }

  lemma PlacedKeepsHour(cfg: Config, s: State, r: Record)
    requires Ok(cfg, s) && SameHour(s.prevTm, cfg.gmtime(r.tod))
    ensures Placed(cfg, s, r).prevTm == s.prevTm
  {
    hide SameHour, HourDir;
    if Rotates(cfg, s, r) { RecorderSafety.RotationResets(cfg, s, r); }
  }

  /** The first record moves the recorder to its hour. */
  lemma FirstMoves(cfg: Config, e: Event)
    requires cfg.deltat != 0 && e.Write? && e.chm && !e.ssd && !SameHour(ZERO_TM, cfg.gmtime(e.r.tod))
    ensures var s0 := Init(cfg, true, false);
      && Moves(cfg, s0, e) && !UsedIn(cfg, s0, e, 1)
      && Step(cfg, s0, e).prevTm == cfg.gmtime(e.r.tod)
  {
    hide WriteDrive, Tell, CloseOld, OpenNew, HourDir, SameHour, Stem;
    var s0 := Init(cfg, true, false);
    var s1 := UpdateDrives(cfg, s0, true, false);
    assert s1 == Commanded(s0, true, false) && !s1.driveUpdated;
    RecorderSafety.RotationResets(cfg, s1, e.r);
  }

  /** The records of a run are all of the hour of the first one, in which the second drive is off. */
  predicate OneHour(cfg: Config, es: seq<Event>) {
    && es != [] && es[0].Write? && es[0].chm && !es[0].ssd && !SameHour(ZERO_TM, cfg.gmtime(es[0].r.tod))
    && forall e <- es :: e.Write? ==> SameHour(cfg.gmtime(es[0].r.tod), cfg.gmtime(e.r.tod))
  }

  lemma {:induction false} OneHourRun(cfg: Config, es: seq<Event>)
    requires cfg.deltat != 0 && OneHour(cfg, es)
    ensures var s, tm := Run(cfg, Init(cfg, true, false), es), cfg.gmtime(es[0].r.tod);
      && s.prevTm == tm && s.subpath == HourDir(tm) && s.subpath !in s.drives[1].dirs
      && s.drives[1].published == []
  {
    hide Step, Moves, UsedIn, SameHour;
    var init, e := es[..|es| - 1], es[|es| - 1];
    var before := Run(cfg, Init(cfg, true, false), init);
    StepDirs(cfg, before, e, 1);
    StepSubpath(cfg, before, e);
    if |es| == 1 {
      FirstMoves(cfg, e);
      FirstPublishesNothing(cfg, e);
    } else {
      assert forall x <- init :: x in es;
      OneHourRun(cfg, init);
      assert e in es;
      StepKeepsHour(cfg, before, e);
      SameHourStays(cfg, before, e);
      StepWithout(cfg, before, e, 1);
    }
  }

  lemma SameHourStays(cfg: Config, s: State, e: Event)
    requires Ok(cfg, s) && (e.Write? ==> SameHour(s.prevTm, cfg.gmtime(e.r.tod)))
    ensures !Moves(cfg, s, e)
  {}

  lemma FirstPublishesNothing(cfg: Config, e: Event)
    requires e.Write?
    ensures Step(cfg, Init(cfg, true, false), e).drives[1].published == []
  {
    var s0 := Init(cfg, true, false);
    N.StepNames(cfg, s0, e, 1);
    hide Step;
  }

  /** A removable drive inserted within the hour in which the recorder started: whatever is recorded
      on it before the next hour is never published, even when the thread is stopped. */
  lemma SwitchedOnLate(cfg: Config, es: seq<Event>)
    requires cfg.deltat != 0 && OneHour(cfg, es)
    ensures Finalize(cfg, Run(cfg, Init(cfg, true, false), es)).drives[1].published == []
  {
    var s := Run(cfg, Init(cfg, true, false), es);
    OneHourRun(cfg, es);
    FinalizeWithout(cfg, s, s.drives[1]);
  }
}
