/** Runs that meet the conditions of the round trip. Chunks opened in different seconds never get
    the name of another, and a mode left as configured never closes a chunk too early. */
module SoundRuns {
  import opened ChunkNames
  import opened Options
  import opened RecorderState
  import opened ChunkReader
  import opened RoundTrip
  import RecorderSafety
  import N = RecorderNames
  import D = RecorderDirs

  // ---------- chunks opened in different seconds

  /** The name of the chunk a step opens, if it opens one. */
  function OpenedBy(cfg: Config, s: State, e: Event): set<string>
    requires Ok(cfg, s)
  {
    if e.Write? && Rotates(cfg, UpdateDrives(cfg, s, e.chm, e.ssd), e.r) then {Stem(cfg.gmtime(e.r.tod))} else {}
  }

  function Opened(cfg: Config, s: State, es: seq<Event>): set<string>
    requires Ok(cfg, s)
  {
    if es == [] then {}
    else Opened(cfg, s, es[..|es| - 1]) + OpenedBy(cfg, Run(cfg, s, es[..|es| - 1]), es[|es| - 1])
  }

  /** Every chunk is opened in a second in which none was opened before. */
  predicate NewSeconds(cfg: Config, s: State, es: seq<Event>)
    requires Ok(cfg, s)
  {
    es == [] ||
    (NewSeconds(cfg, s, es[..|es| - 1])
     && OpenedBy(cfg, Run(cfg, s, es[..|es| - 1]), es[|es| - 1]) !! Opened(cfg, s, es[..|es| - 1]))
  }

  /** Staged and published names are among those opened, and none is staged and published. */
  ghost predicate Tracked(d: Drive, names: set<string>) {
    && (forall n <- d.staging :: n in names)
    && (forall p <- d.published :: PathStem(p.path) in names && PathStem(p.path) !in d.staging)
  }

  predicate PathsOk(s: State) { DirOk(s.subpath) && Plain(s.fname) }

  lemma ChunkStem(s: State)
    requires PathsOk(s)
    ensures PathStem(ChunkPath(s)) == s.fname
  {
    PathStemOf(s.subpath, s.fname, s.duration);
  }

  lemma PublishTracked(d: Drive, num: nat, idx: seq<IndexEntry>, fname: string, dir: string, path: string,
                       names: set<string>)
    requires DriveOk(d) && d.fp.Some? && num <= |idx| && Tracked(d, names) && PathStem(path) == fname
    ensures Tracked(CloseAndPublish(d, num, idx, fname, dir, path), names)
  {
    hide PathStem;
  }

  lemma OpenTracked(d: Drive, stem: string, names: set<string>)
    requires DriveOk(d) && Tracked(d, names) && stem !in names
    ensures Tracked(OpenNew(d, stem), names + {stem})
  {
    hide PathStem;
  }

  lemma FinalizeTracked(cfg: Config, s: State, d: Drive, names: set<string>)
    requires Ok(cfg, s) && DriveOk(d) && Tracked(d, names) && PathsOk(s)
    ensures Tracked(FinalizeDrive(cfg, s, d), names)
  {
    hide CloseAndPublish;
    ChunkStem(s);
    if d.used && d.fp.Some? { PublishTracked(d, s.num, s.idx, s.fname, s.subpath, ChunkPath(s), names); }
  }

  lemma ReopenTracked(cfg: Config, s: State, d: Drive, tm: Civil, names: set<string>)
    requires Ok(cfg, s) && DriveOk(d) && Tracked(d, names) && PathsOk(s) && Stem(tm) !in names
    ensures Tracked(N.Reopened(cfg, s, d, tm), names + {Stem(tm)})
  {
    hide CloseAndPublish, OpenNew, Stem, WithHourDir;
    ChunkStem(s);
    if d.used && d.fp.Some? { PublishTracked(d, s.num, s.idx, s.fname, s.subpath, ChunkPath(s), names); }
    OpenTracked(CloseOld(cfg, s, d), Stem(tm), names);
  }

  lemma RenamedTracked(cfg: Config, s: State, e: Event, i: nat, names: set<string>)
    requires Ok(cfg, s) && i < 2 && Tracked(s.drives[i], names) && PathsOk(s)
    requires OpenedBy(cfg, s, e) !! names
    ensures Tracked(N.Renamed(cfg, s, e, i), names + OpenedBy(cfg, s, e))
  {
    hide FinalizeDrive, N.Reopened, UpdateDrives, Rotates, PathStem, DirOk, Plain;
    match e
    case Write(r, chm, ssd, dead) =>
      var s1 := UpdateDrives(cfg, s, chm, ssd);
      N.UpdateKeepsName(cfg, s, chm, ssd);
      FinalizeTracked(cfg, s, s.drives[i], names);
      var d1 := N.Followed(cfg, s, chm, ssd, i);
      assert Tracked(d1, names);
      if Rotates(cfg, s1, r) {
        assert Stem(cfg.gmtime(r.tod)) in OpenedBy(cfg, s, e);
        ReopenTracked(cfg, N.MeasuredFor(s1, r), d1, cfg.gmtime(r.tod), names);
      }
    case Idle(now) =>
      FinalizeTracked(cfg, s.(duration := Usecs(now, s.t0)), s.drives[i], names);
    case TimeChange =>
  }

  lemma StepTracked(cfg: Config, s: State, e: Event, i: nat, names: set<string>)
    requires Ok(cfg, s) && i < 2 && Tracked(s.drives[i], names) && PathsOk(s)
    requires OpenedBy(cfg, s, e) !! names
    ensures Tracked(Step(cfg, s, e).drives[i], names + OpenedBy(cfg, s, e))
  {
    hide N.Renamed, Step, OpenedBy, PathStem;
    RenamedTracked(cfg, s, e, i, names);
    N.StepNames(cfg, s, e, i);
  }

  lemma StepPaths(cfg: Config, s: State, e: Event)
    requires Ok(cfg, s) && PathsOk(s)
    ensures PathsOk(Step(cfg, s, e))
  {
    match e
    case Write(r, chm, ssd, dead) =>
      hide DirOk, Plain, Stem, HourDir;
      var s1 := UpdateDrives(cfg, s, chm, ssd);
      N.UpdateKeepsName(cfg, s, chm, ssd);
      StemPlain(cfg.gmtime(r.tod));
      PlacedPaths(cfg, s1, r);
      WriteKeepsPaths(cfg, Placed(cfg, s1, r), r, dead);
    case Idle(now) =>
    case TimeChange =>
  }

  lemma PlacedPaths(cfg: Config, s: State, r: Record)
    requires Ok(cfg, s) && PathsOk(s) && Plain(Stem(cfg.gmtime(r.tod))) && DirOk(HourDir(cfg.gmtime(r.tod)))
    ensures PathsOk(Placed(cfg, s, r))
  {
    hide DirOk, Plain, Stem, HourDir, OpenNew, CloseOld;
    if Rotates(cfg, s, r) { RecorderSafety.RotationResets(cfg, s, r); }
  }

  lemma WriteKeepsPaths(cfg: Config, s: State, r: Record, dead: nat)
    requires Ok(cfg, s)
    ensures var s' := Reposition(cfg, WriteAll(cfg, AppendIndex(cfg, s, r), r), dead);
      s'.subpath == s.subpath && s'.fname == s.fname
  {
    hide WriteDrive, Tell;
  }

  lemma {:induction false} RunTracked(cfg: Config, chm: bool, ssd: bool, es: seq<Event>, i: nat)
    requires i < 2 && NewSeconds(cfg, Init(cfg, chm, ssd), es)
    ensures Tracked(Run(cfg, Init(cfg, chm, ssd), es).drives[i], Opened(cfg, Init(cfg, chm, ssd), es))
    ensures PathsOk(Run(cfg, Init(cfg, chm, ssd), es))
  {
    if es != [] {
      var s := Run(cfg, Init(cfg, chm, ssd), es[..|es| - 1]);
      RunTracked(cfg, chm, ssd, es[..|es| - 1], i);
      StepTracked(cfg, s, es[|es| - 1], i, Opened(cfg, Init(cfg, chm, ssd), es[..|es| - 1]));
      StepPaths(cfg, s, es[|es| - 1]);
    }
  }

  /** Records in pairwise different seconds open their chunks in different seconds. */
  predicate DifferentSeconds(cfg: Config, es: seq<Event>) {
    forall j, k :: 0 <= j < k < |es| && es[j].Write? && es[k].Write? ==>
      Stem(cfg.gmtime(es[j].r.tod)) != Stem(cfg.gmtime(es[k].r.tod))
  }

  lemma {:induction false} OpenedByRecords(cfg: Config, s: State, es: seq<Event>)
    requires Ok(cfg, s)
    ensures forall n <- Opened(cfg, s, es) ::
      exists j :: 0 <= j < |es| && es[j].Write? && n == Stem(cfg.gmtime(es[j].r.tod))
  {
    hide Stem, Rotates, UpdateDrives;
    if es != [] {
      OpenedByRecords(cfg, s, es[..|es| - 1]);
      forall n <- Opened(cfg, s, es)
        ensures exists j :: 0 <= j < |es| && es[j].Write? && n == Stem(cfg.gmtime(es[j].r.tod))
      {
        if n in Opened(cfg, s, es[..|es| - 1]) {
          var j :| 0 <= j < |es| - 1 && es[..|es| - 1][j].Write? && n == Stem(cfg.gmtime(es[..|es| - 1][j].r.tod));
          assert es[j] == es[..|es| - 1][j];
        } else {
          assert es[|es| - 1].Write?;
        }
      }
    }
  }

  lemma {:induction false} DifferentAreNew(cfg: Config, s: State, es: seq<Event>)
    requires Ok(cfg, s) && DifferentSeconds(cfg, es)
    ensures NewSeconds(cfg, s, es)
  {
    hide Stem, Rotates, UpdateDrives;
    if es != [] {
      DifferentAreNew(cfg, s, es[..|es| - 1]);
      OpenedByRecords(cfg, s, es[..|es| - 1]);
    }
  }

  // ---------- the conditions without names

  /** The conditions on a step other than on names. */
  predicate PlainStep(cfg: Config, s: State, e: Event)
    requires Ok(cfg, s)
  {
    match e
    case Write(r, chm, ssd, _) =>
      && r.tod != 0 && r.payload != []
      && (Commanded(s, chm, ssd).driveUpdated && ChunkOpen(s) ==> s.duration > 0)
      && TellSound(UpdateDrives(cfg, s, chm, ssd))
    case Idle(now) => IdleDue(cfg, s, now) && ChunkOpen(s) ==> Usecs(now, s.t0) > 0
    case TimeChange => true
  }

  predicate PlainRun(cfg: Config, s: State, es: seq<Event>)
    requires Ok(cfg, s)
  {
    es == [] || (PlainRun(cfg, s, es[..|es| - 1]) && PlainStep(cfg, Run(cfg, s, es[..|es| - 1]), es[|es| - 1]))
  }

  /** A drive in use was also in use when the directory last changed, at every moment of a run. */
  predicate Housed(cfg: Config, s: State, es: seq<Event>, i: nat)
    requires Ok(cfg, s) && i < 2
  {
    es == [] ||
    (Housed(cfg, s, es[..|es| - 1], i) && (Run(cfg, s, es).drives[i].used ==> D.UsedAtMove(cfg, s, es, i)))
  }

  /** A drive in use has the directory its chunks go to. */
  predicate HasDir(s: State, i: nat)
    requires |s.drives| == 2 && i < 2
  {
    s.drives[i].used ==> s.subpath in s.drives[i].dirs
  }

  lemma HousedHasDir(cfg: Config, chm: bool, ssd: bool, es: seq<Event>, i: nat)
    requires i < 2 && Housed(cfg, Init(cfg, chm, ssd), es, i)
    ensures HasDir(Run(cfg, Init(cfg, chm, ssd), es), i)
  {
    hide D.Moves, D.UsedIn, Step;
    if Run(cfg, Init(cfg, chm, ssd), es).drives[i].used { D.UsedHasDirectory(cfg, chm, ssd, es, i); }
  }

  lemma TrackedLands(cfg: Config, s: State, h: Histories, names: set<string>, i: nat)
    requires i < 2 && Steady(cfg, s, h) && PathsOk(s) && Tracked(s.drives[i], names) && HasDir(s, i)
    ensures forall duration: nat :: Lands(s.(duration := duration), i)
  {
    hide PathStem, HoldsWithPending, Holds;
    forall duration: nat ensures Lands(s.(duration := duration), i) {
      ChunkStem(s.(duration := duration));
    }
  }

  lemma PlainIsSound(cfg: Config, s: State, history: seq<Item>, e: Event, names: set<string>, i: nat)
    requires i < 2 && cfg.Valid() && Steady(cfg, s, For(i, history))
    requires PathsOk(s) && Tracked(s.drives[i], names) && HasDir(s, i)
    requires PlainStep(cfg, s, e)
    ensures SoundStep(cfg, s, e, i)
  {
    TrackedLands(cfg, s, For(i, history), names, i);
    assert Lands(s.(duration := s.duration), i);
    hide Lands, Steady, AllClosed, PathsOk, Tracked, HasDir, UpdateDrives, Commanded, TellSound, Rotates;
    match e
    case Write(r, chm, ssd, _) =>
      LandsFor(s, i, history);
      UpdateSteady(cfg, s, For(i, history), chm, ssd);
      UpdateSays(cfg, s, chm, ssd);
      UpdatedLands(cfg, s, For(i, history), r, chm, ssd, i);
    case Idle(now) =>
    case TimeChange =>
  }

  lemma LandsFor(s: State, i: nat, history: seq<Item>)
    requires i < 2 && |s.drives| == 2 && Lands(s, i)
    ensures AskedLand(s, For(i, history))
  {}

  lemma UpdateSays(cfg: Config, s: State, chm: bool, ssd: bool)
    requires Ok(cfg, s)
    ensures UpdateDrives(cfg, s, chm, ssd).driveUpdated == Commanded(s, chm, ssd).driveUpdated
  {}

  lemma UpdatedLands(cfg: Config, s: State, h: Histories, r: Record, chm: bool, ssd: bool, i: nat)
    requires i < 2 && Ok(cfg, s) && forall duration: nat :: Lands(s.(duration := duration), i)
    requires var s1 := UpdateDrives(cfg, s, chm, ssd); s1.driveUpdated ==> AllClosed(cfg, s1, h)
    ensures Lands(Measured(cfg, UpdateDrives(cfg, s, chm, ssd), r), i)
  {
    hide Holds;
    var s1 := UpdateDrives(cfg, s, chm, ssd);
    if !s1.driveUpdated {
      assert s1 == Commanded(s, chm, ssd);
      assert Lands(s.(duration := Usecs(r.ts, s1.t0)), i);
    }
  }

  /** Chunks opened in different seconds never meet, and a drive in use at each hour change has its
      directories: the conditions on names and directories follow from the others, for every run. */
  lemma {:induction false} NewSecondsAreSound(cfg: Config, chm: bool, ssd: bool, es: seq<Event>, i: nat)
    requires cfg.Valid() && cfg.deltat != 0 && cfg.copies == 2 && i < 2
    requires PlainRun(cfg, Init(cfg, chm, ssd), es) && NewSeconds(cfg, Init(cfg, chm, ssd), es)
    requires Housed(cfg, Init(cfg, chm, ssd), es, i)
    ensures SoundRun(cfg, Init(cfg, chm, ssd), es, i) && Lands(Run(cfg, Init(cfg, chm, ssd), es), i)
  {
    hide Steady, Lands, PlainStep, SoundStep, Tracked, PathsOk, OpenedBy, HasDir, D.UsedAtMove, Step;
    var s0 := Init(cfg, chm, ssd);
    if es != [] {
      var init := es[..|es| - 1];
      NewSecondsAreSound(cfg, chm, ssd, init, i);
      RunSteady(cfg, chm, ssd, init, i);
      RunTracked(cfg, chm, ssd, init, i);
      HousedHasDir(cfg, chm, ssd, init, i);
      PlainIsSound(cfg, Run(cfg, s0, init), RecordedRun(cfg, s0, init, i), es[|es| - 1], Opened(cfg, s0, init), i);
    }
    RunSteady(cfg, chm, ssd, es, i);
    RunTracked(cfg, chm, ssd, es, i);
    HousedHasDir(cfg, chm, ssd, es, i);
    TrackedLands(cfg, Run(cfg, s0, es), For(i, RecordedRun(cfg, s0, es, i)), Opened(cfg, s0, es), i);
    assert Lands(Run(cfg, s0, es).(duration := Run(cfg, s0, es).duration), i);
  }

  // ---------- the mode left as configured

  /** A record of a time and a payload that asks for the configured mode, a time change, or an idle
      round; when that is due, the time since the chunk was opened must not wrap to zero. */
  predicate OrdinaryStep(cfg: Config, s: State, e: Event, chm: bool, ssd: bool) {
    match e
    case Write(r, c, d, _) => c == chm && d == ssd && r.tod != 0 && r.payload != []
    case Idle(now) => IdleDue(cfg, s, now) ==> Usecs(now, s.t0) > 0
    case TimeChange => true
  }

  predicate OrdinaryRun(cfg: Config, s: State, es: seq<Event>, chm: bool, ssd: bool)
    requires Ok(cfg, s)
  {
    es == [] ||
    (OrdinaryRun(cfg, s, es[..|es| - 1], chm, ssd)
     && OrdinaryStep(cfg, Run(cfg, s, es[..|es| - 1]), es[|es| - 1], chm, ssd))
  }

  ghost predicate ModeKept(s: State, chm: bool, ssd: bool)
    requires |s.drives| == 2
  {
    && s.drives[0].used == chm && s.drives[1].used == ssd
    && s.preChm in {None, Some(chm)} && s.preSsd in {None, Some(ssd)}
    && (s.drives[0].out.Some? ==> chm)
  }

  lemma KeptRecord(cfg: Config, s: State, r: Record, dead: nat, chm: bool, ssd: bool)
    requires Ok(cfg, s) && ModeKept(s, chm, ssd) && r.tod != 0 && r.payload != []
    ensures PlainStep(cfg, s, Write(r, chm, ssd, dead))
      && ModeKept(WriteRecord(cfg, s, Write(r, chm, ssd, dead)), chm, ssd)
  {
    var s1 := UpdateDrives(cfg, s, chm, ssd);
    assert s1 == Commanded(s, chm, ssd) && !s1.driveUpdated;
    hide UpdateDrives, Placed, WriteAll, AppendIndex, Reposition, Rotates;
    KeptPlaced(cfg, s1, r, chm, ssd);
    KeptWrite(cfg, Placed(cfg, s1, r), r, dead, chm, ssd);
  }

  lemma KeptIdle(cfg: Config, s: State, now: nat, chm: bool, ssd: bool)
    requires Ok(cfg, s) && ModeKept(s, chm, ssd)
    ensures ModeKept(IdleTick(cfg, s, now), chm, ssd)
  {
    hide FinalizeDrive;
    FinalizeKeepsUse(cfg, s.(duration := Usecs(now, s.t0)), s.drives[0]);
    FinalizeKeepsUse(cfg, s.(duration := Usecs(now, s.t0)), s.drives[1]);
  }

  lemma FinalizeKeepsUse(cfg: Config, s: State, d: Drive)
    requires Ok(cfg, s) && DriveOk(d)
    ensures FinalizeDrive(cfg, s, d).used == d.used && FinalizeDrive(cfg, s, d).out == d.out
  {}

  lemma KeptStep(cfg: Config, s: State, e: Event, chm: bool, ssd: bool)
    requires Ok(cfg, s) && ModeKept(s, chm, ssd) && OrdinaryStep(cfg, s, e, chm, ssd)
    ensures PlainStep(cfg, s, e) && ModeKept(Step(cfg, s, e), chm, ssd)
  {
    match e
    case Write(r, c, d, dead) =>
      hide PlainStep, WriteRecord;
      KeptRecord(cfg, s, r, dead, chm, ssd);
    case Idle(now) =>
      hide IdleTick;
      KeptIdle(cfg, s, now, chm, ssd);
    case TimeChange =>
  }

  lemma PlacedKeepsPre(cfg: Config, s: State, r: Record)
    requires Ok(cfg, s)
    ensures Placed(cfg, s, r).preChm == s.preChm && Placed(cfg, s, r).preSsd == s.preSsd
  {}

  lemma ReopenKeepsUse(cfg: Config, s: State, d: Drive, tm: Civil)
    requires Ok(cfg, s) && DriveOk(d)
    ensures var d' := N.Reopened(cfg, s, d, tm); d'.used == d.used && (d'.out.Some? ==> d.used || d.out.Some?)
  {}

  lemma KeptPlaced(cfg: Config, s: State, r: Record, chm: bool, ssd: bool)
    requires Ok(cfg, s) && ModeKept(s, chm, ssd)
    ensures ModeKept(Placed(cfg, s, r), chm, ssd)
  {
    N.PlacedDrive(cfg, s, r, 0);
    N.PlacedDrive(cfg, s, r, 1);
    PlacedKeepsPre(cfg, s, r);
    ReopenKeepsUse(cfg, N.MeasuredFor(s, r), s.drives[0], cfg.gmtime(r.tod));
    ReopenKeepsUse(cfg, N.MeasuredFor(s, r), s.drives[1], cfg.gmtime(r.tod));
    hide Placed, N.Reopened, Usecs, Rotates;
  }

  lemma KeptWrite(cfg: Config, s: State, r: Record, dead: nat, chm: bool, ssd: bool)
    requires Ok(cfg, s) && ModeKept(s, chm, ssd)
    ensures ModeKept(Reposition(cfg, WriteAll(cfg, AppendIndex(cfg, s, r), r), dead), chm, ssd)
  {
    var s1 := AppendIndex(cfg, s, r);
    KeptAppend(cfg, s, r, chm, ssd);
    KeptWriteAll(cfg, s1, r, chm, ssd);
    OnlyPosMoves(cfg, WriteAll(cfg, s1, r), dead);
    hide AppendIndex, WriteAll, Reposition;
  }

  lemma KeptAppend(cfg: Config, s: State, r: Record, chm: bool, ssd: bool)
    requires Ok(cfg, s) && ModeKept(s, chm, ssd)
    ensures ModeKept(AppendIndex(cfg, s, r), chm, ssd)
  {}

  lemma KeptWriteAll(cfg: Config, s: State, r: Record, chm: bool, ssd: bool)
    requires Ok(cfg, s) && ModeKept(s, chm, ssd)
    ensures ModeKept(WriteAll(cfg, s, r), chm, ssd)
  {
    WriteDriveKeepsUse(s.drives[0], r);
    WriteDriveKeepsUse(s.drives[1], r);
    hide WriteDrive;
  }

  lemma OnlyPosMoves(cfg: Config, s: State, dead: nat)
    requires Ok(cfg, s)
    ensures Reposition(cfg, s, dead) == s.(pos := Reposition(cfg, s, dead).pos)
  {
    hide Tell;
  }

  lemma WriteDriveKeepsUse(d: Drive, r: Record)
    requires DriveOk(d)
    ensures WriteDrive(d, r).used == d.used && WriteDrive(d, r).out == d.out
  {}

  lemma {:induction false} OrdinaryIsPlain(cfg: Config, chm: bool, ssd: bool, es: seq<Event>)
    requires OrdinaryRun(cfg, Init(cfg, chm, ssd), es, chm, ssd)
    ensures PlainRun(cfg, Init(cfg, chm, ssd), es) && ModeKept(Run(cfg, Init(cfg, chm, ssd), es), chm, ssd)
    ensures Housed(cfg, Init(cfg, chm, ssd), es, 0) && Housed(cfg, Init(cfg, chm, ssd), es, 1)
  {
    hide Step, PlainStep, OrdinaryStep, D.UsedAtMove;
    if es != [] {
      var before := Run(cfg, Init(cfg, chm, ssd), es[..|es| - 1]);
      OrdinaryIsPlain(cfg, chm, ssd, es[..|es| - 1]);
      KeptStep(cfg, before, es[|es| - 1], chm, ssd);
      KeptUse(cfg, chm, ssd, es, 0);
      KeptUse(cfg, chm, ssd, es, 1);
    }
  }

  lemma KeptUse(cfg: Config, chm: bool, ssd: bool, es: seq<Event>, i: nat)
    requires i < 2 && es != [] && Housed(cfg, Init(cfg, chm, ssd), es[..|es| - 1], i)
    requires var s0 := Init(cfg, chm, ssd);
      Run(cfg, s0, es).drives[i].used ==> Run(cfg, s0, es[..|es| - 1]).drives[i].used
    ensures Housed(cfg, Init(cfg, chm, ssd), es, i)
  {
    hide Step, D.Moves, D.UsedIn, Init;
    var s0, init := Init(cfg, chm, ssd), es[..|es| - 1];
    D.StepDirs(cfg, Run(cfg, s0, init), es[|es| - 1], i);
    if Run(cfg, s0, es).drives[i].used {
      assert D.UsedAtMove(cfg, s0, init, i);
      assert D.UsedAtMove(cfg, s0, es, i);
    }
  }

  /** With the mode left as configured and chunks opened in different seconds, every run of proper
      records, idle rounds and timeouts included, is sound for either drive; all the round trip then
      asks for is a stop at a positive duration. */
  lemma ConstantModeIsSound(cfg: Config, chm: bool, ssd: bool, es: seq<Event>, i: nat)
    requires cfg.Valid() && cfg.deltat != 0 && cfg.copies == 2 && i < 2
    requires OrdinaryRun(cfg, Init(cfg, chm, ssd), es, chm, ssd) && NewSeconds(cfg, Init(cfg, chm, ssd), es)
    ensures var s := Run(cfg, Init(cfg, chm, ssd), es);
      SoundRun(cfg, Init(cfg, chm, ssd), es, i) && (s.duration > 0 ==> FinalizeSound(s, i))
  {
    hide OrdinaryRun, NewSeconds, PlainRun, Housed, SoundRun, Run, Lands, ModeKept;
    OrdinaryIsPlain(cfg, chm, ssd, es);
    NewSecondsAreSound(cfg, chm, ssd, es, i);
  }

  // ---------- chunks opened in the same second

  /** One record every millisecond, all of one second, each filling its chunk. */
  function Tick(tod: nat, payload: seq<Byte>, k: nat): Event {
    Write(Record(tod, k * 1000000, GPS, payload), true, true, 0)
  }

  /** The state after record k: its chunk is open, and the next one will be named alike. */
  ghost predicate InSecond(cfg: Config, s: State, tod: nat, k: nat) {
    && Ok(cfg, s) && s.num == 1 && s.t0 == k * 1000000 && !s.sessionStarted
    && s.fname == Stem(cfg.gmtime(tod)) && SameHour(s.prevTm, cfg.gmtime(tod))
    && s.preChm == Some(true) && s.preSsd == Some(true)
    && s.drives[0].used && s.drives[0].fp.Some? && s.fname in s.drives[0].staging
    && s.drives[1].used && s.subpath in s.drives[0].dirs
  }

  lemma PlacedInSecond(cfg: Config, s: State, tod: nat, payload: seq<Byte>, k: nat)
    requires Ok(cfg, s) && s.drives[0].used && s.drives[1].used && cfg.chunkMax == 1 && cfg.Valid()
    requires s.preChm == Some(true) && s.preSsd == Some(true) && Rotates(cfg, s, Tick(tod, payload, k).r)
    requires s.subpath in s.drives[0].dirs
    ensures var r := Tick(tod, payload, k).r;
      var s' := Reposition(cfg, WriteAll(cfg, AppendIndex(cfg, Placed(cfg, s, r), r), r), 0);
      && InSecond(cfg, s', tod, k)
      && (SameHour(s.prevTm, cfg.gmtime(tod)) ==> s'.subpath == s.subpath)
  {
    hide Stem, HourDir, CloseOld, SameHour;
    var r := Tick(tod, payload, k).r;
    var s1 := Placed(cfg, s, r);
    RecorderSafety.RotationResets(cfg, s, r);
    N.PlacedDrive(cfg, s, r, 0);
    N.PlacedDrive(cfg, s, r, 1);
    PlacedKeepsPre(cfg, s, r);
    RotationClock(cfg, s, r);
    ReopenKeepsUse(cfg, N.MeasuredFor(s, r), s.drives[0], cfg.gmtime(tod));
    ReopenKeepsUse(cfg, N.MeasuredFor(s, r), s.drives[1], cfg.gmtime(tod));
    D.ReopenDirs(cfg, N.MeasuredFor(s, r), s.drives[0], cfg.gmtime(tod));
    SameHourSelf(s.prevTm, cfg.gmtime(tod));
    WriteInSecond(cfg, s1, r);
  }

  lemma SameHourSelf(a: Civil, b: Civil)
    ensures SameHour(b, b)
  {}

  lemma RotationClock(cfg: Config, s: State, r: Record)
    requires Ok(cfg, s) && Rotates(cfg, s, r) && AnyUsed(s)
    ensures Placed(cfg, s, r).t0 == r.ts
  {
    hide Stem, HourDir, CloseOld, OpenNew;
  }

  /** What indexing and writing leave as it was. */
  lemma WriteInSecond(cfg: Config, s: State, r: Record)
    requires Ok(cfg, s) && s.num < cfg.maxRecords
    ensures var s' := Reposition(cfg, WriteAll(cfg, AppendIndex(cfg, s, r), r), 0);
      && s'.num == s.num + 1 && s'.t0 == s.t0 && s'.sessionStarted == s.sessionStarted && s'.fname == s.fname
      && s'.prevTm == s.prevTm && s'.preChm == s.preChm && s'.preSsd == s.preSsd && s'.subpath == s.subpath
      && s'.drives[0].used == s.drives[0].used && s'.drives[1].used == s.drives[1].used
      && s'.drives[0].fp == s.drives[0].fp && s'.drives[0].staging == s.drives[0].staging
      && s'.drives[0].dirs == s.drives[0].dirs
  {
    hide Tell;
  }

  lemma TickStep(cfg: Config, s: State, tod: nat, payload: seq<Byte>, k: nat)
    requires cfg.Valid() && cfg.deltat != 0 && cfg.chunkMax == 1 && InSecond(cfg, s, tod, k)
    ensures var e := Tick(tod, payload, k + 1);
      && InSecond(cfg, Step(cfg, s, e), tod, k + 1) && Step(cfg, s, e).subpath == s.subpath
      && N.PublishedBy(cfg, s, e, 0) == Some(s.subpath + s.fname + Suffix(1000))
  {
    hide Stem, HourDir, CloseOld, OpenNew, SameHour, Placed, Suffix;
    var e := Tick(tod, payload, k + 1);
    var s1 := UpdateDrives(cfg, s, true, true);
    assert s1 == Commanded(s, true, true) && !s1.driveUpdated;
    assert Rotates(cfg, s1, e.r);
    PlacedInSecond(cfg, s1, tod, payload, k + 1);
    assert Usecs(e.r.ts, s1.t0) == 1000;
  }

  lemma FirstTick(cfg: Config, tod: nat, payload: seq<Byte>)
    requires cfg.Valid() && cfg.deltat != 0 && cfg.chunkMax == 1
    ensures InSecond(cfg, Step(cfg, Init(cfg, true, true), Tick(tod, payload, 0)), tod, 0)
  {
    hide Stem, HourDir, CloseOld, OpenNew, SameHour, Placed, Suffix;
    var s := Init(cfg, true, true);
    var s1 := UpdateDrives(cfg, s, true, true);
    assert s1 == Commanded(s, true, true) && !s1.driveUpdated;
    assert Rotates(cfg, s1, Tick(tod, payload, 0).r);
    PlacedInSecond(cfg, s1, tod, payload, 0);
  }

  function Ticks(tod: nat, payload: seq<Byte>, n: nat): seq<Event> {
    if n == 0 then [] else Ticks(tod, payload, n - 1) + [Tick(tod, payload, n - 1)]
  }

  lemma RunTicks(cfg: Config, s: State, tod: nat, payload: seq<Byte>, n: nat)
    requires Ok(cfg, s)
    ensures Run(cfg, s, Ticks(tod, payload, n + 1))
      == Step(cfg, Run(cfg, s, Ticks(tod, payload, n)), Tick(tod, payload, n))
  {
    assert Ticks(tod, payload, n + 1)[..|Ticks(tod, payload, n + 1)| - 1] == Ticks(tod, payload, n);
  }

  /** A chunk named like a published one may not be closed. */
  lemma TickUnsound(cfg: Config, s: State, tod: nat, payload: seq<Byte>, k: nat, p: Published)
    requires cfg.Valid() && cfg.deltat != 0 && cfg.chunkMax == 1 && InSecond(cfg, s, tod, k)
    requires p in s.drives[0].published && p.path == s.subpath + s.fname + Suffix(1000)
    ensures !SoundStep(cfg, s, Tick(tod, payload, k + 1), 0)
  {
    hide Stem, HourDir, SameHour, Suffix;
    var e := Tick(tod, payload, k + 1);
    var s1 := UpdateDrives(cfg, s, true, true);
    assert s1 == Commanded(s, true, true) && !s1.driveUpdated;
    assert Rotates(cfg, s1, e.r);
    assert ChunkPath(Measured(cfg, s1, e.r)) == p.path;
  }

  lemma SecondPublished(cfg: Config, tod: nat, payload: seq<Byte>)
    requires cfg.Valid() && cfg.deltat != 0 && cfg.chunkMax == 1
    ensures var s2 := Run(cfg, Init(cfg, true, true), Ticks(tod, payload, 2));
      InSecond(cfg, s2, tod, 1)
      && exists p :: p in s2.drives[0].published && p.path == s2.subpath + s2.fname + Suffix(1000)
  {
    hide InSecond, Step, N.PublishedBy, Suffix;
    var s0 := Init(cfg, true, true);
    var s1 := Step(cfg, s0, Tick(tod, payload, 0));
    assert Run(cfg, s0, Ticks(tod, payload, 0)) == s0;
    RunTicks(cfg, s0, tod, payload, 0);
    RunTicks(cfg, s0, tod, payload, 1);
    hide Run;
    FirstTick(cfg, tod, payload);
    TickStep(cfg, s1, tod, payload, 0);
    N.PublishesIt(cfg, s1, Tick(tod, payload, 1), 0);
    SameStem(cfg, s1, Step(cfg, s1, Tick(tod, payload, 1)), tod);
  }

  lemma SameStem(cfg: Config, a: State, b: State, tod: nat)
    requires InSecond(cfg, a, tod, 0) && InSecond(cfg, b, tod, 1)
    ensures a.fname == b.fname
  {}

  /** Where two chunks do meet: with chunks of one record, three records of one second, a
      millisecond apart, replace the first published chunk by the second one, and whatever follows,
      idle rounds, records or the stop, does not bring it back. */
  lemma SameSecondReplaces(cfg: Config, tod: nat, payload: seq<Byte>, later: seq<Event>)
    requires cfg.Valid() && cfg.deltat != 0 && cfg.chunkMax == 1
    ensures var s0 := Init(cfg, true, true);
      var s2, s3 := Run(cfg, s0, Ticks(tod, payload, 2)), Run(cfg, s0, Ticks(tod, payload, 3));
      && (exists p :: p in s2.drives[0].published && p !in Finalize(cfg, Run(cfg, s3, later)).drives[0].published)
      && !SoundRun(cfg, s0, Ticks(tod, payload, 3), 0)
  {
    var s0 := Init(cfg, true, true);
    var es := Ticks(tod, payload, 3);
    assert es[..|es| - 1] == Ticks(tod, payload, 2);
    var s2 := Run(cfg, s0, Ticks(tod, payload, 2));
    RunTicks(cfg, s0, tod, payload, 2);
    hide InSecond, Step, N.PublishedBy, Suffix, SoundStep, Run, N.Named, N.NotStaged, Ticks, Finalize;
    SecondPublished(cfg, tod, payload);
    TickStep(cfg, s2, tod, payload, 1);
    var p :| p in s2.drives[0].published && p.path == s2.subpath + s2.fname + Suffix(1000);
    TickUnsound(cfg, s2, tod, payload, 1, p);
    N.ReachableNamed(cfg, true, true, Ticks(tod, payload, 2), 0);
    PublishedNotStaged(s2.drives[0], p);
    N.SurvivesStep(cfg, s2, Tick(tod, payload, 2), 0, p);
    N.NeverReturns(cfg, Step(cfg, s2, Tick(tod, payload, 2)), later, 0, p);
  }

  lemma PublishedNotStaged(d: Drive, p: Published)
    requires N.Named(d) && p in d.published
    ensures N.NotStaged(d, p.file)
  {}

  // ---------- a drive switched on within the hour

  /** The records of a run that ask for the second drive. */
  function AskingItems(es: seq<Event>): seq<Item> {
    if es == [] then []
    else AskingItems(es[..|es| - 1])
         + if es[|es| - 1].Write? && es[|es| - 1].ssd then [ItemOf(es[|es| - 1].r)] else []
  }

  /** Once a mode was commanded, the second drive follows it. */
  lemma FollowsMode(cfg: Config, s: State, e: Event)
    requires Ok(cfg, s) && e.Write?
    requires s.preSsd == Some(s.drives[1].used) || (s.preChm.None? && s.preSsd.None? && s.drives[1].used == e.ssd)
    ensures UpdateDrives(cfg, s, e.chm, e.ssd).drives[1].used == e.ssd && Step(cfg, s, e).preSsd == Some(e.ssd)
  {
    N.UpdateFollows(cfg, s, e.chm, e.ssd, 1);
    D.FinalizeKeepsDirs(cfg, s, s.drives[1]);
    var s1 := UpdateDrives(cfg, s, e.chm, e.ssd);
    hide FinalizeDrive, Placed, WriteAll, AppendIndex, Reposition;
    assert s1.preSsd == Some(e.ssd);
    PlacedKeepsPre(cfg, s1, e.r);
    WriteKeepsPre(cfg, Placed(cfg, s1, e.r), e.r, e.deadTell);
  }

  lemma WriteKeepsPre(cfg: Config, s: State, r: Record, dead: nat)
    requires Ok(cfg, s)
    ensures Reposition(cfg, WriteAll(cfg, AppendIndex(cfg, s, r), r), dead).preSsd == s.preSsd
  {
    hide WriteDrive, Tell;
  }

  lemma IdleKeepsPre(cfg: Config, s: State, e: Event)
    requires Ok(cfg, s) && !e.Write?
    ensures Step(cfg, s, e).preSsd == s.preSsd
  {
    hide FinalizeDrive;
  }

  lemma {:induction false} LateHistory(cfg: Config, es: seq<Event>)
    requires D.OneHour(cfg, es)
    ensures var s0 := Init(cfg, true, false); var s := Run(cfg, s0, es);
      RecordedRun(cfg, s0, es, 1) == AskingItems(es) && s.preSsd == Some(s.drives[1].used)
  {
    hide Step, UpdateDrives;
    var s0, init, e := Init(cfg, true, false), es[..|es| - 1], es[|es| - 1];
    var s := Run(cfg, s0, init);
    if |es| > 1 {
      assert forall x <- init :: x in es;
      LateHistory(cfg, init);
    } else {
      assert RecordedRun(cfg, s0, init, 1) == AskingItems(init) == [];
    }
    D.StepDirs(cfg, s, e, 1);
    if e.Write? { FollowsMode(cfg, s, e); } else { IdleKeepsPre(cfg, s, e); }
  }

  /** What that costs: all records of the hour that asked for the second drive were handled while it
      was in use, and no query on it ever returns any of them. */
  lemma LateDriveLoses(cfg: Config, es: seq<Event>, q: Query)
    requires cfg.deltat != 0 && D.OneHour(cfg, es)
    ensures var s0 := Init(cfg, true, false);
      var d := Finalize(cfg, Run(cfg, s0, es)).drives[1];
      RecordedRun(cfg, s0, es, 1) == AskingItems(es) && ReadBack(cfg, d, d.published, q) == []
  {
    LateHistory(cfg, es);
    D.SwitchedOnLate(cfg, es);
  }

  /** For instance, four records of one hour, the drive being commanded on for the last two. */
  lemma InsertedDriveLoses(cfg: Config, a: Record, b: Record, c: Record, d: Record, q: Query)
    requires cfg.deltat != 0 && D.OneHour(cfg, Inserted(a, b, c, d))
    ensures var s0, es := Init(cfg, true, false), Inserted(a, b, c, d);
      var ssd := Finalize(cfg, Run(cfg, s0, es)).drives[1];
      RecordedRun(cfg, s0, es, 1) == [ItemOf(c), ItemOf(d)] && ReadBack(cfg, ssd, ssd.published, q) == []
  {
    hide D.OneHour, Run, Finalize, ReadBack, RecordedRun, Init, Inserted, AskingItems;
    LateDriveLoses(cfg, Inserted(a, b, c, d), q);
    InsertedAsks(a, b, c, d);
  }

  lemma InsertedAsks(a: Record, b: Record, c: Record, d: Record)
    ensures AskingItems(Inserted(a, b, c, d)) == [ItemOf(c), ItemOf(d)]
  {
    var es := Inserted(a, b, c, d);
    assert es[..3][..2] == es[..2] && es[..2][..1] == es[..1] && es[..1][..0] == [];
    assert es[..2] == [es[0], es[1]] && es[..1] == [es[0]];
    assert AskingItems(es[..1]) == [];
    assert AskingItems(es[..2]) == [];
    assert AskingItems(es[..3]) == [ItemOf(c)];
  }

  function Inserted(a: Record, b: Record, c: Record, d: Record): seq<Event> {
    [Write(a, true, false, 0), Write(b, true, false, 0), Write(c, true, true, 0), Write(d, true, true, 0)]
  }
}
