/** What becomes of published names. Publication is a rename, so it replaces a file that has the
    same path: an entry survives exactly as long as nothing else is published under its path. */
module RecorderNames {
  import opened ChunkNames
  import opened Options
  import opened RecorderState
  import RecorderSafety

  ghost predicate DistinctPaths(ps: seq<Published>) {
    forall j, k :: 0 <= j < k < |ps| ==> ps[j].path != ps[k].path
  }

  /** A file is staged under one name or published, never both, and no two files share a path. */
  ghost predicate Named(d: Drive) {
    && (forall n <- d.staging :: d.staging[n] < |d.files|)
    && (forall m, n :: m in d.staging && n in d.staging && d.staging[m] == d.staging[n] ==> m == n)
    && (forall p <- d.published :: p.file < |d.files|)
    && (forall p, n :: p in d.published && n in d.staging ==> p.file != d.staging[n])
    && DistinctPaths(d.published)
  }

  lemma {:induction false} ReplacedDistinct(ps: seq<Published>, path: string)
    requires DistinctPaths(ps)
    ensures DistinctPaths(Replaced(ps, path))
  {
    if ps != [] {
      ReplacedDistinct(ps[..|ps| - 1], path);
      var last := ps[|ps| - 1];
      forall p <- Replaced(ps[..|ps| - 1], path) ensures p.path != last.path {
        assert p in ps[..|ps| - 1];
      }
    }
  }

  lemma PublishNamed(d: Drive, num: nat, idx: seq<IndexEntry>, fname: string, dir: string, path: string)
    requires DriveOk(d) && d.fp.Some? && num <= |idx| && Named(d)
    ensures Named(CloseAndPublish(d, num, idx, fname, dir, path))
  {
    var d' := CloseAndPublish(d, num, idx, fname, dir, path);
    ReplacedDistinct(d.published, path);
    if fname in d.staging && dir in d.dirs {
      var p := Published(path, d.staging[fname]);
      assert forall q <- d'.published :: q in d.published || q == p;
    }
  }

  /** Names depend on nothing but these three. */
  lemma NamedFrame(d: Drive, d': Drive)
    requires Named(d) && d'.staging == d.staging && d'.published == d.published && |d'.files| == |d.files|
    ensures Named(d')
  {}

  lemma OpenNamed(d: Drive, fname: string)
    requires DriveOk(d) && Named(d)
    ensures Named(OpenNew(d, fname))
  {}

  lemma FinalizeNamed(cfg: Config, s: State, d: Drive)
    requires Ok(cfg, s) && DriveOk(d) && Named(d)
    ensures Named(FinalizeDrive(cfg, s, d))
  {
    hide CloseAndPublish;
    if d.used && d.fp.Some? && s.duration > 0 {
      PublishNamed(d, s.num, s.idx, s.fname, s.subpath, ChunkPath(s));
      var d' := CloseAndPublish(d, s.num, s.idx, s.fname, s.subpath, ChunkPath(s));
      NamedFrame(d', d'.(fp := None));
    }
  }

  /** The drive after its chunk was replaced by one that starts at a time. */
  function Reopened(cfg: Config, s: State, d: Drive, tm: Civil): (d': Drive)
    requires Ok(cfg, s) && DriveOk(d)
    ensures DriveOk(d')
  {
    WithHourDir(OpenNew(CloseOld(cfg, s, d), Stem(tm)), s.prevTm, tm)
  }

  lemma ReopenNamed(cfg: Config, s: State, d: Drive, tm: Civil)
    requires Ok(cfg, s) && DriveOk(d) && Named(d)
    ensures Named(Reopened(cfg, s, d, tm))
  {
    hide CloseAndPublish, OpenNew, WithHourDir;
    if d.used && d.fp.Some? { PublishNamed(d, s.num, s.idx, s.fname, s.subpath, ChunkPath(s)); }
    OpenNamed(CloseOld(cfg, s, d), Stem(tm));
    NamedFrame(OpenNew(CloseOld(cfg, s, d), Stem(tm)), Reopened(cfg, s, d, tm));
  }

  // ---------- one drive through one step

  /** The drive once the mode has been followed. */
  function Followed(cfg: Config, s: State, chm: bool, ssd: bool, i: nat): (d: Drive)
    requires Ok(cfg, s) && i < 2
    ensures DriveOk(d)
  {
    if Commanded(s, chm, ssd).driveUpdated
    then FinalizeDrive(cfg, s, s.drives[i]).(used := if i == 0 then chm else ssd)
    else s.drives[i]
  }

  lemma UpdateFollows(cfg: Config, s: State, chm: bool, ssd: bool, i: nat)
    requires Ok(cfg, s) && i < 2
    ensures UpdateDrives(cfg, s, chm, ssd).drives[i] == Followed(cfg, s, chm, ssd, i)
  {
    var s1 := Commanded(s, chm, ssd);
    assert FinalizeDrive(cfg, s1, s.drives[i]) == FinalizeDrive(cfg, s, s.drives[i]);
  }

  function MeasuredFor(s: State, r: Record): (s': State)
    ensures s'.drives == s.drives && s'.num == s.num && s'.idx == s.idx && s'.fname == s.fname
      && s'.subpath == s.subpath && s'.prevTm == s.prevTm
  {
    s.(duration := Usecs(r.ts, s.t0), timeChange := false)
  }

  /** The drive after everything in a step that touches names: following the mode and replacing
      the chunk, or timing out. */
  function Renamed(cfg: Config, s: State, e: Event, i: nat): (d: Drive)
    requires Ok(cfg, s) && i < 2
    ensures DriveOk(d)
  {
    match e
    case Write(r, chm, ssd, _) =>
      var s1 := UpdateDrives(cfg, s, chm, ssd);
      var d := Followed(cfg, s, chm, ssd, i);
      if Rotates(cfg, s1, r) then Reopened(cfg, MeasuredFor(s1, r), d, cfg.gmtime(r.tod)) else d
    case Idle(now) =>
      if TimesOut(cfg, s, now) then FinalizeDrive(cfg, s.(duration := Usecs(now, s.t0)), s.drives[i]) else s.drives[i]
    case TimeChange => s.drives[i]
  }

  predicate TimesOut(cfg: Config, s: State, now: nat)
    requires |s.drives| == 2
  {
    (s.drives[0].out.Some? || s.drives[1].out.Some?) && IdleDue(cfg, s, now)
  }

  /** What writing payload bytes leaves as it was. */
  ghost predicate SameNames(d: Drive, d': Drive) {
    && d'.staging == d.staging && d'.published == d.published && d'.dirs == d.dirs
    && d'.used == d.used && d'.fp == d.fp && |d'.files| == |d.files|
    && forall h :: 0 <= h < |d.files| ==> d'.files[h].index == d.files[h].index
  }

  lemma WriteKeepsNames(cfg: Config, s: State, r: Record, dead: nat, i: nat)
    requires Ok(cfg, s) && i < 2
    ensures SameNames(s.drives[i], Reposition(cfg, WriteAll(cfg, AppendIndex(cfg, s, r), r), dead).drives[i])
  {
    var s2 := WriteAll(cfg, AppendIndex(cfg, s, r), r);
    WriteDriveNames(s.drives[i], r);
    hide WriteDrive, Tell;
    assert AppendIndex(cfg, s, r).drives == s.drives;
    assert Reposition(cfg, s2, dead).drives == s2.drives;
  }

  lemma WriteDriveNames(d: Drive, r: Record)
    requires DriveOk(d)
    ensures SameNames(d, WriteDrive(d, r))
  {}

  lemma PlacedDrive(cfg: Config, s: State, r: Record, i: nat)
    requires Ok(cfg, s) && i < 2
    ensures Placed(cfg, s, r).drives[i]
      == if Rotates(cfg, s, r) then Reopened(cfg, MeasuredFor(s, r), s.drives[i], cfg.gmtime(r.tod)) else s.drives[i]
  {
    RecorderSafety.PlacedDrives(cfg, s, r);
  }

  lemma StepNames(cfg: Config, s: State, e: Event, i: nat)
    requires Ok(cfg, s) && i < 2
    ensures SameNames(Renamed(cfg, s, e, i), Step(cfg, s, e).drives[i])
  {
    hide FinalizeDrive, Reopened, Placed, WriteAll, AppendIndex, Reposition, UpdateDrives, Followed;
    match e
    case Write(r, chm, ssd, dead) =>
      var s1 := UpdateDrives(cfg, s, chm, ssd);
      UpdateFollows(cfg, s, chm, ssd, i);
      PlacedDrive(cfg, s1, r, i);
      WriteKeepsNames(cfg, Placed(cfg, s1, r), r, dead, i);
    case Idle(now) =>
    case TimeChange =>
  }

  lemma RenamedNamed(cfg: Config, s: State, e: Event, i: nat)
    requires Ok(cfg, s) && i < 2 && Named(s.drives[i])
    ensures Named(Renamed(cfg, s, e, i))
  {
    hide Named, FinalizeDrive, Reopened, UpdateDrives, Rotates;
    match e
    case Write(r, chm, ssd, dead) =>
      var s1 := UpdateDrives(cfg, s, chm, ssd);
      UpdateFollows(cfg, s, chm, ssd, i);
      FinalizeNamed(cfg, s, s.drives[i]);
      FollowedNamed(cfg, s, chm, ssd, i);
      ReopenNamed(cfg, MeasuredFor(s1, r), Followed(cfg, s, chm, ssd, i), cfg.gmtime(r.tod));
    case Idle(now) =>
      FinalizeNamed(cfg, s.(duration := Usecs(now, s.t0)), s.drives[i]);
    case TimeChange =>
  }

  lemma FollowedNamed(cfg: Config, s: State, chm: bool, ssd: bool, i: nat)
    requires Ok(cfg, s) && i < 2 && Named(s.drives[i])
    ensures Named(Followed(cfg, s, chm, ssd, i))
  {
    hide FinalizeDrive;
    FinalizeNamed(cfg, s, s.drives[i]);
  }

  lemma StepNamed(cfg: Config, s: State, e: Event, i: nat)
    requires Ok(cfg, s) && i < 2 && Named(s.drives[i])
    ensures Named(Step(cfg, s, e).drives[i])
  {
    hide Renamed, Step;
    RenamedNamed(cfg, s, e, i);
    StepNames(cfg, s, e, i);
    NamedFrame(Renamed(cfg, s, e, i), Step(cfg, s, e).drives[i]);
  }

  /** In every reachable state the names of a drive are in order; in particular no two published
      files have the same path. */
  lemma {:induction false} ReachableNamed(cfg: Config, chm: bool, ssd: bool, es: seq<Event>, i: nat)
    requires i < 2
    ensures Named(Run(cfg, Init(cfg, chm, ssd), es).drives[i])
  {
    if es != [] {
      ReachableNamed(cfg, chm, ssd, es[..|es| - 1], i);
      StepNamed(cfg, Run(cfg, Init(cfg, chm, ssd), es[..|es| - 1]), es[|es| - 1], i);
    }
  }

  // ---------- which path a step publishes under

  /** A rename takes place when the stream is closed, its staging name still exists and so does the
      directory it goes to. */
  predicate Renames(d: Drive, s: State) {
    d.used && d.fp.Some? && s.fname in d.staging && s.subpath in d.dirs
  }

  /** The path a step publishes a file under, on one drive. */
  function PublishedBy(cfg: Config, s: State, e: Event, i: nat): Option<string>
    requires Ok(cfg, s) && i < 2
  {
    match e
    case Write(r, chm, ssd, _) =>
      var s1 := UpdateDrives(cfg, s, chm, ssd);
      if FollowRenames(cfg, s, chm, ssd, i) then Some(ChunkPath(s))
      else if Rotates(cfg, s1, r) && Renames(Followed(cfg, s, chm, ssd, i), s)
        then Some(ChunkPath(MeasuredFor(s1, r)))
      else None
    case Idle(now) =>
      var s1 := s.(duration := Usecs(now, s.t0));
      if TimesOut(cfg, s, now) && s1.duration > 0 && Renames(s.drives[i], s) then Some(ChunkPath(s1)) else None
    case TimeChange => None
  }

  /** What a rename does to one published entry, and to a file nobody stages. */
  ghost predicate Outcome(d: Drive, d': Drive, path: Option<string>, p: Published) {
    && |d.files| <= |d'.files|
    && (NotStaged(d, p.file) ==>
          NotStaged(d', p.file)
          && (p in d'.published <==> p in d.published && path != Some(p.path)))
  }

  ghost predicate NotStaged(d: Drive, h: nat) {
    h < |d.files| && forall n <- d.staging :: d.staging[n] != h
  }

  lemma PublishOutcome(d: Drive, num: nat, idx: seq<IndexEntry>, fname: string, dir: string, path: string, p: Published)
    requires DriveOk(d) && d.fp.Some? && num <= |idx|
    ensures Outcome(d, CloseAndPublish(d, num, idx, fname, dir, path),
                    if fname in d.staging && dir in d.dirs then Some(path) else None, p)
  {}

  lemma FinalizeOutcome(cfg: Config, s: State, d: Drive, p: Published)
    requires Ok(cfg, s) && DriveOk(d)
    ensures Outcome(d, FinalizeDrive(cfg, s, d),
                    if s.duration > 0 && Renames(d, s) then Some(ChunkPath(s)) else None, p)
  {
    hide CloseAndPublish;
    if d.used && d.fp.Some? && s.duration > 0 { PublishOutcome(d, s.num, s.idx, s.fname, s.subpath, ChunkPath(s), p); }
  }

  lemma ReopenOutcome(cfg: Config, s: State, d: Drive, tm: Civil, p: Published)
    requires Ok(cfg, s) && DriveOk(d)
    ensures Outcome(d, Reopened(cfg, s, d, tm), if Renames(d, s) then Some(ChunkPath(s)) else None, p)
  {
    if d.used && d.fp.Some? {
      PublishOutcome(d, s.num, s.idx, s.fname, s.subpath, ChunkPath(s), p);
    }
    hide CloseAndPublish;
    assert Outcome(CloseOld(cfg, s, d), OpenNew(CloseOld(cfg, s, d), Stem(tm)), None, p);
  }

  /** Following a new mode renames the chunk of the drive. */
  predicate FollowRenames(cfg: Config, s: State, chm: bool, ssd: bool, i: nat)
    requires Ok(cfg, s) && i < 2
  {
    Commanded(s, chm, ssd).driveUpdated && s.duration > 0 && Renames(s.drives[i], s)
  }

  lemma FollowedOutcome(cfg: Config, s: State, chm: bool, ssd: bool, i: nat, p: Published)
    requires Ok(cfg, s) && i < 2
    ensures Outcome(s.drives[i], Followed(cfg, s, chm, ssd, i),
                    if FollowRenames(cfg, s, chm, ssd, i) then Some(ChunkPath(s)) else None, p)
  {
    hide FinalizeDrive;
    FinalizeOutcome(cfg, s, s.drives[i], p);
  }

  /** A chunk renamed when the mode was followed is not renamed again in the same step. */
  lemma FollowedOnce(cfg: Config, s: State, chm: bool, ssd: bool, i: nat)
    requires Ok(cfg, s) && i < 2 && FollowRenames(cfg, s, chm, ssd, i)
    ensures !Renames(Followed(cfg, s, chm, ssd, i), s)
  {
    hide CloseAndPublish;
  }

  lemma OutcomeSame(d: Drive, p: Published)
    ensures Outcome(d, d, None, p)
  {}

  lemma OutcomeChain(a: Drive, b: Drive, c: Drive, x: Option<string>, y: Option<string>, p: Published)
    requires Outcome(a, b, x, p) && Outcome(b, c, y, p) && (x.None? || y.None?)
    ensures Outcome(a, c, if x.Some? then x else y, p)
  {}

  lemma RenamedOutcome(cfg: Config, s: State, e: Event, i: nat, p: Published)
    requires Ok(cfg, s) && i < 2
    ensures Outcome(s.drives[i], Renamed(cfg, s, e, i), PublishedBy(cfg, s, e, i), p)
  {
    hide FinalizeDrive, Reopened, UpdateDrives, Rotates, ChunkPath, Followed, Outcome, DriveOk;
    OutcomeSame(s.drives[i], p);
    match e
    case Write(r, chm, ssd, dead) =>
      var s1 := UpdateDrives(cfg, s, chm, ssd);
      var d1 := Followed(cfg, s, chm, ssd, i);
      var s2, tm := MeasuredFor(s1, r), cfg.gmtime(r.tod);
      UpdateKeepsName(cfg, s, chm, ssd);
      FollowedOutcome(cfg, s, chm, ssd, i, p);
      ReopenOutcome(cfg, s2, d1, tm, p);
      if FollowRenames(cfg, s, chm, ssd, i) { FollowedOnce(cfg, s, chm, ssd, i); }
      if Rotates(cfg, s1, r) {
        OutcomeChain(s.drives[i], d1, Reopened(cfg, s2, d1, tm),
                     if FollowRenames(cfg, s, chm, ssd, i) then Some(ChunkPath(s)) else None,
                     if Renames(d1, s) then Some(ChunkPath(s2)) else None, p);
      }
    case Idle(now) =>
      FinalizeOutcome(cfg, s.(duration := Usecs(now, s.t0)), s.drives[i], p);
    case TimeChange =>
  }

  lemma UpdateKeepsName(cfg: Config, s: State, chm: bool, ssd: bool)
    requires Ok(cfg, s)
    ensures var s1 := UpdateDrives(cfg, s, chm, ssd); s1.fname == s.fname && s1.subpath == s.subpath && s1.t0 == s.t0
  {}

  /** Survival, in any state whose names are in order: a published entry survives a step if and
      only if the step does not publish under its path. */
  lemma SurvivesStep(cfg: Config, s: State, e: Event, i: nat, p: Published)
    requires Ok(cfg, s) && i < 2 && NotStaged(s.drives[i], p.file)
    ensures NotStaged(Step(cfg, s, e).drives[i], p.file)
    ensures p in Step(cfg, s, e).drives[i].published
      <==> p in s.drives[i].published && PublishedBy(cfg, s, e, i) != Some(p.path)
  {
    hide Renamed, Step, PublishedBy;
    RenamedOutcome(cfg, s, e, i, p);
    StepNames(cfg, s, e, i);
  }

  lemma FinalizeAdds(cfg: Config, s: State, d: Drive)
    requires Ok(cfg, s) && DriveOk(d) && s.duration > 0 && Renames(d, s)
    ensures Published(ChunkPath(s), d.staging[s.fname]) in FinalizeDrive(cfg, s, d).published
  {
    hide ChunkPath, FinalizeHeader;
  }

  lemma ReopenAdds(cfg: Config, s: State, d: Drive, tm: Civil)
    requires Ok(cfg, s) && DriveOk(d)
    ensures var d' := Reopened(cfg, s, d, tm);
      if Renames(d, s) then Published(ChunkPath(s), d.staging[s.fname]) in d'.published
      else d'.published == d.published
  {
    hide ChunkPath, FinalizeHeader;
  }

  /** The entry a step adds, if it publishes on a drive. */
  function Entry(cfg: Config, s: State, e: Event, i: nat): Published
    requires Ok(cfg, s) && i < 2 && PublishedBy(cfg, s, e, i).Some?
  {
    Published(PublishedBy(cfg, s, e, i).value,
              if s.fname in s.drives[i].staging then s.drives[i].staging[s.fname] else 0)
  }

  /** A step that publishes under a path leaves a file there. */
  lemma PublishesIt(cfg: Config, s: State, e: Event, i: nat)
    requires Ok(cfg, s) && i < 2 && PublishedBy(cfg, s, e, i).Some?
    ensures Entry(cfg, s, e, i) in Step(cfg, s, e).drives[i].published
  {
    hide Step, Reopened, Rotates, ChunkPath, UpdateDrives;
    StepNames(cfg, s, e, i);
    match e
    case Write(r, chm, ssd, _) =>
      UpdateKeepsName(cfg, s, chm, ssd);
      var d := Followed(cfg, s, chm, ssd, i);
      ReopenAdds(cfg, MeasuredFor(UpdateDrives(cfg, s, chm, ssd), r), d, cfg.gmtime(r.tod));
      if FollowRenames(cfg, s, chm, ssd, i) {
        FinalizeAdds(cfg, s, s.drives[i]);
        FollowedOnce(cfg, s, chm, ssd, i);
      } else {
        FollowedStaging(cfg, s, chm, ssd, i);
      }
    case Idle(now) => FinalizeAdds(cfg, s.(duration := Usecs(now, s.t0)), s.drives[i]);
  }

  lemma FollowedStaging(cfg: Config, s: State, chm: bool, ssd: bool, i: nat)
    requires Ok(cfg, s) && i < 2
    ensures var d := Followed(cfg, s, chm, ssd, i);
      s.fname in d.staging ==> s.fname in s.drives[i].staging && d.staging[s.fname] == s.drives[i].staging[s.fname]
  {
    hide FinalizeHeader, ChunkPath;
  }

  /** No step of a run publishes under a path. */
  predicate NeverPublished(cfg: Config, s: State, es: seq<Event>, i: nat, path: string)
    requires Ok(cfg, s) && i < 2
  {
    es == [] ||
    (NeverPublished(cfg, s, es[..|es| - 1], i, path)
     && PublishedBy(cfg, Run(cfg, s, es[..|es| - 1]), es[|es| - 1], i) != Some(path))
  }

  /** A file that is neither staged nor published never gets back under a name. */
  lemma {:induction false} NeverReturns(cfg: Config, s: State, es: seq<Event>, i: nat, p: Published)
    requires Ok(cfg, s) && i < 2 && NotStaged(s.drives[i], p.file) && p !in s.drives[i].published
    ensures NotStaged(Run(cfg, s, es).drives[i], p.file) && p !in Finalize(cfg, Run(cfg, s, es)).drives[i].published
    ensures p !in Run(cfg, s, es).drives[i].published
  {
    hide PublishedBy, NotStaged, FinalizeDrive, Step;
    if es != [] {
      NeverReturns(cfg, s, es[..|es| - 1], i, p);
      SurvivesStep(cfg, Run(cfg, s, es[..|es| - 1]), es[|es| - 1], i, p);
    }
    FinalizeOutcome(cfg, Run(cfg, s, es), Run(cfg, s, es).drives[i], p);
  }

  /** Survival over whole runs, from any reachable state: what is published stays published if and
      only if nothing is published under its path later; it never comes back. */
  lemma {:induction false} SurvivesRun(cfg: Config, s: State, es: seq<Event>, i: nat, p: Published)
    requires Ok(cfg, s) && i < 2 && Named(s.drives[i]) && p in s.drives[i].published
    ensures p in Run(cfg, s, es).drives[i].published <==> NeverPublished(cfg, s, es, i, p.path)
    ensures NotStaged(Run(cfg, s, es).drives[i], p.file)
  {
    hide PublishedBy;
    if es != [] {
      SurvivesRun(cfg, s, es[..|es| - 1], i, p);
      SurvivesStep(cfg, Run(cfg, s, es[..|es| - 1]), es[|es| - 1], i, p);
    }
  }
}
