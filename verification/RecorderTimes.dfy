/** When chunk files are opened and when a chunk times out, told by the records and the clock: which
    record opens a chunk, and how long after it an idle round closes it. */
module RecorderTimes {
  import opened ChunkNames
  import opened Options
  import opened RecorderState
  import RecorderSafety
  import N = RecorderNames
  import D = RecorderDirs

  // ---------- which steps open a file

  lemma FinalizeKeepsCount(cfg: Config, s: State, d: Drive)
    requires Ok(cfg, s) && DriveOk(d)
    ensures |FinalizeDrive(cfg, s, d).files| == |d.files|
  {
    hide FinalizeHeader, Replaced, ChunkPath;
  }

  lemma ReopenCount(cfg: Config, s: State, d: Drive, tm: Civil)
    requires Ok(cfg, s) && DriveOk(d)
    ensures |N.Reopened(cfg, s, d, tm).files| == |d.files| + if d.used then 1 else 0
  {
    hide FinalizeHeader, Replaced, ChunkPath, HourDir, SameHour, Stem;
  }

  /** Files of a drive after a step. */
  lemma StepCount(cfg: Config, s: State, e: Event, i: nat)
    requires Ok(cfg, s) && i < 2
    ensures |Step(cfg, s, e).drives[i].files| == |s.drives[i].files|
      + if e.Write? && Rotates(cfg, UpdateDrives(cfg, s, e.chm, e.ssd), e.r) && D.UsedIn(cfg, s, e, i) then 1 else 0
  {
    hide Step, N.Reopened, FinalizeDrive, UpdateDrives, Rotates;
    N.StepNames(cfg, s, e, i);
    match e
    case Write(r, chm, ssd, _) =>
      var s1 := UpdateDrives(cfg, s, chm, ssd);
      N.UpdateFollows(cfg, s, chm, ssd, i);
      FinalizeKeepsCount(cfg, s, s.drives[i]);
      ReopenCount(cfg, N.MeasuredFor(s1, r), N.Followed(cfg, s, chm, ssd, i), cfg.gmtime(r.tod));
    case Idle(now) => FinalizeKeepsCount(cfg, s.(duration := Usecs(now, s.t0)), s.drives[i]);
    case TimeChange =>
  }

  /** The commanded mode differs from the one remembered. */
  ghost predicate ModeChanges(s: State, chm: bool, ssd: bool) {
    s.preChm == Some(!chm) || s.preSsd == Some(!ssd)
  }

  lemma UpdateSays(cfg: Config, s: State, chm: bool, ssd: bool)
    requires Ok(cfg, s)
    ensures var s1 := UpdateDrives(cfg, s, chm, ssd);
      && s1.driveUpdated == ModeChanges(s, chm, ssd) && s1.sessionStarted == s.sessionStarted
      && s1.prevTm == s.prevTm && s1.timeChange == s.timeChange
      && s1.num == (if ModeChanges(s, chm, ssd) then 0 else s.num)
      && s1.drives[0].used == (if ModeChanges(s, chm, ssd) then chm else s.drives[0].used)
      && s1.drives[1].used == (if ModeChanges(s, chm, ssd) then ssd else s.drives[1].used)
  {
    D.FinalizeKeepsDirs(cfg, s, s.drives[0]);
    D.FinalizeKeepsDirs(cfg, s, s.drives[1]);
    N.UpdateFollows(cfg, s, chm, ssd, 0);
    N.UpdateFollows(cfg, s, chm, ssd, 1);
    hide FinalizeDrive;
  }

  /** A step opens a file on a drive if and only if it is a record, the drive is in use once the mode
      has been followed, and a new session begins, the mode or the hour has changed, the index or
      the chunk is full, or a time change is pending. */
  lemma OpensExactly(cfg: Config, s: State, e: Event, i: nat)
    requires Ok(cfg, s) && i < 2 && cfg.deltat != 0
    ensures |Step(cfg, s, e).drives[i].files| == |s.drives[i].files| + 1 <==>
      && e.Write?
      && (if ModeChanges(s, e.chm, e.ssd) then if i == 0 then e.chm else e.ssd else s.drives[i].used)
      && (var tm := cfg.gmtime(e.r.tod);
          || s.sessionStarted || s.timeChange || ModeChanges(s, e.chm, e.ssd)
          || s.num >= cfg.maxRecords || s.num >= cfg.chunkMax
          || s.prevTm.year != tm.year || s.prevTm.mon != tm.mon || s.prevTm.mday != tm.mday || s.prevTm.hour != tm.hour)
  {
    StepCount(cfg, s, e, i);
    if e.Write? { UpdateSays(cfg, s, e.chm, e.ssd); }
    hide Step, UpdateDrives;
  }

  // ---------- the record that opened the chunk

  /** A step opens a file on some drive. */
  ghost predicate Opens(cfg: Config, s: State, e: Event)
    requires Ok(cfg, s)
  {
    |Step(cfg, s, e).drives[0].files| > |s.drives[0].files| || |Step(cfg, s, e).drives[1].files| > |s.drives[1].files|
  }

  /** The monotonic time of the last record that opened a file. */
  ghost function OpenedAt(cfg: Config, s: State, es: seq<Event>): nat
    requires Ok(cfg, s)
  {
    if es == [] then s.t0
    else
      var before, e := Run(cfg, s, es[..|es| - 1]), es[|es| - 1];
      if e.Write? && Opens(cfg, before, e) then e.r.ts else OpenedAt(cfg, s, es[..|es| - 1])
  }

  lemma PlacedClock(cfg: Config, s: State, r: Record)
    requires Ok(cfg, s)
    ensures Placed(cfg, s, r).t0 == if Rotates(cfg, s, r) && AnyUsed(s) then r.ts else s.t0
  {
    hide Stem, HourDir, CloseOld, OpenNew, WithHourDir;
  }

  lemma WriteKeepsClock(cfg: Config, s: State, r: Record, dead: nat)
    requires Ok(cfg, s)
    ensures Reposition(cfg, WriteAll(cfg, AppendIndex(cfg, s, r), r), dead).t0 == s.t0
  {
    hide WriteDrive, Tell;
  }

  lemma StepClock(cfg: Config, s: State, e: Event)
    requires Ok(cfg, s)
    ensures Step(cfg, s, e).t0 == if e.Write? && Opens(cfg, s, e) then e.r.ts else s.t0
  {
    StepCount(cfg, s, e, 0);
    StepCount(cfg, s, e, 1);
    match e
    case Write(r, chm, ssd, dead) =>
      var s1 := UpdateDrives(cfg, s, chm, ssd);
      N.UpdateKeepsName(cfg, s, chm, ssd);
      PlacedClock(cfg, s1, r);
      WriteKeepsClock(cfg, Placed(cfg, s1, r), r, dead);
      hide UpdateDrives, Placed, WriteAll, AppendIndex, Reposition, Rotates;
    case Idle(now) => hide FinalizeDrive;
    case TimeChange =>
  }

  /** The clock the recorder measures from is that of the record that opened the current chunk. */
  lemma {:induction false} ClockIsOpener(cfg: Config, s: State, es: seq<Event>)
    requires Ok(cfg, s)
    ensures Run(cfg, s, es).t0 == OpenedAt(cfg, s, es)
  {
    hide Step, Opens;
    if es != [] {
      ClockIsOpener(cfg, s, es[..|es| - 1]);
      StepClock(cfg, Run(cfg, s, es[..|es| - 1]), es[|es| - 1]);
    }
  }

  // ---------- idle rounds

  /** Before the chunk size in seconds has passed since the record that opened the chunk, an idle
      round leaves both drives and the session alone; in every run. */
  lemma IdleWaits(cfg: Config, chm: bool, ssd: bool, es: seq<Event>, now: nat)
    requires now < OpenedAt(cfg, Init(cfg, chm, ssd), es) + cfg.chunkMax * 1_000_000_000
    ensures var s := Run(cfg, Init(cfg, chm, ssd), es);
      var s' := Step(cfg, s, Idle(now));
      && s'.drives == s.drives && s'.sessionStarted == s.sessionStarted && s'.num == s.num && s'.idx == s.idx
  {
    ClockIsOpener(cfg, Init(cfg, chm, ssd), es);
    hide Run, OpenedAt, Init;
  }

  /** The same in terms of the state. */
  lemma IdleCloses(cfg: Config, s: State, now: nat, i: nat)
    requires Ok(cfg, s) && i < 2 && now >= s.t0 + cfg.chunkMax * 1_000_000_000
    requires (now - s.t0) % 0x1_0000_0000_0000_0000 / 1000 % 0x1_0000_0000 > 0
    requires s.drives[0].out.Some? || s.drives[1].out.Some?
    ensures Step(cfg, s, Idle(now)).sessionStarted
    ensures Closed(s, s.drives[i], Step(cfg, s, Idle(now)).drives[i])
  {
    ClosesFile(cfg, s.(duration := Usecs(now, s.t0)), s.drives[i]);
    hide FinalizeDrive;
  }

  /** No stream to write to, and the open file of a drive in use closed with the records indexed. */
  ghost predicate Closed(s: State, d: Drive, d': Drive) {
    && d'.out == None
    && (d.used && d.fp.Some? && d.fp.value < |d.files| && s.num <= |s.idx| ==>
          && d'.fp == None && |d'.files| == |d.files|
          && d'.files[d.fp.value].closed && s.idx[..s.num] <= d'.files[d.fp.value].index)
  }

  lemma ClosesFile(cfg: Config, s: State, d: Drive)
    requires Ok(cfg, s) && DriveOk(d) && s.duration > 0
    ensures Closed(s, d, FinalizeDrive(cfg, s, d).(out := None))
  {
    hide Replaced, ChunkPath;
  }

  /** Once it has, and unless the microseconds since then wrap to zero, an idle round with a stream
      to write to ends the session, drops both streams, and closes the open file of every drive in
      use with the records indexed so far. */
  lemma IdleTimesOut(cfg: Config, chm: bool, ssd: bool, es: seq<Event>, now: nat, i: nat)
    requires i < 2
    requires now >= OpenedAt(cfg, Init(cfg, chm, ssd), es) + cfg.chunkMax * 1_000_000_000
    requires (now - OpenedAt(cfg, Init(cfg, chm, ssd), es)) % 0x1_0000_0000_0000_0000 / 1000 % 0x1_0000_0000 > 0
    requires var s := Run(cfg, Init(cfg, chm, ssd), es); s.drives[0].out.Some? || s.drives[1].out.Some?
    ensures var s := Run(cfg, Init(cfg, chm, ssd), es);
      && Step(cfg, s, Idle(now)).sessionStarted
      && Closed(s, s.drives[i], Step(cfg, s, Idle(now)).drives[i])
  {
    hide Run, OpenedAt, Init, Step, Closed;
    ClockIsOpener(cfg, Init(cfg, chm, ssd), es);
    IdleCloses(cfg, Run(cfg, Init(cfg, chm, ssd), es), now, i);
  }

  // ---------- durations in names

  lemma RotationPath(cfg: Config, s: State, e: Event, i: nat)
    requires Ok(cfg, s) && i < 2 && e.Write?
    requires !ModeChanges(s, e.chm, e.ssd) && N.PublishedBy(cfg, s, e, i).Some?
    ensures N.PublishedBy(cfg, s, e, i).value == s.subpath + s.fname
      + Suffix((e.r.ts - s.t0) % 0x1_0000_0000_0000_0000 / 1000 % 0x1_0000_0000)
  {
    N.UpdateKeepsName(cfg, s, e.chm, e.ssd);
    UpdateSays(cfg, s, e.chm, e.ssd);
    hide UpdateDrives, Rotates, Suffix, N.Followed, N.Renames;
  }

  /** A chunk that a record replaces is published under its name and the microseconds, as an
      unsigned 32-bit number, from the record that opened it to the one that replaces it. */
  lemma RotationNames(cfg: Config, chm: bool, ssd: bool, es: seq<Event>, e: Event, i: nat)
    requires i < 2 && e.Write?
    requires var s := Run(cfg, Init(cfg, chm, ssd), es);
      !ModeChanges(s, e.chm, e.ssd) && N.PublishedBy(cfg, s, e, i).Some?
    ensures var s0 := Init(cfg, chm, ssd);
      var s := Run(cfg, s0, es);
      N.PublishedBy(cfg, s, e, i).value == s.subpath + s.fname
        + Suffix((e.r.ts - OpenedAt(cfg, s0, es)) % 0x1_0000_0000_0000_0000 / 1000 % 0x1_0000_0000)
  {
    hide Run, OpenedAt, Init, N.PublishedBy, Suffix;
    ClockIsOpener(cfg, Init(cfg, chm, ssd), es);
    RotationPath(cfg, Run(cfg, Init(cfg, chm, ssd), es), e, i);
  }
}
