/** Where chunks are published: every record of a chunk belongs to the hour its name says, the
    index never overflows, and a reader that rebuilds the path from the name finds the file. */
module RecorderPaths {
  import opened ChunkNames
  import opened Options
  import opened RecorderState
  import opened ChunkReader
  import RecorderSafety

  // ---------- index completeness

  function IndexLimit(cfg: Config): nat {
    if cfg.maxRecords <= cfg.chunkMax then cfg.maxRecords else cfg.chunkMax
  }

  lemma PlacedRoom(cfg: Config, s: State, r: Record)
    requires cfg.Valid() && cfg.deltat != 0 && Ok(cfg, s)
    ensures Placed(cfg, s, r).num < IndexLimit(cfg)
  {
    assert Rotates(cfg, s, r) || !ReachedMax(cfg, s);
  }

  /** Rotation always leaves room, so the guard on the index append is never false. */
  lemma WriteIndexes(cfg: Config, s: State, e: Event)
    requires cfg.Valid() && cfg.deltat != 0 && Ok(cfg, s) && e.Write?
    ensures var s2 := Placed(cfg, UpdateDrives(cfg, s, e.chm, e.ssd), e.r);
      && s2.num < IndexLimit(cfg)
      && WriteRecord(cfg, s, e).num == s2.num + 1
      && WriteRecord(cfg, s, e).idx[s2.num] == EntryOf(e.r, s2.pos)
  {
    var s2 := Placed(cfg, UpdateDrives(cfg, s, e.chm, e.ssd), e.r);
    PlacedRoom(cfg, UpdateDrives(cfg, s, e.chm, e.ssd), e.r);
    var s3 := WriteAll(cfg, AppendIndex(cfg, s2, e.r), e.r);
    assert s3.num == s2.num + 1 && s3.idx[s2.num] == EntryOf(e.r, s2.pos);
    var s4 := Reposition(cfg, s3, e.deadTell);
    assert s4.num == s3.num && s4.idx == s3.idx;
  }

  /** Index completeness over whole runs: the record count never passes the smaller limit. */
  lemma {:induction false} IndexBounded(cfg: Config, chm: bool, ssd: bool, es: seq<Event>)
    requires cfg.Valid() && cfg.deltat != 0
    ensures Run(cfg, Init(cfg, chm, ssd), es).num <= IndexLimit(cfg)
  {
    if es != [] {
      var s := Run(cfg, Init(cfg, chm, ssd), es[..|es| - 1]);
      IndexBounded(cfg, chm, ssd, es[..|es| - 1]);
      match es[|es| - 1]
      case Write(_, _, _, _) => WriteIndexes(cfg, s, es[|es| - 1]);
      case Idle(_) =>
      case TimeChange =>
    }
  }

  // ---------- names and hours

  function Hour(cfg: Config, e: IndexEntry): Civil { cfg.gmtime(e.timestamp) }

  /** A path below the metadata root: some directory, then the published name of a time. */
  ghost predicate PathFor(path: string, dir: string, c: Civil) {
    exists usecs: nat :: path == dir + PublishedName(c, usecs)
  }

  /** The records of a published file are of one hour, and the file is named after the first;
      when `strict`, it also lies in the directory of that hour. */
  ghost predicate Filed(cfg: Config, f: ChunkFile, path: string, strict: bool) {
    var es := LiveEntries(f.index);
    es != [] ==>
      && (forall e <- es :: SameHour(Hour(cfg, e), Hour(cfg, es[0])))
      && (exists dir :: PathFor(path, dir, Hour(cfg, es[0])))
      && (strict ==> InRange(Hour(cfg, es[0])) && PathFor(path, HourDir(Hour(cfg, es[0])), Hour(cfg, es[0])))
  }

  /** The records of a file that stayed in staging are of one hour, and the first one named it. */
  ghost predicate StagedFor(cfg: Config, f: ChunkFile, name: string, strict: bool) {
    var es := LiveEntries(f.index);
    es != [] ==>
      && (forall e <- es :: SameHour(Hour(cfg, e), Hour(cfg, es[0])))
      && name == Stem(Hour(cfg, es[0])) && (strict ==> InRange(Hour(cfg, es[0])))
  }

  /** One drive: the name table is one-to-one, unfinished files are not indexed, what could not be
      published is named after its records, and what has been published is filed. */
  ghost predicate Tidy(cfg: Config, d: Drive, strict: bool) {
    && DriveOk(d)
    && (forall m, n :: m in d.staging && n in d.staging && d.staging[m] == d.staging[n] ==> m == n)
    && (forall n <- d.staging :: d.staging[n] < |d.files| && StagedFor(cfg, d.files[d.staging[n]], n, strict))
    && (forall n <- d.staging :: d.fp == Some(d.staging[n]) || d.files[d.staging[n]].closed)
    && (d.fp.Some? ==> !d.files[d.fp.value].closed && d.files[d.fp.value].index == [])
    && (forall p <- d.published ::
          p.file < |d.files| && d.files[p.file].closed && Filed(cfg, d.files[p.file], p.path, strict))
  }

  /** The stream that would be finalized is the one staged under the current name. */
  ghost predicate Current(d: Drive, fname: string, num: nat) {
    d.used && d.fp.Some? && num > 0 ==> fname in d.staging && d.staging[fname] == d.fp.value
  }

  /** The current name is that of a date of the current hour, whose directory is current too. */
  ghost predicate NamedInHour(s: State) {
    s.fname == "" ||
    (s.subpath == HourDir(s.prevTm) && exists c :: InRange(c) && s.fname == Stem(c) && SameHour(c, s.prevTm))
  }

  /** The records indexed so far are of the current hour, and the first one named the chunk. */
  ghost predicate ChunkHour(cfg: Config, s: State, strict: bool)
    requires Ok(cfg, s)
  {
    && (forall e <- s.idx[..s.num] :: SameHour(Hour(cfg, e), s.prevTm))
    && (s.num > 0 ==> s.fname == Stem(Hour(cfg, s.idx[0])))
    && (strict ==> s.prevTm == ZERO_TM || s.subpath == HourDir(s.prevTm))
    && (strict && s.num > 0 ==> s.subpath == HourDir(s.prevTm) && InRange(Hour(cfg, s.idx[0])))
    && (strict ==> NamedInHour(s))
  }

  ghost predicate TidyState(cfg: Config, s: State, strict: bool) {
    && Ok(cfg, s) && ChunkHour(cfg, s, strict)
    && Tidy(cfg, s.drives[0], strict) && Tidy(cfg, s.drives[1], strict)
    && Current(s.drives[0], s.fname, s.num) && Current(s.drives[1], s.fname, s.num)
    && (s.num == 0 ==> s.sessionStarted || s.driveUpdated)
  }

  lemma {:induction false} LivePrefix(index: seq<IndexEntry>)
    ensures LiveEntries(index) <= index
    ensures forall e <- LiveEntries(index) :: LiveEntry(e)
  {
    if index != [] { LivePrefix(index[1..]); }
  }

  lemma StemDetermines(a: Civil, b: Civil)
    requires InRange(a) && InRange(b) && Stem(a) == Stem(b)
    ensures a == b
  {
    NameRoundTrip("", a, 0);
    NameRoundTrip("", b, 0);
  }

  lemma StemNotEmpty(c: Civil)
    ensures Stem(c) != ""
  {}

  /** A file that stayed in staging is filed if it gets published later after all. */
  lemma StagedFiled(cfg: Config, s: State, f: ChunkFile, strict: bool)
    requires Ok(cfg, s) && ChunkHour(cfg, s, strict) && StagedFor(cfg, f, s.fname, strict)
    ensures Filed(cfg, f, ChunkPath(s), strict)
  {
    hide Stem, InRange;
    var es := LiveEntries(f.index);
    if es != [] {
      var c := Hour(cfg, es[0]);
      assert s.subpath + PublishedName(c, s.duration) == ChunkPath(s);
      assert PathFor(ChunkPath(s), s.subpath, c);
      StemNotEmpty(c);
      if strict {
        var b :| InRange(b) && s.fname == Stem(b) && SameHour(b, s.prevTm);
        StemDetermines(b, c);
        SameHourDir(s.prevTm, c);
      }
    }
  }

  lemma SameHourDir(a: Civil, b: Civil)
    requires SameHour(a, b)
    ensures HourDir(a) == HourDir(b)
  {}

  /** The chunk finalized from a tidy state is filed. */
  lemma FinalizedFiled(cfg: Config, s: State, f: ChunkFile, strict: bool)
    requires Ok(cfg, s) && ChunkHour(cfg, s, strict) && f.index == []
    ensures Filed(cfg, FinalizeHeader(f, s.num, s.idx).(closed := true), ChunkPath(s), strict)
    ensures StagedFor(cfg, FinalizeHeader(f, s.num, s.idx).(closed := true), s.fname, strict)
  {
    var index := FinalizeHeader(f, s.num, s.idx).index;
    var es := LiveEntries(index);
    LivePrefix(index);
    if es != [] {
      assert es[0] == index[0];
      assert s.num > 0;
      forall k | 0 <= k < |es| ensures es[k] in s.idx[..s.num] {
        assert es[k] == index[k] && LiveEntry(es[k]);
        assert k < s.num;
        assert s.idx[..s.num][k] == es[k];
      }
      var c := Hour(cfg, es[0]);
      assert es[0] == s.idx[0];
      assert s.subpath + PublishedName(c, s.duration) == ChunkPath(s);
      assert PathFor(ChunkPath(s), s.subpath, c);
      if strict { SameHourDir(s.prevTm, c); }
    }
  }

  /** The names that a chunk just closed may still be staged under. */
  lemma ClosedStaged(cfg: Config, s: State, d: Drive, strict: bool, n: string)
    requires Ok(cfg, s) && ChunkHour(cfg, s, strict) && Tidy(cfg, d, strict) && d.used && d.fp.Some?
    requires Current(d, s.fname, s.num) && n in d.staging && d.staging[n] == d.fp.value
    ensures StagedFor(cfg, FinalizeHeader(d.files[d.fp.value], s.num, s.idx).(closed := true), n, strict)
  {
    hide LiveEntries, Filed, StagedFor, Hour;
    FinalizedFiled(cfg, s, d.files[d.fp.value], strict);
    if s.num > 0 {
      assert n == s.fname;
    } else {
      NothingStaged(cfg, FinalizeHeader(d.files[d.fp.value], s.num, s.idx).(closed := true), n, strict);
    }
  }

  lemma NothingStaged(cfg: Config, f: ChunkFile, name: string, strict: bool)
    requires f.index == []
    ensures StagedFor(cfg, f, name, strict)
  {}

  lemma PublishTidy(cfg: Config, s: State, d: Drive, strict: bool)
    requires Ok(cfg, s) && ChunkHour(cfg, s, strict) && Tidy(cfg, d, strict) && d.used && d.fp.Some?
    requires Current(d, s.fname, s.num)
    ensures CloseAndPublish(d, s.num, s.idx, s.fname, s.subpath, ChunkPath(s)).used
    ensures Tidy(cfg, CloseAndPublish(d, s.num, s.idx, s.fname, s.subpath, ChunkPath(s)).(fp := None), strict)
  {
    hide LiveEntries, Filed, StagedFor, ChunkHour, FinalizeHeader, Replaced, ChunkPath;
    var d' := CloseAndPublish(d, s.num, s.idx, s.fname, s.subpath, ChunkPath(s));
    var h := d.fp.value;
    FinalizedFiled(cfg, s, d.files[h], strict);
    assert forall p <- d.published :: p.file != h;
    forall n <- d'.staging ensures StagedFor(cfg, d'.files[d'.staging[n]], n, strict) {
      if d.staging[n] == h { ClosedStaged(cfg, s, d, strict, n); }
    }
    if s.fname in d.staging && s.subpath in d.dirs {
      var p := Published(ChunkPath(s), d.staging[s.fname]);
      if p.file != h { StagedFiled(cfg, s, d.files[p.file], strict); }
      assert Filed(cfg, d'.files[p.file], p.path, strict);
      assert forall q <- d'.published :: q in d.published || q == p;
    }
  }

  lemma OpenTidy(cfg: Config, d: Drive, fname: string, strict: bool)
    requires DriveOk(d) && Tidy(cfg, d.(fp := None), strict) && d.used
    ensures Tidy(cfg, OpenNew(d, fname), strict)
  {
    var d' := OpenNew(d, fname);
    assert forall n <- d'.staging :: n == fname || (n in d.staging && d'.staging[n] == d.staging[n]);
  }

  lemma FinalizeTidyDrive(cfg: Config, s: State, d: Drive, strict: bool)
    requires Ok(cfg, s) && ChunkHour(cfg, s, strict) && Tidy(cfg, d, strict) && Current(d, s.fname, s.num)
    ensures Tidy(cfg, FinalizeDrive(cfg, s, d), strict)
  {
    if d.used && d.fp.Some? && s.duration > 0 { PublishTidy(cfg, s, d, strict); }
  }

  lemma UpdateTidy(cfg: Config, s: State, chm: bool, ssd: bool, strict: bool)
    requires TidyState(cfg, s, strict) && (s.num == 0 ==> s.sessionStarted)
    ensures TidyState(cfg, UpdateDrives(cfg, s, chm, ssd), strict)
  {
    var s1 := Commanded(s, chm, ssd);
    if s1.driveUpdated {
      FinalizeTidyDrive(cfg, s1, s.drives[0], strict);
      FinalizeTidyDrive(cfg, s1, s.drives[1], strict);
    }
  }

  lemma ReopenTidy(cfg: Config, s: State, d: Drive, tm: Civil, strict: bool)
    requires Ok(cfg, s) && ChunkHour(cfg, s, strict) && Tidy(cfg, d, strict) && Current(d, s.fname, s.num)
    ensures var d' := WithHourDir(OpenNew(CloseOld(cfg, s, d), Stem(tm)), s.prevTm, tm);
      Tidy(cfg, d', strict) && Current(d', Stem(tm), 1)
  {
    hide WithHourDir, LiveEntries, Filed, StagedFor, ChunkHour, CloseAndPublish, OpenNew;
    if d.used {
      if d.fp.Some? { PublishTidy(cfg, s, d, strict); } else { assert d.(fp := None) == d; }
      OpenTidy(cfg, CloseOld(cfg, s, d), Stem(tm), strict);
    }
    OpenedCurrent(CloseOld(cfg, s, d), Stem(tm));
  }

  lemma OpenedCurrent(d: Drive, stem: string)
    requires DriveOk(d)
    ensures Current(OpenNew(d, stem), stem, 1) && (!d.used ==> OpenNew(d, stem) == d)
  {}

  /** The directory is only recomputed for a location in use: an hour may not change while
      no drive is. */
  predicate FiledStep(cfg: Config, s: State, e: Event)
    requires Ok(cfg, s)
  {
    e.Write? ==>
      var tm := cfg.gmtime(e.r.tod);
      InRange(tm) && (!SameHour(s.prevTm, tm) ==> AnyUsed(UpdateDrives(cfg, s, e.chm, e.ssd)))
  }

  ghost predicate Placeable(cfg: Config, s: State, r: Record, strict: bool)
    requires Ok(cfg, s)
  {
    strict ==> InRange(cfg.gmtime(r.tod)) && (!SameHour(s.prevTm, cfg.gmtime(r.tod)) ==> AnyUsed(s))
  }

  /** After placing a record the chunk is of the record's hour; a fresh chunk has its name. */
  ghost predicate PlacedFor(cfg: Config, s: State, r: Record, strict: bool) {
    && Ok(cfg, s) && ChunkHour(cfg, s, strict) && SameHour(s.prevTm, cfg.gmtime(r.tod))
    && (s.num == 0 ==> s.fname == Stem(cfg.gmtime(r.tod)))
    && (strict ==> s.subpath == HourDir(s.prevTm) && InRange(cfg.gmtime(r.tod)))
    && Tidy(cfg, s.drives[0], strict) && Tidy(cfg, s.drives[1], strict)
    && Current(s.drives[0], s.fname, 1) && Current(s.drives[1], s.fname, 1)
  }

  lemma RotatedFor(cfg: Config, s: State, r: Record, strict: bool)
    requires cfg.Valid() && TidyState(cfg, s, strict) && Placeable(cfg, s, r, strict) && Rotates(cfg, s, r)
    ensures PlacedFor(cfg, Placed(cfg, s, r), r, strict)
  {
    var s' := Placed(cfg, s, r);
    var s2 := s.(duration := Usecs(r.ts, s.t0), timeChange := false);
    RecorderSafety.PlacedDrives(cfg, s, r);
    ReopenTidy(cfg, s2, s.drives[0], cfg.gmtime(r.tod), strict);
    ReopenTidy(cfg, s2, s.drives[1], cfg.gmtime(r.tod), strict);
    RotatedHour(cfg, s, r, strict);
  }

  lemma RotatedHour(cfg: Config, s: State, r: Record, strict: bool)
    requires Ok(cfg, s) && ChunkHour(cfg, s, strict) && Placeable(cfg, s, r, strict) && Rotates(cfg, s, r)
    ensures var s' := Placed(cfg, s, r);
      && ChunkHour(cfg, s', strict) && SameHour(s'.prevTm, cfg.gmtime(r.tod)) && s'.num == 0
      && s'.fname == Stem(cfg.gmtime(r.tod)) && (strict ==> s'.subpath == HourDir(s'.prevTm))
  {
    RecorderSafety.RotationResets(cfg, s, r);
    var tm := cfg.gmtime(r.tod);
    assert strict && SameHour(s.prevTm, tm) ==> s.prevTm != ZERO_TM;
    assert strict ==> InRange(tm) && SameHour(tm, Placed(cfg, s, r).prevTm);
    FreshHour(cfg, Placed(cfg, s, r), strict);
  }

  lemma FreshHour(cfg: Config, s: State, strict: bool)
    requires Ok(cfg, s) && s.num == 0 && (strict ==> s.subpath == HourDir(s.prevTm) && NamedInHour(s))
    ensures ChunkHour(cfg, s, strict)
  {}

  lemma PlacedTidy(cfg: Config, s: State, r: Record, strict: bool)
    requires cfg.Valid() && cfg.deltat != 0 && TidyState(cfg, s, strict) && Placeable(cfg, s, r, strict)
    ensures PlacedFor(cfg, Placed(cfg, s, r), r, strict)
  {
    if Rotates(cfg, s, r) {
      RotatedFor(cfg, s, r, strict);
    } else {
      assert Placed(cfg, s, r) == s.(duration := Usecs(r.ts, s.t0), timeChange := false);
      assert s.num > 0;
    }
  }

  lemma WrittenTidyDrive(cfg: Config, d: Drive, r: Record, strict: bool)
    requires Tidy(cfg, d, strict)
    ensures Tidy(cfg, WriteDrive(d, r), strict)
  {}

  lemma AppendHour(cfg: Config, s: State, r: Record, strict: bool)
    requires PlacedFor(cfg, s, r, strict) && s.num < cfg.maxRecords
    ensures ChunkHour(cfg, AppendIndex(cfg, s, r), strict)
  {
    var s' := AppendIndex(cfg, s, r);
    assert s'.idx[..s'.num] == s.idx[..s.num] + [EntryOf(r, s.pos)];
  }

  lemma HourFrame(cfg: Config, s: State, s': State, strict: bool)
    requires Ok(cfg, s) && Ok(cfg, s') && ChunkHour(cfg, s, strict)
    requires s'.num == s.num && s'.idx == s.idx && s'.prevTm == s.prevTm && s'.fname == s.fname
      && s'.subpath == s.subpath
    ensures ChunkHour(cfg, s', strict)
  {}

  lemma CurrentWrite(cfg: Config, d: Drive, r: Record, fname: string, num: nat)
    requires DriveOk(d) && Current(d, fname, 1)
    ensures Current(WriteDrive(d, r), fname, num)
  {}

  lemma WriteTidy(cfg: Config, s: State, r: Record, dead: nat, strict: bool)
    requires PlacedFor(cfg, s, r, strict) && s.num < cfg.maxRecords
    ensures TidyState(cfg, Reposition(cfg, WriteAll(cfg, AppendIndex(cfg, s, r), r), dead), strict)
  {
    AppendHour(cfg, s, r, strict);
    WrittenTidyDrive(cfg, s.drives[0], r, strict);
    WrittenTidyDrive(cfg, s.drives[1], r, strict);
    CurrentWrite(cfg, s.drives[0], r, s.fname, s.num + 1);
    CurrentWrite(cfg, s.drives[1], r, s.fname, s.num + 1);
    var s1 := AppendIndex(cfg, s, r);
    var s2 := WriteAll(cfg, s1, r);
    var s3 := Reposition(cfg, s2, dead);
    assert s3 == s2.(pos := s3.pos);
    HourFrame(cfg, s1, s3, strict);
    assert s3.drives[0] == s.drives[0] || s3.drives[0] == WriteDrive(s.drives[0], r);
    assert s3.drives[1] == s.drives[1] || s3.drives[1] == WriteDrive(s.drives[1], r);
  }

  lemma WriteRecordTidy(cfg: Config, s: State, e: Event, strict: bool)
    requires cfg.Valid() && cfg.deltat != 0 && TidyState(cfg, s, strict) && (s.num == 0 ==> s.sessionStarted)
    requires e.Write? && (strict ==> FiledStep(cfg, s, e))
    ensures TidyState(cfg, WriteRecord(cfg, s, e), strict) && WriteRecord(cfg, s, e).num > 0
  {
    var s1 := UpdateDrives(cfg, s, e.chm, e.ssd);
    UpdateTidy(cfg, s, e.chm, e.ssd, strict);
    assert s1.prevTm == s.prevTm;
    hide Tidy, ChunkHour, Current;
    PlacedTidy(cfg, s1, e.r, strict);
    PlacedRoom(cfg, s1, e.r);
    WriteTidy(cfg, Placed(cfg, s1, e.r), e.r, e.deadTell, strict);
    WriteIndexes(cfg, s, e);
  }

  /** What the idle timeout leaves: an empty tracker, a session to restart, no streams to write to. */
  lemma TimedOutTidy(cfg: Config, s: State, strict: bool)
    requires TidyState(cfg, s, strict)
    ensures var s2 := Finalize(cfg, s);
      TidyState(cfg, s2.(sessionStarted := true, drives := [s2.drives[0].(out := None), s2.drives[1].(out := None)]),
                strict)
  {
    var s2 := Finalize(cfg, s);
    FinalizeTidyDrive(cfg, s, s.drives[0], strict);
    FinalizeTidyDrive(cfg, s, s.drives[1], strict);
    TidyOut(cfg, s2.drives[0], strict);
    TidyOut(cfg, s2.drives[1], strict);
    assert s2.num == 0 && s2.idx[..0] == [];
  }

  lemma IdleTidy(cfg: Config, s: State, now: nat, strict: bool)
    requires TidyState(cfg, s, strict) && (s.num == 0 ==> s.sessionStarted)
    ensures var s' := IdleTick(cfg, s, now); TidyState(cfg, s', strict) && (s'.num == 0 ==> s'.sessionStarted)
  {
    var s1 := s.(duration := Usecs(now, s.t0));
    HourFrame(cfg, s, s1, strict);
    assert TidyState(cfg, s1, strict);
    if IdleDue(cfg, s, now) { TimedOutTidy(cfg, s1, strict); }
  }

  lemma TidyOut(cfg: Config, d: Drive, strict: bool)
    requires Tidy(cfg, d, strict)
    ensures Tidy(cfg, d.(out := None), strict)
  {}

  predicate FiledRun(cfg: Config, s: State, es: seq<Event>)
    requires Ok(cfg, s)
  {
    es == [] || (FiledRun(cfg, s, es[..|es| - 1]) && FiledStep(cfg, Run(cfg, s, es[..|es| - 1]), es[|es| - 1]))
  }

  lemma InitTidy(cfg: Config, chm: bool, ssd: bool, strict: bool)
    ensures TidyState(cfg, Init(cfg, chm, ssd), strict)
  {}

  lemma TimeChangeTidy(cfg: Config, s: State, strict: bool)
    requires TidyState(cfg, s, strict)
    ensures TidyState(cfg, s.(timeChange := true), strict)
  {
    HourFrame(cfg, s, s.(timeChange := true), strict);
  }

  lemma {:induction false} RunTidy(cfg: Config, chm: bool, ssd: bool, es: seq<Event>, strict: bool)
    requires cfg.Valid() && cfg.deltat != 0
    requires strict ==> FiledRun(cfg, Init(cfg, chm, ssd), es)
    ensures var s := Run(cfg, Init(cfg, chm, ssd), es); TidyState(cfg, s, strict) && (s.num == 0 ==> s.sessionStarted)
  {
    hide Tidy, ChunkHour, Current, WriteRecord, IdleTick, FiledStep, TidyState;
    if es == [] {
      InitTidy(cfg, chm, ssd, strict);
    } else {
      var s := Run(cfg, Init(cfg, chm, ssd), es[..|es| - 1]);
      RunTidy(cfg, chm, ssd, es[..|es| - 1], strict);
      match es[|es| - 1]
      case Write(_, _, _, _) => WriteRecordTidy(cfg, s, es[|es| - 1], strict);
      case Idle(now) => IdleTidy(cfg, s, now, strict);
      case TimeChange => TimeChangeTidy(cfg, s, strict);
    }
  }

  /** Hour homogeneity: in every run, all records of a published chunk share the year, month,
      day and hour of the first one, whose time is the chunk's name. When no hour change fell
      while every drive was off, the chunk also lies in the directory of that hour, even if the
      hour change itself closed it. */
  lemma PublishedByHour(cfg: Config, chm: bool, ssd: bool, es: seq<Event>, strict: bool, i: nat, p: Published)
    requires cfg.Valid() && cfg.deltat != 0 && i < 2
    requires strict ==> FiledRun(cfg, Init(cfg, chm, ssd), es)
    requires p in Finalize(cfg, Run(cfg, Init(cfg, chm, ssd), es)).drives[i].published
    ensures var d := Finalize(cfg, Run(cfg, Init(cfg, chm, ssd), es)).drives[i];
      p.file < |d.files| && Filed(cfg, d.files[p.file], p.path, strict)
  {
    var s := Run(cfg, Init(cfg, chm, ssd), es);
    RunTidy(cfg, chm, ssd, es, strict);
    FinalizeTidyDrive(cfg, s, s.drives[i], strict);
  }

  // ---------- the reader's path

  /** `search_and_write_metadata`: rebuild the path from the start time parsed out of the name. */
  function ReaderPath(mktime: Civil -> int, localtime: int -> Civil, name: string): string
    requires |name| >= INDEX_TIME
  {
    HourDir(localtime(mktime(DateFields(name)))) + name
  }

  /** The path the reader rebuilds is the right one if and only if its two conversions lead back to
      a date with the same directory. */
  lemma ReaderPathExact(mktime: Civil -> int, localtime: int -> Civil, c: Civil, usecs: nat)
    requires InRange(c)
    ensures |PublishedName(c, usecs)| >= INDEX_TIME
    ensures ReaderPath(mktime, localtime, PublishedName(c, usecs)) == HourDir(c) + PublishedName(c, usecs)
      <==> HourDir(localtime(mktime(c))) == HourDir(c)
  {
    NameRoundTrip("", c, usecs);
    SamePrefix(HourDir(localtime(mktime(c))), HourDir(c), PublishedName(c, usecs));
  }

  lemma SamePrefix(a: string, b: string, name: string)
    ensures a + name == b + name <==> a == b
  {
    if a + name == b + name {
      assert |a + name| == |b + name|;
      assert a == (a + name)[..|a|] == (b + name)[..|b|] == b;
    }
  }

  /** Path agreement: whatever the calendar conversions are, as long as they lead back to the hour
      in the name, the reader looks for a filed chunk where the recorder put it. */
  lemma ReaderFindsFile(mktime: Civil -> int, localtime: int -> Civil, path: string, c: Civil)
    requires InRange(c) && SameHour(localtime(mktime(c)), c) && PathFor(path, HourDir(c), c)
    ensures exists usecs: nat ::
      var name := PublishedName(c, usecs);
      && path == HourDir(c) + name && |name| >= INDEX_TIME && ReaderPath(mktime, localtime, name) == path
  {
    var usecs: nat :| path == HourDir(c) + PublishedName(c, usecs);
    NameRoundTrip("", c, usecs);
    SameHourDir(localtime(mktime(c)), c);
    assert ReaderPath(mktime, localtime, PublishedName(c, usecs)) == path;
  }

  /** Without the condition on hour changes the directory is wrong: a record that starts a new
      hour leaves the directory of the current hour set if and only if some drive is in use. */
  lemma StaleDirectory(cfg: Config, s: State, r: Record)
    requires Ok(cfg, s) && Rotates(cfg, s, r) && !SameHour(s.prevTm, cfg.gmtime(r.tod))
    requires InRange(s.prevTm) && InRange(cfg.gmtime(r.tod)) && s.subpath == HourDir(s.prevTm)
    ensures var s' := Placed(cfg, s, r); s'.subpath == HourDir(s'.prevTm) <==> AnyUsed(s)
  {
    if HourDir(s.prevTm) == HourDir(cfg.gmtime(r.tod)) {
      HourDirInjective(s.prevTm, cfg.gmtime(r.tod));
    }
    RecorderSafety.RotationResets(cfg, s, r);
  }
}
