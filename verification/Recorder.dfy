/** The recording thread as it runs: fields updated in place, loops over the two locations.
    Every method is tied to the transition functions of `RecorderState`. */
module Recorder {
  import opened ChunkNames
  import opened Options
  import opened RecorderState
  import RoundTrip

  class Recorder {
    const cfg: Config
    /** data_loc[], fp[] and out[], and what each drive holds. */
    const drives: array<Drive>
    /** idx_data[], of which the first `num` entries count. */
    const idx: array<IndexEntry>
    var num: nat
    var pos: nat
    var sessionStarted: bool
    var prevTm: Civil
    var subpath: string
    var fname: string
    var t0: nat
    var duration: nat
    var driveUpdated: bool
    var preChm: Option<bool>
    var preSsd: Option<bool>
    var timeChange: bool

    ghost function Abs(): State
      reads this, drives, idx
    {
      State(drives[..], sessionStarted, prevTm, subpath, fname, t0, duration, driveUpdated,
            preChm, preSsd, num, idx[..], pos, timeChange)
    }

    ghost predicate Valid()
      reads this, drives, idx
    {
      Ok(cfg, Abs())
    }

    /** `metadata_recording_thread` up to its loop: index allocated, nothing open. */
    constructor (cfg: Config, chm: bool, ssd: bool)
      ensures this.cfg == cfg && fresh(drives) && fresh(idx)
      ensures Valid() && Abs() == Init(cfg, chm, ssd)
    {
      this.cfg := cfg;
      drives := new Drive[2](i => Drive(if i == 0 then chm else ssd, None, None, [], map[], [], {""}));
      idx := new IndexEntry[cfg.maxRecords](_ => ZERO_ENTRY);
      num, pos := 0, 0;
      sessionStarted, prevTm, subpath, fname := true, ZERO_TM, "", "";
      t0, duration, driveUpdated := 0, 0, false;
      preChm, preSsd, timeChange := None, None, false;
      new;
      assert drives[..] == Init(cfg, chm, ssd).drives;
      assert idx[..] == ZeroIndex(cfg.maxRecords);
    }

    /** `metadata_chunk_finalize`. */
    method FinalizeChunk()
      requires Valid()
      modifies this, drives
      ensures Valid() && Abs() == Finalize(cfg, old(Abs()))
    {
      hide CloseAndPublish, Suffix;
      ghost var s := Abs();
      for i := 0 to 2
        invariant Abs() == s.(drives := drives[..])
        invariant forall j :: 0 <= j < 2 ==>
          drives[j] == if j < i then FinalizeDrive(cfg, s, s.drives[j]) else s.drives[j]
      {
        var d := drives[i];
        if d.used && d.fp.Some? {
          if duration > 0 {
            var path := subpath + fname + Suffix(duration);
            drives[i] := CloseAndPublish(d, num, idx[..], fname, subpath, path).(fp := None);
          }
        }
      }
      num := 0;
      duration := 0;
      assert drives[..] == Finalize(cfg, s).drives;
    }

    /** `is_drive_status_updated`. */
    method IsDriveStatusUpdated(chm: bool, ssd: bool) returns (updated: bool)
      requires Valid()
      modifies this`preChm, this`preSsd
      ensures Valid() && Abs() == old(Abs()).(preChm := Some(chm), preSsd := Some(ssd))
      ensures updated == Commanded(old(Abs()), chm, ssd).driveUpdated
    {
      updated := false;
      if preChm.Some? {
        if preChm.value != chm { updated := true; }
      }
      if preSsd.Some? {
        if preSsd.value != ssd { updated := true; }
      }
      preChm, preSsd := Some(chm), Some(ssd);
    }

    /** `drive_status_update_handler`: close the chunks, then follow the new mode. */
    method UpdateDrivesInPlace(chm: bool, ssd: bool)
      requires Valid() && driveUpdated
      modifies this, drives
      ensures Valid()
      ensures var f := Finalize(cfg, old(Abs()));
        Abs() == f.(drives := [f.drives[0].(used := chm), f.drives[1].(used := ssd)])
    {
      FinalizeChunk();
      ghost var f := Abs();
      drives[0] := drives[0].(used := chm);
      drives[1] := drives[1].(used := ssd);
      assert drives[..] == [f.drives[0].(used := chm), f.drives[1].(used := ssd)];
    }

    /** `is_new_chunk_required`: test the shared flag, clear it if set, then decide. */
    method IsNewChunkRequired(tm: Civil) returns (required: bool)
      requires Valid()
      modifies this`timeChange
      ensures Valid() && Abs() == old(Abs()).(timeChange := false)
      ensures required == ChunkRequired(cfg, old(Abs()), tm)
    {
      var change := timeChange;
      if change { timeChange := false; }
      required := sessionStarted
        || prevTm.hour != tm.hour || prevTm.mday != tm.mday || prevTm.mon != tm.mon || prevTm.year != tm.year
        || num >= cfg.maxRecords || num >= cfg.chunkMax
        || change || driveUpdated;
    }

    /** The first loop of `get_metadata_chunk_file`: close and publish what the locations in use hold. */
    method PublishOld()
      requires Valid()
      modifies drives
      ensures Valid()
      ensures Abs() == old(Abs()).(
        drives := [CloseOld(cfg, old(Abs()), old(drives[0])), CloseOld(cfg, old(Abs()), old(drives[1]))])
    {
      hide CloseAndPublish, Suffix;
      ghost var s := Abs();
      for i := 0 to 2
        invariant Abs() == s.(drives := drives[..])
        invariant forall j :: 0 <= j < 2 ==> drives[j] == if j < i then CloseOld(cfg, s, s.drives[j]) else s.drives[j]
      {
        var d := drives[i];
        if d.used {
          if d.fp.Some? {
            drives[i] := CloseAndPublish(d, num, idx[..], fname, subpath, subpath + fname + Suffix(duration));
          }
        }
      }
      assert drives[..] == [CloseOld(cfg, s, s.drives[0]), CloseOld(cfg, s, s.drives[1])];
    }

    /** `prepare_subpath`: the directory is only computed for a location in use, and only made there. */
    method PrepareSubpath(ghost prev: Civil)
      requires Valid() && !SameHour(prev, prevTm)
      modifies this`subpath, drives
      ensures Valid()
      ensures var s := old(Abs());
        Abs() == s.(subpath := if AnyUsed(s) then HourDir(prevTm) else s.subpath,
                    drives := [WithHourDir(s.drives[0], prev, prevTm), WithHourDir(s.drives[1], prev, prevTm)])
    {
      hide HourDir, SameHour;
      ghost var s := Abs();
      for i := 0 to 2
        invariant Valid() && Abs() == s.(subpath := subpath, drives := drives[..])
        invariant subpath
          == if (0 < i && s.drives[0].used) || (1 < i && s.drives[1].used) then HourDir(s.prevTm) else s.subpath
        invariant forall j :: 0 <= j < 2 ==>
          drives[j] == if j < i then WithHourDir(s.drives[j], prev, prevTm) else s.drives[j]
      {
        if drives[i].used {
          subpath := HourDir(prevTm);
          drives[i] := drives[i].(dirs := drives[i].dirs + {subpath});
        }
      }
      assert drives[..] == [WithHourDir(s.drives[0], prev, prevTm), WithHourDir(s.drives[1], prev, prevTm)];
    }

    /** The second loop of `get_metadata_chunk_file`: a new staging file at every location in use. */
    method OpenChunks(t: nat) returns (isNew: bool)
      requires Valid()
      modifies drives, this`t0
      ensures Valid()
      ensures isNew == AnyUsed(old(Abs()))
      ensures Abs() == old(Abs()).(drives := [OpenNew(old(drives[0]), fname), OpenNew(old(drives[1]), fname)],
                                   t0 := if isNew then t else old(t0))
    {
      ghost var s := Abs();
      isNew := false;
      for i := 0 to 2
        modifies drives, this`t0
        invariant Valid()
        invariant isNew == ((0 < i && s.drives[0].used) || (1 < i && s.drives[1].used))
        invariant t0 == if isNew then t else s.t0
        invariant forall j :: 0 <= j < 2 ==> drives[j] == if j < i then OpenNew(s.drives[j], fname) else s.drives[j]
      {
        if drives[i].used {
          drives[i] := OpenNew(drives[i], fname);
          t0 := t;
          isNew := true;
        }
      }
      assert drives[..] == [OpenNew(s.drives[0], fname), OpenNew(s.drives[1], fname)];
    }

    /** Up to the reset of the record tracker. */
    method RetireChunk()
      requires Valid()
      modifies this, drives
      ensures Valid()
      ensures var s := old(Abs());
        Abs() == s.(sessionStarted := false, driveUpdated := false, num := 0, duration := 0,
                    drives := [CloseOld(cfg, s, s.drives[0]), CloseOld(cfg, s, s.drives[1])])
    {
      ghost var s := Abs();
      sessionStarted := false;
      if driveUpdated { driveUpdated := false; }
      ghost var s1 := Abs();
      PublishOld();
      assert CloseOld(cfg, s1, s.drives[0]) == CloseOld(cfg, s, s.drives[0]);
      assert CloseOld(cfg, s1, s.drives[1]) == CloseOld(cfg, s, s.drives[1]);
      num := 0;
      duration := 0;
    }

    /** Name the new chunk after its first record, and move to its hour. */
    method NameChunk(tm: Civil)
      requires Valid()
      modifies this`fname, this`prevTm, this`subpath, drives
      ensures Valid()
      ensures var s := old(Abs());
        Abs() == s.(fname := Stem(tm),
                    prevTm := if SameHour(s.prevTm, tm) then s.prevTm else tm,
                    subpath := if !SameHour(s.prevTm, tm) && AnyUsed(s) then HourDir(tm) else s.subpath,
                    drives := [WithHourDir(s.drives[0], s.prevTm, tm), WithHourDir(s.drives[1], s.prevTm, tm)])
    {
      ghost var s := Abs();
      fname := Stem(tm);
      if !SameHour(prevTm, tm) {
        prevTm := tm;
        PrepareSubpath(s.prevTm);
      } else {
        assert drives[..] == [WithHourDir(s.drives[0], s.prevTm, tm), WithHourDir(s.drives[1], s.prevTm, tm)];
      }
    }

    /** Making the hour's directory and opening the file may be taken in either order. */
    lemma HourDirFirst(d: Drive, prev: Civil, tm: Civil, stem: string)
      requires DriveOk(d)
      ensures OpenNew(WithHourDir(d, prev, tm), stem) == WithHourDir(OpenNew(d, stem), prev, tm)
    {}

    /** The body of `get_metadata_chunk_file` once a new chunk is required; true if a file was opened. */
    method ReplaceChunk(r: Record, tm: Civil) returns (isNew: bool)
      requires Valid() && tm == cfg.gmtime(r.tod)
      modifies this, drives
      ensures Valid() && Abs() == Rotate(cfg, old(Abs()), r)
      ensures isNew == AnyUsed(old(Abs()))
    {
      hide CloseOld, OpenNew, WithHourDir, Stem, HourDir, SameHour;
      ghost var s := Abs();
      CloseKeepsUse(s, s.drives[0]);
      CloseKeepsUse(s, s.drives[1]);
      HourDirFirst(CloseOld(cfg, s, s.drives[0]), s.prevTm, tm, Stem(tm));
      HourDirFirst(CloseOld(cfg, s, s.drives[1]), s.prevTm, tm, Stem(tm));
      RetireChunk();
      NameChunk(tm);
      isNew := OpenChunks(r.ts);
    }

    lemma CloseKeepsUse(s: State, d: Drive)
      requires Ok(cfg, s) && DriveOk(d)
      ensures CloseOld(cfg, s, d).used == d.used
    {}

    /** `get_metadata_chunk_file`. */
    method GetChunk(r: Record) returns (isNew: bool)
      requires Valid()
      modifies this, drives
      ensures Valid() && Abs() == GetChunkFile(cfg, old(Abs()), r)
      ensures isNew == (Rotates(cfg, old(Abs()), r) && AnyUsed(old(Abs())))
    {
      isNew := false;
      if cfg.deltat != 0 {
        var tm := cfg.gmtime(r.tod);
        duration := Usecs(r.ts, t0);
        var required := IsNewChunkRequired(tm);
        if required {
          isNew := ReplaceChunk(r, tm);
        }
      }
    }

    /** `write_metadata`. */
    method WriteMetadata(r: Record)
      requires Valid() && cfg.copies <= 2
      modifies drives
      ensures Valid() && Abs() == WriteAll(cfg, old(Abs()), r)
    {
      ghost var s := Abs();
      for i := 0 to cfg.copies
        invariant Abs() == s.(drives := drives[..])
        invariant forall j :: 0 <= j < 2 ==> drives[j] == if j < i then WriteDrive(s.drives[j], r) else s.drives[j]
      {
        var d := drives[i];
        if d.used && d.out.Some? {
          var h := d.out.value;
          drives[i] := d.(files := d.files[h := d.files[h].(body := d.files[h].body + r.payload)]);
        }
      }
      assert drives[..] == WriteAll(cfg, s, r).drives;
    }

    /** The offset scan: the first location with a stream answers, and the scan stops. */
    method ScanOffset(deadTell: nat)
      requires Valid()
      modifies this`pos
      ensures Valid() && Abs() == Reposition(cfg, old(Abs()), deadTell)
    {
      var i := 0;
      while i < 2
        invariant 0 <= i <= 2 && pos == old(pos)
        invariant forall j :: 0 <= j < i ==> drives[j].out == None
      {
        if drives[i].out.Some? {
          pos := Tell(cfg, drives[i], deadTell);
          return;
        }
        i := i + 1;
      }
    }

    /** One round of the loop with a record in hand. */
    method RecordOne(r: Record, chm: bool, ssd: bool, deadTell: nat)
      requires Valid() && cfg.copies <= 2
      modifies this, drives, idx
      ensures Valid() && Abs() == WriteRecord(cfg, old(Abs()), Write(r, chm, ssd, deadTell))
    {
      FollowMode(chm, ssd);
      ghost var s1 := Abs();
      var isNew := GetChunk(r);
      if isNew {
        pos := cfg.bodyStart;
      }
      assert Abs() == Placed(cfg, s1, r);
      IndexRecord(r);
      WriteOut(r, deadTell);
    }

    /** Follow the commanded mode, closing the chunks first if it changed. */
    method FollowMode(chm: bool, ssd: bool)
      requires Valid()
      modifies this, drives
      ensures Valid() && Abs() == UpdateDrives(cfg, old(Abs()), chm, ssd)
    {
      driveUpdated := IsDriveStatusUpdated(chm, ssd);
      if driveUpdated {
        UpdateDrivesInPlace(chm, ssd);
      }
    }

    /** Write the record and rescan the offset, if there is a stream at all. */
    method WriteOut(r: Record, deadTell: nat)
      requires Valid() && cfg.copies <= 2
      modifies this, drives
      ensures Valid() && Abs() == Reposition(cfg, WriteAll(cfg, old(Abs()), r), deadTell)
    {
      if drives[0].out.Some? || drives[1].out.Some? {
        WriteMetadata(r);
        ScanOffset(deadTell);
      } else {
        assert WriteAll(cfg, Abs(), r).drives == drives[..];
      }
    }

    /** The guarded append to the in-memory index. */
    method IndexRecord(r: Record)
      requires Valid()
      modifies this`num, idx
      ensures Valid() && Abs() == AppendIndex(cfg, old(Abs()), r)
    {
      ghost var s := Abs();
      if num < cfg.maxRecords {
        idx[num] := IndexEntry(pos, r.tod, r.kind, |r.payload|);
        num := num + 1;
        assert idx[..] == s.idx[s.num := EntryOf(r, s.pos)];
      }
    }

    /** One round without a record: refresh the duration, time the chunk out if it is due. */
    method IdleRound(now: nat)
      requires Valid()
      modifies this, drives
      ensures Valid() && Abs() == IdleTick(cfg, old(Abs()), now)
    {
      if drives[0].out.Some? || drives[1].out.Some? {
        duration := Usecs(now, t0);
        if now >= t0 + cfg.chunkMax * 1000000000 {
          FinalizeChunk();
          ghost var f := Abs();
          sessionStarted := true;
          drives[0] := drives[0].(out := None);
          drives[1] := drives[1].(out := None);
          assert drives[..] == [f.drives[0].(out := None), f.drives[1].(out := None)];
        }
      }
    }

    /** The run and the stop are sound for drive i. */
    predicate Sound(s: State, events: seq<Event>, i: nat)
      requires Ok(cfg, s) && i < 2
    {
      RoundTrip.SoundRun(cfg, s, events, i) && RoundTrip.FinalizeSound(Run(cfg, s, events), i)
    }

    /** `metadata_recording_thread`: rounds until told to stop, then one last finalization. Started
        from scratch, after a run and a stop that are sound for a drive, everything can be read back
        from it. */
    method Record(events: seq<Event>)
      requires Valid() && cfg.copies <= 2
      modifies this, drives, idx
      ensures Valid() && Abs() == Finalize(cfg, Run(cfg, old(Abs()), events))
      ensures var s0 := old(Abs());
        s0 == Init(cfg, s0.drives[0].used, s0.drives[1].used)
        && cfg.Valid() && cfg.deltat != 0 && cfg.copies == 2
        ==> forall i :: 0 <= i < 2 && Sound(s0, events, i) ==> RoundTrip.ReadsBack(cfg, s0, events, Abs(), i)
    {
      ghost var s := Abs();
      assert events[..0] == [];
      for i := 0 to |events|
        invariant Valid() && Abs() == Run(cfg, s, events[..i])
      {
        assert events[..i + 1][..i] == events[..i];
        match events[i] {
          case Write(r, chm, ssd, deadTell) => RecordOne(r, chm, ssd, deadTell);
          case Idle(now) => IdleRound(now);
          case TimeChange => timeChange := true;
        }
      }
      assert events[..|events|] == events;
      FinalizeChunk();
      hide Run, Finalize, RoundTrip.ReadsBack, RoundTrip.SoundRun, RoundTrip.FinalizeSound;
      if s == Init(cfg, s.drives[0].used, s.drives[1].used) && cfg.Valid() && cfg.deltat != 0 && cfg.copies == 2 {
        forall i | 0 <= i < 2 && Sound(s, events, i) ensures RoundTrip.ReadsBack(cfg, s, events, Abs(), i) {
          RoundTrip.RunReadsBack(cfg, s.drives[0].used, s.drives[1].used, events, i);
        }
      }
    }
  }
}
