/** What each condition of the round trip is worth: step by step, what happens without it, as an
    exact condition wherever the step decides about a history. */
module RoundTripLimits {
  import opened ChunkNames
  import opened Options
  import opened RecorderState
  import opened ChunkReader
  import opened RoundTrip
  import RecorderSafety
  import N = RecorderNames

  // ---------- closing an open chunk

  lemma {:induction false} ItemsToCount(from: nat, body: seq<Byte>, es: seq<IndexEntry>, n: nat)
    requires n <= |es| && Tiled(es, n, from) && Total(es, n) <= |body|
    ensures |ItemsTo(from, body, es, n)| == n
  {
    if n > 0 { ItemsToCount(from, body, es, n - 1); }
  }

  lemma PendingCount(cfg: Config, s: State, d: Drive, history: seq<Item>)
    requires cfg.Valid() && Ok(cfg, s) && DriveOk(d) && OpenDrive(cfg, s, d, Some(history)) && IndexTiles(cfg, s)
    ensures |PendingItems(cfg, d, s.num, s.idx)| == s.num
  {
    var f := d.files[d.fp.value];
    FinalizedItems(cfg, f, s.num, s.idx);
    ItemsToCount(cfg.bodyStart, f.body, s.idx, s.num);
  }

  predicate Taken(ps: seq<Published>, path: string) {
    ps != [] && (ps[|ps| - 1].path == path || Taken(ps[..|ps| - 1], path))
  }

  lemma {:induction false} NotFreeIsTaken(ps: seq<Published>, path: string, k: nat)
    requires k < |ps| && ps[k].path == path
    ensures Taken(ps, path)
  {
    if k < |ps| - 1 { NotFreeIsTaken(ps[..|ps| - 1], path, k); }
  }

  lemma PublishedSnoc(from: nat, files: seq<ChunkFile>, ps: seq<Published>, p: Published)
    ensures PublishedItems(from, files, ps + [p])
      == PublishedItems(from, files, ps) + if p.file < |files| then AllItems(from, files[p.file]) else []
  {
    assert (ps + [p])[..|ps|] == ps;
  }

  lemma {:induction false} ReplacedFewer(from: nat, files: seq<ChunkFile>, ps: seq<Published>, path: string)
    requires forall k :: 0 <= k < |ps| ==> ps[k].file < |files| && Intact(from, files[ps[k].file])
    ensures var left, all := |PublishedItems(from, files, Replaced(ps, path))|, |PublishedItems(from, files, ps)|;
      left <= all && (Taken(ps, path) ==> left < all)
  {
    hide Intact, AllItems;
    if ps != [] {
      var init, last := ps[..|ps| - 1], ps[|ps| - 1];
      ReplacedFewer(from, files, init, path);
      FileHasItems(from, files[last.file]);
      PublishedSnoc(from, files, Replaced(init, path), last);
      ReplacedLast(ps, path);
      hide Replaced, Taken;
    }
  }

  lemma ReplacedLast(ps: seq<Published>, path: string)
    requires ps != []
    ensures var init, last := ps[..|ps| - 1], ps[|ps| - 1];
      && Replaced(ps, path) == (if last.path == path then Replaced(init, path) else Replaced(init, path) + [last])
      && Taken(ps, path) == (last.path == path || Taken(init, path))
  {}

  lemma FileHasItems(from: nat, f: ChunkFile)
    requires Intact(from, f)
    ensures |AllItems(from, f)| > 0
  {
    IntactDelivers(from, f.body, LiveEntries(f.index));
  }

  /** Renaming a chunk over a published file loses that file's records: what the drive holds
      afterwards is shorter than its history. */
  lemma PublishOver(cfg: Config, d: Drive, num: nat, idx: seq<IndexEntry>, fname: string, dir: string, path: string,
                    total: nat, history: seq<Item>)
    requires cfg.Valid() && DriveOk(d) && 0 < num <= |idx| && dir in d.dirs && !NameFree(d, path)
    requires OpenChunk(cfg, d, fname, total) && HoldsWithPending(cfg, d, num, idx, history)
    ensures var d' := CloseAndPublish(d, num, idx, fname, dir, path);
      |PublishedItems(cfg.bodyStart, d'.files, d'.published)| < |history|
  {
    hide LiveEntries, ItemsAt, PayloadAt, Replaced, Intact, FinalizeHeader;
    var d' := CloseAndPublish(d, num, idx, fname, dir, path);
    var h := d.fp.value;
    assert forall p <- d.published :: p.file != h;
    var kept := Replaced(d.published, path);
    assert forall p <- kept :: p in d.published;
    PublishedItemsFrame(cfg.bodyStart, d.files, d'.files, kept);
    assert d'.published[..|d'.published| - 1] == kept;
    ReplacedFewer(cfg.bodyStart, d.files, d.published, path);
    var p :| p in d.published && p.path == path;
    var k :| 0 <= k < |d.published| && d.published[k] == p;
    NotFreeIsTaken(d.published, path, k);
  }

  /** Without a directory to go to, a chunk is closed where it is, and nothing more is published. */
  lemma StaysStaged(cfg: Config, d: Drive, num: nat, idx: seq<IndexEntry>, fname: string, dir: string, path: string)
    requires DriveOk(d) && num <= |idx| && d.fp.Some? && dir !in d.dirs
    requires PublishedIntact(cfg, d) && !d.files[d.fp.value].closed
    ensures var d' := CloseAndPublish(d, num, idx, fname, dir, path);
      PublishedItems(cfg.bodyStart, d'.files, d'.published) == PublishedItems(cfg.bodyStart, d.files, d.published)
  {
    hide FinalizeHeader, Intact;
    assert forall p <- d.published :: p.file != d.fp.value;
    PublishedItemsFrame(cfg.bodyStart, d.files, CloseAndPublish(d, num, idx, fname, dir, path).files, d.published);
  }

  /** Closing the open chunk of a drive, by whatever step. */
  lemma FinalizeExact(cfg: Config, s: State, d: Drive, history: seq<Item>)
    requires cfg.Valid() && Ok(cfg, s) && DriveOk(d) && d.used && s.num > 0
    requires OpenDrive(cfg, s, d, Some(history)) && IndexTiles(cfg, s)
    ensures Holds(cfg, FinalizeDrive(cfg, s, d), history)
      <==> s.duration > 0 && s.subpath in d.dirs && NameFree(d, ChunkPath(s))
  {
    PendingCount(cfg, s, d, history);
    if s.duration == 0 {
    } else if s.subpath !in d.dirs {
      StaysStaged(cfg, d, s.num, s.idx, s.fname, s.subpath, ChunkPath(s));
    } else if NameFree(d, ChunkPath(s)) {
      PublishMoves(cfg, d, s.num, s.idx, s.fname, s.subpath, ChunkPath(s), Total(s.idx, s.num), history);
    } else {
      PublishOver(cfg, d, s.num, s.idx, s.fname, s.subpath, ChunkPath(s), Total(s.idx, s.num), history);
    }
  }

  /** Stopping with an open chunk publishes the whole history of its drive if and only if the
      measured duration is positive, the directory is there and the name is free. */
  lemma StopExact(cfg: Config, s: State, history: seq<Item>, i: nat)
    requires cfg.Valid() && i < 2 && Steady(cfg, s, For(i, history)) && s.drives[i].used && !s.sessionStarted
    ensures Holds(cfg, Finalize(cfg, s).drives[i], history)
      <==> s.duration > 0 && s.subpath in s.drives[i].dirs && NameFree(s.drives[i], ChunkPath(s))
  {
    FinalizeExact(cfg, s, s.drives[i], history);
  }

  /** Following a new mode publishes the whole history of a drive that was in use, whether it stays
      in use or not, under exactly the same condition. */
  lemma ChangeExact(cfg: Config, s: State, history: seq<Item>, i: nat, chm: bool, ssd: bool)
    requires cfg.Valid() && i < 2 && Steady(cfg, s, For(i, history)) && s.drives[i].used && !s.sessionStarted
    requires Commanded(s, chm, ssd).driveUpdated
    ensures Holds(cfg, UpdateDrives(cfg, s, chm, ssd).drives[i], history)
      <==> s.duration > 0 && s.subpath in s.drives[i].dirs && NameFree(s.drives[i], ChunkPath(s))
  {
    FinalizeExact(cfg, s, s.drives[i], history);
    N.UpdateFollows(cfg, s, chm, ssd, i);
    hide FinalizeDrive;
    HoldsFrame(cfg, FinalizeDrive(cfg, s, s.drives[i]), UpdateDrives(cfg, s, chm, ssd).drives[i], history);
  }

  lemma HoldsFrame(cfg: Config, d: Drive, d': Drive, history: seq<Item>)
    requires DriveOk(d) && DriveOk(d') && d'.files == d.files && d'.published == d.published
    ensures Holds(cfg, d, history) <==> Holds(cfg, d', history)
  {}

  /** An idle timeout publishes the whole history of a drive in use if and only if the time since
      the chunk was opened does not wrap to zero microseconds, the directory is there and the name
      is free. */
  lemma TimeoutExact(cfg: Config, s: State, history: seq<Item>, i: nat, now: nat)
    requires cfg.Valid() && i < 2 && Steady(cfg, s, For(i, history)) && s.drives[i].used && !s.sessionStarted
    requires IdleDue(cfg, s, now)
    ensures Holds(cfg, IdleTick(cfg, s, now).drives[i], history)
      <==> Usecs(now, s.t0) > 0 && s.subpath in s.drives[i].dirs
           && NameFree(s.drives[i], ChunkPath(s.(duration := Usecs(now, s.t0))))
  {
    var s1 := s.(duration := Usecs(now, s.t0));
    FinalizeExact(cfg, s1, s.drives[i], history);
    assert IdleTick(cfg, s, now).drives[i] == FinalizeDrive(cfg, s1, s.drives[i]).(out := None);
    hide FinalizeDrive;
    HoldsFrame(cfg, FinalizeDrive(cfg, s1, s.drives[i]), IdleTick(cfg, s, now).drives[i], history);
  }

  /** A rotation keeps the whole history of a drive in use if and only if its old chunk has a
      directory to go to and the name it is published under is free. */
  lemma RotationExact(cfg: Config, s: State, history: seq<Item>, i: nat, r: Record)
    requires cfg.Valid() && i < 2 && Steady(cfg, s, For(i, history)) && s.drives[i].used && !s.sessionStarted
    requires Rotates(cfg, s, r)
    ensures Yield(cfg, Placed(cfg, s, r).drives[i], 0, s.idx) == history
      <==> s.subpath in s.drives[i].dirs && NameFree(s.drives[i], ChunkPath(Measured(cfg, s, r)))
  {
    N.PlacedDrive(cfg, s, r, i);
    ReopenExact(cfg, N.MeasuredFor(s, r), s.drives[i], cfg.gmtime(r.tod), history);
    hide N.Reopened;
  }

  lemma ReopenExact(cfg: Config, s: State, d: Drive, tm: Civil, history: seq<Item>)
    requires cfg.Valid() && Ok(cfg, s) && DriveOk(d) && d.used && s.num > 0
    requires OpenDrive(cfg, s, d, Some(history)) && IndexTiles(cfg, s)
    ensures Yield(cfg, N.Reopened(cfg, s, d, tm), 0, s.idx) == history
      <==> s.subpath in d.dirs && NameFree(d, ChunkPath(s))
  {
    var d1 := CloseOld(cfg, s, d);
    PendingCount(cfg, s, d, history);
    if s.subpath !in d.dirs {
      StaysStaged(cfg, d, s.num, s.idx, s.fname, s.subpath, ChunkPath(s));
    } else if NameFree(d, ChunkPath(s)) {
      PublishMoves(cfg, d, s.num, s.idx, s.fname, s.subpath, ChunkPath(s), Total(s.idx, s.num), history);
    } else {
      PublishOver(cfg, d, s.num, s.idx, s.fname, s.subpath, ChunkPath(s), Total(s.idx, s.num), history);
    }
    PublishedInFiles(cfg, s, d);
    NewChunkIsEmpty(cfg, d1, Stem(tm), s.idx);
    YieldFrame(cfg, OpenNew(d1, Stem(tm)), N.Reopened(cfg, s, d, tm), s.idx);
  }

  lemma YieldFrame(cfg: Config, d: Drive, d': Drive, idx: seq<IndexEntry>)
    requires DriveOk(d) && d' == d.(dirs := d'.dirs)
    ensures DriveOk(d') && Yield(cfg, d', 0, idx) == Yield(cfg, d, 0, idx)
  {}

  lemma PublishedInFiles(cfg: Config, s: State, d: Drive)
    requires Ok(cfg, s) && DriveOk(d) && d.used && d.fp.Some? && PublishedIntact(cfg, d)
    requires s.fname in d.staging && d.staging[s.fname] == d.fp.value
    ensures forall p <- CloseOld(cfg, s, d).published :: p.file < |d.files|
  {}

  lemma NewChunkIsEmpty(cfg: Config, d: Drive, stem: string, idx: seq<IndexEntry>)
    requires DriveOk(d) && d.used && forall p <- d.published :: p.file < |d.files|
    ensures Yield(cfg, OpenNew(d, stem), 0, idx) == PublishedItems(cfg.bodyStart, d.files, d.published)
  {
    PublishedItemsFrame(cfg.bodyStart, d.files, OpenNew(d, stem).files, d.published);
  }

  // ---------- records that cannot be read

  /** A chunk is read up to its first record of time zero: what follows is hidden. */
  lemma ZeroTimeHides(cfg: Config, f: ChunkFile, num: nat, idx: seq<IndexEntry>, k: nat)
    requires f.index == [] && k < num <= |idx| && idx[k].timestamp == 0
    requires forall j :: 0 <= j < k ==> LiveEntry(idx[j])
    ensures AllItems(cfg.bodyStart, FinalizeHeader(f, num, idx)) == ItemsTo(cfg.bodyStart, f.body, idx, k)
  {
    var index := FinalizeHeader(f, num, idx).index;
    assert index == idx[..num] && index[..k] == idx[..k];
    forall e <- index[..k] ensures LiveEntry(e) {}
    LiveEntriesOf(index[..k]);
    LiveEntriesStep(index, k);
    ItemsOfPrefix(cfg.bodyStart, f.body, idx, k);
  }

  lemma UnreadableEntry(cfg: Config, f: ChunkFile, num: nat, idx: seq<IndexEntry>, r: Record)
    requires cfg.Valid() && num < |idx| && Tiled(idx, num, cfg.bodyStart)
    requires f.index == [] && |f.body| == Total(idx, num) && (r.tod == 0 || r.payload == [])
    ensures AllItems(cfg.bodyStart, FinalizeHeader(f.(body := f.body + r.payload), num + 1,
                                                   idx[num := EntryOf(r, cfg.bodyStart + Total(idx, num))]))
      == AllItems(cfg.bodyStart, FinalizeHeader(f, num, idx))
  {
    var idx' := idx[num := EntryOf(r, cfg.bodyStart + Total(idx, num))];
    var f' := f.(body := f.body + r.payload);
    FinalizedItems(cfg, f, num, idx);
    ItemsToExtend(cfg.bodyStart, f.body, r.payload, idx, num);
    PrefixFrame(cfg.bodyStart, f'.body, idx, idx', num);
    forall j | 0 <= j < num ensures LiveEntry(idx'[j]) { TiledEntry(idx, num, cfg.bodyStart, j); }
    hide Tiled, Total, ItemsTo, AllItems, FinalizeHeader;
    if r.tod == 0 {
      ZeroTimeHides(cfg, f', num + 1, idx', num);
    } else {
      EmptyEntryAdds(cfg, f', num, idx');
    }
  }

  /** An entry without a payload adds nothing to what is read. */
  lemma EmptyEntryAdds(cfg: Config, f: ChunkFile, num: nat, idx: seq<IndexEntry>)
    requires f.index == [] && num < |idx| && LiveEntry(idx[num]) && idx[num].recordlength == 0
    requires forall j :: 0 <= j < num ==> LiveEntry(idx[j])
    ensures AllItems(cfg.bodyStart, FinalizeHeader(f, num + 1, idx)) == ItemsTo(cfg.bodyStart, f.body, idx, num)
  {
    hide ItemsAt, LiveEntries, LiveEntry;
    forall e <- idx[..num + 1] ensures LiveEntry(e) {}
    LiveEntriesOf(idx[..num + 1]);
    assert FinalizeHeader(f, num + 1, idx).index == idx[..num + 1];
    ItemsOfPrefix(cfg.bodyStart, f.body, idx, num + 1);
  }

  lemma UnreadableWrite(cfg: Config, d: Drive, num: nat, idx: seq<IndexEntry>, idx': seq<IndexEntry>,
          fname: string, r: Record)
    requires cfg.Valid() && num < |idx| && (r.tod == 0 || r.payload == [])
    requires DriveOk(d) && d.used && d.out == d.fp && Tiled(idx, num, cfg.bodyStart)
    requires OpenChunk(cfg, d, fname, Total(idx, num)) && PublishedIntact(cfg, d)
    requires idx' == idx[num := EntryOf(r, cfg.bodyStart + Total(idx, num))]
    ensures Yield(cfg, WriteDrive(d, r), num + 1, idx') == Yield(cfg, d, num, idx)
  {
    hide Tiled, Total, AllItems, FinalizeHeader, Intact, EntryOf, PublishedItems;
    var f := d.files[d.fp.value];
    UnreadableEntry(cfg, f, num, idx, r);
    WriteKeepsPublished(cfg, d, r);
  }

  /** Writing a record adds its item behind what a drive in use would yield if and only if the
      record has a time and a payload. */
  lemma WriteExact(cfg: Config, s: State, history: seq<Item>, i: nat, r: Record)
    requires cfg.Valid() && i < 2 && Ready(cfg, s, For(i, history)) && s.drives[i].used
    ensures Yield(cfg, WriteDrive(s.drives[i], r), s.num + 1, AppendIndex(cfg, s, r).idx) == history + [ItemOf(r)]
      <==> r.tod != 0 && r.payload != []
  {
    hide Yield, Tiled, Total, WriteDrive, OpenChunk, PublishedIntact, ItemOf;
    var d, idx' := s.drives[i], AppendIndex(cfg, s, r).idx;
    assert Yield(cfg, d, s.num, s.idx) == history;
    if r.tod != 0 && r.payload != [] {
      YieldAfterWrite(cfg, d, s.num, s.idx, idx', s.fname, r);
    } else {
      UnreadableWrite(cfg, d, s.num, s.idx, idx', s.fname, r);
      assert |history| != |history + [ItemOf(r)]|;
    }
  }

  // ---------- chunks whose index was forgotten

  /** What a mode change at duration zero costs, whether the drive stays in use or not: behind the
      next record, at least the records of the open chunk are missing from what is published. */
  lemma UnsoundChangeLoses(cfg: Config, s: State, history: seq<Item>, i: nat, r: Record, chm: bool, ssd: bool)
    requires cfg.Valid() && cfg.deltat != 0 && i < 2 && Steady(cfg, s, For(i, history))
    requires s.drives[i].used && !s.sessionStarted && s.duration == 0 && Commanded(s, chm, ssd).driveUpdated
    ensures var d' := Placed(cfg, UpdateDrives(cfg, s, chm, ssd), r).drives[i];
      |PublishedItems(cfg.bodyStart, d'.files, d'.published)| <= |history| - s.num
  {
    var d := s.drives[i];
    PendingCount(cfg, s, d, history);
    var s1 := UpdateDrives(cfg, s, chm, ssd);
    N.UpdateFollows(cfg, s, chm, ssd, i);
    N.PlacedDrive(cfg, s1, r, i);
    LostChunk(cfg, N.MeasuredFor(s1, r), s1.drives[i], cfg.gmtime(r.tod));
  }

  /** Closing a chunk whose index was forgotten publishes a file without records, if any. */
  lemma LostChunk(cfg: Config, s: State, d: Drive, tm: Civil)
    requires cfg.Valid() && Ok(cfg, s) && DriveOk(d) && s.num == 0
    requires PublishedIntact(cfg, d) && d.fp.Some? && s.fname in d.staging && d.staging[s.fname] == d.fp.value
    requires !d.files[d.fp.value].closed && d.files[d.fp.value].index == []
    ensures var d' := N.Reopened(cfg, s, d, tm);
      |PublishedItems(cfg.bodyStart, d'.files, d'.published)| <= |PublishedItems(cfg.bodyStart, d.files, d.published)|
  {
    hide Replaced, Intact;
    var d' := N.Reopened(cfg, s, d, tm);
    if d.used {
      var h := d.fp.value;
      assert forall p <- d.published :: p.file != h;
      if s.subpath in d.dirs {
        var kept := Replaced(d.published, ChunkPath(s));
        PublishedItemsFrame(cfg.bodyStart, d.files, d'.files, kept);
        assert d'.published[..|d'.published| - 1] == kept;
        assert AllItems(cfg.bodyStart, d'.files[h]) == [];
        ReplacedFewer(cfg.bodyStart, d.files, d.published, ChunkPath(s));
      } else {
        PublishedItemsFrame(cfg.bodyStart, d.files, d'.files, d.published);
      }
    }
  }

  /** A file without an index, which is not going to be finalized with one. */
  ghost predicate Forgotten(d: Drive, h: nat) {
    h < |d.files| && d.files[h].index == [] && (d.fp == Some(h) ==> !d.used)
  }

  lemma FinalizeForgets(cfg: Config, s: State, d: Drive, h: nat)
    requires Ok(cfg, s) && DriveOk(d) && Forgotten(d, h)
    ensures Forgotten(FinalizeDrive(cfg, s, d), h)
  {
    hide FinalizeHeader, Replaced, ChunkPath;
  }

  lemma ReopenForgets(cfg: Config, s: State, d: Drive, tm: Civil, h: nat)
    requires Ok(cfg, s) && DriveOk(d) && h < |d.files| && d.files[h].index == []
    requires d.used && d.fp == Some(h) ==> s.num == 0
    ensures Forgotten(N.Reopened(cfg, s, d, tm), h)
  {
    hide Replaced, ChunkPath;
  }

  /** Following a new mode also forgets what has been indexed. */
  lemma FollowedForgets(cfg: Config, s: State, chm: bool, ssd: bool, i: nat, h: nat)
    requires Ok(cfg, s) && i < 2 && Forgotten(s.drives[i], h)
    ensures var s1, d := UpdateDrives(cfg, s, chm, ssd), N.Followed(cfg, s, chm, ssd, i);
      && h < |d.files| && d.files[h].index == []
      && (d.used && d.fp == Some(h) ==> s1.driveUpdated && s1.num == 0)
  {
    FinalizeForgets(cfg, s, s.drives[i], h);
    hide FinalizeDrive;
  }

  lemma StepForgets(cfg: Config, s: State, e: Event, i: nat, h: nat)
    requires cfg.deltat != 0 && Ok(cfg, s) && i < 2 && Forgotten(s.drives[i], h)
    ensures Forgotten(Step(cfg, s, e).drives[i], h)
  {
    hide Step, N.Reopened, FinalizeDrive, UpdateDrives;
    N.StepNames(cfg, s, e, i);
    match e
    case Write(r, chm, ssd, _) =>
      var s1 := UpdateDrives(cfg, s, chm, ssd);
      FollowedForgets(cfg, s, chm, ssd, i, h);
      ReopenForgets(cfg, N.MeasuredFor(s1, r), N.Followed(cfg, s, chm, ssd, i), cfg.gmtime(r.tod), h);
    case Idle(now) => FinalizeForgets(cfg, s.(duration := Usecs(now, s.t0)), s.drives[i], h);
    case TimeChange =>
  }

  lemma {:induction false} RunForgets(cfg: Config, s: State, es: seq<Event>, i: nat, h: nat)
    requires cfg.deltat != 0 && Ok(cfg, s) && i < 2 && Forgotten(s.drives[i], h)
    ensures Forgotten(Run(cfg, s, es).drives[i], h) && Forgotten(Finalize(cfg, Run(cfg, s, es)).drives[i], h)
  {
    hide Step, Forgotten, FinalizeDrive;
    if es != [] {
      RunForgets(cfg, s, es[..|es| - 1], i, h);
      StepForgets(cfg, Run(cfg, s, es[..|es| - 1]), es[|es| - 1], i, h);
    }
    FinalizeForgets(cfg, Run(cfg, s, es), Run(cfg, s, es).drives[i], h);
  }

  /** For good: the file those records were written to yields nothing after any later run and the
      last finalization, whether it got published or not. */
  lemma UnsoundChangeIsFinal(cfg: Config, s: State, history: seq<Item>, i: nat, e: Event, later: seq<Event>)
    requires cfg.Valid() && cfg.deltat != 0 && i < 2 && Steady(cfg, s, For(i, history)) && e.Write?
    requires s.drives[i].used && !s.sessionStarted && s.duration == 0 && Commanded(s, e.chm, e.ssd).driveUpdated
    ensures var h, d' := s.drives[i].fp.value, Finalize(cfg, Run(cfg, Step(cfg, s, e), later)).drives[i];
      && |PendingItems(cfg, s.drives[i], s.num, s.idx)| == s.num
      && h < |d'.files| && AllItems(cfg.bodyStart, d'.files[h]) == []
  {
    var h := s.drives[i].fp.value;
    var s1 := UpdateDrives(cfg, s, e.chm, e.ssd);
    PendingCount(cfg, s, s.drives[i], history);
    N.UpdateFollows(cfg, s, e.chm, e.ssd, i);
    assert N.Followed(cfg, s, e.chm, e.ssd, i).files == s.drives[i].files;
    hide Step, N.Reopened, UpdateDrives, Run, Finalize;
    ReopenForgets(cfg, N.MeasuredFor(s1, e.r), N.Followed(cfg, s, e.chm, e.ssd, i), cfg.gmtime(e.r.tod), h);
    N.StepNames(cfg, s, e, i);
    RunForgets(cfg, Step(cfg, s, e), later, i, h);
  }

  lemma RotatedUnsound(cfg: Config, s: State, r: Record, i: nat)
    requires i < 2 && Ok(cfg, s) && AnyUsed(s) && Rotates(cfg, s, r)
    ensures !FinalizeSound(Placed(cfg, s, r), i)
  {
    RecorderSafety.PlacedDrives(cfg, s, r);
    assert Placed(cfg, s, r).duration == 0;
  }

  lemma WriteKeepsUnsound(cfg: Config, s: State, r: Record, dead: nat, i: nat)
    requires i < 2 && Ok(cfg, s) && !FinalizeSound(s, i)
    ensures !FinalizeSound(Reposition(cfg, WriteAll(cfg, AppendIndex(cfg, s, r), r), dead), i)
  {
    hide WriteDrive, Tell, WriteAll, AppendIndex, FinalizeSound;
    var s1 := AppendIndex(cfg, s, r);
    AppendKeepsDrives(cfg, s, r);
    WriteAllKeepsOpen(cfg, s1, r);
    SameSound(s, s1, i);
    SameSound(s1, WriteAll(cfg, s1, r), i);
    SameSound(WriteAll(cfg, s1, r), Reposition(cfg, WriteAll(cfg, s1, r), dead), i);
  }

  lemma AppendKeepsDrives(cfg: Config, s: State, r: Record)
    requires Ok(cfg, s)
    ensures SamePath(s, AppendIndex(cfg, s, r)) && AppendIndex(cfg, s, r).drives == s.drives
  {}

  predicate SamePath(s: State, s': State) {
    s'.subpath == s.subpath && s'.fname == s.fname && s'.duration == s.duration
  }

  ghost predicate SameOpen(d: Drive, d': Drive) {
    d'.used == d.used && d'.fp == d.fp && d'.published == d.published && d'.dirs == d.dirs
  }

  lemma WriteKeepsOpen(d: Drive, r: Record)
    requires DriveOk(d)
    ensures SameOpen(d, WriteDrive(d, r))
  {}

  lemma WriteAllKeepsOpen(cfg: Config, s: State, r: Record)
    requires Ok(cfg, s)
    ensures var s' := WriteAll(cfg, s, r);
      SamePath(s, s') && SameOpen(s.drives[0], s'.drives[0]) && SameOpen(s.drives[1], s'.drives[1])
  {
    WriteKeepsOpen(s.drives[0], r);
    WriteKeepsOpen(s.drives[1], r);
    hide WriteDrive;
  }

  lemma SameSound(s: State, s': State, i: nat)
    requires i < 2 && |s.drives| == |s'.drives| == 2 && SamePath(s, s')
    requires SameOpen(s.drives[0], s'.drives[0]) && SameOpen(s.drives[1], s'.drives[1])
    ensures FinalizeSound(s, i) <==> FinalizeSound(s', i)
  {
    assert ChunkPath(s') == ChunkPath(s);
    hide ChunkPath;
  }

  /** The zero duration is not exotic: a chunk that holds a single record always has it. */
  lemma FreshChunkUnsound(cfg: Config, s: State, e: Event, i: nat)
    requires i < 2 && Ok(cfg, s) && e.Write?
    requires var s1 := UpdateDrives(cfg, s, e.chm, e.ssd); AnyUsed(s1) && Rotates(cfg, s1, e.r)
    ensures !FinalizeSound(WriteRecord(cfg, s, e), i)
  {
    var s1 := UpdateDrives(cfg, s, e.chm, e.ssd);
    RotatedUnsound(cfg, s1, e.r, i);
    WriteKeepsUnsound(cfg, Placed(cfg, s1, e.r), e.r, e.deadTell, i);
  }

  /** With the first drive switched off behind its closed stream, the next offset is right if
      and only if the closed stream happens to answer it. */
  lemma UnsoundTell(cfg: Config, s: State, r: Record, dead: nat, h: Histories)
    requires cfg.Valid() && cfg.copies == 2 && Ready(cfg, s, h) && r.tod != 0 && r.payload != []
    requires !TellSound(s) && s.drives[0].files[s.drives[0].out.value].closed
    ensures var s' := Reposition(cfg, WriteAll(cfg, AppendIndex(cfg, s, r), r), dead);
      IndexOk(cfg, s') <==> dead == cfg.bodyStart + Total(s'.idx, s'.num)
  {
    AppendTiles(cfg, s, r);
  }

  /** Without a time difference no chunk is ever opened, whatever happens. */
  lemma {:induction false} NoDeltaRecordsNothing(cfg: Config, chm: bool, ssd: bool, es: seq<Event>, i: nat)
    requires cfg.deltat == 0 && i < 2
    ensures Untouched(Run(cfg, Init(cfg, chm, ssd), es).drives[i])
  {
    if es != [] {
      NoDeltaRecordsNothing(cfg, chm, ssd, es[..|es| - 1], i);
      NoDeltaStep(cfg, Run(cfg, Init(cfg, chm, ssd), es[..|es| - 1]), es[|es| - 1], i);
    }
  }

  /** A location that never had a stream. */
  ghost predicate Untouched(d: Drive) {
    d.fp == None && d.out == None && d.files == [] && d.published == []
  }

  lemma NoDeltaStep(cfg: Config, s: State, e: Event, i: nat)
    requires Ok(cfg, s) && cfg.deltat == 0 && i < 2 && Untouched(s.drives[i])
    ensures Untouched(Step(cfg, s, e).drives[i])
  {
    match e
    case Write(r, chm, ssd, dead) =>
      var s1 := UpdateDrives(cfg, s, chm, ssd);
      NoDeltaUpdate(cfg, s, chm, ssd, i);
      hide UpdateDrives, WriteAll, AppendIndex, Reposition, Untouched;
      assert Placed(cfg, s1, r) == s1;
      NoDeltaWrite(cfg, s1, r, dead, i);
    case Idle(now) =>
    case TimeChange =>
  }

  lemma NoDeltaUpdate(cfg: Config, s: State, chm: bool, ssd: bool, i: nat)
    requires Ok(cfg, s) && i < 2 && Untouched(s.drives[i])
    ensures Untouched(UpdateDrives(cfg, s, chm, ssd).drives[i])
  {
    N.UpdateFollows(cfg, s, chm, ssd, i);
    hide UpdateDrives;
  }

  lemma NoDeltaWrite(cfg: Config, s: State, r: Record, dead: nat, i: nat)
    requires Ok(cfg, s) && i < 2 && Untouched(s.drives[i])
    ensures Untouched(Reposition(cfg, WriteAll(cfg, AppendIndex(cfg, s, r), r), dead).drives[i])
  {}

  /** A record is written to a location in use with an open stream if and only if the configured
      number of copies reaches that location, though it is indexed in any case. */
  lemma FewerCopiesLose(cfg: Config, s: State, r: Record, i: nat)
    requires Ok(cfg, s) && i < 2 && r.payload != []
    requires s.drives[i].used && s.drives[i].out.Some?
    ensures WriteAll(cfg, s, r).drives[i].files != s.drives[i].files <==> i < cfg.copies
  {
    var d := s.drives[i];
    var h := d.out.value;
    assert WriteDrive(d, r).files[h].body == d.files[h].body + r.payload;
    assert |WriteDrive(d, r).files[h].body| > |d.files[h].body|;
  }
}
