/** What is read back from the published chunks is what was recorded.

    The invariant relates each drive to the history of records handled while it was in use:
    the items of its published files, followed by the items its open chunk would yield if it
    were finalized now, are exactly that history. */
module RoundTrip {
  import opened ChunkNames
  import opened Options
  import opened RecorderState
  import opened ChunkReader
  import RecorderSafety

  function ItemOf(r: Record): Item { Item(r.tod, r.kind, r.payload) }

  // ---------- index entries that tile the file

  /** The lengths of the first n records, together. */
  function Total(es: seq<IndexEntry>, n: nat): nat
    requires n <= |es|
  {
    if n == 0 then 0 else Total(es, n - 1) + es[n - 1].recordlength
  }

  /** Each of the first n entries starts where the earlier ones end, and none is blank. */
  ghost predicate Tiled(es: seq<IndexEntry>, n: nat, from: nat)
    requires n <= |es|
  {
    n == 0 ||
    (var e := es[n - 1];
     Tiled(es, n - 1, from) && e.byteoffset == from + Total(es, n - 1) && e.timestamp != 0 && e.recordlength > 0)
  }

  /** The items of the first n entries. */
  function ItemsTo(from: nat, body: seq<Byte>, es: seq<IndexEntry>, n: nat): seq<Item>
    requires n <= |es|
  {
    if n == 0 then [] else ItemsTo(from, body, es, n - 1) + ItemAt(from, body, es[n - 1])
  }

  lemma {:induction false} PrefixFrame(from: nat, body: seq<Byte>, es: seq<IndexEntry>, es': seq<IndexEntry>, n: nat)
    requires n <= |es| && n <= |es'| && forall k :: 0 <= k < n ==> es[k] == es'[k]
    ensures Total(es, n) == Total(es', n) && Tiled(es, n, from) == Tiled(es', n, from)
    ensures ItemsTo(from, body, es, n) == ItemsTo(from, body, es', n)
  {
    if n > 0 { PrefixFrame(from, body, es, es', n - 1); }
  }

  /** Entry k of a tiling starts at `from` plus the lengths of the k earlier records and ends
      within the total; it is never blank. */
  lemma {:induction false} TiledEntry(es: seq<IndexEntry>, n: nat, from: nat, k: nat)
    requires n <= |es| && Tiled(es, n, from) && k < n
    ensures es[k].byteoffset == from + Total(es, k) && es[k].timestamp != 0 && es[k].recordlength > 0
    ensures es[k].byteoffset + es[k].recordlength <= from + Total(es, n)
  {
    if k < n - 1 { TiledEntry(es, n - 1, from, k); }
  }

  /** The byte ranges of two entries never overlap. */
  lemma {:induction false} TiledDisjoint(es: seq<IndexEntry>, n: nat, from: nat, j: nat, k: nat)
    requires n <= |es| && Tiled(es, n, from) && j < k < n
    ensures es[j].byteoffset + es[j].recordlength <= es[k].byteoffset
  {
    if k == n - 1 {
      TiledEntry(es, k, from, j);
    } else {
      TiledDisjoint(es, n - 1, from, j, k);
    }
  }

  lemma {:induction false} LiveEntriesOf(es: seq<IndexEntry>)
    requires forall e <- es :: LiveEntry(e)
    ensures LiveEntries(es) == es
  {
    if es != [] { LiveEntriesOf(es[1..]); }
  }

  lemma TiledLive(es: seq<IndexEntry>, n: nat, from: nat)
    requires n <= |es| && Tiled(es, n, from) && from > 0
    ensures LiveEntries(es[..n]) == es[..n]
  {
    forall k | 0 <= k < n ensures LiveEntry(es[..n][k]) { TiledEntry(es, n, from, k); }
    LiveEntriesOf(es[..n]);
  }

  lemma {:induction false} ItemsOfPrefix(from: nat, body: seq<Byte>, es: seq<IndexEntry>, n: nat)
    requires n <= |es|
    ensures ItemsAt(from, body, es[..n]) == ItemsTo(from, body, es, n)
  {
    if n > 0 {
      ItemsOfPrefix(from, body, es, n - 1);
      assert es[..n][..n - 1] == es[..n - 1];
    }
  }

  lemma {:induction false} ItemsToExtend(from: nat, body: seq<Byte>, more: seq<Byte>, es: seq<IndexEntry>, n: nat)
    requires n <= |es| && Tiled(es, n, from) && Total(es, n) <= |body|
    ensures ItemsTo(from, body + more, es, n) == ItemsTo(from, body, es, n)
  {
    if n > 0 {
      ItemsToExtend(from, body, more, es, n - 1);
      var e := es[n - 1];
      var o := e.byteoffset - from;
      assert (body + more)[o..o + e.recordlength] == body[o..o + e.recordlength];
    }
  }

  // ---------- what a drive holds

  /** All published files of a drive, read in publication order. */
  function PublishedItems(from: nat, files: seq<ChunkFile>, ps: seq<Published>): seq<Item> {
    if ps == [] then []
    else PublishedItems(from, files, ps[..|ps| - 1])
         + if ps[|ps| - 1].file < |files| then AllItems(from, files[ps[|ps| - 1].file]) else []
  }

  /** The items the open chunk would yield if its header were finalized now. */
  function PendingItems(cfg: Config, d: Drive, num: nat, idx: seq<IndexEntry>): seq<Item>
    requires DriveOk(d) && num <= |idx|
  {
    if d.fp.Some? then AllItems(cfg.bodyStart, FinalizeHeader(d.files[d.fp.value], num, idx)) else []
  }

  /** A file holds records, and every indexed one can be fetched. */
  ghost predicate Intact(from: nat, f: ChunkFile) {
    LiveEntries(f.index) != [] && forall e <- LiveEntries(f.index) :: PayloadAt(from, f.body, e).Some?
  }

  ghost predicate PublishedIntact(cfg: Config, d: Drive)
    requires DriveOk(d)
  {
    forall p <- d.published :: p.file < |d.files| && d.files[p.file].closed && Intact(cfg.bodyStart, d.files[p.file])
  }

  /** The published files of a drive, read in publication order, yield `history`. */
  ghost predicate Holds(cfg: Config, d: Drive, history: seq<Item>)
    requires DriveOk(d)
  {
    PublishedIntact(cfg, d) && PublishedItems(cfg.bodyStart, d.files, d.published) == history
  }

  /** What a drive would yield if its open chunk were published now. */
  function Yield(cfg: Config, d: Drive, num: nat, idx: seq<IndexEntry>): seq<Item>
    requires DriveOk(d) && num <= |idx|
  {
    PublishedItems(cfg.bodyStart, d.files, d.published) + PendingItems(cfg, d, num, idx)
  }

  ghost predicate HoldsWithPending(cfg: Config, d: Drive, num: nat, idx: seq<IndexEntry>, history: seq<Item>)
    requires DriveOk(d) && num <= |idx|
  {
    PublishedIntact(cfg, d) && Yield(cfg, d, num, idx) == history
  }

  lemma {:induction false} PublishedItemsFrame(from: nat, files: seq<ChunkFile>, files': seq<ChunkFile>,
          ps: seq<Published>)
    requires forall p <- ps :: p.file < |files| && p.file < |files'|
    requires forall p <- ps :: files'[p.file] == files[p.file]
    ensures PublishedItems(from, files, ps) == PublishedItems(from, files', ps)
  {
    if ps != [] { PublishedItemsFrame(from, files, files', ps[..|ps| - 1]); }
  }

  /** The open chunk of a location: not indexed yet, holding exactly the indexed payloads. */
  ghost predicate OpenChunk(cfg: Config, d: Drive, fname: string, total: nat)
    requires DriveOk(d)
  {
    && d.fp.Some?
    && (var f := d.files[d.fp.value];
        && !f.closed && f.index == [] && |f.body| == total)
    && fname in d.staging && d.staging[fname] == d.fp.value
  }

  // ---------- finalizing one drive

  lemma FinalizedIntact(cfg: Config, f: ChunkFile, num: nat, idx: seq<IndexEntry>)
    requires cfg.Valid() && 0 < num <= |idx| && Tiled(idx, num, cfg.bodyStart)
    requires f.index == [] && |f.body| == Total(idx, num)
    ensures Intact(cfg.bodyStart, FinalizeHeader(f, num, idx).(closed := true))
  {
    var f' := FinalizeHeader(f, num, idx).(closed := true);
    assert f'.index == idx[..num];
    TiledLive(idx, num, cfg.bodyStart);
    forall k | 0 <= k < num ensures PayloadAt(cfg.bodyStart, f'.body, idx[..num][k]).Some? {
      TiledEntry(idx, num, cfg.bodyStart, k);
    }
  }

  /** Nothing is published under a path yet. */
  predicate NameFree(d: Drive, path: string) {
    forall p <- d.published :: p.path != path
  }

  lemma {:induction false} ReplacedNone(ps: seq<Published>, path: string)
    requires forall k :: 0 <= k < |ps| ==> ps[k].path != path
    ensures Replaced(ps, path) == ps
  {
    if ps != [] {
      ReplacedNone(ps[..|ps| - 1], path);
      assert ps == ps[..|ps| - 1] + [ps[|ps| - 1]];
    }
  }

  /** Closing a chunk and renaming it to a free name in an existing directory moves its pending items
      to the published ones. */
  lemma PublishMoves(cfg: Config, d: Drive, num: nat, idx: seq<IndexEntry>, fname: string, dir: string, path: string,
                     total: nat, history: seq<Item>)
    requires DriveOk(d) && 0 < num <= |idx| && dir in d.dirs && NameFree(d, path)
    requires OpenChunk(cfg, d, fname, total) && HoldsWithPending(cfg, d, num, idx, history)
    requires cfg.Valid() && Tiled(idx, num, cfg.bodyStart) && total == Total(idx, num)
    ensures Holds(cfg, CloseAndPublish(d, num, idx, fname, dir, path), history)
  {
    hide Tiled, Total, LiveEntries, ItemsAt, PayloadAt, Replaced, Intact, FinalizeHeader;
    var d' := CloseAndPublish(d, num, idx, fname, dir, path);
    var h := d.fp.value;
    FinalizedIntact(cfg, d.files[h], num, idx);
    assert forall p <- d.published :: p.file != h;
    ReplacedNone(d.published, path);
    assert forall p <- d'.published :: p in d.published || p == Published(path, h);
    PublishedItemsFrame(cfg.bodyStart, d.files, d'.files, d.published);
    assert d'.published[..|d'.published| - 1] == d.published;
  }

  lemma OpenNewHolds(cfg: Config, d: Drive, fname: string, history: seq<Item>)
    requires cfg.Valid() && DriveOk(d) && Holds(cfg, d, history)
    requires d.used
    ensures var d' := OpenNew(d, fname);
      && OpenChunk(cfg, d', fname, 0) && d'.out == d'.fp
      && forall idx: seq<IndexEntry> :: HoldsWithPending(cfg, d', 0, idx, history)
  {
    var d' := OpenNew(d, fname);
    PublishedItemsFrame(cfg.bodyStart, d.files, d'.files, d.published);
  }

  // ---------- the invariant

  /** The history asked for of a drive, or nothing. */
  type Asked = Option<seq<Item>>

  ghost predicate ClosedDrive(cfg: Config, d: Drive, history: Asked)
    requires DriveOk(d)
  {
    d.fp == None && (history.Some? ==> Holds(cfg, d, history.value))
  }

  /** An open location: its chunk carries the indexed records, which complete the history. */
  ghost predicate OpenDrive(cfg: Config, s: State, d: Drive, history: Asked)
    requires Ok(cfg, s) && DriveOk(d)
  {
    && OpenChunk(cfg, d, s.fname, Total(s.idx, s.num)) && d.out == d.fp
    && (history.Some? ==> HoldsWithPending(cfg, d, s.num, s.idx, history.value))
  }

  ghost predicate SteadyDrive(cfg: Config, s: State, d: Drive, history: Asked)
    requires Ok(cfg, s) && DriveOk(d)
  {
    if d.used && !s.sessionStarted then OpenDrive(cfg, s, d, history) else ClosedDrive(cfg, d, history)
  }

  /** The index of the open chunk tiles it, up to the offset of the next record. */
  ghost predicate IndexOk(cfg: Config, s: State)
    requires Ok(cfg, s)
  {
    IndexTiles(cfg, s) && s.pos == cfg.bodyStart + Total(s.idx, s.num)
  }

  ghost predicate IndexTiles(cfg: Config, s: State)
    requires Ok(cfg, s)
  {
    Tiled(s.idx, s.num, cfg.bodyStart)
  }

  type Histories = h: seq<Asked> | |h| == 2 witness [None, None]

  /** A history asked for of one drive only. */
  function For(i: nat, history: seq<Item>): Histories {
    [if i == 0 then Some(history) else None, if i == 1 then Some(history) else None]
  }

  /** A record is in the open chunk of the locations in use. */
  ghost predicate Steady(cfg: Config, s: State, h: Histories) {
    Settled(cfg, s, h) && (AnyUsed(s) && !s.sessionStarted ==> s.num > 0)
  }

  /** The same, except that the open chunk may still be empty. */
  ghost predicate Settled(cfg: Config, s: State, h: Histories) {
    && Ok(cfg, s)
    && (AnyUsed(s) && !s.sessionStarted ==> IndexOk(cfg, s))
    && SteadyDrive(cfg, s, s.drives[0], h[0])
    && SteadyDrive(cfg, s, s.drives[1], h[1])
  }

  // ---------- the conditions on a run

  /** A location in use has an open chunk. */
  predicate ChunkOpen(s: State)
    requires |s.drives| == 2
  {
    (s.drives[0].used && s.drives[0].fp.Some?) || (s.drives[1].used && s.drives[1].fp.Some?)
  }

  /** Renamed now, the open chunk of a drive would find its directory and replace nothing. */
  predicate Lands(s: State, i: nat)
    requires |s.drives| == 2 && i < 2
  {
    s.drives[i].used && s.drives[i].fp.Some? ==>
      s.subpath in s.drives[i].dirs && NameFree(s.drives[i], ChunkPath(s))
  }

  predicate AskedLand(s: State, h: Histories)
    requires |s.drives| == 2
  {
    (h[0].Some? ==> Lands(s, 0)) && (h[1].Some? ==> Lands(s, 1))
  }

  /** `metadata_chunk_finalize` leaves a chunk open, with its index forgotten, when the measured
      duration is zero; its rename replaces a file of the same name, and fails without a directory. */
  predicate FinalizeSound(s: State, i: nat)
    requires |s.drives| == 2 && i < 2
  {
    ChunkOpen(s) ==> s.duration > 0 && Lands(s, i)
  }

  /** The offset scan asks the first location with a stream, even if it was switched off. */
  predicate TellSound(s: State)
    requires |s.drives| == 2
  {
    s.drives[0].out.Some? && s.drives[1].used ==> s.drives[0].used
  }

  /** Conditions on one trip round the loop, for what is asked of drive i, that a caller can check
      before it. */
  predicate SoundStep(cfg: Config, s: State, e: Event, i: nat)
    requires Ok(cfg, s) && i < 2
  {
    match e
    case Write(r, chm, ssd, _) =>
      && r.tod != 0 && r.payload != []
      && (Commanded(s, chm, ssd).driveUpdated ==> FinalizeSound(s, i))
      && (var s1 := UpdateDrives(cfg, s, chm, ssd);
          && TellSound(s1)
          && (Rotates(cfg, s1, r) ==> Lands(Measured(cfg, s1, r), i)))
    case Idle(now) =>
      IdleDue(cfg, s, now) ==> FinalizeSound(s.(duration := Usecs(now, s.t0)), i)
    case TimeChange => true
  }

  predicate SoundRun(cfg: Config, s: State, es: seq<Event>, i: nat)
    requires Ok(cfg, s) && i < 2
  {
    es == [] || (SoundRun(cfg, s, es[..|es| - 1], i) && SoundStep(cfg, Run(cfg, s, es[..|es| - 1]), es[|es| - 1], i))
  }

  /** A record joins the history of a location in use once the mode has been followed. */
  function Recorded(cfg: Config, s: State, e: Event, i: nat, history: seq<Item>): seq<Item>
    requires Ok(cfg, s) && i < 2
  {
    if e.Write? && UpdateDrives(cfg, s, e.chm, e.ssd).drives[i].used then history + [ItemOf(e.r)] else history
  }

  /** The records handled while a drive was in use. */
  function RecordedRun(cfg: Config, s: State, es: seq<Event>, i: nat): seq<Item>
    requires Ok(cfg, s) && i < 2
  {
    if es == [] then []
    else Recorded(cfg, Run(cfg, s, es[..|es| - 1]), es[|es| - 1], i, RecordedRun(cfg, s, es[..|es| - 1], i))
  }

  // ---------- preservation

  lemma FinalizeDriveCloses(cfg: Config, s: State, d: Drive, history: Asked)
    requires cfg.Valid() && Ok(cfg, s) && DriveOk(d) && SteadyDrive(cfg, s, d, history)
    requires d.used && d.fp.Some? ==> s.duration > 0 && IndexTiles(cfg, s) && s.num > 0
    requires d.used && d.fp.Some? && history.Some? ==> s.subpath in d.dirs && NameFree(d, ChunkPath(s))
    ensures ClosedDrive(cfg, FinalizeDrive(cfg, s, d), history)
  {
    if d.used && d.fp.Some? && history.Some? {
      PublishMoves(cfg, d, s.num, s.idx, s.fname, s.subpath, ChunkPath(s), Total(s.idx, s.num), history.value);
    }
  }

  lemma FinalizeCloses(cfg: Config, s: State, h: Histories)
    requires cfg.Valid() && Steady(cfg, s, h) && (ChunkOpen(s) ==> s.duration > 0 && AskedLand(s, h))
    ensures var s' := Finalize(cfg, s);
      ClosedDrive(cfg, s'.drives[0], h[0]) && ClosedDrive(cfg, s'.drives[1], h[1])
  {
    FinalizeDriveCloses(cfg, s, s.drives[0], h[0]);
    FinalizeDriveCloses(cfg, s, s.drives[1], h[1]);
  }

  /** Closed everywhere, and about to rotate: the state after following a new mode. */
  ghost predicate AllClosed(cfg: Config, s: State, h: Histories) {
    && Ok(cfg, s)
    && ClosedDrive(cfg, s.drives[0], h[0]) && ClosedDrive(cfg, s.drives[1], h[1])
  }

  lemma UpdateSteady(cfg: Config, s: State, h: Histories, chm: bool, ssd: bool)
    requires cfg.Valid() && Steady(cfg, s, h)
    requires Commanded(s, chm, ssd).driveUpdated && ChunkOpen(s) ==> s.duration > 0 && AskedLand(s, h)
    ensures var s' := UpdateDrives(cfg, s, chm, ssd);
      if s'.driveUpdated then AllClosed(cfg, s', h) else Steady(cfg, s', h)
  {
    var s1 := Commanded(s, chm, ssd);
    assert Steady(cfg, s1, h);
    if s1.driveUpdated { FinalizeCloses(cfg, s1, h); }
  }

  lemma ReopenDrive(cfg: Config, s: State, d: Drive, stem: string, history: Asked)
    requires cfg.Valid() && Ok(cfg, s) && DriveOk(d)
    requires SteadyDrive(cfg, s, d, history) || ClosedDrive(cfg, d, history)
    requires d.used && d.fp.Some? ==> IndexTiles(cfg, s) && s.num > 0
    requires d.used && d.fp.Some? && history.Some? ==> s.subpath in d.dirs && NameFree(d, ChunkPath(s))
    ensures var d' := OpenNew(CloseOld(cfg, s, d), stem);
      if d.used then
        && OpenChunk(cfg, d', stem, 0) && d'.out == d'.fp
        && (history.Some? ==> HoldsWithPending(cfg, d', 0, s.idx, history.value))
      else ClosedDrive(cfg, d', history)
  {
    if d.used && history.Some? {
      if d.fp.Some? {
        PublishMoves(cfg, d, s.num, s.idx, s.fname, s.subpath, ChunkPath(s), Total(s.idx, s.num), history.value);
      }
      OpenNewHolds(cfg, CloseOld(cfg, s, d), stem, history.value);
    }
  }

  lemma HourDirKeeps(cfg: Config, d: Drive, prev: Civil, tm: Civil, num: nat, idx: seq<IndexEntry>, fname: string,
                     history: Asked)
    requires DriveOk(d) && num <= |idx|
    ensures var d' := WithHourDir(d, prev, tm);
      && (OpenChunk(cfg, d, fname, 0) ==> OpenChunk(cfg, d', fname, 0))
      && (history.Some? && HoldsWithPending(cfg, d, num, idx, history.value) ==>
            HoldsWithPending(cfg, d', num, idx, history.value))
      && (ClosedDrive(cfg, d, history) ==> ClosedDrive(cfg, d', history))
  {
    hide WithHourDir;
  }

  /** Once the record has a place, the chunk has room for it in the index. */
  ghost predicate Ready(cfg: Config, s: State, h: Histories) {
    Settled(cfg, s, h) && !s.sessionStarted && s.num < cfg.maxRecords
  }

  lemma RotatedReady(cfg: Config, s: State, r: Record, h: Histories)
    requires cfg.Valid() && Ok(cfg, s) && Rotates(cfg, s, r) && AskedLand(Measured(cfg, s, r), h)
    requires if s.driveUpdated then AllClosed(cfg, s, h) else Steady(cfg, s, h)
    ensures Ready(cfg, Placed(cfg, s, r), h)
  {
    hide CloseOld, OpenNew, WithHourDir, Placed, HoldsWithPending, Holds, ChunkPath, NameFree, Stem, HourDir, SameHour;
    RecorderSafety.PlacedDrives(cfg, s, r);
    RecorderSafety.RotationResets(cfg, s, r);
    RotatedDrive(cfg, s, s.drives[0], r, h[0]);
    RotatedDrive(cfg, s, s.drives[1], r, h[1]);
  }

  lemma ReopenUses(cfg: Config, s: State, d: Drive, stem: string)
    requires Ok(cfg, s) && DriveOk(d)
    ensures OpenNew(CloseOld(cfg, s, d), stem).used == d.used
  {}

  /** One drive through a rotation. */
  lemma RotatedDrive(cfg: Config, s: State, d: Drive, r: Record, history: Asked)
    requires cfg.Valid() && Ok(cfg, s) && DriveOk(d)
    requires SteadyDrive(cfg, s, d, history) || ClosedDrive(cfg, d, history)
    requires d.used && d.fp.Some? ==> IndexTiles(cfg, s) && s.num > 0
    requires d.used && d.fp.Some? && history.Some? ==>
      s.subpath in d.dirs && NameFree(d, ChunkPath(Measured(cfg, s, r)))
    ensures var tm := cfg.gmtime(r.tod);
      var s2 := Measured(cfg, s, r).(timeChange := false);
      var d' := WithHourDir(OpenNew(CloseOld(cfg, s2, d), Stem(tm)), s.prevTm, tm);
      d'.used == d.used &&
      if d.used then
        && OpenChunk(cfg, d', Stem(tm), 0) && d'.out == d'.fp
        && (history.Some? ==> HoldsWithPending(cfg, d', 0, s.idx, history.value))
      else ClosedDrive(cfg, d', history)
  {
    hide CloseOld, OpenNew, HoldsWithPending, Holds, OpenChunk, WithHourDir;
    var s2, tm := Measured(cfg, s, r).(timeChange := false), cfg.gmtime(r.tod);
    if SteadyDrive(cfg, s, d, history) { SteadyFrame(cfg, s, s2, d, history); }
    ReopenDrive(cfg, s2, d, Stem(tm), history);
    ReopenUses(cfg, s2, d, Stem(tm));
    HourDirKeeps(cfg, OpenNew(CloseOld(cfg, s2, d), Stem(tm)), s.prevTm, tm, 0, s.idx, Stem(tm), history);
  }

  lemma PlacedReady(cfg: Config, s: State, r: Record, h: Histories)
    requires cfg.Valid() && cfg.deltat != 0 && Ok(cfg, s)
    requires if s.driveUpdated then AllClosed(cfg, s, h) else Steady(cfg, s, h)
    requires Rotates(cfg, s, r) ==> AskedLand(Measured(cfg, s, r), h)
    ensures Ready(cfg, Placed(cfg, s, r), h)
  {
    if Rotates(cfg, s, r) {
      RotatedReady(cfg, s, r, h);
    } else {
      assert Placed(cfg, s, r) == s.(duration := Usecs(r.ts, s.t0), timeChange := false);
    }
  }

  lemma PlacedKeepsUse(cfg: Config, s: State, r: Record)
    requires Ok(cfg, s)
    ensures TellSound(s) ==> TellSound(Placed(cfg, s, r))
    ensures Placed(cfg, s, r).drives[0].used == s.drives[0].used
    ensures Placed(cfg, s, r).drives[1].used == s.drives[1].used
  {
    RecorderSafety.PlacedDrives(cfg, s, r);
  }

  /** Finalizing now would make readable exactly the records indexed so far. */
  lemma FinalizedItems(cfg: Config, f: ChunkFile, num: nat, idx: seq<IndexEntry>)
    requires num <= |idx| && cfg.bodyStart > 0
    requires Tiled(idx, num, cfg.bodyStart) && f.index == []
    ensures AllItems(cfg.bodyStart, FinalizeHeader(f, num, idx)) == ItemsTo(cfg.bodyStart, f.body, idx, num)
  {
    assert FinalizeHeader(f, num, idx).index == idx[..num];
    TiledLive(idx, num, cfg.bodyStart);
    ItemsOfPrefix(cfg.bodyStart, f.body, idx, num);
  }

  lemma NewItem(from: nat, body: seq<Byte>, r: Record)
    requires r.payload != []
    ensures ItemAt(from, body + r.payload, EntryOf(r, from + |body|)) == [ItemOf(r)]
  {
    assert (body + r.payload)[|body|..|body| + |r.payload|] == r.payload;
  }

  lemma AppendedTiling(from: nat, num: nat, idx: seq<IndexEntry>, r: Record)
    requires num < |idx| && r.tod != 0 && r.payload != [] && Tiled(idx, num, from)
    ensures var idx' := idx[num := EntryOf(r, from + Total(idx, num))];
      Tiled(idx', num + 1, from) && Total(idx', num + 1) == Total(idx, num) + |r.payload|
  {
    PrefixFrame(from, [], idx, idx[num := EntryOf(r, from + Total(idx, num))], num);
  }

  lemma AppendedItems(from: nat, body: seq<Byte>, num: nat, idx: seq<IndexEntry>, r: Record)
    requires num < |idx| && r.payload != [] && Tiled(idx, num, from) && Total(idx, num) == |body|
    ensures ItemsTo(from, body + r.payload, idx[num := EntryOf(r, from + |body|)], num + 1)
      == ItemsTo(from, body, idx, num) + [ItemOf(r)]
  {
    PrefixFrame(from, body + r.payload, idx, idx[num := EntryOf(r, from + |body|)], num);
    ItemsToExtend(from, body, r.payload, idx, num);
    NewItem(from, body, r);
  }

  /** Indexing and writing a record appends its item to what the open chunk will yield. */
  lemma PendingAppend(cfg: Config, f: ChunkFile, num: nat, idx: seq<IndexEntry>, r: Record)
    requires num < |idx| && cfg.bodyStart > 0 && r.tod != 0 && r.payload != []
    requires Tiled(idx, num, cfg.bodyStart) && f.index == [] && |f.body| == Total(idx, num)
    ensures var idx' := idx[num := EntryOf(r, cfg.bodyStart + Total(idx, num))];
      AllItems(cfg.bodyStart, FinalizeHeader(f.(body := f.body + r.payload), num + 1, idx'))
        == AllItems(cfg.bodyStart, FinalizeHeader(f, num, idx)) + [ItemOf(r)]
  {
    AppendedTiling(cfg.bodyStart, num, idx, r);
    FinalizedItems(cfg, f, num, idx);
    FinalizedItems(cfg, f.(body := f.body + r.payload), num + 1,
                   idx[num := EntryOf(r, cfg.bodyStart + Total(idx, num))]);
    AppendedItems(cfg.bodyStart, f.body, num, idx, r);
  }

  lemma WriteKeepsPublished(cfg: Config, d: Drive, r: Record)
    requires DriveOk(d) && d.used && d.fp.Some? && d.out == d.fp
    requires PublishedIntact(cfg, d) && !d.files[d.fp.value].closed
    ensures var d' := WriteDrive(d, r);
      && d'.files[d.fp.value] == d.files[d.fp.value].(body := d.files[d.fp.value].body + r.payload)
      && PublishedIntact(cfg, d')
      && PublishedItems(cfg.bodyStart, d'.files, d'.published) == PublishedItems(cfg.bodyStart, d.files, d.published)
  {
    assert forall p <- d.published :: p.file != d.fp.value;
    PublishedItemsFrame(cfg.bodyStart, d.files, WriteDrive(d, r).files, d.published);
  }

  lemma WriteOpenChunk(cfg: Config, d: Drive, num: nat, idx: seq<IndexEntry>, fname: string, r: Record)
    requires num < |idx| && r.tod != 0 && r.payload != []
    requires DriveOk(d) && d.used && d.out == d.fp && Tiled(idx, num, cfg.bodyStart)
    requires OpenChunk(cfg, d, fname, Total(idx, num))
    ensures var idx' := idx[num := EntryOf(r, cfg.bodyStart + Total(idx, num))];
      OpenChunk(cfg, WriteDrive(d, r), fname, Total(idx', num + 1)) && WriteDrive(d, r).out == WriteDrive(d, r).fp
  {
    AppendedTiling(cfg.bodyStart, num, idx, r);
  }

  lemma PendingAfterWrite(cfg: Config, d: Drive, num: nat, idx: seq<IndexEntry>, fname: string, r: Record)
    requires cfg.Valid() && num < |idx| && r.tod != 0 && r.payload != []
    requires DriveOk(d) && d.used && d.out == d.fp && Tiled(idx, num, cfg.bodyStart)
    requires OpenChunk(cfg, d, fname, Total(idx, num))
    ensures var idx' := idx[num := EntryOf(r, cfg.bodyStart + Total(idx, num))];
      PendingItems(cfg, WriteDrive(d, r), num + 1, idx') == PendingItems(cfg, d, num, idx) + [ItemOf(r)]
  {
    var f := d.files[d.fp.value];
    PendingAppend(cfg, f, num, idx, r);
    assert WriteDrive(d, r).files[d.fp.value] == f.(body := f.body + r.payload);
  }

  lemma YieldSnoc(cfg: Config, d: Drive, d': Drive, num: nat, idx: seq<IndexEntry>, idx': seq<IndexEntry>, x: Item)
    requires DriveOk(d) && DriveOk(d') && num < |idx| == |idx'|
    requires PublishedItems(cfg.bodyStart, d'.files, d'.published)
      == PublishedItems(cfg.bodyStart, d.files, d.published)
    requires PendingItems(cfg, d', num + 1, idx') == PendingItems(cfg, d, num, idx) + [x]
    ensures Yield(cfg, d', num + 1, idx') == Yield(cfg, d, num, idx) + [x]
  {
    var done, pending := PublishedItems(cfg.bodyStart, d.files, d.published), PendingItems(cfg, d, num, idx);
    assert done + (pending + [x]) == (done + pending) + [x];
  }

  lemma YieldAfterWrite(cfg: Config, d: Drive, num: nat, idx: seq<IndexEntry>, idx': seq<IndexEntry>,
          fname: string, r: Record)
    requires cfg.Valid() && num < |idx| && r.tod != 0 && r.payload != []
    requires DriveOk(d) && d.used && d.out == d.fp && Tiled(idx, num, cfg.bodyStart)
    requires OpenChunk(cfg, d, fname, Total(idx, num)) && PublishedIntact(cfg, d)
    requires idx' == idx[num := EntryOf(r, cfg.bodyStart + Total(idx, num))]
    ensures PublishedIntact(cfg, WriteDrive(d, r))
    ensures Yield(cfg, WriteDrive(d, r), num + 1, idx') == Yield(cfg, d, num, idx) + [ItemOf(r)]
  {
    hide PendingItems, PublishedItems, PublishedIntact, Yield, Tiled, Total, WriteDrive, ItemOf, EntryOf;
    PendingAfterWrite(cfg, d, num, idx, fname, r);
    WriteKeepsPublished(cfg, d, r);
    YieldSnoc(cfg, d, WriteDrive(d, r), num, idx, idx', ItemOf(r));
  }

  /** A record added to a history, if one is asked for. */
  function Longer(history: Asked, r: Record): Asked {
    if history.Some? then Some(history.value + [ItemOf(r)]) else None
  }

  lemma WriteSteadyDrive(cfg: Config, s: State, d: Drive, r: Record, history: Asked)
    requires cfg.Valid() && Ok(cfg, s) && !s.sessionStarted && s.num < cfg.maxRecords && r.tod != 0 && r.payload != []
    requires DriveOk(d) && d.used && OpenDrive(cfg, s, d, history) && IndexOk(cfg, s)
    ensures OpenDrive(cfg, AppendIndex(cfg, s, r), WriteDrive(d, r), Longer(history, r))
  {
    hide Yield, PublishedIntact, Total, Tiled, WriteDrive, OpenChunk, ItemOf;
    WriteOpenChunk(cfg, d, s.num, s.idx, s.fname, r);
    if history.Some? {
      YieldAfterWrite(cfg, d, s.num, s.idx, AppendIndex(cfg, s, r).idx, s.fname, r);
    }
    assert s.pos == cfg.bodyStart + Total(s.idx, s.num);
  }

  lemma AppendTiles(cfg: Config, s: State, r: Record)
    requires Ok(cfg, s) && s.num < cfg.maxRecords && IndexOk(cfg, s) && r.tod != 0 && r.payload != []
    ensures IndexTiles(cfg, AppendIndex(cfg, s, r))
  {
    AppendedTiling(cfg.bodyStart, s.num, s.idx, r);
  }

  /** An open location whose stream tells the end of the indexed records. */
  ghost predicate Tells(cfg: Config, d: Drive, pos: nat)
    requires DriveOk(d)
  {
    d.out.Some? && !d.files[d.out.value].closed && cfg.bodyStart + |d.files[d.out.value].body| == pos
  }

  /** The scan lands on an open stream, so its answer does not depend on closed ones. */
  lemma RepositionSound(cfg: Config, s: State, dead: nat, pos: nat)
    requires Ok(cfg, s) && TellSound(s) && AnyUsed(s)
    requires s.drives[0].used ==> Tells(cfg, s.drives[0], pos)
    requires s.drives[1].used ==> Tells(cfg, s.drives[1], pos)
    ensures Reposition(cfg, s, dead) == s.(pos := pos)
  {}

  lemma SteadyTells(cfg: Config, s: State, d: Drive, history: Asked)
    requires Ok(cfg, s) && DriveOk(d) && d.used && OpenDrive(cfg, s, d, history)
    ensures Tells(cfg, d, cfg.bodyStart + Total(s.idx, s.num))
  {}

  /** Two steady locations over a tiled index make a steady state once the offset is rescanned. */
  lemma Rescanned(cfg: Config, s: State, dead: nat, h: Histories)
    requires Ok(cfg, s) && !s.sessionStarted && TellSound(s)
    requires SteadyDrive(cfg, s, s.drives[0], h[0]) && SteadyDrive(cfg, s, s.drives[1], h[1])
    requires AnyUsed(s) ==> IndexTiles(cfg, s)
    ensures Settled(cfg, Reposition(cfg, s, dead), h)
  {
    if AnyUsed(s) {
      var pos := cfg.bodyStart + Total(s.idx, s.num);
      if s.drives[0].used { SteadyTells(cfg, s, s.drives[0], h[0]); }
      if s.drives[1].used { SteadyTells(cfg, s, s.drives[1], h[1]); }
      RepositionSound(cfg, s, dead, pos);
      SteadyFrame(cfg, s, s.(pos := pos), s.drives[0], h[0]);
      SteadyFrame(cfg, s, s.(pos := pos), s.drives[1], h[1]);
    } else {
      assert Reposition(cfg, s, dead) == s.(pos := Reposition(cfg, s, dead).pos);
      SteadyFrame(cfg, s, Reposition(cfg, s, dead), s.drives[0], h[0]);
      SteadyFrame(cfg, s, Reposition(cfg, s, dead), s.drives[1], h[1]);
    }
  }

  lemma WrittenDrive(cfg: Config, s: State, d: Drive, r: Record, history: Asked)
    requires cfg.Valid() && Ok(cfg, s) && !s.sessionStarted && s.num < cfg.maxRecords && r.tod != 0 && r.payload != []
    requires DriveOk(d) && SteadyDrive(cfg, s, d, history) && (d.used ==> IndexOk(cfg, s))
    ensures SteadyDrive(cfg, AppendIndex(cfg, s, r), WriteDrive(d, r),
                        if d.used then Longer(history, r) else history)
  {
    if d.used { WriteSteadyDrive(cfg, s, d, r, history); }
  }

  lemma WriteSteady(cfg: Config, s: State, r: Record, dead: nat, h: Histories)
    requires cfg.Valid() && cfg.copies == 2 && Ready(cfg, s, h) && r.tod != 0 && r.payload != []
    requires TellSound(s)
    ensures var s' := Reposition(cfg, WriteAll(cfg, AppendIndex(cfg, s, r), r), dead);
      Steady(cfg, s', [if s.drives[0].used then Longer(h[0], r) else h[0],
                       if s.drives[1].used then Longer(h[1], r) else h[1]])
  {
    var s1 := AppendIndex(cfg, s, r);
    var s2 := WriteAll(cfg, s1, r);
    WrittenDrive(cfg, s, s.drives[0], r, h[0]);
    WrittenDrive(cfg, s, s.drives[1], r, h[1]);
    if AnyUsed(s) { AppendTiles(cfg, s, r); }
    var h' := [if s.drives[0].used then Longer(h[0], r) else h[0],
               if s.drives[1].used then Longer(h[1], r) else h[1]];
    assert s2 == s1.(drives := [WriteDrive(s.drives[0], r), WriteDrive(s.drives[1], r)]);
    SteadyFrame(cfg, s1, s2, s2.drives[0], h'[0]);
    SteadyFrame(cfg, s1, s2, s2.drives[1], h'[1]);
    Rescanned(cfg, s2, dead, h');
  }

  lemma SteadyFrame(cfg: Config, s: State, s': State, d: Drive, history: Asked)
    requires Ok(cfg, s) && Ok(cfg, s') && DriveOk(d) && SteadyDrive(cfg, s, d, history)
    requires s'.num == s.num && s'.idx == s.idx && s'.fname == s.fname && s'.sessionStarted == s.sessionStarted
    ensures SteadyDrive(cfg, s', d, history)
  {}

  lemma WriteRecordSteady(cfg: Config, s: State, e: Event, i: nat, history: seq<Item>)
    requires cfg.Valid() && cfg.deltat != 0 && cfg.copies == 2 && i < 2
    requires Steady(cfg, s, For(i, history)) && e.Write? && SoundStep(cfg, s, e, i)
    ensures Steady(cfg, WriteRecord(cfg, s, e), For(i, Recorded(cfg, s, e, i, history)))
  {
    hide SteadyDrive, IndexOk, Ready, AllClosed, UpdateDrives, Placed, WriteAll, AppendIndex, Reposition, Rotates;
    hide TellSound, Commanded, Measured, Lands;
    var s1, h := UpdateDrives(cfg, s, e.chm, e.ssd), For(i, history);
    UpdateSteady(cfg, s, h, e.chm, e.ssd);
    PlacedReady(cfg, s1, e.r, h);
    PlacedKeepsUse(cfg, s1, e.r);
    WriteSteady(cfg, Placed(cfg, s1, e.r), e.r, e.deadTell, h);
    assert For(i, Recorded(cfg, s, e, i, history))
      == [if s1.drives[0].used then Longer(h[0], e.r) else h[0], if s1.drives[1].used then Longer(h[1], e.r) else h[1]];
  }

  lemma IdleSteady(cfg: Config, s: State, now: nat, i: nat, history: seq<Item>)
    requires cfg.Valid() && i < 2 && Steady(cfg, s, For(i, history)) && SoundStep(cfg, s, Idle(now), i)
    ensures Steady(cfg, IdleTick(cfg, s, now), For(i, history))
  {
    var s1 := s.(duration := Usecs(now, s.t0));
    assert Steady(cfg, s1, For(i, history));
    if IdleDue(cfg, s, now) {
      FinalizeCloses(cfg, s1, For(i, history));
    }
  }

  lemma StepSteady(cfg: Config, s: State, e: Event, i: nat, history: seq<Item>)
    requires cfg.Valid() && cfg.deltat != 0 && cfg.copies == 2 && i < 2
    requires Steady(cfg, s, For(i, history)) && SoundStep(cfg, s, e, i)
    ensures Steady(cfg, Step(cfg, s, e), For(i, Recorded(cfg, s, e, i, history)))
  {
    match e
    case Write(_, _, _, _) => WriteRecordSteady(cfg, s, e, i, history);
    case Idle(now) => IdleSteady(cfg, s, now, i, history);
    case TimeChange =>
  }

  lemma {:induction false} RunSteady(cfg: Config, chm: bool, ssd: bool, es: seq<Event>, i: nat)
    requires cfg.Valid() && cfg.deltat != 0 && cfg.copies == 2 && i < 2
    requires SoundRun(cfg, Init(cfg, chm, ssd), es, i)
    ensures Steady(cfg, Run(cfg, Init(cfg, chm, ssd), es), For(i, RecordedRun(cfg, Init(cfg, chm, ssd), es, i)))
  {
    var s0 := Init(cfg, chm, ssd);
    if es != [] {
      RunSteady(cfg, chm, ssd, es[..|es| - 1], i);
      StepSteady(cfg, Run(cfg, s0, es[..|es| - 1]), es[|es| - 1], i, RecordedRun(cfg, s0, es[..|es| - 1], i));
    }
  }

  /** Index and offset invariant, in every state a sound run reaches (`RunSteady`): with a chunk
      open, entry k starts where the header and the k earlier records end, `pos` is the end of the
      last one, and the open file of every location in use ends there too. */
  lemma OffsetsTile(cfg: Config, s: State, h: Histories, k: nat, i: nat)
    requires Steady(cfg, s, h) && !s.sessionStarted && i < 2 && s.drives[i].used && k < s.num
    ensures s.idx[k].byteoffset == cfg.bodyStart + Total(s.idx, k)
    ensures s.pos == cfg.bodyStart + Total(s.idx, s.num)
    ensures s.drives[i].fp.Some? && cfg.bodyStart + |s.drives[i].files[s.drives[i].fp.value].body| == s.pos
  {
    hide HoldsWithPending, Holds;
    TiledEntry(s.idx, s.num, cfg.bodyStart, k);
  }

  // ---------- the theorem

  /** Reading every published file of a drive, in publication order. */
  function ReadBack(cfg: Config, d: Drive, ps: seq<Published>, q: Query): seq<Item> {
    if ps == [] then []
    else ReadBack(cfg, d, ps[..|ps| - 1], q)
         + if ps[|ps| - 1].file < |d.files| then ReadFile(cfg.bodyStart, d.files[ps[|ps| - 1].file], q) else []
  }

  lemma {:induction false} ReadBackFilters(cfg: Config, d: Drive, ps: seq<Published>, q: Query)
    ensures ReadBack(cfg, d, ps, q) == Filtered(PublishedItems(cfg.bodyStart, d.files, ps), q)
  {
    if ps != [] {
      ReadBackFilters(cfg, d, ps[..|ps| - 1], q);
      var h := ps[|ps| - 1].file;
      var last := if h < |d.files| then AllItems(cfg.bodyStart, d.files[h]) else [];
      if h < |d.files| { ReadFileFilters(cfg.bodyStart, d.files[h], q); }
      FilteredAppend(PublishedItems(cfg.bodyStart, d.files, ps[..|ps| - 1]), last, q);
    }
  }

  /** Every query on drive i of a final state gives the matching part of its history. */
  ghost predicate ReadsBack(cfg: Config, s0: State, es: seq<Event>, final: State, i: nat)
    requires Ok(cfg, s0) && |final.drives| == 2 && i < 2
  {
    forall q :: ReadBack(cfg, final.drives[i], final.drives[i].published, q) == Filtered(RecordedRun(cfg, s0, es, i), q)
  }

  lemma RunReadsBack(cfg: Config, chm: bool, ssd: bool, es: seq<Event>, i: nat)
    requires cfg.Valid() && cfg.deltat != 0 && cfg.copies == 2 && i < 2
    requires SoundRun(cfg, Init(cfg, chm, ssd), es, i) && FinalizeSound(Run(cfg, Init(cfg, chm, ssd), es), i)
    ensures ReadsBack(cfg, Init(cfg, chm, ssd), es, Finalize(cfg, Run(cfg, Init(cfg, chm, ssd), es)), i)
  {
    forall q
      ensures var s' := Finalize(cfg, Run(cfg, Init(cfg, chm, ssd), es));
        ReadBack(cfg, s'.drives[i], s'.drives[i].published, q)
          == Filtered(RecordedRun(cfg, Init(cfg, chm, ssd), es, i), q)
    {
      ReadBackIsHistory(cfg, chm, ssd, es, i, q);
    }
  }

  /** Round trip: after a run and a stop that are sound for a drive, whatever becomes of the other
      one, asking it for a type and a window returns exactly the matching records handled while
      it was in use, in the order they were handled, with their timestamps and payloads. */
  lemma ReadBackIsHistory(cfg: Config, chm: bool, ssd: bool, es: seq<Event>, i: nat, q: Query)
    requires cfg.Valid() && cfg.deltat != 0 && cfg.copies == 2 && i < 2
    requires SoundRun(cfg, Init(cfg, chm, ssd), es, i) && FinalizeSound(Run(cfg, Init(cfg, chm, ssd), es), i)
    ensures var s0 := Init(cfg, chm, ssd);
      var d := Finalize(cfg, Run(cfg, s0, es)).drives[i];
      ReadBack(cfg, d, d.published, q) == Filtered(RecordedRun(cfg, s0, es, i), q)
  {
    var s0 := Init(cfg, chm, ssd);
    RunSteady(cfg, chm, ssd, es, i);
    FinalizeCloses(cfg, Run(cfg, s0, es), For(i, RecordedRun(cfg, s0, es, i)));
    var d := Finalize(cfg, Run(cfg, s0, es)).drives[i];
    ReadBackFilters(cfg, d, d.published, q);
  }
}
