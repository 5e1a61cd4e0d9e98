/** The metadata recorder as a transition system over values: chunk files, the two drives, the
    in-memory index and the rotation state, and what one trip round the recording loop does. */
module RecorderState {
  import opened ChunkNames
  import opened Options

  type Byte = bv8

  datatype Kind = GPS | TimeInfo | VideoEvent | LocomotiveId

  /** A dequeued descriptor: wall-clock seconds, monotonic nanoseconds, type and payload. */
  datatype Record = Record(tod: nat, ts: nat, kind: Kind, payload: seq<Byte>)

  datatype IndexEntry = IndexEntry(byteoffset: nat, timestamp: nat, recordtype: Kind, recordlength: nat)

  const ZERO_ENTRY := IndexEntry(0, 0, GPS, 0)

  function ZeroIndex(n: nat): (r: seq<IndexEntry>)
    ensures |r| == n && forall k :: 0 <= k < n ==> r[k] == ZERO_ENTRY
  {
    seq(n, _ => ZERO_ENTRY)
  }

  /** A chunk file: the entries written into the record index of its prefix (the rest of the
      index is zero), the payload bytes from offset `bodyStart` on, and whether its stream has
      been closed. */
  datatype ChunkFile = ChunkFile(index: seq<IndexEntry>, body: seq<Byte>, closed: bool)

  /** A file renamed into the data directory: path below that directory, and which file it is. */
  datatype Published = Published(path: string, file: nat)

  /** One storage location. `fp` and `out` name files of `files` as a FILE* would; `dirs` are the
      directories made below its data directory. */
  datatype Drive = Drive(
    used: bool,
    fp: Option<nat>,
    out: Option<nat>,
    files: seq<ChunkFile>,
    staging: map<string, nat>,
    published: seq<Published>,
    dirs: set<string>)

  /** What stays fixed during a run. `gmtime` is the C library's conversion. */
  datatype Config = Config(
    deltat: int,
    bodyStart: nat,
    maxRecords: nat,
    chunkMax: nat,
    copies: nat,
    gmtime: nat -> Civil)
  {
    /** The header is not empty, the index has room, and a chunk may hold a record. */
    ghost predicate Valid() {
      1 <= bodyStart && 1 <= maxRecords && 1 <= chunkMax && copies <= 2
    }
  }

  datatype State = State(
    drives: seq<Drive>,
    sessionStarted: bool,
    prevTm: Civil,
    subpath: string,
    fname: string,
    t0: nat,
    duration: nat,
    driveUpdated: bool,
    preChm: Option<bool>,
    preSsd: Option<bool>,
    num: nat,
    idx: seq<IndexEntry>,
    pos: nat,
    timeChange: bool)

  /** What the recording loop sees in one trip.
      `Write` carries the commanded mode and what `ftell` answers on a closed stream;
      `Idle` the monotonic clock; `TimeChange` is a message handler setting the shared flag. */
  datatype Event =
    | Write(r: Record, chm: bool, ssd: bool, deadTell: nat)
    | Idle(now: nat)
    | TimeChange

  ghost predicate DriveOk(d: Drive) {
    && (d.fp.Some? ==> d.fp.value < |d.files|)
    && (d.out.Some? ==> d.out.value < |d.files|)
  }

  ghost predicate Ok(cfg: Config, s: State) {
    && |s.drives| == 2 && |s.idx| == cfg.maxRecords && s.num <= cfg.maxRecords
    && DriveOk(s.drives[0]) && DriveOk(s.drives[1])
  }

  // ---------- finalization

  /** `metadata_finalize_header`: copy the live part of the index into the prefix. */
  function FinalizeHeader(f: ChunkFile, num: nat, idx: seq<IndexEntry>): (r: ChunkFile)
    requires num <= |idx|
    ensures r.body == f.body && r.closed == f.closed
  {
    if num > 0 then f.(index := idx[..num] + if num < |f.index| then f.index[num..] else []) else f
  }

  /** The published files when one more is renamed to a path: an earlier one there is replaced. */
  function Replaced(ps: seq<Published>, path: string): (r: seq<Published>)
    ensures |r| <= |ps| && forall p :: p in r <==> p in ps && p.path != path
  {
    if ps == [] then []
    else Replaced(ps[..|ps| - 1], path) + if ps[|ps| - 1].path == path then [] else [ps[|ps| - 1]]
  }

  /** Finalize the header of the open chunk, close it, and rename it out of staging, which fails
      when the directory it should go to was never made. */
  function CloseAndPublish(d: Drive, num: nat, idx: seq<IndexEntry>, fname: string, dir: string, path: string)
    : (d': Drive)
    requires DriveOk(d) && d.fp.Some?
    requires num <= |idx|
    ensures DriveOk(d')
  {
    var h := d.fp.value;
    var d' := d.(files := d.files[h := FinalizeHeader(d.files[h], num, idx).(closed := true)]);
    if fname in d.staging && dir in d.dirs then
      d'.(staging := d.staging - {fname},
          published := Replaced(d.published, path) + [Published(path, d.staging[fname])])
    else d'
  }

  function ChunkPath(s: State): string {
    s.subpath + s.fname + Suffix(s.duration)
  }

  function FinalizeDrive(cfg: Config, s: State, d: Drive): (d': Drive)
    requires Ok(cfg, s) && DriveOk(d)
    ensures DriveOk(d')
  {
    if d.used && d.fp.Some? && s.duration > 0
    then CloseAndPublish(d, s.num, s.idx, s.fname, s.subpath, ChunkPath(s)).(fp := None)
    else d
  }

  /** `metadata_chunk_finalize`. */
  function Finalize(cfg: Config, s: State): (r: State)
    requires Ok(cfg, s)
    ensures Ok(cfg, r)
  {
    s.(drives := [FinalizeDrive(cfg, s, s.drives[0]), FinalizeDrive(cfg, s, s.drives[1])],
       num := 0, duration := 0)
  }

  // ---------- rotation

  /** `(unsigned int)((t - t0) / 1000)` over unsigned 64-bit nanoseconds. */
  function Usecs(t: nat, t0: nat): nat {
    (((t - t0) % 0x1_0000_0000_0000_0000) / 1000) % 0x1_0000_0000
  }

  predicate PathRequired(s: State, tm: Civil) {
    s.sessionStarted || !SameHour(s.prevTm, tm)
  }

  predicate ReachedMax(cfg: Config, s: State) {
    s.num >= cfg.maxRecords || s.num >= cfg.chunkMax
  }

  predicate ChunkRequired(cfg: Config, s: State, tm: Civil) {
    PathRequired(s, tm) || ReachedMax(cfg, s) || s.timeChange || s.driveUpdated
  }

  function AnyUsed(s: State): bool
    requires |s.drives| == 2
  {
    s.drives[0].used || s.drives[1].used
  }

  function CloseOld(cfg: Config, s: State, d: Drive): (d': Drive)
    requires Ok(cfg, s) && DriveOk(d)
    ensures DriveOk(d')
  {
    if d.used && d.fp.Some? then CloseAndPublish(d, s.num, s.idx, s.fname, s.subpath, ChunkPath(s)) else d
  }

  /** Open a new staging file with an empty prefix. */
  function OpenNew(d: Drive, fname: string): (d': Drive)
    requires DriveOk(d)
    ensures DriveOk(d')
  {
    if d.used then
      d.(files := d.files + [ChunkFile([], [], false)],
         staging := d.staging[fname := |d.files|],
         fp := Some(|d.files|),
         out := Some(|d.files|))
    else d
  }

  /** `prepare_subpath` on one drive: when the hour changes, a drive in use gets its directory. */
  function WithHourDir(d: Drive, prev: Civil, tm: Civil): (d': Drive)
    ensures d' == d.(dirs := d'.dirs) && d.dirs <= d'.dirs
  {
    if d.used && !SameHour(prev, tm) then d.(dirs := d.dirs + {HourDir(tm)}) else d
  }

  /** The part of `get_metadata_chunk_file` that replaces the current chunk. */
  function Rotate(cfg: Config, s: State, r: Record): (s': State)
    requires Ok(cfg, s)
    ensures Ok(cfg, s')
  {
    var tm := cfg.gmtime(r.tod);
    var stem := Stem(tm);
    var newPath := !SameHour(s.prevTm, tm);
    var drives := [WithHourDir(OpenNew(CloseOld(cfg, s, s.drives[0]), stem), s.prevTm, tm),
                   WithHourDir(OpenNew(CloseOld(cfg, s, s.drives[1]), stem), s.prevTm, tm)];
    s.(drives := drives,
       sessionStarted := false, driveUpdated := false,
       num := 0, duration := 0, fname := stem,
       prevTm := if newPath then tm else s.prevTm,
       subpath := if newPath && AnyUsed(s) then HourDir(tm) else s.subpath,
       t0 := if AnyUsed(s) then r.ts else s.t0)
  }

  function Measured(cfg: Config, s: State, r: Record): (s': State)
    ensures Ok(cfg, s) ==> Ok(cfg, s')
  {
    s.(duration := Usecs(r.ts, s.t0))
  }

  /** `get_metadata_chunk_file`; its result tells whether a new file was opened. */
  function GetChunkFile(cfg: Config, s: State, r: Record): (s': State)
    requires Ok(cfg, s)
    ensures Ok(cfg, s')
  {
    if cfg.deltat == 0 then s
    else
      var s1 := Measured(cfg, s, r);
      var s2 := s1.(timeChange := false);
      if ChunkRequired(cfg, s1, cfg.gmtime(r.tod)) then Rotate(cfg, s2, r) else s2
  }

  predicate Rotates(cfg: Config, s: State, r: Record) {
    cfg.deltat != 0 && ChunkRequired(cfg, s, cfg.gmtime(r.tod))
  }

  // ---------- one record

  function Commanded(s: State, chm: bool, ssd: bool): (s': State)
    ensures s'.driveUpdated == ((s.preChm.Some? && s.preChm.value != chm) || (s.preSsd.Some? && s.preSsd.value != ssd))
  {
    s.(driveUpdated := (s.preChm.Some? && s.preChm.value != chm) || (s.preSsd.Some? && s.preSsd.value != ssd),
       preChm := Some(chm), preSsd := Some(ssd))
  }

  /** Detect a change of the commanded mode and close the chunk before following it. */
  function UpdateDrives(cfg: Config, s: State, chm: bool, ssd: bool): (s': State)
    requires Ok(cfg, s)
    ensures Ok(cfg, s')
  {
    var s1 := Commanded(s, chm, ssd);
    if s1.driveUpdated then
      var s2 := Finalize(cfg, s1);
      s2.(drives := [s2.drives[0].(used := chm), s2.drives[1].(used := ssd)])
    else s1
  }

  function EntryOf(r: Record, pos: nat): IndexEntry {
    IndexEntry(pos, r.tod, r.kind, |r.payload|)
  }

  function AppendIndex(cfg: Config, s: State, r: Record): (s': State)
    requires Ok(cfg, s)
    ensures Ok(cfg, s')
  {
    if s.num < cfg.maxRecords
    then s.(idx := s.idx[s.num := EntryOf(r, s.pos)], num := s.num + 1)
    else s
  }

  function WriteDrive(d: Drive, r: Record): (d': Drive)
    requires DriveOk(d)
    ensures DriveOk(d')
  {
    if d.used && d.out.Some? then
      var h := d.out.value;
      d.(files := d.files[h := d.files[h].(body := d.files[h].body + r.payload)])
    else d
  }

  function WriteAll(cfg: Config, s: State, r: Record): (s': State)
    requires Ok(cfg, s)
    ensures Ok(cfg, s')
  {
    s.(drives := [if 0 < cfg.copies then WriteDrive(s.drives[0], r) else s.drives[0],
                  if 1 < cfg.copies then WriteDrive(s.drives[1], r) else s.drives[1]])
  }

  /** `ftell` of an open file, or whatever a closed stream answers. */
  function Tell(cfg: Config, d: Drive, dead: nat): nat
    requires d.out.Some? && d.out.value < |d.files|
  {
    var f := d.files[d.out.value];
    if f.closed then dead else cfg.bodyStart + |f.body|
  }

  /** The offset scan: the first location whose `out` is not NULL answers, used or not. */
  function Reposition(cfg: Config, s: State, dead: nat): State
    requires Ok(cfg, s)
  {
    if s.drives[0].out.Some? then s.(pos := Tell(cfg, s.drives[0], dead))
    else if s.drives[1].out.Some? then s.(pos := Tell(cfg, s.drives[1], dead))
    else s
  }

  /** Place the record: rotate if needed, reset the offset after opening a file, index, write. */
  function Placed(cfg: Config, s: State, r: Record): (s': State)
    requires Ok(cfg, s)
    ensures Ok(cfg, s')
  {
    var s1 := GetChunkFile(cfg, s, r);
    if Rotates(cfg, s, r) && AnyUsed(s) then s1.(pos := cfg.bodyStart) else s1
  }

  function WriteRecord(cfg: Config, s: State, e: Event): (s': State)
    requires Ok(cfg, s) && e.Write?
    ensures Ok(cfg, s')
  {
    var s1 := UpdateDrives(cfg, s, e.chm, e.ssd);
    var s2 := Placed(cfg, s1, e.r);
    var s3 := AppendIndex(cfg, s2, e.r);
    Reposition(cfg, WriteAll(cfg, s3, e.r), e.deadTell)
  }

  // ---------- no record

  function IdleDue(cfg: Config, s: State, now: nat): bool {
    now >= s.t0 + cfg.chunkMax * 1000000000
  }

  function IdleTick(cfg: Config, s: State, now: nat): (s': State)
    requires Ok(cfg, s)
    ensures Ok(cfg, s')
  {
    if s.drives[0].out.Some? || s.drives[1].out.Some? then
      var s1 := s.(duration := Usecs(now, s.t0));
      if IdleDue(cfg, s, now) then
        var s2 := Finalize(cfg, s1);
        s2.(sessionStarted := true,
            drives := [s2.drives[0].(out := None), s2.drives[1].(out := None)])
      else s1
    else s
  }

  // ---------- runs

  function Step(cfg: Config, s: State, e: Event): (s': State)
    requires Ok(cfg, s)
    ensures Ok(cfg, s')
  {
    match e
    case Write(_, _, _, _) => WriteRecord(cfg, s, e)
    case Idle(now) => IdleTick(cfg, s, now)
    case TimeChange => s.(timeChange := true)
  }

  function Run(cfg: Config, s: State, es: seq<Event>): (s': State)
    requires Ok(cfg, s)
    ensures Ok(cfg, s')
  {
    if es == [] then s else Step(cfg, Run(cfg, s, es[..|es| - 1]), es[|es| - 1])
  }

  /** A zeroed `struct tm`. */
  const ZERO_TM := Civil(1900, 1, 0, 0, 0, 0)

  /** The state the recording thread starts in, each location enabled or not by configuration, with
      an empty data directory. */
  function Init(cfg: Config, chm: bool, ssd: bool): (s: State)
    ensures Ok(cfg, s)
  {
    State([Drive(chm, None, None, [], map[], [], {""}), Drive(ssd, None, None, [], map[], [], {""})],
          true, ZERO_TM, "", "", 0, 0, false, None, None, 0, ZeroIndex(cfg.maxRecords), 0, false)
  }
}
