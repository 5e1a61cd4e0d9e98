/** Oldest-first grooming of a drive: find the oldest file below a directory, delete it, remove
    the directories that this leaves empty, and go on until the recordings fit. */
module Grooming {
  import opened Options
  import opened FileTree

  /** What the search starts from, and what an unusable path gives: 2038-01-19T03:14:07Z. */
  const MAX_TIME: int := 2147483647
  const PRUNE_LEVELS: nat := 5

  // ---------- finding the oldest file

  /** The out-parameters of the search: nothing found yet, or a path and its time. */
  datatype Best = Nothing | Best(ref: Ref)

  function BestTime(b: Best): int { if b.Best? then b.ref.time else MAX_TIME }

  function Better(b: Best, r: Ref): Best {
    if r.time != MAX_TIME && r.time < BestTime(b) then Best(r) else b
  }

  function Oldest(rs: seq<Ref>, b: Best): Best {
    if rs == [] then b else Oldest(rs[1..], Better(b, rs[0]))
  }

  lemma {:induction false} OldestAppend(a: seq<Ref>, c: seq<Ref>, b: Best)
    ensures Oldest(a + c, b) == Oldest(c, Oldest(a, b))
  {
    if a == [] {
      assert a + c == c;
    } else {
      assert (a + c)[1..] == a[1..] + c;
      OldestAppend(a[1..], c, Better(b, a[0]));
    }
  }

  lemma {:induction false} OldestIsLeast(rs: seq<Ref>, b: Best)
    ensures var o := Oldest(rs, b);
      && BestTime(o) <= BestTime(b) && (forall r <- rs :: BestTime(o) <= r.time || r.time >= 2147483647)
      && (o == b || (o.Best? && o.ref in rs && o.ref.time < BestTime(b)))
  {
    if rs != [] {
      OldestIsLeast(rs[1..], Better(b, rs[0]));
      forall r <- rs ensures r == rs[0] || r in rs[1..] {}
    }
  }

  /** `find_oldest_file`: a recursive walk that improves on what it was given. */
  method FindOldestFile(entries: seq<Node>, dir: Path, best: Best) returns (b: Best)
    ensures b == Oldest(Files(entries, dir, false), best)
    decreases entries
  {
    b := best;
    for i := 0 to |entries|
      invariant Oldest(Files(entries[i..], dir, false), b) == Oldest(Files(entries, dir, false), best)
    {
      var n := entries[i];
      assert entries[i..][0] == n && entries[i..][1..] == entries[i + 1..];
      OldestAppend(FilesOf(n, dir, false), Files(entries[i + 1..], dir, false), b);
      if !Skips(n.name, false) {
        match n {
          case Dir(name, es) => b := FindOldestFile(es, dir + [name], b);
          case File(name, time, duration) =>
            if time != MAX_TIME && time < BestTime(b) { b := Best(Ref(dir + [name], time, duration)); }
        }
      }
    }
    assert entries[|entries|..] == [];
  }

  // ---------- adding up durations

  function Total(rs: seq<Ref>): nat {
    if rs == [] then 0 else rs[0].duration + Total(rs[1..])
  }

  lemma {:induction false} TotalAppend(a: seq<Ref>, b: seq<Ref>)
    ensures Total(a + b) == Total(a) + Total(b)
  {
    if a == [] {
      assert a + b == b;
    } else {
      assert (a + b)[1..] == a[1..] + b;
      TotalAppend(a[1..], b);
    }
  }

  /** `process_duration`. */
  method ProcessDuration(entries: seq<Node>, ghost dir: Path) returns (duration: nat)
    ensures duration == Total(Files(entries, dir, true))
    decreases entries
  {
    duration := 0;
    for i := 0 to |entries|
      invariant duration + Total(Files(entries[i..], dir, true)) == Total(Files(entries, dir, true))
    {
      var n := entries[i];
      assert entries[i..][0] == n && entries[i..][1..] == entries[i + 1..];
      TotalAppend(FilesOf(n, dir, true), Files(entries[i + 1..], dir, true));
      if !Skips(n.name, true) {
        match n {
          case Dir(name, es) =>
            var more := ProcessDuration(es, dir + [name]);
            duration := duration + more;
          case File(name, time, d) =>
            assert FilesOf(n, dir, true)[1..] == [];
            duration := duration + d;
        }
      }
    }
    assert entries[|entries|..] == [];
  }

  // ---------- deleting and pruning

  function Parent(path: Path): Path
    requires path != []
  {
    path[..|path| - 1]
  }

  /** `is_dir_empty`: false also when there is no such directory. */
  predicate IsDirEmpty(drive: seq<Node>, dir: Path) {
    At(drive, dir) == Some([])
  }

  /** What every walk from any directory sees is the same in both drives. */
  ghost predicate SameFiles(a: seq<Node>, b: seq<Node>) {
    forall track: Path, metadata :: Files(Under(a, track), track, metadata) == Files(Under(b, track), track, metadata)
  }

  lemma {:induction false} EmptyBelow(drive: seq<Node>, dir: Path, base: Path, metadata: bool)
    requires At(drive, dir) == Some([]) && Distinct(drive) && dir != []
    ensures forall r <- Files(drive, base, metadata) :: !(base + dir <= r.path)
    decreases |dir|, |drive|
  {
    var n, rest := drive[0], drive[1..];
    DistinctRest(drive);
    assert Files(drive, base, metadata) == FilesOf(n, base, metadata) + Files(rest, base, metadata);
    if n.name != dir[0] {
      OtherName(n, base, dir, metadata);
      EmptyBelow(rest, dir, base, metadata);
    } else {
      OtherNames(rest, base, dir, metadata);
      assert base + dir == (base + [n.name]) + dir[1..];
      if |dir| == 1 {
        assert n.entries == [];
        assert FilesOf(n, base, metadata) == [];
      } else {
        EmptyBelow(n.entries, dir[1..], base + [n.name], metadata);
      }
    }
  }

  lemma {:induction false} AtCompose(drive: seq<Node>, a: Path, b: Path)
    ensures At(drive, a + b) == match At(drive, a) case Some(es) => At(es, b) case None => None
    decreases |a|, |drive|
  {
    if a == [] {
      assert a + b == b;
    } else if drive != [] {
      assert (a + b)[0] == a[0] && (a + b)[1..] == a[1..] + b;
      if drive[0].name != a[0] {
        AtCompose(drive[1..], a, b);
      } else if drive[0].Dir? {
        AtCompose(drive[0].entries, a[1..], b);
      }
    }
  }

  lemma {:induction false} RemovedIsGone(drive: seq<Node>, path: Path)
    requires path != [] && Distinct(drive)
    ensures Under(RemoveAt(drive, path), path) == []
    decreases |path|, |drive|
  {
    if drive != [] {
      var n := drive[0];
      DistinctRest(drive);
      if n.name != path[0] {
        RemovedIsGone(drive[1..], path);
        AtCons(n, RemoveAt(drive[1..], path), path);
      } else if |path| == 1 {
        NotThere(drive[1..], path);
      } else if n.Dir? {
        RemovedIsGone(n.entries, path[1..]);
        AtCons(Dir(n.name, RemoveAt(n.entries, path[1..])), drive[1..], path);
      }
    }
  }

  /** Removing an empty directory changes no walk from anywhere. */
  lemma RmdirSameFiles(drive: seq<Node>, dir: Path)
    requires Distinct(drive) && dir != [] && IsDirEmpty(drive, dir)
    ensures SameFiles(drive, RemoveAt(drive, dir)) && Distinct(RemoveAt(drive, dir))
  {
    RemoveDistinct(drive, dir);
    forall track: Path, metadata
      ensures Files(Under(drive, track), track, metadata) == Files(Under(RemoveAt(drive, dir), track), track, metadata)
    {
      if track == dir {
        RemovedIsGone(drive, dir);
      } else if track <= dir {
        var rest := dir[|track|..];
        assert dir == track + rest;
        AtCompose(drive, track, rest);
        AtDistinct(drive, track);
        RemoveUnder(drive, track, rest);
        RemoveDrops(Under(drive, track), track, rest, metadata);
        EmptyBelow(Under(drive, track), rest, track, metadata);
        DropNone(Files(Under(drive, track), track, metadata), dir);
      } else {
        RemoveElsewhere(drive, track, dir);
        if dir <= track {
          assert track == dir + track[|dir|..];
          AtCompose(drive, dir, track[|dir|..]);
        }
      }
    }
  }

  /** Up to five levels from a directory: stop at one that is not empty, step over the footage
      directory; the mount point itself cannot be removed. */
  function Pruned(drive: seq<Node>, dir: Path, levels: nat): seq<Node>
    decreases levels
  {
    if levels == 0 || dir == [] then drive
    else if dir[|dir| - 1] == "VideoFootages" then Pruned(drive, Parent(dir), levels - 1)
    else if !IsDirEmpty(drive, dir) then drive
    else Pruned(RemoveAt(drive, dir), Parent(dir), levels - 1)
  }

  /** Pruning empty directories never changes the files any walk sees. */
  lemma {:induction false} PruneKeepsFiles(drive: seq<Node>, dir: Path, levels: nat)
    requires Distinct(drive)
    ensures SameFiles(drive, Pruned(drive, dir, levels)) && Distinct(Pruned(drive, dir, levels))
    decreases levels
  {
    if levels > 0 && dir != [] {
      if dir[|dir| - 1] == "VideoFootages" {
        PruneKeepsFiles(drive, Parent(dir), levels - 1);
      } else if IsDirEmpty(drive, dir) {
        RmdirSameFiles(drive, dir);
        PruneKeepsFiles(RemoveAt(drive, dir), Parent(dir), levels - 1);
      }
    }
  }

  /** The new drive, and the file deleted, if any. */
  function Deleted(drive: seq<Node>, track: Path): (r: (seq<Node>, Best)) {
    var b := Oldest(Files(Under(drive, track), track, false), Nothing);
    if b.Nothing? || b.ref.path == [] then (drive, Nothing)
    else (Pruned(RemoveAt(drive, b.ref.path), Parent(b.ref.path), PRUNE_LEVELS), b)
  }

  /** `delete_oldest_file` when the removal of a file that was found succeeds; with nothing found
      the removal of an empty path fails. */
  method DeleteOldestFile(drive: seq<Node>, track: Path) returns (drive': seq<Node>, b: Best, ok: bool)
    ensures (drive', b) == Deleted(drive, track) && ok == b.Best?
  {
    drive', ok := drive, false;
    b := FindOldestFile(Under(drive, track), track, Nothing);
    if b.Nothing? || b.ref.path == [] { return drive, Nothing, false; }
    ok := true;
    drive' := RemoveAt(drive, b.ref.path);
    var dir := Parent(b.ref.path);
    ghost var pruned := Pruned(drive', dir, PRUNE_LEVELS);
    var level := 0;
    while level < PRUNE_LEVELS && dir != []
      invariant level <= PRUNE_LEVELS
      invariant Pruned(drive', dir, PRUNE_LEVELS - level) == pruned
    {
      if dir[|dir| - 1] != "VideoFootages" {
        if !IsDirEmpty(drive', dir) { break; }
        drive' := RemoveAt(drive', dir);
      }
      dir := Parent(dir);
      level := level + 1;
    }
  }

  // ---------- what a deletion takes away

  /** No reference lies at or below another one. */
  ghost predicate PrefixFree(rs: seq<Ref>) {
    forall j, k :: 0 <= j < |rs| && 0 <= k < |rs| && j != k ==> !(rs[j].path <= rs[k].path)
  }

  lemma FilesOfPrefixFree(n: Node, dir: Path, metadata: bool)
    requires n.Dir? ==> Distinct(n.entries)
    ensures PrefixFree(FilesOf(n, dir, metadata))
    decreases n, 1
  {
    if n.Dir? { FilesPrefixFree(n.entries, dir + [n.name], metadata); }
  }

  lemma {:induction false} FilesPrefixFree(entries: seq<Node>, dir: Path, metadata: bool)
    requires Distinct(entries)
    ensures PrefixFree(Files(entries, dir, metadata))
    decreases entries, 0
  {
    if entries != [] {
      var n, rest := entries[0], entries[1..];
      DistinctRest(entries);
      FilesOfPrefixFree(n, dir, metadata);
      FilesPrefixFree(rest, dir, metadata);
      BelowOf(n, dir, metadata);
      Below(rest, dir, metadata);
      forall a <- FilesOf(n, dir, metadata), b <- Files(rest, dir, metadata)
        ensures !(a.path <= b.path) && !(b.path <= a.path)
      {
        var m :| m in rest && dir + [m.name] <= b.path;
        assert (dir + [n.name])[|dir|] == a.path[|dir|] && (dir + [m.name])[|dir|] == b.path[|dir|];
      }
    }
  }

  lemma {:induction false} DropOne(rs: seq<Ref>, r: Ref)
    requires PrefixFree(rs) && r in rs
    ensures multiset(rs) == multiset(Drop(rs, r.path)) + multiset{r} && |Drop(rs, r.path)| == |rs| - 1
  {
    PrefixFreeCons(rs);
    assert multiset(rs) == multiset{rs[0]} + multiset(rs[1..]) by { assert rs == [rs[0]] + rs[1..]; }
    hide PrefixFree;
    if r == rs[0] {
      DropNone(rs[1..], r.path);
    } else {
      assert r in rs[1..];
      DropOne(rs[1..], r);
      assert Drop(rs, r.path) == [rs[0]] + Drop(rs[1..], r.path);
    }
  }

  lemma PrefixFreeCons(rs: seq<Ref>)
    requires PrefixFree(rs) && rs != []
    ensures PrefixFree(rs[1..])
    ensures forall r <- rs[1..] :: !(rs[0].path <= r.path) && !(r.path <= rs[0].path)
  {}

  /** Deleting takes exactly the oldest file out of both walks from the directory searched. */
  lemma DeletedDrops(drive: seq<Node>, track: Path, metadata: bool)
    requires Distinct(drive) && Deleted(drive, track).1.Best?
    ensures var (drive', b) := Deleted(drive, track);
      && Distinct(drive')
      && b.ref in Files(Under(drive, track), track, false)
      && Files(Under(drive', track), track, metadata) == Drop(Files(Under(drive, track), track, metadata), b.ref.path)
  {
    var (drive', b) := Deleted(drive, track);
    var path := b.ref.path;
    OldestIsLeast(Files(Under(drive, track), track, false), Nothing);
    Below(Under(drive, track), track, false);
    var rest := path[|track|..];
    assert path == track + rest;
    RemoveDistinct(drive, path);
    AtDistinct(drive, track);
    RemoveUnder(drive, track, rest);
    RemoveDrops(Under(drive, track), track, rest, metadata);
    PruneKeepsFiles(RemoveAt(drive, path), Parent(path), PRUNE_LEVELS);
  }

  lemma DeletedConserves(drive: seq<Node>, track: Path)
    requires Distinct(drive) && Deleted(drive, track).1.Best?
    ensures var (drive', b) := Deleted(drive, track);
      var before, after := Files(Under(drive, track), track, false), Files(Under(drive', track), track, false);
      && multiset(before) == multiset(after) + multiset{b.ref} && |after| == |before| - 1
      && forall r <- before :: b.ref.time <= r.time || r.time >= MAX_TIME
  {
    DeletedDrops(drive, track, false);
    AtDistinct(drive, track);
    FilesPrefixFree(Under(drive, track), track, false);
    OldestIsLeast(Files(Under(drive, track), track, false), Nothing);
    DropOne(Files(Under(drive, track), track, false), Deleted(drive, track).1.ref);
  }

  // ---------- the loops

  /** When grooming stops: recordings of a camera within a limit, or enough space on a drive, where
      `readings` are what the file system answers one after the other and `at` counts them. */
  datatype Goal = MaxDuration(limit: nat) | MinSpace(readings: nat -> real, threshold: real, at: nat)
  {
    /** The goal after n more deletions. */
    function After(n: nat): Goal {
      match this
      case MaxDuration(_) => this
      case MinSpace(r, t, at) => MinSpace(r, t, at + n)
    }
  }

  function Walk(drive: seq<Node>, track: Path, metadata: bool): seq<Ref> {
    Files(Under(drive, track), track, metadata)
  }

  predicate Fits(goal: Goal, drive: seq<Node>, track: Path) {
    match goal
    case MaxDuration(limit) => Total(Walk(drive, track, true)) <= limit
    case MinSpace(readings, threshold, at) => readings(at) >= threshold
  }

  /** Delete until the goal is met or there is nothing to delete; also the files deleted. */
  ghost function Groomed(drive: seq<Node>, track: Path, goal: Goal): (r: (seq<Node>, seq<Ref>))
    requires Distinct(drive)
    decreases |Walk(drive, track, false)|
  {
    var (drive', b) := Deleted(drive, track);
    if Fits(goal, drive, track) || b.Nothing? then (drive, [])
    else
      DeletedDrops(drive, track, false);
      DeletedConserves(drive, track);
      var (last, more) := Groomed(drive', track, goal.After(1));
      (last, [b.ref] + more)
  }

  /** Durations that count towards a limit: not those of files below a metadata directory. */
  predicate Counts(r: Ref, depth: nat) {
    forall k :: depth <= k < |r.path| ==> r.path[k] != "METADATA"
  }

  function Counted(rs: seq<Ref>, depth: nat): nat {
    if rs == [] then 0 else (if Counts(rs[0], depth) then rs[0].duration else 0) + Counted(rs[1..], depth)
  }

  lemma {:induction false} CountedAppend(a: seq<Ref>, b: seq<Ref>, depth: nat)
    ensures Counted(a + b, depth) == Counted(a, depth) + Counted(b, depth)
  {
    if a == [] {
      assert a + b == b;
    } else {
      assert (a + b)[1..] == a[1..] + b;
      CountedAppend(a[1..], b, depth);
    }
  }

  lemma {:induction false} CountedBelow(rs: seq<Ref>, dir: Path, name: string)
    requires forall r <- rs :: dir + [name] <= r.path
    ensures Counted(rs, |dir|) == if name == "METADATA" then 0 else Counted(rs, |dir| + 1)
  {
    if rs != [] {
      assert rs[0].path[|dir|] == (dir + [name])[|dir|];
      CountedBelow(rs[1..], dir, name);
    }
  }

  lemma CountedOf(n: Node, dir: Path)
    ensures Counted(FilesOf(n, dir, false), |dir|) == Total(FilesOf(n, dir, true))
    decreases n, 1
  {
    BelowOf(n, dir, false);
    CountedBelow(FilesOf(n, dir, false), dir, n.name);
    if n.Dir? {
      CountedIsTotal(n.entries, dir + [n.name]);
    } else if !Skips(n.name, false) {
      assert FilesOf(n, dir, false)[1..] == [];
    }
  }

  /** The duration count is the sum over the files the search sees, less those below METADATA. */
  lemma {:induction false} CountedIsTotal(entries: seq<Node>, dir: Path)
    ensures Counted(Files(entries, dir, false), |dir|) == Total(Files(entries, dir, true))
    decreases entries, 0
  {
    if entries != [] {
      CountedOf(entries[0], dir);
      CountedIsTotal(entries[1..], dir);
      CountedAppend(FilesOf(entries[0], dir, false), Files(entries[1..], dir, false), |dir|);
      TotalAppend(FilesOf(entries[0], dir, true), Files(entries[1..], dir, true));
    }
  }

  lemma {:induction false} CountedDrop(rs: seq<Ref>, r: Ref, depth: nat)
    requires PrefixFree(rs) && r in rs
    ensures Counted(rs, depth) == Counted(Drop(rs, r.path), depth) + Counted([r], depth)
  {
    hide Counts;
    PrefixFreeCons(rs);
    assert [r][1..] == [];
    if r == rs[0] {
      DropNone(rs[1..], r.path);
      assert Drop(rs, r.path) == rs[1..];
    } else {
      assert r in rs[1..];
      assert Drop(rs, r.path) == [rs[0]] + Drop(rs[1..], r.path);
      CountedDrop(rs[1..], r, depth);
    }
  }

  /** One deletion lowers the counted duration by what the deleted file counts for. */
  lemma DeletedSpends(drive: seq<Node>, track: Path)
    requires Distinct(drive) && Deleted(drive, track).1.Best?
    ensures var (drive', b) := Deleted(drive, track);
      Total(Walk(drive, track, true)) == Total(Walk(drive', track, true)) + Counted([b.ref], |track|)
  {
    var (drive', b) := Deleted(drive, track);
    DeletedDrops(drive, track, false);
    AtDistinct(drive, track);
    FilesPrefixFree(Under(drive, track), track, false);
    CountedIsTotal(Under(drive, track), track);
    CountedIsTotal(Under(drive', track), track);
    CountedDrop(Walk(drive, track, false), b.ref, |track|);
  }

  /** Counted durations of the files the search never considers: those from `MAX_TIME` on. */
  function Stuck(rs: seq<Ref>, depth: nat): nat {
    if rs == [] then 0
    else (if rs[0].time >= MAX_TIME && Counts(rs[0], depth) then rs[0].duration else 0) + Stuck(rs[1..], depth)
  }

  lemma {:induction false} StuckBelow(rs: seq<Ref>, depth: nat)
    ensures Stuck(rs, depth) <= Counted(rs, depth)
    ensures (forall r <- rs :: r.time >= MAX_TIME) ==> Stuck(rs, depth) == Counted(rs, depth)
  {
    if rs != [] { StuckBelow(rs[1..], depth); }
  }

  lemma {:induction false} StuckDrop(rs: seq<Ref>, r: Ref, depth: nat)
    requires PrefixFree(rs) && r in rs && r.time < MAX_TIME
    ensures Stuck(Drop(rs, r.path), depth) == Stuck(rs, depth)
  {
    hide Counts;
    PrefixFreeCons(rs);
    if r == rs[0] {
      DropNone(rs[1..], r.path);
      assert Drop(rs, r.path) == rs[1..];
    } else {
      assert r in rs[1..];
      assert Drop(rs, r.path) == [rs[0]] + Drop(rs[1..], r.path);
      StuckDrop(rs[1..], r, depth);
    }
  }

  /** A deletion leaves them all. */
  lemma DeletedKeepsStuck(drive: seq<Node>, track: Path)
    requires Distinct(drive)
    ensures var next := Deleted(drive, track).0;
      Distinct(next) && Stuck(Walk(next, track, false), |track|) == Stuck(Walk(drive, track, false), |track|)
  {
    var (next, b) := Deleted(drive, track);
    if b.Best? {
      DeletedDrops(drive, track, false);
      AtDistinct(drive, track);
      FilesPrefixFree(Under(drive, track), track, false);
      OldestIsLeast(Walk(drive, track, false), Nothing);
      StuckDrop(Walk(drive, track, false), b.ref, |track|);
    }
  }

  lemma StuckWithin(drive: seq<Node>, track: Path)
    ensures Stuck(Walk(drive, track, false), |track|) <= Total(Walk(drive, track, true))
  {
    StuckBelow(Walk(drive, track, false), |track|);
    CountedIsTotal(Under(drive, track), track);
  }

  /** When nothing can be deleted, everything counted is stuck. */
  lemma NothingLeft(drive: seq<Node>, track: Path)
    requires Deleted(drive, track).1.Nothing?
    ensures Stuck(Walk(drive, track, false), |track|) == Total(Walk(drive, track, true))
  {
    var rs := Walk(drive, track, false);
    OldestIsLeast(rs, Nothing);
    Below(Under(drive, track), track, false);
    StuckBelow(rs, |track|);
    CountedIsTotal(Under(drive, track), track);
  }

  /** The deleted and the kept files are the files there were. */
  ghost predicate Split(before: seq<Ref>, kept: seq<Ref>, deleted: seq<Ref>) {
    multiset(before) == multiset(kept) + multiset(deleted)
  }

  /** What the deletions did: nothing but deletions; the goal is met or nothing is left to delete. */
  ghost predicate Sound(drive: seq<Node>, track: Path, goal: Goal, drive': seq<Node>, deleted: seq<Ref>) {
    && Split(Walk(drive, track, false), Walk(drive', track, false), deleted)
    && (Fits(goal.After(|deleted|), drive', track) || Deleted(drive', track).1.Nothing?)
    && Total(Walk(drive, track, true)) == Total(Walk(drive', track, true)) + Counted(deleted, |track|)
  }

  /** Oldest first: no deleted file is newer than a kept one, nor than one deleted later. */
  ghost predicate OldestFirst(deleted: seq<Ref>, kept: seq<Ref>) {
    && (forall d <- deleted, k <- kept :: d.time <= k.time || k.time >= MAX_TIME)
    && (forall i, j :: 0 <= i < j < |deleted| ==> deleted[i].time <= deleted[j].time)
  }

  /** One round of a loop, on the specification. */
  lemma GroomedStep(drive: seq<Node>, track: Path, goal: Goal)
    requires Distinct(drive) && !Fits(goal, drive, track) && Deleted(drive, track).1.Best?
    ensures var (next, b) := Deleted(drive, track);
      && Distinct(next) && |Walk(next, track, false)| < |Walk(drive, track, false)|
      && Groomed(drive, track, goal)
        == (Groomed(next, track, goal.After(1)).0, [b.ref] + Groomed(next, track, goal.After(1)).1)
  {
    DeletedDrops(drive, track, false);
    DeletedConserves(drive, track);
  }

  lemma GroomedDone(drive: seq<Node>, track: Path, goal: Goal)
    requires Distinct(drive) && (Fits(goal, drive, track) || Deleted(drive, track).1.Nothing?)
    ensures Groomed(drive, track, goal) == (drive, [])
  {}

  lemma AfterAfter(goal: Goal, n: nat)
    ensures goal.After(1).After(n) == goal.After(n + 1) == goal.After(n).After(1) && goal.After(0) == goal
  {}

  /** One deletion in front of a sound list of deletions. */
  lemma SoundCons(drive: seq<Node>, next: seq<Node>, track: Path, goal: Goal, r: Ref, last: seq<Node>, more: seq<Ref>)
    requires Sound(next, track, goal.After(1), last, more)
    requires Split(Walk(drive, track, false), Walk(next, track, false), [r])
    requires Total(Walk(drive, track, true)) == Total(Walk(next, track, true)) + Counted([r], |track|)
    ensures Sound(drive, track, goal, last, [r] + more)
  {
    hide Walk, Fits, Deleted, Total, Counted, Distinct, Split;
    CountedAppend([r], more, |track|);
    AfterAfter(goal, |more|);
    assert |[r] + more| == |more| + 1;
    SplitAgain(Walk(drive, track, false), Walk(next, track, false), Walk(last, track, false), r, more);
  }

  lemma SplitAgain(before: seq<Ref>, between: seq<Ref>, after: seq<Ref>, r: Ref, more: seq<Ref>)
    requires Split(before, between, [r]) && Split(between, after, more)
    ensures Split(before, after, [r] + more)
  {
    assert multiset([r] + more) == multiset([r]) + multiset(more);
  }

  lemma {:induction false} GroomedSound(drive: seq<Node>, track: Path, goal: Goal)
    requires Distinct(drive)
    ensures var (drive', deleted) := Groomed(drive, track, goal); Sound(drive, track, goal, drive', deleted)
    ensures Distinct(Groomed(drive, track, goal).0)
    decreases |Walk(drive, track, false)|
  {
    var (next, b) := Deleted(drive, track);
    if !Fits(goal, drive, track) && b.Best? {
      GroomedStep(drive, track, goal);
      DeletedConserves(drive, track);
      DeletedSpends(drive, track);
      GroomedSound(next, track, goal.After(1));
      SoundCons(drive, next, track, goal, b.ref, Groomed(next, track, goal.After(1)).0,
        Groomed(next, track, goal.After(1)).1);
      hide Sound, Deleted, Fits, Walk;
    } else {
      GroomedDone(drive, track, goal);
      AfterAfter(goal, 0);
    }
  }

  lemma {:induction false} GroomedOldestFirst(drive: seq<Node>, track: Path, goal: Goal)
    requires Distinct(drive)
    ensures var (drive', deleted) := Groomed(drive, track, goal);
      OldestFirst(deleted, Walk(drive', track, false)) && forall d <- deleted :: d.time < MAX_TIME
    decreases |Walk(drive, track, false)|
  {
    var (next, b) := Deleted(drive, track);
    if !Fits(goal, drive, track) && b.Best? {
      DeletedDrops(drive, track, false);
      DeletedConserves(drive, track);
      OldestIsLeast(Walk(drive, track, false), Nothing);
      GroomedOldestFirst(next, track, goal.After(1));
      GroomedSound(next, track, goal.After(1));
      var (last, more) := Groomed(next, track, goal.After(1));
      OldestFirstCons(b.ref, more, Walk(last, track, false), Walk(next, track, false), Walk(drive, track, false));
    }
  }

  lemma OldestFirstCons(oldest: Ref, more: seq<Ref>, kept: seq<Ref>, next: seq<Ref>, all: seq<Ref>)
    requires multiset(next) == multiset(kept) + multiset(more) && multiset(all) == multiset(next) + multiset{oldest}
    requires OldestFirst(more, kept) && forall d <- more :: d.time < MAX_TIME
    requires oldest.time < MAX_TIME && forall r <- all :: oldest.time <= r.time || r.time >= MAX_TIME
    ensures OldestFirst([oldest] + more, kept) && forall d <- [oldest] + more :: d.time < MAX_TIME
  {
    forall r | r in kept || r in more ensures r in all {
      assert r in multiset(kept) + multiset(more);
      assert r in multiset(all);
    }
  }

  /** A loop that has deleted some files is on its way to the specified end. */
  ghost predicate Toward(goal: Goal, track: Path, start: seq<Node>, deleted: seq<Ref>, now: seq<Node>) {
    && Distinct(start) && Distinct(now)
    && (var rest := Groomed(now, track, goal.After(|deleted|));
        Groomed(start, track, goal) == (rest.0, deleted + rest.1))
  }

  lemma TowardStart(goal: Goal, track: Path, start: seq<Node>)
    requires Distinct(start)
    ensures Toward(goal, track, start, [], start)
  {
    AfterAfter(goal, 0);
    assert [] + Groomed(start, track, goal).1 == Groomed(start, track, goal).1;
  }

  lemma TowardStep(goal: Goal, track: Path, start: seq<Node>, deleted: seq<Ref>, now: seq<Node>)
    requires Toward(goal, track, start, deleted, now)
    requires !Fits(goal.After(|deleted|), now, track) && Deleted(now, track).1.Best?
    ensures var (next, b) := Deleted(now, track);
      && |Walk(next, track, false)| < |Walk(now, track, false)|
      && Toward(goal, track, start, deleted + [b.ref], next)
  {
    hide Groomed, Fits, Deleted, Walk;
    var (next, b) := Deleted(now, track);
    GroomedStep(now, track, goal.After(|deleted|));
    AfterAfter(goal, |deleted|);
    var more := Groomed(next, track, goal.After(|deleted| + 1)).1;
    assert deleted + ([b.ref] + more) == (deleted + [b.ref]) + more;
  }

  lemma TowardDone(goal: Goal, track: Path, start: seq<Node>, deleted: seq<Ref>, now: seq<Node>)
    requires Toward(goal, track, start, deleted, now)
    requires Fits(goal.After(|deleted|), now, track) || Deleted(now, track).1.Nothing?
    ensures (now, deleted) == Groomed(start, track, goal)
  {
    GroomedDone(now, track, goal.After(|deleted|));
    assert deleted + [] == deleted;
  }

  /** Minimal: before its last deletion the drive did not meet the goal. */
  lemma {:induction false} GroomedMinimal(drive: seq<Node>, track: Path, limit: nat)
    requires Distinct(drive)
    ensures var (drive', deleted) := Groomed(drive, track, MaxDuration(limit));
      deleted != [] ==>
        Total(Walk(drive', track, true)) + Counted(deleted[|deleted| - 1..], |track|) > limit
    decreases |Walk(drive, track, false)|
  {
    hide Groomed, Deleted, Walk, Total, Counted, Distinct;
    var goal := MaxDuration(limit);
    var (next, b) := Deleted(drive, track);
    if !Fits(goal, drive, track) && b.Best? {
      GroomedStep(drive, track, goal);
      DeletedSpends(drive, track);
      assert Total(Walk(drive, track, true)) > limit;
      hide Fits;
      GroomedMinimal(next, track, limit);
      GroomedNothing(next, track, goal);
      LastOfCons(b.ref, Groomed(next, track, goal).1);
    } else {
      GroomedDone(drive, track, goal);
    }
  }

  lemma GroomedNothing(drive: seq<Node>, track: Path, goal: Goal)
    requires Distinct(drive)
    ensures Groomed(drive, track, goal).1 == [] ==> Groomed(drive, track, goal).0 == drive
  {}

  lemma LastOfCons(x: Ref, more: seq<Ref>)
    ensures ([x] + more)[|more|..] == if more == [] then [x] else more[|more| - 1..]
  {}

  /** `groom_handler`, for a camera's directory, when removals succeed and the files that start from
      `MAX_TIME` on are within the limit: it stops, with the recordings within the limit, having
      deleted oldest first and no more than needed. */
  method GroomHandler(drive: seq<Node>, track: Path, limit: nat) returns (drive': seq<Node>, deleted: seq<Ref>)
    requires Distinct(drive) && Stuck(Walk(drive, track, false), |track|) <= limit
    ensures Total(Walk(drive', track, true)) <= limit
    ensures Split(Walk(drive, track, false), Walk(drive', track, false), deleted)
    ensures OldestFirst(deleted, Walk(drive', track, false))
    ensures deleted != [] ==> Total(Walk(drive', track, true)) + Counted(deleted[|deleted| - 1..], |track|) > limit
    ensures (drive', deleted) == Groomed(drive, track, MaxDuration(limit))
  {
    ghost var goal := MaxDuration(limit);
    hide Groomed, Deleted, Toward, OldestFirst, Oldest, Stuck;
    drive', deleted := drive, [];
    TowardStart(goal, track, drive);
    var duration := ProcessDuration(Under(drive', track), track);
    while duration > limit
      invariant Toward(goal, track, drive, deleted, drive')
      invariant Distinct(drive') && Stuck(Walk(drive', track, false), |track|) <= limit
      invariant duration == Total(Walk(drive', track, true))
      decreases |Walk(drive', track, false)|
    {
      OverLimit(drive', track, limit);
      TowardStep(goal, track, drive, deleted, drive');
      DeletedKeepsStuck(drive', track);
      var next, b, ok := DeleteOldestFile(drive', track);
      drive', deleted := next, deleted + [b.ref];
      duration := ProcessDuration(Under(drive', track), track);
    }
    TowardDone(goal, track, drive, deleted, drive');
    GroomedSound(drive, track, goal);
    GroomedOldestFirst(drive, track, goal);
    GroomedMinimal(drive, track, limit);
  }

  /** Over a limit that the stuck files keep, there is a file to delete. */
  lemma OverLimit(drive: seq<Node>, track: Path, limit: nat)
    requires Stuck(Walk(drive, track, false), |track|) <= limit < Total(Walk(drive, track, true))
    ensures Deleted(drive, track).1.Best?
  {
    if Deleted(drive, track).1.Nothing? { NothingLeft(drive, track); }
  }

  /** The drive after n rounds of the duration loop. */
  function Rounds(drive: seq<Node>, track: Path, n: nat): seq<Node> {
    if n == 0 then drive else Deleted(Rounds(drive, track, n - 1), track).0
  }

  lemma {:induction false} RoundsKeepStuck(drive: seq<Node>, track: Path, n: nat)
    requires Distinct(drive)
    ensures var now := Rounds(drive, track, n);
      Distinct(now) && Stuck(Walk(now, track, false), |track|) == Stuck(Walk(drive, track, false), |track|)
  {
    hide Deleted, Walk, Stuck, Distinct;
    if n > 0 {
      RoundsKeepStuck(drive, track, n - 1);
      DeletedKeepsStuck(Rounds(drive, track, n - 1), track);
    }
  }

  lemma {:induction false} RoundsFirst(drive: seq<Node>, track: Path, n: nat)
    ensures Rounds(drive, track, n + 1) == Rounds(Deleted(drive, track).0, track, n)
  {
    hide Deleted;
    if n > 0 { RoundsFirst(drive, track, n - 1); }
  }

  /** The duration loop gets within its limit after n rounds. */
  predicate EndsBy(drive: seq<Node>, track: Path, limit: nat, n: nat) {
    Total(Walk(Rounds(drive, track, n), track, true)) <= limit
  }

  lemma {:induction false} EndsSometime(drive: seq<Node>, track: Path, limit: nat) returns (n: nat)
    requires Distinct(drive) && Stuck(Walk(drive, track, false), |track|) <= limit
    ensures EndsBy(drive, track, limit, n)
    decreases |Walk(drive, track, false)|
  {
    n := 0;
    if Total(Walk(drive, track, true)) > limit {
      OverLimit(drive, track, limit);
      DeletedKeepsStuck(drive, track);
      DeletedConserves(drive, track);
      hide Deleted, Stuck, Distinct, Total;
      n := EndsSometime(Deleted(drive, track).0, track, limit);
      RoundsFirst(drive, track, n);
      n := n + 1;
    }
  }

  /** `groom_handler` ends if and only if the counted files that start from `MAX_TIME` on are within
      the limit; otherwise it repeats without end. */
  lemma GroomEndsExact(drive: seq<Node>, track: Path, limit: nat)
    requires Distinct(drive)
    ensures (exists n :: EndsBy(drive, track, limit, n)) <==> Stuck(Walk(drive, track, false), |track|) <= limit
  {
    hide Stuck, Rounds, Walk, Total;
    if Stuck(Walk(drive, track, false), |track|) <= limit {
      var n := EndsSometime(drive, track, limit);
    }
    forall n | EndsBy(drive, track, limit, n) ensures Stuck(Walk(drive, track, false), |track|) <= limit {
      RoundsKeepStuck(drive, track, n);
      StuckWithin(Rounds(drive, track, n), track);
    }
  }

  /** For instance, a file of 2039 alone is never deleted, whatever the limit. */
  lemma LateFileStays(limit: nat, n: nat)
    requires limit < 10
    ensures var drive := [File("20390101-000000.000000010.data", 2177452800, 10)];
      Deleted(drive, []) == (drive, Nothing) && !EndsBy(drive, [], limit, n)
  {
    var name := "20390101-000000.000000010.data";
    var drive := [File(name, 2177452800, 10)];
    assert name[0] == '2';
    assert drive[1..] == [];
    assert Files(drive, [], false) == [Ref([name], 2177452800, 10)] by { assert [] + [name] == [name]; }
    var r := Ref([name], 2177452800, 10);
    assert [r][1..] == [];
    assert Counts(r, 0) by { assert name != "METADATA" by { assert |name| == 30; } }
    assert Stuck([r], 0) == 10;
    if EndsBy(drive, [], limit, n) { GroomEndsExact(drive, [], limit); }
  }

  lemma NothingDeleted(drive: seq<Node>)
    ensures OldestFirst([], Walk(drive, [], false)) && Split(Walk(drive, [], false), Walk(drive, [], false), [])
  {}

  /** Each of the first n readings is below the threshold. */
  ghost predicate AllBelow(readings: nat -> real, n: nat, threshold: real) {
    forall j: nat :: j < n ==> readings(j) < threshold
  }

  lemma NoneYet(readings: nat -> real, threshold: real)
    ensures AllBelow(readings, 0, threshold)
  {}

  lemma OneMoreBelow(readings: nat -> real, n: nat, threshold: real)
    requires AllBelow(readings, n, threshold) && readings(n) < threshold
    ensures AllBelow(readings, n + 1, threshold)
  {}

  lemma SpaceStep(goal: Goal, start: seq<Node>, deleted: seq<Ref>, now: seq<Node>)
    requires goal.MinSpace? && goal.at == 0 && Toward(goal, [], start, deleted, now)
    requires goal.readings(|deleted|) < goal.threshold && Deleted(now, []).1.Best?
    ensures var (next, b) := Deleted(now, []);
      && Distinct(next) && |Walk(next, [], false)| < |Walk(now, [], false)|
      && Toward(goal, [], start, deleted + [b.ref], next)
  {
    hide Groomed, Deleted, Walk;
    TowardStep(goal, [], start, deleted, now);
  }

  lemma SpaceDone(goal: Goal, start: seq<Node>, deleted: seq<Ref>, now: seq<Node>)
    requires goal.MinSpace? && goal.at == 0 && Distinct(start) && Toward(goal, [], start, deleted, now)
    requires goal.readings(|deleted|) >= goal.threshold || Deleted(now, []).1.Nothing?
    ensures (now, deleted) == Groomed(start, [], goal)
    ensures Split(Walk(start, [], false), Walk(now, [], false), deleted)
    ensures OldestFirst(deleted, Walk(now, [], false))
  {
    hide Groomed, Deleted, Walk, Toward, OldestFirst, Split, Distinct, Total, Counted;
    TowardDone(goal, [], start, deleted, now);
    GroomedSound(start, [], goal);
    GroomedOldestFirst(start, [], goal);
  }

  /** The value `process_available_space` answers when it fails. */
  const EXIT_FAILURE: real := 1.0

  /** `space_handler`, on a whole drive: it stops at the first reading of enough space or with
      nothing to delete, having deleted oldest first. The readings are arbitrary, in percent or 1
      on failure; a first reading of exactly 1 percent passes for a failure and nothing is done. */
  method SpaceHandler(drive: seq<Node>, readings: nat -> real, threshold: real)
    returns (drive': seq<Node>, deleted: seq<Ref>)
    requires Distinct(drive)
    ensures readings(0) == 1.0 ==> drive' == drive && deleted == []
    ensures readings(0) != 1.0 ==>
      && AllBelow(readings, |deleted|, threshold)
      && (readings(|deleted|) >= threshold || Deleted(drive', []).1.Nothing?)
      && (drive', deleted) == Groomed(drive, [], MinSpace(readings, threshold, 0))
    ensures Split(Walk(drive, [], false), Walk(drive', [], false), deleted)
    ensures OldestFirst(deleted, Walk(drive', [], false))
  {
    ghost var goal := MinSpace(readings, threshold, 0);
    hide Groomed, Deleted, Toward, OldestFirst, Oldest, Walk, Total, Counted, Split, Distinct, Fits, Sound, AllBelow;
    drive', deleted := drive, [];
    var available := readings(0);
    if available == EXIT_FAILURE {
      NothingDeleted(drive);
      return;
    }
    TowardStart(goal, [], drive);
    NoneYet(readings, threshold);
    while available < threshold
      invariant available == readings(|deleted|)
      invariant AllBelow(readings, |deleted|, threshold)
      invariant Distinct(drive') && Toward(goal, [], drive, deleted, drive')
      decreases |Walk(drive', [], false)|
    {
      var next, b, ok := DeleteOldestFile(drive', []);
      if !ok { break; }
      SpaceStep(goal, drive, deleted, drive');
      OneMoreBelow(readings, |deleted|, threshold);
      drive', deleted := next, deleted + [b.ref];
      available := readings(|deleted|);
    }
    SpaceDone(goal, drive, deleted, drive');
  }

  /** Without a file that starts before `MAX_TIME`, a round of the duration loop deletes nothing, so a limit
      that is exceeded stays exceeded: the loop makes progress if and only if there is one. */
  lemma ProgressExact(drive: seq<Node>, track: Path)
    requires Distinct(drive)
    ensures (exists r :: r in Walk(drive, track, false) && r.time < 2147483647)
      <==> Deleted(drive, track).0 != drive
  {
    var rs := Walk(drive, track, false);
    OldestIsLeast(rs, Nothing);
    Below(Under(drive, track), track, false);
    if Deleted(drive, track).1.Best? {
      DeletedConserves(drive, track);
      assert |Walk(Deleted(drive, track).0, track, false)| < |rs|;
    }
  }
}
