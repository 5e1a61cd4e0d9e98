/** What a walk over a drive sees, which file a deletion takes, and which directories disappear with
    it: told by the entries of the drive alone. */
module GroomedDirs {
  import opened Options
  import opened FileTree
  import opened Grooming

  // ---------- what a walk sees

  /** An entry is the file a path leads to, or the directory the path goes on in. */
  ghost predicate LeadsTo(n: Node, path: Path, time: int, duration: nat)
    requires path != []
    decreases |path|, 0
  {
    n.name == path[0] &&
    if |path| == 1 then n == File(path[0], time, duration) else n.Dir? && Holds(n.entries, path[1..], time, duration)
  }

  /** A path leads to a file with this time and duration. */
  ghost predicate Holds(entries: seq<Node>, path: Path, time: int, duration: nat)
    decreases |path|, 1
  {
    path != [] && exists n <- entries :: LeadsTo(n, path, time, duration)
  }

  /** No name on the path is one that walks pass over. */
  ghost predicate Visible(path: Path, metadata: bool) {
    forall name <- path :: name !in {"..", ".", "lost+found", "staging"} && (metadata ==> name != "METADATA")
  }

  lemma VisibleCons(path: Path, metadata: bool)
    requires path != []
    ensures Visible(path, metadata) <==> !Skips(path[0], metadata) && Visible(path[1..], metadata)
  {
    assert path == [path[0]] + path[1..];
    forall name ensures name in path <==> name == path[0] || name in path[1..] {}
    assert path[0] in path;
  }

  lemma FilesOfExact(n: Node, dir: Path, path: Path, time: int, duration: nat, metadata: bool)
    requires path != []
    ensures Ref(dir + path, time, duration) in FilesOf(n, dir, metadata)
      <==> LeadsTo(n, path, time, duration) && Visible(path, metadata)
    decreases n, 1
  {
    VisibleCons(path, metadata);
    BelowOf(n, dir, metadata);
    hide Visible, Skips;
    var r := Ref(dir + path, time, duration);
    if n.name != path[0] {
      assert (dir + [n.name])[|dir|] != (dir + path)[|dir|];
    } else if n.Dir? {
      assert (dir + [n.name]) + path[1..] == dir + path;
      FilesExact(n.entries, dir + [n.name], path[1..], time, duration, metadata);
    } else {
      assert dir + path == dir + [n.name] <==> path == [n.name] by {
        assert (dir + path)[|dir|..] == path && (dir + [n.name])[|dir|..] == [n.name];
      }
      assert path == [n.name] ==> Visible(path[1..], metadata) by { VisibleNothing(metadata); }
    }
  }

  lemma VisibleNothing(metadata: bool)
    ensures Visible([], metadata)
  {}

  /** A walk sees a file if and only if the path leads to it and passes over none of its names. */
  lemma {:induction false} FilesExact(entries: seq<Node>, dir: Path, path: Path, time: int, duration: nat,
                                      metadata: bool)
    ensures Ref(dir + path, time, duration) in Files(entries, dir, metadata)
      <==> Holds(entries, path, time, duration) && Visible(path, metadata)
    decreases entries, 0
  {
    if path == [] {
      Below(entries, dir, metadata);
      assert dir + path == dir;
    } else if entries != [] {
      FilesOfExact(entries[0], dir, path, time, duration, metadata);
      FilesExact(entries[1..], dir, path, time, duration, metadata);
      hide FilesOf, Visible, LeadsTo;
      assert Holds(entries, path, time, duration)
        <==> LeadsTo(entries[0], path, time, duration) || Holds(entries[1..], path, time, duration);
    }
  }

  // ---------- which file is deleted

  /** The first of the oldest files, among those that start before 2^31-1. */
  ghost predicate FirstOldest(rs: seq<Ref>, k: nat) {
    && k < |rs| && rs[k].time < 2147483647
    && (forall j :: 0 <= j < k ==> rs[j].time > rs[k].time)
    && (forall j :: k < j < |rs| ==> rs[j].time >= rs[k].time)
  }

  lemma FirstOldestCons(rs: seq<Ref>, k: nat)
    requires rs != [] && FirstOldest(rs[1..], k) && rs[0].time > rs[1..][k].time
    ensures FirstOldest(rs, k + 1) && rs[k + 1] == rs[1..][k]
  {}

  lemma {:induction false} OldestIsFirst(rs: seq<Ref>, b: Best)
    requires b.Best? ==> b.ref.time < 2147483647
    ensures Oldest(rs, b) == b
      <==> forall r <- rs :: r.time >= 2147483647 || (b.Best? && r.time >= b.ref.time)
    ensures Oldest(rs, b) != b ==>
      exists k: nat :: FirstOldest(rs, k) && Oldest(rs, b) == Best(rs[k]) && (b.Best? ==> rs[k].time < b.ref.time)
  {
    if rs != [] {
      var b' := Better(b, rs[0]);
      OldestIsFirst(rs[1..], b');
      assert rs == [rs[0]] + rs[1..];
      if Oldest(rs[1..], b') != b' {
        var k: nat :| FirstOldest(rs[1..], k) && Oldest(rs[1..], b') == Best(rs[1..][k])
          && (b'.Best? ==> rs[1..][k].time < b'.ref.time);
        FirstOldestCons(rs, k);
      } else if b' != b {
        assert FirstOldest(rs, 0);
      }
    }
  }

  /** A deletion takes the first of the oldest files the walk sees, and none if all start from 2^31-1 on. */
  lemma DeletedExact(drive: seq<Node>, track: Path)
    ensures var rs, b := Walk(drive, track, false), Deleted(drive, track).1;
      && (b == Nothing <==> forall r <- rs :: r.time >= 2147483647)
      && (b != Nothing ==> exists k: nat :: FirstOldest(rs, k) && b == Best(rs[k]))
  {
    OldestIsFirst(Walk(drive, track, false), Nothing);
    Below(Under(drive, track), track, false);
    hide FirstOldest;
  }

  // ---------- directories

  /** How many entries a directory has, -1 when there is none. */
  function Size(drive: seq<Node>, dir: Path): int {
    match At(drive, dir)
    case Some(es) => |es|
    case None => -1
  }

  /** The path names something on the drive. */
  ghost predicate Named(entries: seq<Node>, path: Path)
    decreases |path|
  {
    path != [] && exists n <- entries :: n.name == path[0] && (|path| == 1 || (n.Dir? && Named(n.entries, path[1..])))
  }

  lemma {:induction false} FileNamed(entries: seq<Node>, path: Path, time: int, duration: nat)
    requires Holds(entries, path, time, duration)
    ensures Named(entries, path)
    decreases |path|
  {
    var n :| n in entries && LeadsTo(n, path, time, duration);
    if |path| > 1 { FileNamed(n.entries, path[1..], time, duration); }
  }

  lemma {:induction false} DirNamed(entries: seq<Node>, path: Path)
    requires path != [] && Size(entries, path) >= 0
    ensures Named(entries, path)
    decreases |path|, |entries|
  {
    if entries[0].name != path[0] {
      DirNamed(entries[1..], path);
    } else if |path| > 1 {
      DirNamed(entries[0].entries, path[1..]);
    }
  }

  lemma {:induction false} NamedUnder(drive: seq<Node>, track: Path, path: Path)
    requires Distinct(drive) && Named(Under(drive, track), path)
    ensures Named(drive, track + path)
    decreases |track|, |drive|
  {
    if track == [] {
      assert track + path == path;
    } else if drive != [] {
      DistinctRest(drive);
      if drive[0].name != track[0] {
        NamedUnder(drive[1..], track, path);
      } else {
        assert (track + path)[1..] == track[1..] + path;
        NamedUnder(drive[0].entries, track[1..], path);
      }
    }
  }

  /** Removing something takes one entry out of the directory it is in, and with a directory all that
      is below it. */
  lemma {:induction false} RemoveSizes(drive: seq<Node>, path: Path, p: Path)
    requires Distinct(drive) && Named(drive, path)
    ensures Size(RemoveAt(drive, path), p)
      == if path <= p then -1 else if p == Parent(path) then Size(drive, p) - 1 else Size(drive, p)
    decreases |path|, |drive|
  {
    var n, rest := drive[0], drive[1..];
    DistinctRest(drive);
    assert drive == [n] + rest;
    if p == [] {
      RemoveTop(drive, path);
    } else if n.name != path[0] {
      AtCons(n, rest, p);
      AtCons(n, RemoveAt(rest, path), p);
      assert Named(rest, path);
      if n.name != p[0] { RemoveSizes(rest, path, p); } else { ParentFirst(path, p); }
    } else if |path| == 1 {
      if p[0] == path[0] { NotThere(rest, p); } else { ParentFirst(path, p); }
    } else {
      AtCons(n, rest, p);
      AtCons(Dir(n.name, RemoveAt(n.entries, path[1..])), rest, p);
      if p[0] == path[0] {
        SameTail(p, path);
        ParentTail(path, p);
        RemoveSizes(n.entries, path[1..], p[1..]);
      } else {
        ParentFirst(path, p);
      }
    }
  }

  lemma {:induction false} RemoveTop(drive: seq<Node>, path: Path)
    requires Named(drive, path)
    ensures |RemoveAt(drive, path)| == |drive| - if |path| == 1 then 1 else 0
  {
    if drive[0].name != path[0] { RemoveTop(drive[1..], path); }
  }

  lemma ParentFirst(path: Path, p: Path)
    requires path != [] && p != [] && (p[0] != path[0] || |path| == 1)
    ensures p != Parent(path) && (p[0] != path[0] ==> !(path <= p))
  {}

  lemma ParentTail(path: Path, p: Path)
    requires |path| > 1 && p != [] && p[0] == path[0]
    ensures p == Parent(path) <==> p[1..] == Parent(path[1..])
  {
    assert p == [p[0]] + p[1..] && Parent(path) == [path[0]] + Parent(path[1..]);
  }

  /** With the file a directory disappears as well: it is one of the five above the file, holds nothing
      but the way to it, and no directory from it down to the file is named VideoFootages. */
  ghost predicate Chain(drive: seq<Node>, path: Path, n: nat, levels: nat) {
    0 < n < |path| <= n + levels && forall m :: n <= m < |path| ==> OnlyWay(drive, path, m)
  }

  ghost predicate OnlyWay(drive: seq<Node>, path: Path, m: nat)
    requires 0 < m <= |path|
  {
    Size(drive, path[..m]) == 1 && path[m - 1] != "VideoFootages"
  }

  /** What pruning takes from a drive was there. */
  lemma {:induction false} PruneTakes(drive: seq<Node>, dir: Path, levels: nat, p: Path)
    requires Distinct(drive) && Size(drive, p) < 0
    ensures Size(Pruned(drive, dir, levels), p) < 0
    decreases levels
  {
    if levels > 0 && dir != [] {
      if dir[|dir| - 1] == "VideoFootages" {
        PruneTakes(drive, Parent(dir), levels - 1, p);
      } else if IsDirEmpty(drive, dir) {
        DirNamed(drive, dir);
        RemoveSizes(drive, dir, p);
        RemoveDistinct(drive, dir);
        PruneTakes(RemoveAt(drive, dir), Parent(dir), levels - 1, p);
      }
    }
  }

  /** Nothing is pruned from a directory that is not empty. */
  lemma {:induction false} FullStays(drive: seq<Node>, dir: Path, levels: nat)
    requires Size(drive, dir) > 0
    ensures Pruned(drive, dir, levels) == drive
    decreases levels
  {
    if levels > 0 && dir != [] && dir[|dir| - 1] == "VideoFootages" {
      ParentSize(drive, dir);
      FullStays(drive, Parent(dir), levels - 1);
    }
  }

  lemma ParentSize(drive: seq<Node>, dir: Path)
    requires dir != [] && Size(drive, dir) >= 0
    ensures Size(drive, Parent(dir)) > 0
  {
    assert dir == Parent(dir) + [dir[|dir| - 1]];
    AtCompose(drive, Parent(dir), [dir[|dir| - 1]]);
  }

  lemma {:induction false} NamedParent(drive: seq<Node>, path: Path)
    requires Distinct(drive) && Named(drive, path)
    ensures Size(drive, Parent(path)) > 0
    decreases |path|, |drive|
  {
    DistinctRest(drive);
    if |path| > 1 {
      assert Parent(path)[1..] == Parent(path[1..]);
      if drive[0].name != path[0] {
        assert Named(drive[1..], path);
        NamedParent(drive[1..], path);
      } else {
        NamedParent(drive[0].entries, path[1..]);
      }
    }
  }

  lemma NoneBelow(drive: seq<Node>, dir: Path, p: Path)
    requires Size(drive, dir) == 0 && dir <= p && Size(drive, p) >= 0
    ensures p == dir
  {
    assert p == dir + p[|dir|..];
    AtCompose(drive, dir, p[|dir|..]);
  }

  lemma OnlyWayKept(drive: seq<Node>, path: Path, m: nat)
    requires Distinct(drive) && Named(drive, path) && 0 < m < |path| - 1
    ensures OnlyWay(RemoveAt(drive, path), Parent(path), m) == OnlyWay(drive, path, m)
  {
    hide Size;
    assert Parent(path)[..m] == path[..m];
    RemoveSizes(drive, path, path[..m]);
  }

  lemma OnlyWayLast(drive: seq<Node>, path: Path)
    requires |path| > 1
    ensures OnlyWay(drive, path, |path| - 1) <==> Size(drive, Parent(path)) == 1 && path[|path| - 2] != "VideoFootages"
  {
    assert path[..|path| - 1] == Parent(path);
  }

  /** One level: the drive with something removed, and then the directory it was in. */
  lemma ChainStep(drive: seq<Node>, path: Path, n: nat, levels: nat)
    requires Distinct(drive) && Named(drive, path) && |path| > 1 && levels > 0
    requires OnlyWay(drive, path, |path| - 1)
    ensures Chain(drive, path, n, levels)
      <==> n == |path| - 1 || Chain(RemoveAt(drive, path), Parent(path), n, levels - 1)
  {
    hide OnlyWay, RemoveAt, Named, Distinct;
    var removed, dir := RemoveAt(drive, path), Parent(path);
    forall m: nat | 0 < m < |dir| ensures OnlyWay(removed, dir, m) == OnlyWay(drive, path, m) {
      OnlyWayKept(drive, path, m);
    }
  }

  lemma ChainEnds(drive: seq<Node>, path: Path, n: nat, levels: nat)
    requires Chain(drive, path, n, levels)
    ensures levels > 0 && |path| > 1 && Size(drive, Parent(path)) == 1 && path[|path| - 2] != "VideoFootages"
  {
    assert OnlyWay(drive, path, |path| - 1);
    assert path[..|path| - 1] == Parent(path);
  }

  ghost predicate InChain(drive: seq<Node>, path: Path, levels: nat, p: Path) {
    exists n: nat :: n < |path| && Chain(drive, path, n, levels) && p == path[..n]
  }

  lemma InChainStep(drive: seq<Node>, path: Path, levels: nat, p: Path)
    requires Distinct(drive) && Named(drive, path) && |path| > 1 && levels > 0
    requires OnlyWay(drive, path, |path| - 1)
    ensures InChain(drive, path, levels, p)
      <==> p == Parent(path) || InChain(RemoveAt(drive, path), Parent(path), levels - 1, p)
  {
    hide Chain, OnlyWay, RemoveAt, Named, Distinct;
    var removed, dir := RemoveAt(drive, path), Parent(path);
    assert path[..|path| - 1] == dir;
    ChainStep(drive, path, |path| - 1, levels);
    if InChain(removed, dir, levels - 1, p) {
      var n: nat :| n < |dir| && Chain(removed, dir, n, levels - 1) && p == dir[..n];
      ChainStep(drive, path, n, levels);
      assert Chain(drive, path, n, levels) && p == path[..n];
    }
    if InChain(drive, path, levels, p) && p != dir {
      var n: nat :| n < |path| && Chain(drive, path, n, levels) && p == path[..n];
      ChainStep(drive, path, n, levels);
      assert Chain(removed, dir, n, levels - 1) && p == dir[..n];
    }
  }

  /** Removing something and pruning above it: a directory is gone if and only if it was at or below
      what was removed, or in the chain above it. */
  lemma {:induction false} PruneExact(drive: seq<Node>, path: Path, levels: nat, p: Path)
    requires Distinct(drive) && Named(drive, path) && Size(drive, p) >= 0
    ensures Size(Pruned(RemoveAt(drive, path), Parent(path), levels), p) < 0
      <==> path <= p || InChain(drive, path, levels, p)
    decreases levels
  {
    var removed, dir := RemoveAt(drive, path), Parent(path);
    RemoveDistinct(drive, path);
    RemoveSizes(drive, path, p);
    RemoveSizes(drive, path, dir);
    NamedParent(drive, path);
    if path <= p {
      PruneTakes(removed, dir, levels, p);
    } else if levels == 0 || dir == [] || dir[|dir| - 1] == "VideoFootages" || Size(removed, dir) > 0 {
      NotPruned(removed, dir, levels);
      NoChain(drive, path, levels, p);
    } else {
      PrunedLevel(drive, path, levels, p);
    }
  }

  lemma NotPruned(drive: seq<Node>, dir: Path, levels: nat)
    requires Size(drive, dir) >= 0
    requires levels == 0 || dir == [] || dir[|dir| - 1] == "VideoFootages" || Size(drive, dir) > 0
    ensures Pruned(drive, dir, levels) == drive
  {
    if Size(drive, dir) > 0 {
      FullStays(drive, dir, levels);
    } else if levels > 0 && dir != [] {
      ParentSize(drive, dir);
      FullStays(drive, Parent(dir), levels - 1);
    }
  }

  lemma NoChain(drive: seq<Node>, path: Path, levels: nat, p: Path)
    requires Distinct(drive) && Named(drive, path)
    requires var dir := Parent(path);
      levels == 0 || dir == [] || dir[|dir| - 1] == "VideoFootages" || Size(RemoveAt(drive, path), dir) > 0
    ensures !InChain(drive, path, levels, p)
  {
    RemoveSizes(drive, path, Parent(path));
    forall n: nat ensures !Chain(drive, path, n, levels) {
      if Chain(drive, path, n, levels) { ChainEnds(drive, path, n, levels); }
    }
  }

  /** The case in which the directory it was in is empty now. */
  lemma {:induction false} PrunedLevel(drive: seq<Node>, path: Path, levels: nat, p: Path)
    requires Distinct(drive) && Named(drive, path) && Size(drive, p) >= 0 && !(path <= p) && levels > 0
    requires |path| > 1 && path[|path| - 2] != "VideoFootages" && Size(RemoveAt(drive, path), Parent(path)) == 0
    ensures Size(Pruned(RemoveAt(drive, path), Parent(path), levels), p) < 0 <==> InChain(drive, path, levels, p)
    decreases levels, 0
  {
    hide InChain, OnlyWay, Named, Distinct, RemoveAt;
    var removed, dir := RemoveAt(drive, path), Parent(path);
    RemoveDistinct(drive, path);
    RemoveSizes(drive, path, p);
    RemoveSizes(drive, path, dir);
    DirNamed(removed, dir);
    assert IsDirEmpty(removed, dir);
    assert dir[|dir| - 1] == path[|path| - 2];
    PruneExact(removed, dir, levels - 1, p);
    assert Pruned(removed, dir, levels) == Pruned(RemoveAt(removed, dir), Parent(dir), levels - 1);
    if dir <= p { NoneBelow(removed, dir, p); }
    hide Pruned;
    OnlyWayLast(drive, path);
    InChainStep(drive, path, levels, p);
  }

  /** There is no directory at or below a file. */
  lemma {:induction false} FileIsNoDir(entries: seq<Node>, path: Path, time: int, duration: nat, p: Path)
    requires Distinct(entries) && Holds(entries, path, time, duration) && path <= p
    ensures Size(entries, p) < 0
    decreases |path|, |entries|
  {
    var n :| n in entries && LeadsTo(n, path, time, duration);
    DistinctRest(entries);
    assert p[0] == path[0];
    if entries[0].name != path[0] {
      assert n in entries[1..];
      FileIsNoDir(entries[1..], path, time, duration, p);
    } else {
      if |path| > 1 {
        SameTail(p, path);
        FileIsNoDir(n.entries, path[1..], time, duration, p[1..]);
      }
    }
  }

  /** The file found is named, and no directory lies at or below it. */
  lemma FoundIsNamed(drive: seq<Node>, track: Path, r: Ref, p: Path)
    requires Distinct(drive) && r in Walk(drive, track, false)
    ensures Named(drive, r.path) && (Size(drive, p) >= 0 ==> !(r.path <= p))
  {
    Below(Under(drive, track), track, false);
    AtDistinct(drive, track);
    var rest := r.path[|track|..];
    assert r.path == track + rest && r == Ref(track + rest, r.time, r.duration);
    FilesExact(Under(drive, track), track, rest, r.time, r.duration, false);
    FileNamed(Under(drive, track), rest, r.time, r.duration);
    NamedUnder(drive, track, rest);
    if r.path <= p {
      assert p == track + p[|track|..] && rest <= p[|track|..];
      AtCompose(drive, track, p[|track|..]);
      FileIsNoDir(Under(drive, track), rest, r.time, r.duration, p[|track|..]);
    }
  }

  /** With the oldest file exactly those directories disappear that are among the five above it, hold
      nothing but the way to it, and are not named VideoFootages, down to the file. */
  lemma DeletedPrunes(drive: seq<Node>, track: Path, p: Path)
    requires Distinct(drive) && Deleted(drive, track).1.Best? && Size(drive, p) >= 0
    ensures var (drive', b) := Deleted(drive, track);
      Size(drive', p) < 0 <==> InChain(drive, b.ref.path, 5, p)
  {
    var r := Deleted(drive, track).1.ref;
    DeletedDrops(drive, track, false);
    hide Oldest, Size, Pruned, InChain, Named, Distinct, Under, Files, RemoveAt;
    FoundIsNamed(drive, track, r, p);
    PruneExact(drive, r.path, 5, p);
  }
}
