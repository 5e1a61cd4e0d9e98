/** A drive as a tree of named entries in readdir order: what a walk over it sees, and what
    removing a file or an empty directory does to that. */
module FileTree {
  import opened Options

  type Path = seq<string>

  /** `time` is the start time parsed from a file's name, `duration` its parsed duration. */
  datatype Node =
    | File(name: string, time: int, duration: nat)
    | Dir(name: string, entries: seq<Node>)

  /** A file as a walk reports it, by its path from the mount point. */
  datatype Ref = Ref(path: Path, time: int, duration: nat)

  /** Names no walk looks at; the duration count also passes over metadata. */
  predicate Skips(name: string, metadata: bool) {
    name == ".." || name == "." || name == "lost+found" || name == "staging" || (metadata && name == "METADATA")
  }

  function FilesOf(n: Node, dir: Path, metadata: bool): seq<Ref>
    decreases n, 1
  {
    if Skips(n.name, metadata) then []
    else match n
      case File(name, time, duration) => [Ref(dir + [name], time, duration)]
      case Dir(name, entries) => Files(entries, dir + [name], metadata)
  }

  /** The files below a directory, in the order a recursive walk meets them. */
  function Files(entries: seq<Node>, dir: Path, metadata: bool): seq<Ref>
    decreases entries, 0
  {
    if entries == [] then []
    else FilesOf(entries[0], dir, metadata) + Files(entries[1..], dir, metadata)
  }

  /** No directory holds a name twice. */
  ghost predicate Distinct(entries: seq<Node>)
    decreases entries
  {
    && (forall j, k :: 0 <= j < k < |entries| ==> entries[j].name != entries[k].name)
    && (forall n <- entries :: n.Dir? ==> Distinct(n.entries))
  }

  /** The contents of a directory, if the path names one. */
  function At(entries: seq<Node>, path: Path): Option<seq<Node>>
    decreases |path|, |entries|
  {
    if path == [] then Some(entries)
    else if entries == [] then None
    else if entries[0].name != path[0] then At(entries[1..], path)
    else if entries[0].Dir? then At(entries[0].entries, path[1..])
    else None
  }

  /** remove and rmdir: the entry at a path is gone. */
  function RemoveAt(entries: seq<Node>, path: Path): seq<Node>
    requires path != []
    decreases |path|, |entries|
  {
    if entries == [] then []
    else if entries[0].name != path[0] then [entries[0]] + RemoveAt(entries[1..], path)
    else if |path| == 1 then entries[1..]
    else if entries[0].Dir? then [Dir(entries[0].name, RemoveAt(entries[0].entries, path[1..]))] + entries[1..]
    else entries
  }

  // ---------- what a removal does to a walk

  /** All but the references at or below a path. */
  function Drop(rs: seq<Ref>, p: Path): (r: seq<Ref>)
    ensures |r| <= |rs| && forall x <- r :: x in rs && !(p <= x.path)
  {
    if rs == [] then [] else (if p <= rs[0].path then [] else [rs[0]]) + Drop(rs[1..], p)
  }

  lemma {:induction false} DropAppend(a: seq<Ref>, b: seq<Ref>, p: Path)
    ensures Drop(a + b, p) == Drop(a, p) + Drop(b, p)
  {
    if a == [] {
      assert a + b == b;
    } else {
      assert (a + b)[1..] == a[1..] + b;
      DropAppend(a[1..], b, p);
    }
  }

  lemma {:induction false} DropNone(rs: seq<Ref>, p: Path)
    requires forall r <- rs :: !(p <= r.path)
    ensures Drop(rs, p) == rs
  {
    if rs != [] { DropNone(rs[1..], p); }
  }

  lemma {:induction false} DropAll(rs: seq<Ref>, p: Path)
    requires forall r <- rs :: p <= r.path
    ensures Drop(rs, p) == []
  {
    if rs != [] { DropAll(rs[1..], p); }
  }

  lemma BelowOf(n: Node, dir: Path, metadata: bool)
    ensures forall r <- FilesOf(n, dir, metadata) :: dir + [n.name] <= r.path
    decreases n, 1
  {
    if n.Dir? { Below(n.entries, dir + [n.name], metadata); }
  }

  lemma {:induction false} Below(entries: seq<Node>, dir: Path, metadata: bool)
    ensures forall r <- Files(entries, dir, metadata) :: dir < r.path
    ensures forall r <- Files(entries, dir, metadata) :: exists n :: n in entries && dir + [n.name] <= r.path
    decreases entries, 0
  {
    if entries != [] {
      BelowOf(entries[0], dir, metadata);
      Below(entries[1..], dir, metadata);
      forall r <- Files(entries, dir, metadata)
        ensures dir < r.path && exists n :: n in entries && dir + [n.name] <= r.path
      {
        if r in FilesOf(entries[0], dir, metadata) {
          assert entries[0] in entries && dir + [entries[0].name] <= r.path;
        } else {
          assert r in Files(entries[1..], dir, metadata);
        }
      }
    }
  }

  /** Entries whose names differ from the path's next step hold nothing below the path. */
  lemma OtherNames(entries: seq<Node>, dir: Path, path: Path, metadata: bool)
    requires path != [] && forall n <- entries :: n.name != path[0]
    ensures Drop(Files(entries, dir, metadata), dir + path) == Files(entries, dir, metadata)
  {
    Below(entries, dir, metadata);
    forall r <- Files(entries, dir, metadata) ensures !(dir + path <= r.path) {
      var n :| n in entries && dir + [n.name] <= r.path;
      assert (dir + [n.name])[|dir|] == r.path[|dir|];
      assert (dir + path)[|dir|] == path[0];
    }
    DropNone(Files(entries, dir, metadata), dir + path);
  }

  /** The same for a single entry. */
  lemma OtherName(n: Node, dir: Path, path: Path, metadata: bool)
    requires path != [] && n.name != path[0]
    ensures Drop(FilesOf(n, dir, metadata), dir + path) == FilesOf(n, dir, metadata)
  {
    OtherNames([n], dir, path, metadata);
    assert Files([n], dir, metadata) == FilesOf(n, dir, metadata);
  }

  lemma FilesCons(n: Node, rest: seq<Node>, dir: Path, metadata: bool)
    ensures Files([n] + rest, dir, metadata) == FilesOf(n, dir, metadata) + Files(rest, dir, metadata)
  {
    assert ([n] + rest)[1..] == rest;
  }

  lemma DistinctRest(entries: seq<Node>)
    requires Distinct(entries) && entries != []
    ensures Distinct(entries[1..]) && forall n <- entries[1..] :: n.name != entries[0].name
  {
    forall n <- entries[1..] ensures n in entries {}
  }

  /** Removing a path removes from every walk exactly what is at or below it. */
  lemma {:induction false} RemoveDrops(entries: seq<Node>, dir: Path, path: Path, metadata: bool)
    requires path != [] && Distinct(entries)
    ensures Files(RemoveAt(entries, path), dir, metadata) == Drop(Files(entries, dir, metadata), dir + path)
    decreases |path|, |entries|
  {
    if entries != [] {
      var n, rest := entries[0], entries[1..];
      DistinctRest(entries);
      assert entries == [n] + rest;
      hide Distinct, Drop, FilesOf;
      DropAppend(FilesOf(n, dir, metadata), Files(rest, dir, metadata), dir + path);
      if n.name != path[0] {
        OtherName(n, dir, path, metadata);
        RemoveDrops(rest, dir, path, metadata);
        FilesCons(n, RemoveAt(rest, path), dir, metadata);
      } else {
        OtherNames(rest, dir, path, metadata);
        RemoveFirst(n, rest, dir, path, metadata);
      }
    }
  }

  /** The case in which the first entry lies on the path. */
  lemma {:induction false} RemoveFirst(n: Node, rest: seq<Node>, dir: Path, path: Path, metadata: bool)
    requires path != [] && n.name == path[0] && Distinct([n] + rest)
    ensures Files(RemoveAt([n] + rest, path), dir, metadata)
      == Drop(FilesOf(n, dir, metadata), dir + path) + Files(rest, dir, metadata)
    decreases |path|, |rest|
  {
    assert ([n] + rest)[1..] == rest && ([n] + rest)[0] == n;
    if |path| == 1 {
      assert dir + path == dir + [n.name];
      BelowOf(n, dir, metadata);
      DropAll(FilesOf(n, dir, metadata), dir + path);
    } else if n.Dir? {
      assert (dir + [n.name]) + path[1..] == dir + path;
      RemoveDrops(n.entries, dir + [n.name], path[1..], metadata);
      FilesCons(Dir(n.name, RemoveAt(n.entries, path[1..])), rest, dir, metadata);
    } else {
      DropNone(FilesOf(n, dir, metadata), dir + path);
      FilesCons(n, rest, dir, metadata);
    }
  }

  lemma {:induction false} RemoveNames(entries: seq<Node>, path: Path)
    requires path != []
    ensures forall n <- RemoveAt(entries, path) :: exists m :: m in entries && m.name == n.name
    decreases |entries|
  {
    if entries != [] && entries[0].name != path[0] { RemoveNames(entries[1..], path); }
  }

  lemma {:induction false} RemoveDistinct(entries: seq<Node>, path: Path)
    requires path != [] && Distinct(entries)
    ensures Distinct(RemoveAt(entries, path))
    decreases |path|, |entries|
  {
    if entries != [] {
      DistinctRest(entries);
      if entries[0].name != path[0] {
        RemoveDistinct(entries[1..], path);
        RemoveNames(entries[1..], path);
        DistinctCons(entries[0], RemoveAt(entries[1..], path));
      } else if |path| > 1 && entries[0].Dir? {
        RemoveDistinct(entries[0].entries, path[1..]);
        DistinctCons(Dir(entries[0].name, RemoveAt(entries[0].entries, path[1..])), entries[1..]);
      }
    }
  }

  lemma DistinctCons(n: Node, rest: seq<Node>)
    requires Distinct(rest) && (n.Dir? ==> Distinct(n.entries)) && forall m <- rest :: m.name != n.name
    ensures Distinct([n] + rest)
  {}

  // ---------- looking below a directory

  /** A walk that starts at a directory sees of a walk from the mount point what is below it. */
  function Under(entries: seq<Node>, track: Path): seq<Node> {
    match At(entries, track)
    case Some(es) => es
    case None => []
  }

  lemma {:induction false} AtDistinct(entries: seq<Node>, track: Path)
    requires Distinct(entries)
    ensures Distinct(Under(entries, track))
    decreases |track|, |entries|
  {
    if track != [] && entries != [] {
      DistinctRest(entries);
      if entries[0].name != track[0] {
        AtDistinct(entries[1..], track);
      } else if entries[0].Dir? {
        AtDistinct(entries[0].entries, track[1..]);
      }
    }
  }

  /** Removing something below a directory is removing it from that directory's contents. */
  lemma {:induction false} RemoveUnder(entries: seq<Node>, track: Path, path: Path)
    requires path != [] && Distinct(entries)
    ensures Under(RemoveAt(entries, track + path), track) == RemoveAt(Under(entries, track), path)
    decreases |track|, |entries|
  {
    if track == [] {
      assert track + path == path;
    } else if entries != [] {
      var n := entries[0];
      DistinctRest(entries);
      assert (track + path)[0] == track[0] && (track + path)[1..] == track[1..] + path;
      if n.name != track[0] {
        RemoveUnder(entries[1..], track, path);
        AtCons(n, RemoveAt(entries[1..], track + path), track);
      } else if n.Dir? {
        RemoveUnder(n.entries, track[1..], path);
        AtCons(Dir(n.name, RemoveAt(n.entries, track[1..] + path)), entries[1..], track);
      }
    }
  }

  lemma AtCons(n: Node, rest: seq<Node>, track: Path)
    requires track != []
    ensures At([n] + rest, track)
      == if n.name != track[0] then At(rest, track) else if n.Dir? then At(n.entries, track[1..]) else None
  {
    assert ([n] + rest)[1..] == rest;
  }

  /** Removing a directory on the way to another leaves nothing to look at there; removing one
      elsewhere changes nothing. */
  lemma {:induction false} RemoveElsewhere(entries: seq<Node>, track: Path, path: Path)
    requires path != [] && Distinct(entries) && !(track <= path)
    ensures Under(RemoveAt(entries, path), track) == if path <= track then [] else Under(entries, track)
    decreases |path|, |entries|
  {
    if entries != [] {
      var n := entries[0];
      DistinctRest(entries);
      if n.name != path[0] {
        RemoveElsewhere(entries[1..], track, path);
        AtCons(n, RemoveAt(entries[1..], path), track);
        if path <= track { assert track[0] == path[0]; }
        if n.name == track[0] && path <= track { assert false; }
      } else if |path| == 1 {
        if track[0] == path[0] {
          assert path <= track;
          NotThere(entries[1..], track);
        } else if path <= track { assert false; }
      } else if n.Dir? {
        AtCons(Dir(n.name, RemoveAt(n.entries, path[1..])), entries[1..], track);
        if track[0] == path[0] {
          SameTail(track, path);
          RemoveElsewhere(n.entries, track[1..], path[1..]);
        }
      } else if path <= track {
        assert track[0] == path[0];
      }
    }
  }

  lemma SameTail(track: Path, path: Path)
    requires track != [] && path != [] && track[0] == path[0]
    ensures track <= path <==> track[1..] <= path[1..]
    ensures path <= track <==> path[1..] <= track[1..]
  {
    assert track == [track[0]] + track[1..] && path == [path[0]] + path[1..];
  }

  lemma {:induction false} NotThere(entries: seq<Node>, track: Path)
    requires track != [] && forall n <- entries :: n.name != track[0]
    ensures At(entries, track) == None
  {
    if entries != [] { NotThere(entries[1..], track); }
  }
}
