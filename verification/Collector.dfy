/** The metadata collector: for each file found below the metadata root, rebuild its path from its
    start time, open it and write out the records asked for. */
module Collector {
  import opened ChunkNames
  import opened Options
  import opened RecorderState
  import opened ChunkReader
  import opened RecorderPaths
  import opened RoundTrip
  import N = RecorderNames

  /** What the directory walk reports of a file. */
  datatype Found = Found(filename: string, epoch: int)

  function PathOf(localtime: int -> Civil, f: Found): string {
    HourDir(localtime(f.epoch)) + f.filename
  }

  /** `strstr(name, ".data")`. */
  predicate HasData(name: string) {
    |name| >= 5 && (name[..5] == ".data" || HasData(name[1..]))
  }

  /** The file a path opens: the last one renamed to it. */
  function Locate(ps: seq<Published>, path: string): Option<nat> {
    if ps == [] then None
    else if ps[|ps| - 1].path == path then Some(ps[|ps| - 1].file)
    else Locate(ps[..|ps| - 1], path)
  }

  function Opened(d: Drive, localtime: int -> Civil, f: Found): Option<nat> {
    if HasData(f.filename) then Locate(d.published, PathOf(localtime, f)) else None
  }

  function ReadFound(from: nat, d: Drive, localtime: int -> Civil, f: Found, q: Query): seq<Item> {
    match Opened(d, localtime, f)
    case Some(h) => if h < |d.files| then ReadFile(from, d.files[h], q) else []
    case None => []
  }

  /** Records of the first n files found, in the order found. */
  function Collected(from: nat, d: Drive, localtime: int -> Civil, found: seq<Found>, n: nat, q: Query): seq<Item>
    requires n <= |found|
  {
    if n == 0 then []
    else Collected(from, d, localtime, found, n - 1, q) + ReadFound(from, d, localtime, found[n - 1], q)
  }

  /** Index matches whose payload cannot be read: the writer still emits an entry for each. */
  function BlanksIn(from: nat, d: Drive, localtime: int -> Civil, f: Found, q: Query): int {
    match Opened(d, localtime, f)
    case Some(h) =>
      if h < |d.files| then |Selected(LiveEntries(d.files[h].index), q)| - |ReadFile(from, d.files[h], q)| else 0
    case None => 0
  }

  function Blanks(from: nat, d: Drive, localtime: int -> Civil, found: seq<Found>, n: nat, q: Query): int
    requires n <= |found|
  {
    if n == 0 then 0 else Blanks(from, d, localtime, found, n - 1, q) + BlanksIn(from, d, localtime, found[n - 1], q)
  }

  /** Every record delivered of a file is of the type asked for and in the window. */
  lemma ReadWithin(from: nat, f: ChunkFile, q: Query)
    ensures forall x <- ReadFile(from, f, q) ::
      x.kind == q.kind && (q.start == q.end == 0 || 0 < q.start <= x.timestamp <= q.end)
  {
    var js := ReadFileAnswers(from, f, q);
    forall x <- ReadFile(from, f, q)
      ensures x.kind == q.kind && (q.start == q.end == 0 || 0 < q.start <= x.timestamp <= q.end)
    {
      var k :| 0 <= k < |ReadFile(from, f, q)| && ReadFile(from, f, q)[k] == x;
      assert js[k] in js && AllItems(from, f)[js[k]] == x;
    }
  }

  lemma {:induction false} CollectedWithin(from: nat, d: Drive, localtime: int -> Civil, found: seq<Found>, n: nat,
                                           q: Query)
    requires n <= |found|
    ensures forall x <- Collected(from, d, localtime, found, n, q) ::
      x.kind == q.kind && (q.start == q.end == 0 || 0 < q.start <= x.timestamp <= q.end)
  {
    hide ReadFile, Opened;
    if n > 0 {
      CollectedWithin(from, d, localtime, found, n - 1, q);
      match Opened(d, localtime, found[n - 1])
      case Some(h) => if h < |d.files| { ReadWithin(from, d.files[h], q); }
      case None =>
    }
  }

  ghost predicate DataAt(name: string, k: nat) { k + 5 <= |name| && name[k..k + 5] == ".data" }

  /** `strstr` finds the text at some place, or there is none. */
  lemma {:induction false} HasDataExact(name: string)
    ensures HasData(name) <==> exists k: nat :: DataAt(name, k)
  {
    if |name| >= 5 {
      HasDataExact(name[1..]);
      if name[..5] == ".data" {
        assert DataAt(name, 0);
      } else if HasData(name[1..]) {
        var k: nat :| DataAt(name[1..], k);
        assert name[1..][k..k + 5] == name[k + 1..k + 6];
        assert DataAt(name, k + 1);
      }
      forall k: nat | DataAt(name, k) ensures HasData(name) {
        if k > 0 {
          assert name[1..][k - 1..k + 4] == name[k..k + 5];
          assert DataAt(name[1..], k - 1);
        }
      }
    }
  }

  /** `search_and_write_metadata`; `scratch` and `data` are the reader's static arrays. */
  method SearchAndWriteMetadata(from: nat, d: Drive, localtime: int -> Civil, found: seq<Found>, q: Query,
                                capacity: nat, scratch: array<IndexEntry>, data: array<Item>)
    returns (items: seq<Item>, blanks: int)
    requires forall f <- d.files :: |f.index| <= capacity
    requires capacity <= scratch.Length && capacity <= data.Length
    modifies scratch, data
    ensures items == Collected(from, d, localtime, found, |found|, q)
    ensures blanks == Blanks(from, d, localtime, found, |found|, q)
    ensures forall x <- items ::
      x.kind == q.kind && (q.start == q.end == 0 || 0 < q.start <= x.timestamp <= q.end)
  {
    CollectedWithin(from, d, localtime, found, |found|, q);
    items, blanks := [], 0;
    for i := 0 to |found|
      invariant items == Collected(from, d, localtime, found, i, q)
      invariant blanks == Blanks(from, d, localtime, found, i, q)
    {
      var more, missing := WriteOne(from, d, localtime, found[i], q, capacity, scratch, data);
      items, blanks := items + more, blanks + missing;
    }
  }

  /** One file of the list. */
  method WriteOne(from: nat, d: Drive, localtime: int -> Civil, f: Found, q: Query,
                  capacity: nat, scratch: array<IndexEntry>, data: array<Item>)
    returns (items: seq<Item>, blanks: int)
    requires forall f <- d.files :: |f.index| <= capacity
    requires capacity <= scratch.Length && capacity <= data.Length
    modifies scratch, data
    ensures items == ReadFound(from, d, localtime, f, q) && blanks == BlanksIn(from, d, localtime, f, q)
  {
    items, blanks := [], 0;
    if HasData(f.filename) {
      var h := Locate(d.published, PathOf(localtime, f));
      if h.Some? && h.value < |d.files| {
        ghost var js;
        var count, delivered;
        count, delivered, js := GetMetadataRecords(from, d.files[h.value], capacity, q, scratch, data);
        items, blanks := data[..delivered], count - delivered;
      }
    }
  }

  // ---------- finding the files again

  lemma {:induction false} BaseHasNoSlash(path: string)
    ensures LastComponent(path).BaseName? ==> '/' !in LastComponent(path).name
    ensures LastComponent(path).NoSlash? ==> '/' !in path
  {
    if path != "" { BaseHasNoSlash(path[1..]); }
  }

  lemma BaseUnderHour(c: Civil, name: string)
    requires '/' !in name
    ensures BaseOf(HourDir(c) + name) == name
  {
    BaseUnder(HourDir(c), name);
  }

  /** No two published files share a name. */
  predicate DistinctNames(ps: seq<Published>) {
    forall j, k :: 0 <= j < k < |ps| ==> BaseOf(ps[j].path) != BaseOf(ps[k].path)
  }

  lemma {:induction false} LocateIs(ps: seq<Published>, path: string)
    ensures Locate(ps, path).Some? ==>
      exists k :: 0 <= k < |ps| && ps[k].path == path && Locate(ps, path) == Some(ps[k].file)
    ensures Locate(ps, path).None? ==> forall k :: 0 <= k < |ps| ==> ps[k].path != path
  {
    if ps != [] {
      LocateIs(ps[..|ps| - 1], path);
      if ps[|ps| - 1].path == path {
        assert Locate(ps, path) == Some(ps[|ps| - 1].file);
      }
    }
  }

  function StartOf(mktime: Civil -> int, name: string): int {
    if |name| >= INDEX_TIME then mktime(DateFields(name)) else 0
  }

  /** A directory walk that reports published files in some order. */
  function Listing(mktime: Civil -> int, ps: seq<Published>): (r: seq<Found>)
    ensures |r| == |ps|
    ensures forall k :: 0 <= k < |ps| ==> r[k] == Found(BaseOf(ps[k].path), StartOf(mktime, BaseOf(ps[k].path)))
  {
    seq(|ps|, k requires 0 <= k < |ps| => Found(BaseOf(ps[k].path), StartOf(mktime, BaseOf(ps[k].path))))
  }

  lemma {:induction false} EndsInData(s: string)
    ensures HasData(s + ".data")
  {
    if s == "" {
      assert s + ".data" == ".data";
    } else {
      EndsInData(s[1..]);
      assert (s + ".data")[1..] == s[1..] + ".data";
    }
  }

  lemma PublishedHasData(c: Civil, usecs: nat)
    ensures HasData(PublishedName(c, usecs))
  {
    hide Stem, Padded, HasData;
    EndsInData(Stem(c) + "." + Padded(usecs, 9));
    assert PublishedName(c, usecs) == (Stem(c) + "." + Padded(usecs, 9)) + ".data";
  }

  /** For every date the recorder can print, the reader's conversions lead back to the same hour. */
  ghost predicate CalendarAgrees(cfg: Config, mktime: Civil -> int, localtime: int -> Civil) {
    forall t :: InRange(cfg.gmtime(t)) ==> SameHour(localtime(mktime(cfg.gmtime(t))), cfg.gmtime(t))
  }

  /** A filed chunk that holds records is found again under the name it was listed with. */
  lemma FiledIsFound(cfg: Config, d: Drive, mktime: Civil -> int, localtime: int -> Civil, ps: seq<Published>, k: nat)
    requires k < |ps| && ps[k].file < |d.files|
    requires Filed(cfg, d.files[ps[k].file], ps[k].path, true)
    requires LiveEntries(d.files[ps[k].file].index) != []
    requires CalendarAgrees(cfg, mktime, localtime)
    ensures PathOf(localtime, Listing(mktime, ps)[k]) == ps[k].path
    ensures HasData(Listing(mktime, ps)[k].filename)
  {
    var p := ps[k];
    var c := Hour(cfg, LiveEntries(d.files[p.file].index)[0]);
    ReaderFindsFile(mktime, localtime, p.path, c);
    var usecs: nat :| var name := PublishedName(c, usecs);
      p.path == HourDir(c) + name && |name| >= INDEX_TIME && ReaderPath(mktime, localtime, name) == p.path;
    ParsedName(c, usecs);
    BaseUnderHour(c, PublishedName(c, usecs));
    PublishedHasData(c, usecs);
  }

  lemma ListedIsRead(cfg: Config, d: Drive, mktime: Civil -> int, localtime: int -> Civil, q: Query,
                     ps: seq<Published>, k: nat)
    requires k < |ps| && ps[k] in d.published && DistinctNames(d.published) && ps[k].file < |d.files|
    requires LiveEntries(d.files[ps[k].file].index) != [] ==>
      PathOf(localtime, Listing(mktime, ps)[k]) == ps[k].path && HasData(Listing(mktime, ps)[k].filename)
    ensures ReadFound(cfg.bodyStart, d, localtime, Listing(mktime, ps)[k], q)
      == ReadFile(cfg.bodyStart, d.files[ps[k].file], q)
    ensures Opened(d, localtime, Listing(mktime, ps)[k]) in {None, Some(ps[k].file)}
  {
    var f := Listing(mktime, ps)[k];
    LocateIs(d.published, PathOf(localtime, f));
    BaseHasNoSlash("/" + ps[k].path);
    BaseUnderHour(localtime(f.epoch), f.filename);
    var j :| 0 <= j < |d.published| && d.published[j] == ps[k];
    if Locate(d.published, PathOf(localtime, f)).Some? {
      var m :| 0 <= m < |d.published| && d.published[m].path == PathOf(localtime, f)
        && Locate(d.published, PathOf(localtime, f)) == Some(d.published[m].file);
      assert BaseOf(d.published[m].path) == BaseOf(ps[k].path);
      assert m == j;
    }
  }

  /** The files of a drive can be found again from the names listed. */
  ghost predicate Findable(d: Drive, mktime: Civil -> int, localtime: int -> Civil, ps: seq<Published>) {
    && DistinctNames(d.published)
    && forall k :: 0 <= k < |ps| ==>
         && ps[k] in d.published && ps[k].file < |d.files|
         && (LiveEntries(d.files[ps[k].file].index) != [] ==>
             && PathOf(localtime, Listing(mktime, ps)[k]) == ps[k].path
             && HasData(Listing(mktime, ps)[k].filename))
  }

  lemma {:induction false} CollectedIsReadBack(cfg: Config, d: Drive, mktime: Civil -> int, localtime: int -> Civil,
                                               q: Query, ps: seq<Published>, n: nat)
    requires Findable(d, mktime, localtime, ps) && n <= |ps|
    ensures Collected(cfg.bodyStart, d, localtime, Listing(mktime, ps), n, q) == ReadBack(cfg, d, ps[..n], q)
  {
    hide Listing, ReadFound, ChunkReader.ReadFile, DistinctNames, PathOf;
    if n > 0 {
      CollectedIsReadBack(cfg, d, mktime, localtime, q, ps, n - 1);
      ListedIsRead(cfg, d, mktime, localtime, q, ps, n - 1);
      assert ps[..n][..n - 1] == ps[..n - 1];
    }
  }

  // ---------- the order of the listing

  /** What one published file gives. */
  function FileItems(cfg: Config, d: Drive, p: Published, q: Query): seq<Item> {
    if p.file < |d.files| then ReadFile(cfg.bodyStart, d.files[p.file], q) else []
  }

  lemma {:induction false} ReadBackAppend(cfg: Config, d: Drive, a: seq<Published>, b: seq<Published>, q: Query)
    ensures ReadBack(cfg, d, a + b, q) == ReadBack(cfg, d, a, q) + ReadBack(cfg, d, b, q)
  {
    hide ReadFile;
    if b == [] {
      assert a + b == a;
    } else {
      assert (a + b)[..|a + b| - 1] == a + b[..|b| - 1];
      ReadBackAppend(cfg, d, a, b[..|b| - 1], q);
    }
  }

  lemma ReadBackOne(cfg: Config, d: Drive, p: Published, q: Query)
    ensures ReadBack(cfg, d, [p], q) == FileItems(cfg, d, p, q)
  {
    assert [p][..0] == [];
  }

  /** All but element k. */
  function Rest(ps: seq<Published>, k: nat): seq<Published>
    requires k < |ps|
  {
    ps[..k] + ps[k + 1..]
  }

  lemma RestLacksOne(ps: seq<Published>, k: nat)
    requires k < |ps|
    ensures multiset(ps) == multiset(Rest(ps, k)) + multiset{ps[k]}
  {
    assert ps == ps[..k] + [ps[k]] + ps[k + 1..];
  }

  lemma ReadBackWithout(cfg: Config, d: Drive, ps: seq<Published>, k: nat, q: Query)
    requires k < |ps|
    ensures multiset(ReadBack(cfg, d, ps, q))
      == multiset(ReadBack(cfg, d, Rest(ps, k), q)) + multiset(FileItems(cfg, d, ps[k], q))
  {
    hide FileItems, ReadBack;
    assert ps == ps[..k] + ([ps[k]] + ps[k + 1..]);
    ReadBackAppend(cfg, d, ps[..k], [ps[k]] + ps[k + 1..], q);
    ReadBackAppend(cfg, d, [ps[k]], ps[k + 1..], q);
    ReadBackOne(cfg, d, ps[k], q);
    ReadBackAppend(cfg, d, ps[..k], ps[k + 1..], q);
  }

  /** The first element of a permutation occurs in the other one; without it they still agree. */
  lemma PermutedRest(a: seq<Published>, b: seq<Published>) returns (k: nat)
    requires multiset(a) == multiset(b) && a != []
    ensures k < |b| && b[k] == a[0] && multiset(Rest(a, 0)) == multiset(Rest(b, k))
  {
    hide Rest;
    assert a[0] in multiset(a);
    k :| k < |b| && b[k] == a[0];
    RestLacksOne(a, 0);
    RestLacksOne(b, k);
    assert multiset(Rest(a, 0)) == multiset(a) - multiset{a[0]};
  }

  /** Reading the same files in another order gives the same items. */
  lemma {:induction false} ReadBackPermuted(cfg: Config, d: Drive, a: seq<Published>, b: seq<Published>, q: Query)
    requires multiset(a) == multiset(b)
    ensures multiset(ReadBack(cfg, d, a, q)) == multiset(ReadBack(cfg, d, b, q))
    decreases |a|
  {
    hide FileItems, ReadBack;
    if a == [] {
      assert |multiset(b)| == 0;
      assert b == [];
    } else {
      var k := PermutedRest(a, b);
      ReadBackWithout(cfg, d, a, 0, q);
      ReadBackWithout(cfg, d, b, k, q);
      ReadBackPermuted(cfg, d, Rest(a, 0), Rest(b, k), q);
    }
  }

  lemma {:induction false} SelectedWithin(es: seq<IndexEntry>, q: Query)
    ensures forall e <- Selected(es, q) :: e in es
  {
    if es != [] { SelectedWithin(es[..|es| - 1], q); }
  }

  lemma IntactHasNoBlanks(from: nat, f: ChunkFile, q: Query)
    requires Intact(from, f)
    ensures |ReadFile(from, f, q)| == |Selected(LiveEntries(f.index), q)|
  {
    SelectedWithin(LiveEntries(f.index), q);
    IntactDelivers(from, f.body, Selected(LiveEntries(f.index), q));
  }

  lemma ListedHasNoBlanks(cfg: Config, d: Drive, mktime: Civil -> int, localtime: int -> Civil, q: Query,
                          ps: seq<Published>, k: nat)
    requires Findable(d, mktime, localtime, ps) && k < |ps| && DriveOk(d) && PublishedIntact(cfg, d)
    ensures BlanksIn(cfg.bodyStart, d, localtime, Listing(mktime, ps)[k], q) == 0
  {
    hide Intact, ReadFile, Selected, LiveEntries, HasData, Locate;
    ListedIsRead(cfg, d, mktime, localtime, q, ps, k);
    IntactHasNoBlanks(cfg.bodyStart, d.files[ps[k].file], q);
  }

  lemma {:induction false} IntactLeavesNoBlanks(cfg: Config, d: Drive, mktime: Civil -> int, localtime: int -> Civil,
                                                q: Query, ps: seq<Published>, n: nat)
    requires Findable(d, mktime, localtime, ps) && n <= |ps| && DriveOk(d) && PublishedIntact(cfg, d)
    ensures Blanks(cfg.bodyStart, d, localtime, Listing(mktime, ps), n, q) == 0
  {
    hide Findable, PublishedIntact, BlanksIn;
    if n > 0 {
      IntactLeavesNoBlanks(cfg, d, mktime, localtime, q, ps, n - 1);
      ListedHasNoBlanks(cfg, d, mktime, localtime, q, ps, n - 1);
    }
  }

  lemma AllFound(cfg: Config, d: Drive, mktime: Civil -> int, localtime: int -> Civil, ps: seq<Published>)
    requires CalendarAgrees(cfg, mktime, localtime) && DistinctNames(d.published)
    requires forall p <- d.published :: p.file < |d.files| && Filed(cfg, d.files[p.file], p.path, true)
    requires forall p <- ps :: p in d.published
    ensures Findable(d, mktime, localtime, ps)
  {
    forall k | 0 <= k < |ps| && LiveEntries(d.files[ps[k].file].index) != []
      ensures PathOf(localtime, Listing(mktime, ps)[k]) == ps[k].path && HasData(Listing(mktime, ps)[k].filename)
    {
      assert ps[k] in d.published;
      FiledIsFound(cfg, d, mktime, localtime, ps, k);
    }
  }

  lemma FiledName(cfg: Config, f: ChunkFile, path: string) returns (c: Civil, usecs: nat)
    requires Filed(cfg, f, path, true) && LiveEntries(f.index) != []
    ensures InRange(c) && path == HourDir(c) + PublishedName(c, usecs) && BaseOf(path) == PublishedName(c, usecs)
  {
    c := Hour(cfg, LiveEntries(f.index)[0]);
    usecs :| path == HourDir(c) + PublishedName(c, usecs);
    ParsedName(c, usecs);
    BaseUnderHour(c, PublishedName(c, usecs));
  }

  /** A filed chunk's name determines its path. */
  lemma NameDeterminesPath(cfg: Config, f: ChunkFile, p: string, g: ChunkFile, q: string)
    requires Filed(cfg, f, p, true) && LiveEntries(f.index) != []
    requires Filed(cfg, g, q, true) && LiveEntries(g.index) != []
    requires BaseOf(p) == BaseOf(q)
    ensures p == q
  {
    var c, u := FiledName(cfg, f, p);
    var e, v := FiledName(cfg, g, q);
    NameRoundTrip("", c, u);
    NameRoundTrip("", e, v);
  }

  /** Published names are distinct: their paths are, and a name determines its path. */
  lemma NamesAreDistinct(cfg: Config, d: Drive)
    requires N.DistinctPaths(d.published)
    requires forall p <- d.published :: p.file < |d.files| && Filed(cfg, d.files[p.file], p.path, true)
    requires DriveOk(d) && PublishedIntact(cfg, d)
    ensures DistinctNames(d.published)
  {
    hide Filed, BaseOf, LiveEntries;
    forall j, k | 0 <= j < k < |d.published| ensures BaseOf(d.published[j].path) != BaseOf(d.published[k].path) {
      var p, q := d.published[j], d.published[k];
      assert p in d.published && q in d.published;
      if BaseOf(p.path) == BaseOf(q.path) {
        NameDeterminesPath(cfg, d.files[p.file], p.path, d.files[q.file], q.path);
      }
    }
  }

  lemma FinalNamed(cfg: Config, chm: bool, ssd: bool, es: seq<Event>, i: nat)
    requires i < 2
    ensures N.DistinctPaths(Finalize(cfg, Run(cfg, Init(cfg, chm, ssd), es)).drives[i].published)
  {
    var s := Run(cfg, Init(cfg, chm, ssd), es);
    N.ReachableNamed(cfg, chm, ssd, es, i);
    N.FinalizeNamed(cfg, s, s.drives[i]);
  }

  /** What is published after a sound run can be found, is intact, and is named distinctly. */
  lemma FinalFindable(cfg: Config, chm: bool, ssd: bool, es: seq<Event>, i: nat, ps: seq<Published>,
                      mktime: Civil -> int, localtime: int -> Civil)
    requires cfg.Valid() && cfg.deltat != 0 && cfg.copies == 2 && i < 2
    requires SoundRun(cfg, Init(cfg, chm, ssd), es, i) && FinalizeSound(Run(cfg, Init(cfg, chm, ssd), es), i)
    requires FiledRun(cfg, Init(cfg, chm, ssd), es) && CalendarAgrees(cfg, mktime, localtime)
    requires forall p <- ps :: p in Finalize(cfg, Run(cfg, Init(cfg, chm, ssd), es)).drives[i].published
    ensures var d := Finalize(cfg, Run(cfg, Init(cfg, chm, ssd), es)).drives[i];
      PublishedIntact(cfg, d) && Findable(d, mktime, localtime, ps)
  {
    var s := Run(cfg, Init(cfg, chm, ssd), es);
    var d := Finalize(cfg, s).drives[i];
    forall p <- d.published ensures p.file < |d.files| && Filed(cfg, d.files[p.file], p.path, true) {
      PublishedByHour(cfg, chm, ssd, es, true, i, p);
    }
    RunSteady(cfg, chm, ssd, es, i);
    FinalizeCloses(cfg, s, For(i, RecordedRun(cfg, Init(cfg, chm, ssd), es, i)));
    FinalNamed(cfg, chm, ssd, es, i);
    hide Filed, Intact, DistinctNames, Findable;
    NamesAreDistinct(cfg, d);
    AllFound(cfg, d, mktime, localtime, ps);
  }

  /** Round trip through names and directories: after a sound run in which no hour changed while
      every drive was off, collecting a type and a window from a drive, each file found again only
      by its name, writes out exactly the matching records handled while that drive was in use and
      no blank entry, in whatever order the files are listed; listed in publication order, the
      records come in the order they were handled. */
  lemma CollectedIsHistory(cfg: Config, chm: bool, ssd: bool, es: seq<Event>, i: nat, q: Query,
                           ps: seq<Published>, mktime: Civil -> int, localtime: int -> Civil)
    requires cfg.Valid() && cfg.deltat != 0 && cfg.copies == 2 && i < 2
    requires SoundRun(cfg, Init(cfg, chm, ssd), es, i) && FinalizeSound(Run(cfg, Init(cfg, chm, ssd), es), i)
    requires FiledRun(cfg, Init(cfg, chm, ssd), es) && CalendarAgrees(cfg, mktime, localtime)
    requires multiset(ps) == multiset(Finalize(cfg, Run(cfg, Init(cfg, chm, ssd), es)).drives[i].published)
    ensures var d := Finalize(cfg, Run(cfg, Init(cfg, chm, ssd), es)).drives[i];
      var items := Collected(cfg.bodyStart, d, localtime, Listing(mktime, ps), |ps|, q);
      var history := RecordedRun(cfg, Init(cfg, chm, ssd), es, i);
      && (forall x: Item :: multiset(items)[x]
            == if x.kind == q.kind && (q.start == q.end == 0 || 0 < q.start <= x.timestamp <= q.end)
               then multiset(history)[x] else 0)
      && (ps == d.published ==> items == Filtered(history, q) && exists js :: Answers(history, q, js, items))
      && Blanks(cfg.bodyStart, d, localtime, Listing(mktime, ps), |ps|, q) == 0
  {
    hide SoundRun, FinalizeSound, Run, Finalize, Findable, PublishedIntact, Listing;
    var d := Finalize(cfg, Run(cfg, Init(cfg, chm, ssd), es)).drives[i];
    forall p <- ps ensures p in d.published {
      assert p in multiset(ps) && p in multiset(d.published);
    }
    FinalFindable(cfg, chm, ssd, es, i, ps, mktime, localtime);
    IntactLeavesNoBlanks(cfg, d, mktime, localtime, q, ps, |ps|);
    CollectedIsReadBack(cfg, d, mktime, localtime, q, ps, |ps|);
    assert ps[..|ps|] == ps;
    ReadBackPermuted(cfg, d, ps, d.published, q);
    ReadBackIsHistory(cfg, chm, ssd, es, i, q);
    hide Collected, ReadBack, Filtered, RecordedRun, Answers;
    var history := RecordedRun(cfg, Init(cfg, chm, ssd), es, i);
    var js := FilteredExact(history, q);
    forall x: Item ensures multiset(Filtered(history, q))[x]
      == if x.kind == q.kind && (q.start == q.end == 0 || 0 < q.start <= x.timestamp <= q.end)
         then multiset(history)[x] else 0
    {
      FilteredCounts(history, q, x);
    }
  }
}
