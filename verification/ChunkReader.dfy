/** Reading a chunk file back: scan its index, keep the entries of one type in a time window,
    and fetch each payload by its offset. */
module ChunkReader {
  import opened Options
  import opened RecorderState

  /** What a reader gets for one record. */
  datatype Item = Item(timestamp: nat, kind: Kind, payload: seq<Byte>)

  /** A request: epoch seconds, both zero meaning everything. */
  datatype Query = Query(start: nat, end: nat, kind: Kind)

  predicate Wanted(q: Query, kind: Kind, t: nat) {
    && kind == q.kind
    && ((q.start == 0 && q.end == 0) || (q.start != 0 && t >= q.start && q.end != 0 && t <= q.end))
  }

  predicate LiveEntry(e: IndexEntry) { e.timestamp != 0 && e.byteoffset != 0 }

  /** The index entries up to the first one that was never written. */
  function LiveEntries(index: seq<IndexEntry>): seq<IndexEntry> {
    if index == [] || !LiveEntry(index[0]) then [] else [index[0]] + LiveEntries(index[1..])
  }

  function Selected(es: seq<IndexEntry>, q: Query): seq<IndexEntry> {
    if es == [] then []
    else Selected(es[..|es| - 1], q)
         + if Wanted(q, es[|es| - 1].recordtype, es[|es| - 1].timestamp) then [es[|es| - 1]] else []
  }

  /** `fseek` to an absolute offset and `fread` one object of the given length. Nothing is
      delivered for length 0 or past the end; the prefix below `bodyStart` holds no payload. */
  function PayloadAt(bodyStart: nat, body: seq<Byte>, e: IndexEntry): Option<seq<Byte>> {
    if e.recordlength > 0 && bodyStart <= e.byteoffset && e.byteoffset + e.recordlength <= bodyStart + |body|
    then Some(body[e.byteoffset - bodyStart..e.byteoffset - bodyStart + e.recordlength])
    else None
  }

  function ItemAt(bodyStart: nat, body: seq<Byte>, e: IndexEntry): seq<Item> {
    match PayloadAt(bodyStart, body, e)
    case Some(p) => [Item(e.timestamp, e.recordtype, p)]
    case None => []
  }

  function ItemsAt(bodyStart: nat, body: seq<Byte>, es: seq<IndexEntry>): seq<Item> {
    if es == [] then [] else ItemsAt(bodyStart, body, es[..|es| - 1]) + ItemAt(bodyStart, body, es[|es| - 1])
  }

  /** Everything a file holds, in index order. */
  function AllItems(bodyStart: nat, f: ChunkFile): seq<Item> {
    ItemsAt(bodyStart, f.body, LiveEntries(f.index))
  }

  function Filtered(items: seq<Item>, q: Query): seq<Item> {
    if items == [] then []
    else Filtered(items[..|items| - 1], q)
         + if Wanted(q, items[|items| - 1].kind, items[|items| - 1].timestamp) then [items[|items| - 1]] else []
  }

  /** What `get_metadata_records` delivers for one file. */
  function ReadFile(bodyStart: nat, f: ChunkFile, q: Query): seq<Item> {
    ItemsAt(bodyStart, f.body, Selected(LiveEntries(f.index), q))
  }

  lemma {:induction false} FilteredAppend(a: seq<Item>, b: seq<Item>, q: Query)
    ensures Filtered(a + b, q) == Filtered(a, q) + Filtered(b, q)
  {
    if b == [] {
      assert a + b == a;
    } else {
      assert (a + b)[..|a + b| - 1] == a + b[..|b| - 1];
      FilteredAppend(a, b[..|b| - 1], q);
    }
  }

  lemma ItemsAtSnoc(bodyStart: nat, body: seq<Byte>, es: seq<IndexEntry>, e: IndexEntry)
    ensures ItemsAt(bodyStart, body, es + [e]) == ItemsAt(bodyStart, body, es) + ItemAt(bodyStart, body, e)
  {
    assert (es + [e])[..|es|] == es;
  }

  lemma FilteredOne(bodyStart: nat, body: seq<Byte>, e: IndexEntry, q: Query)
    ensures Filtered(ItemAt(bodyStart, body, e), q)
      == if Wanted(q, e.recordtype, e.timestamp) then ItemAt(bodyStart, body, e) else []
  {
    var one := ItemAt(bodyStart, body, e);
    if one != [] { assert one[..0] == []; }
  }

  lemma {:induction false} SelectThenFetch(bodyStart: nat, body: seq<Byte>, es: seq<IndexEntry>, q: Query)
    ensures ItemsAt(bodyStart, body, Selected(es, q)) == Filtered(ItemsAt(bodyStart, body, es), q)
  {
    if es != [] {
      var init, e := es[..|es| - 1], es[|es| - 1];
      SelectThenFetch(bodyStart, body, init, q);
      FilteredAppend(ItemsAt(bodyStart, body, init), ItemAt(bodyStart, body, e), q);
      FilteredOne(bodyStart, body, e, q);
      ItemsAtSnoc(bodyStart, body, Selected(init, q), e);
      assert ItemsAt(bodyStart, body, es) == ItemsAt(bodyStart, body, init) + ItemAt(bodyStart, body, e);
      if Wanted(q, e.recordtype, e.timestamp) {
        assert Selected(es, q) == Selected(init, q) + [e];
      } else {
        assert Selected(es, q) == Selected(init, q);
      }
    }
  }

  /** Selecting on the index and then fetching is the same as fetching everything and filtering
      the records, for any file contents. */
  lemma ReadFileFilters(bodyStart: nat, f: ChunkFile, q: Query)
    ensures ReadFile(bodyStart, f, q) == Filtered(AllItems(bodyStart, f), q)
  {
    SelectThenFetch(bodyStart, f.body, LiveEntries(f.index), q);
  }

  // ---------- what a request selects

  /** `r` is picked out of `xs` at the positions `js`, in order. */
  ghost predicate Picks<T>(xs: seq<T>, js: seq<nat>, r: seq<T>) {
    && |js| == |r|
    && (forall k :: 0 <= k < |js| ==> js[k] < |xs| && r[k] == xs[js[k]])
    && (forall j, k :: 0 <= j < k < |js| ==> js[j] < js[k])
  }

  lemma PicksSnoc<T>(xs: seq<T>, js: seq<nat>, r: seq<T>, x: T)
    requires Picks(xs, js, r)
    ensures Picks(xs + [x], js, r) && Picks(xs + [x], js + [|xs|], r + [x])
    ensures |xs| !in js
  {}

  /** Records answer a request when they are exactly those of the type asked for in the window, in
      order: from `start` to `end` inclusive when both are given, everything when neither is, and
      nothing when only one is. */
  ghost predicate Answers(items: seq<Item>, q: Query, js: seq<nat>, r: seq<Item>) {
    Picks(items, js, r) &&
    forall j :: 0 <= j < |items| ==>
      (j in js <==> items[j].kind == q.kind && (q.start == q.end == 0 || 0 < q.start <= items[j].timestamp <= q.end))
  }

  /** The same of index entries, as far as they are live: up to the first one without a time or an
      offset. */
  ghost predicate Selects(index: seq<IndexEntry>, q: Query, n: nat, js: seq<nat>, r: seq<IndexEntry>) {
    && n <= |index| && (forall k :: 0 <= k < n ==> index[k].timestamp != 0 && index[k].byteoffset != 0)
    && (n < |index| ==> index[n].timestamp == 0 || index[n].byteoffset == 0)
    && Picks(index[..n], js, r)
    && forall j :: 0 <= j < n ==>
         (j in js <==> index[j].recordtype == q.kind
                       && (q.start == q.end == 0 || 0 < q.start <= index[j].timestamp <= q.end))
  }

  /** The index entries selected are exactly those asked for. */
  lemma {:induction false} SelectedExact(es: seq<IndexEntry>, q: Query) returns (js: seq<nat>)
    ensures Picks(es, js, Selected(es, q))
    ensures forall j :: 0 <= j < |es| ==>
      (j in js <==> es[j].recordtype == q.kind && (q.start == q.end == 0 || 0 < q.start <= es[j].timestamp <= q.end))
  {
    js := [];
    if es != [] {
      var init, e := es[..|es| - 1], es[|es| - 1];
      js := SelectedExact(init, q);
      assert es == init + [e];
      PicksSnoc(init, js, Selected(init, q), e);
      if Wanted(q, e.recordtype, e.timestamp) { js := js + [|init|]; }
    }
  }

  /** The same of records. */
  lemma {:induction false} FilteredExact(items: seq<Item>, q: Query) returns (js: seq<nat>)
    ensures Answers(items, q, js, Filtered(items, q))
  {
    js := [];
    if items != [] {
      var init, x := items[..|items| - 1], items[|items| - 1];
      js := FilteredExact(init, q);
      assert items == init + [x];
      PicksSnoc(init, js, Filtered(init, q), x);
      if Wanted(q, x.kind, x.timestamp) { js := js + [|init|]; }
    }
  }

  /** With multiplicities. */
  lemma {:induction false} FilteredCounts(items: seq<Item>, q: Query, x: Item)
    ensures multiset(Filtered(items, q))[x]
      == if x.kind == q.kind && (q.start == q.end == 0 || 0 < q.start <= x.timestamp <= q.end) then multiset(items)[x]
         else 0
  {
    if items != [] {
      var init, y := items[..|items| - 1], items[|items| - 1];
      FilteredCounts(init, q, x);
      assert items == init + [y];
    }
  }

  /** The live entries are those before the first one without a time or an offset. */
  lemma {:induction false} LiveEntriesExact(index: seq<IndexEntry>) returns (n: nat)
    ensures n <= |index| && LiveEntries(index) == index[..n]
    ensures forall k :: 0 <= k < n ==> index[k].timestamp != 0 && index[k].byteoffset != 0
    ensures n < |index| ==> index[n].timestamp == 0 || index[n].byteoffset == 0
  {
    n := 0;
    if index != [] && LiveEntry(index[0]) {
      n := LiveEntriesExact(index[1..]);
      n := n + 1;
      assert index[..n] == [index[0]] + index[1..][..n - 1];
    }
  }

  lemma SelectsExact(index: seq<IndexEntry>, q: Query) returns (n: nat, js: seq<nat>)
    ensures Selects(index, q, n, js, Selected(LiveEntries(index), q))
  {
    n := LiveEntriesExact(index);
    js := SelectedExact(index[..n], q);
  }

  /** What is delivered of a file answers the request, among all the file holds. */
  lemma ReadFileAnswers(bodyStart: nat, f: ChunkFile, q: Query) returns (js: seq<nat>)
    ensures Answers(AllItems(bodyStart, f), q, js, ReadFile(bodyStart, f, q))
  {
    ReadFileFilters(bodyStart, f, q);
    js := FilteredExact(AllItems(bodyStart, f), q);
  }

  // ---------- the reader's loops

  /** Entries that can all be fetched give one item each. */
  lemma {:induction false} IntactDelivers(from: nat, body: seq<Byte>, es: seq<IndexEntry>)
    requires forall e <- es :: PayloadAt(from, body, e).Some?
    ensures |ItemsAt(from, body, es)| == |es|
  {
    if es != [] {
      IntactDelivers(from, body, es[..|es| - 1]);
      assert es[|es| - 1] in es;
    }
  }

  lemma {:induction false} LiveEntriesStep(index: seq<IndexEntry>, k: nat)
    requires k < |index| && LiveEntries(index[..k]) == index[..k]
    ensures LiveEntry(index[k]) ==> LiveEntries(index[..k + 1]) == index[..k + 1]
    ensures !LiveEntry(index[k]) ==> LiveEntries(index) == index[..k]
  {
    if k > 0 {
      assert index[..k][1..] == index[1..][..k - 1];
      LiveEntriesStep(index[1..], k - 1);
      assert index[..k + 1][1..] == index[1..][..k];
      assert index[..k] == [index[0]] + index[1..][..k - 1];
      assert index[..k + 1] == [index[0]] + index[1..][..k];
    } else {
      assert index[..1] == [index[0]];
      assert index[..1][1..] == [];
    }
  }

  lemma SelectedStep(index: seq<IndexEntry>, k: nat, q: Query)
    requires k < |index|
    ensures Selected(index[..k + 1], q)
      == Selected(index[..k], q) + if Wanted(q, index[k].recordtype, index[k].timestamp) then [index[k]] else []
  {
    assert index[..k + 1][..k] == index[..k];
  }

  lemma NothingSelected(index: seq<IndexEntry>, q: Query)
    ensures LiveEntries(index[..0]) == [] == Selected(index[..0], q)
  {}

  lemma {:induction false} LiveEntriesBound(index: seq<IndexEntry>)
    ensures |LiveEntries(index)| <= |index|
  {
    if index != [] { LiveEntriesBound(index[1..]); }
  }

  lemma {:induction false} SelectedBound(es: seq<IndexEntry>, q: Query)
    ensures |Selected(es, q)| <= |es|
  {
    if es != [] { SelectedBound(es[..|es| - 1], q); }
  }

  /** `get_all_filtered_index_records`: one entry read per round, stopping at the first entry
      that was never written; the matching ones are packed into `dest`. */
  method GetAllFilteredIndexRecords(f: ChunkFile, capacity: nat, q: Query, dest: array<IndexEntry>)
    returns (count: nat, ghost n: nat, ghost js: seq<nat>)
    requires |f.index| <= capacity <= dest.Length
    modifies dest
    ensures count <= dest.Length
    ensures dest[..count] == Selected(LiveEntries(f.index), q)
    ensures Selects(f.index, q, n, js, dest[..count])
  {
    hide Wanted, Selects, Selected, LiveEntries;
    n, js := SelectsExact(f.index, q);
    NothingSelected(f.index, q);
    count := 0;
    var i := 0;
    while i < capacity
      invariant 0 <= i <= |f.index| && count <= i
      invariant LiveEntries(f.index[..i]) == f.index[..i]
      invariant dest[..count] == Selected(f.index[..i], q)
    {
      var e := if i < |f.index| then f.index[i] else ZERO_ENTRY;
      if i < |f.index| { LiveEntriesStep(f.index, i); } else { assert f.index[..i] == f.index; }
      if e.timestamp == 0 || e.byteoffset == 0 {
        return;
      }
      SelectedStep(f.index, i, q);
      if Wanted(q, e.recordtype, e.timestamp) {
        dest[count] := e;
        count := count + 1;
      }
      i := i + 1;
    }
    assert f.index[..i] == f.index;
  }

  /** `get_metadata_records`: fetch each selected payload. The reported count is the number of
      index matches, so it exceeds what was delivered when a payload cannot be read. */
  method GetMetadataRecords(bodyStart: nat, f: ChunkFile, capacity: nat, q: Query, scratch: array<IndexEntry>,
          dest: array<Item>)
    returns (count: nat, delivered: nat, ghost js: seq<nat>)
    requires |f.index| <= capacity <= scratch.Length && capacity <= dest.Length
    modifies scratch, dest
    ensures count == |Selected(LiveEntries(f.index), q)|
    ensures delivered <= count <= dest.Length
    ensures dest[..delivered] == ReadFile(bodyStart, f, q)
    ensures Answers(AllItems(bodyStart, f), q, js, dest[..delivered])
  {
    hide Answers, Selects, AllItems, LiveEntries, Selected;
    js := ReadFileAnswers(bodyStart, f, q);
    ghost var n, picked;
    count, n, picked := GetAllFilteredIndexRecords(f, capacity, q, scratch);
    ghost var es := Selected(LiveEntries(f.index), q);
    LiveEntriesBound(f.index);
    SelectedBound(LiveEntries(f.index), q);
    delivered := 0;
    assert es[..0] == [];
    for i := 0 to count
      invariant delivered <= i <= count == |es| <= |f.index|
      invariant scratch[..count] == es
      invariant dest[..delivered] == ItemsAt(bodyStart, f.body, es[..i])
    {
      var e := scratch[i];
      assert e == scratch[..count][i] == es[i];
      assert es[..i + 1][..i] == es[..i];
      match PayloadAt(bodyStart, f.body, e) {
        case Some(p) =>
          dest[delivered] := Item(e.timestamp, e.recordtype, p);
          delivered := delivered + 1;
        case None =>
      }
    }
    assert es[..count] == es;
  }
}
