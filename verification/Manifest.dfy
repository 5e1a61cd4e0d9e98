/** The download manifest: one pass over the chunks found, writing a block of entries per stretch
    of recording. Chunks whose path cannot be rebuilt are skipped. */
module Manifest {
  /** What the pass depends on: the gap flag, whether the path resolves, whether the copy to the
      destination succeeds. */
  datatype Chunk = Chunk(gap: bool, resolves: bool, copies: bool)

  datatype Status = OkFull | Failure | InternalError | SizeError

  /** `Open` starts a block, `Entry(i)` describes chunk i, `Close(from, to)` ends the block and
      gives its start and end time from chunks `from` and `to`. */
  datatype Token = Open | Entry(i: nat) | Close(from: nat, to: nat)

  // ---------- the pass

  /** `count` is the number of chunks written so far, `start` the chunk the open block's start
      time comes from. */
  datatype Pass = Pass(count: nat, start: nat, out: seq<Token>)

  /** The tokens of chunk i, without its copy. */
  function Visit(cs: seq<Chunk>, i: nat, p: Pass): Pass
    requires i < |cs|
  {
    if !cs[i].resolves then p
    else
      var p1 := if p.count == 0 then p.(out := p.out + [Open], start := 0) else p;
      var p2 := p1.(count := p1.count + 1, out := p1.out + [Entry(i)]);
      if cs[i].gap || i + 1 >= |cs| then
        var p3 := p2.(out := p2.out + [Close(p2.start, i)]);
        if i + 1 < |cs| then p3.(out := p3.out + [Open], start := i + 1) else p3
      else p2
  }

  function Visited(cs: seq<Chunk>, n: nat): Pass
    requires n <= |cs|
  {
    if n == 0 then Pass(0, 0, []) else Visit(cs, n - 1, Visited(cs, n - 1))
  }

  /** The first chunk whose copy fails, or |cs|. */
  function FirstFailure(cs: seq<Chunk>, from: nat): (k: nat)
    requires from <= |cs|
    ensures from <= k <= |cs|
    ensures forall j :: from <= j < k ==> cs[j].resolves ==> cs[j].copies
    ensures k < |cs| ==> cs[k].resolves && !cs[k].copies
    decreases |cs| - from
  {
    if from == |cs| || (cs[from].resolves && !cs[from].copies) then from else FirstFailure(cs, from + 1)
  }

  /** `insert_chunk_metadata`; `fits` is the outcome of the size check. A failed copy ends the
      pass at once, with the tokens of its chunk already written. */
  method InsertChunkMetadata(cs: seq<Chunk>, fits: bool) returns (rc: Status, out: seq<Token>)
    ensures |cs| == 0 ==> rc == InternalError && out == []
    ensures |cs| > 0 && !fits ==> rc == SizeError && out == []
    ensures |cs| > 0 && fits ==>
      var k := FirstFailure(cs, 0);
      if k < |cs| then rc == InternalError && out == Visited(cs, k + 1).out
      else && out == Visited(cs, |cs|).out
           && rc == if exists j :: 0 <= j < |cs| && cs[j].resolves then OkFull else Failure
  {
    out := [];
    if |cs| == 0 { return InternalError, out; }
    if !fits { return SizeError, out; }
    var count, start := 0, 0;
    ghost var failure := FirstFailure(cs, 0);
    for i := 0 to |cs|
      invariant i <= failure
      invariant Pass(count, start, out) == Visited(cs, i)
      invariant count > 0 <==> exists j :: 0 <= j < i && cs[j].resolves
    {
      if cs[i].resolves {
        if count == 0 {
          out := out + [Open];
          start := 0;
        }
        count := count + 1;
        out := out + [Entry(i)];
        if cs[i].gap || i + 1 >= |cs| {
          out := out + [Close(start, i)];
          if i + 1 < |cs| {
            start := i + 1;
            out := out + [Open];
          }
        }
        if !cs[i].copies { return InternalError, out; }
      }
    }
    rc := if count == 0 then Failure else OkFull;
  }

  // ---------- well-formedness

  /** Where a reader of the manifest stands. */
  datatype Scan = Outside | Opened | Inside | Broken

  function Read(s: Scan, t: Token): Scan {
    match t
    case Open => if s.Outside? then Opened else Broken
    case Entry(_) => if s.Opened? || s.Inside? then Inside else Broken
    case Close(_, _) => if s.Inside? then Outside else Broken
  }

  function ReadAll(out: seq<Token>): Scan {
    if out == [] then Outside else Read(ReadAll(out[..|out| - 1]), out[|out| - 1])
  }

  /** One or more blocks, each a start, one or more chunks, and an end. */
  predicate WellFormed(out: seq<Token>) { out != [] && ReadAll(out).Outside? }

  lemma ReadSnoc(out: seq<Token>, t: Token)
    ensures ReadAll(out + [t]) == Read(ReadAll(out), t)
  {
    assert (out + [t])[..|out|] == out;
  }

  function Standing(cs: seq<Chunk>, n: nat, out: seq<Token>): Scan
    requires n <= |cs| && out != []
  {
    if n > 0 && n == |cs| && cs[n - 1].resolves then Outside else if out[|out| - 1].Open? then Opened else Inside
  }

  /** The tokens so far read as blocks, the last one possibly open. */
  ghost predicate Reads(cs: seq<Chunk>, n: nat, p: Pass)
    requires n <= |cs|
  {
    && (p.count == 0 <==> p.out == [])
    && (p.count > 0 ==> ReadAll(p.out) == Standing(cs, n, p.out))
  }

  lemma VisitReads(cs: seq<Chunk>, i: nat, p: Pass)
    requires i < |cs| && Reads(cs, i, p)
    ensures Reads(cs, i + 1, Visit(cs, i, p))
  {
    if cs[i].resolves {
      var o1 := if p.count == 0 then p.out + [Open] else p.out;
      if p.count == 0 { ReadSnoc([], Open); assert p.out + [Open] == [] + [Open]; }
      var o2 := o1 + [Entry(i)];
      var o3 := o2 + [Close(if p.count == 0 then 0 else p.start, i)];
      ReadSnoc(o1, Entry(i));
      ReadSnoc(o2, o3[|o3| - 1]);
      ReadSnoc(o3, Open);
      hide ReadAll;
    }
  }

  lemma {:induction false} PassReads(cs: seq<Chunk>, n: nat)
    requires n <= |cs|
    ensures Reads(cs, n, Visited(cs, n))
  {
    if n > 0 {
      PassReads(cs, n - 1);
      VisitReads(cs, n - 1, Visited(cs, n - 1));
      hide Visit, Reads;
    }
  }

  /** When every copy succeeds, the manifest is well-formed if and only if the last chunk
      resolves; with no chunk resolving it is empty, and otherwise its last block is left open. */
  lemma {:induction false} WellFormedExact(cs: seq<Chunk>)
    requires |cs| > 0
    ensures WellFormed(Visited(cs, |cs|).out) <==> cs[|cs| - 1].resolves
  {
    PassReads(cs, |cs|);
    CountAll(cs, |cs|);
  }

  lemma {:induction false} CountAll(cs: seq<Chunk>, n: nat)
    requires n <= |cs|
    ensures Visited(cs, n).count > 0 <==> exists j :: 0 <= j < n && cs[j].resolves
  {
    if n > 0 { CountAll(cs, n - 1); }
  }

  // ---------- blocks

  /** A block ends behind a gap, if the chunk it is on resolves. */
  predicate Boundary(cs: seq<Chunk>, k: nat)
    requires k < |cs|
  {
    cs[k].gap && cs[k].resolves
  }

  /** The chunk the block of chunk k begins with: the first one, or the one behind a boundary. */
  function Begin(cs: seq<Chunk>, k: nat): (b: nat)
    requires k <= |cs|
    ensures b <= k && (b == 0 || Boundary(cs, b - 1))
    ensures forall j :: b <= j < k ==> !Boundary(cs, j)
  {
    if k == 0 || Boundary(cs, k - 1) then k else Begin(cs, k - 1)
  }

  /** Nothing resolves between the beginning of its block and chunk k. */
  predicate StartsBlock(cs: seq<Chunk>, k: nat)
    requires k <= |cs|
  {
    forall j :: Begin(cs, k) <= j < k ==> !cs[j].resolves
  }

  predicate EndsBlock(cs: seq<Chunk>, k: nat)
    requires k < |cs|
  {
    cs[k].gap || k == |cs| - 1
  }

  /** The chunks that resolve, in order; a block opened before its first one and closed behind the
      one that ends it, with the times of the chunks it begins and ends with. */
  function Blocks(cs: seq<Chunk>, n: nat): seq<Token>
    requires n <= |cs|
  {
    if n == 0 then []
    else if !cs[n - 1].resolves then Blocks(cs, n - 1)
    else
      var k := n - 1;
      Blocks(cs, k) + (if StartsBlock(cs, k) then [Open] else [])
      + [Entry(k)] + if EndsBlock(cs, k) then [Close(Begin(cs, k), k)] else []
  }

  /** A block was opened ahead, behind a boundary, and nothing has been written to it yet. */
  predicate OpenedAhead(cs: seq<Chunk>, n: nat)
    requires n <= |cs|
  {
    StartsBlock(cs, n) && !(n == |cs| && n > 0 && cs[n - 1].resolves) && exists j :: 0 <= j < n && cs[j].resolves
  }

  lemma StartsBlockStep(cs: seq<Chunk>, k: nat)
    requires k < |cs|
    ensures StartsBlock(cs, k + 1) <==> if cs[k].resolves then cs[k].gap else StartsBlock(cs, k)
  {
    if !Boundary(cs, k) { assert Begin(cs, k + 1) == Begin(cs, k); }
  }

  lemma OpenedAheadStep(cs: seq<Chunk>, k: nat)
    requires k < |cs|
    ensures OpenedAhead(cs, k + 1) <==>
      if cs[k].resolves then cs[k].gap && k + 1 < |cs| else OpenedAhead(cs, k)
  {
    StartsBlockStep(cs, k);
    hide StartsBlock;
  }

  /** What the pass has written, whatever resolves: the blocks, and one more opened ahead. */
  lemma {:induction false} VisitedBlocks(cs: seq<Chunk>, n: nat)
    requires n <= |cs|
    ensures var p := Visited(cs, n);
      && (p.count > 0 <==> exists j :: 0 <= j < n && cs[j].resolves)
      && (n < |cs| ==> p.start == Begin(cs, n))
      && p.out == Blocks(cs, n) + if OpenedAhead(cs, n) then [Open] else []
  {
    if n > 0 {
      VisitedBlocks(cs, n - 1);
      OpenedAheadStep(cs, n - 1);
      if (forall j :: 0 <= j < n - 1 ==> !cs[j].resolves) { NoBoundary(cs, n - 1); }
      VisitBlocks(cs, n - 1, Visited(cs, n - 1));
    }
  }

  lemma {:induction false} NoBoundary(cs: seq<Chunk>, k: nat)
    requires k <= |cs| && forall j :: 0 <= j < k ==> !cs[j].resolves
    ensures Begin(cs, k) == 0 && StartsBlock(cs, k)
  {
    if k > 0 { NoBoundary(cs, k - 1); }
  }

  lemma VisitBlocks(cs: seq<Chunk>, k: nat, p: Pass)
    requires k < |cs| && p.start == Begin(cs, k)
    requires p.count > 0 <==> exists j :: 0 <= j < k && cs[j].resolves
    requires p.count == 0 ==> Begin(cs, k) == 0 && StartsBlock(cs, k)
    requires p.out == Blocks(cs, k) + if OpenedAhead(cs, k) then [Open] else []
    ensures var p' := Visit(cs, k, p);
      && (p'.count > 0 <==> exists j :: 0 <= j < k + 1 && cs[j].resolves)
      && (k + 1 < |cs| ==> p'.start == Begin(cs, k + 1))
      && p'.out == Blocks(cs, k + 1)
           + if (if cs[k].resolves then cs[k].gap && k + 1 < |cs| else OpenedAhead(cs, k)) then [Open] else []
  {
    if cs[k].resolves {
      assert OpenedAhead(cs, k) <==> StartsBlock(cs, k) && p.count > 0;
      hide OpenedAhead, StartsBlock, Begin;
      BeginStep(cs, k);
    } else {
      BeginStep(cs, k);
      hide OpenedAhead, StartsBlock, Begin;
    }
  }

  lemma BeginStep(cs: seq<Chunk>, k: nat)
    requires k < |cs|
    ensures Begin(cs, k + 1) == if Boundary(cs, k) then k + 1 else Begin(cs, k)
  {}

  /** Manifest correctness: when the last path resolves, whatever else does, the manifest is the
      well-formed list of blocks, one per stretch between boundaries in which anything resolves. */
  lemma {:induction false} ManifestIsBlocks(cs: seq<Chunk>)
    requires |cs| > 0 && cs[|cs| - 1].resolves
    ensures Visited(cs, |cs|).out == Blocks(cs, |cs|) && WellFormed(Blocks(cs, |cs|))
  {
    VisitedBlocks(cs, |cs|);
    WellFormedExact(cs);
  }

  /** Two chunks are in one block if and only if no boundary lies between them: no gap on a chunk
      that resolves. */
  lemma {:induction false} BlocksExact(cs: seq<Chunk>, i: nat, j: nat)
    requires i <= j < |cs|
    ensures Begin(cs, i) == Begin(cs, j) <==> forall k :: i <= k < j ==> !Boundary(cs, k)
  {
    if i < j {
      BlocksExact(cs, i, j - 1);
      BeginStep(cs, j - 1);
    }
  }

  /** So a gap on a chunk that does not resolve is not seen: the runs on both sides of it share a
      block, in which the chunk behind it opens nothing. */
  lemma UnresolvedGapMerges(cs: seq<Chunk>, i: nat, j: nat)
    requires i < j < |cs| && cs[i].resolves && !cs[i].gap
    requires forall k :: i < k < j ==> !cs[k].resolves
    ensures Begin(cs, i) == Begin(cs, j) && !StartsBlock(cs, j)
  {
    BlocksExact(cs, i, j);
  }

  function Entries(out: seq<Token>): seq<nat> {
    if out == [] then [] else Entries(out[..|out| - 1]) + if out[|out| - 1].Entry? then [out[|out| - 1].i] else []
  }

  /** The chunks that resolve, in order. */
  function Resolving(cs: seq<Chunk>, n: nat): seq<nat>
    requires n <= |cs|
  {
    if n == 0 then [] else Resolving(cs, n - 1) + if cs[n - 1].resolves then [n - 1] else []
  }

  lemma NoEntries()
    ensures Entries([]) == []
  {}

  lemma EntriesSnoc(out: seq<Token>, t: Token)
    ensures Entries(out + [t]) == Entries(out) + if t.Entry? then [t.i] else []
  {
    assert (out + [t])[..|out|] == out;
  }

  /** Whatever resolves, the entries are exactly the resolving chunks, once each and in order. */
  lemma {:induction false} EntriesAreResolving(cs: seq<Chunk>, n: nat)
    requires n <= |cs|
    ensures Entries(Visited(cs, n).out) == Resolving(cs, n)
  {
    NoEntries();
    hide Visit, Entries;
    if n > 0 {
      EntriesAreResolving(cs, n - 1);
      VisitAddsEntry(cs, n - 1, Visited(cs, n - 1));
    }
  }

  lemma VisitAddsEntry(cs: seq<Chunk>, i: nat, p: Pass)
    requires i < |cs|
    ensures Entries(Visit(cs, i, p).out) == Entries(p.out) + if cs[i].resolves then [i] else []
  {
    var o1 := if p.count == 0 then p.out + [Open] else p.out;
    var o2 := o1 + [Entry(i)];
    var close := Close(if p.count == 0 then 0 else p.start, i);
    EntriesSnoc(p.out, Open);
    EntriesSnoc(o1, Entry(i));
    EntriesSnoc(o2, close);
    EntriesSnoc(o2 + [close], Open);
    hide Entries;
    assert Visit(cs, i, p).out in {p.out, o2, o2 + [close], o2 + [close] + [Open]};
  }
}
