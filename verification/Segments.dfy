/** The recordings list: chunks sorted by start time are printed as segments, a new one wherever
    a chunk does not continue the one before it to within a second. */
module Segments {
  const MICROSECONDS: nat := 1000000

  /** Start in epoch seconds, duration in microseconds. */
  datatype Chunk = Chunk(start: int, duration: nat)

  function End(c: Chunk): int { c.start + c.duration / MICROSECONDS }

  const TWO31: int := 0x8000_0000
  const TWO32: int := 0x1_0000_0000

  /** A 64-bit difference passed where the C code has a 32-bit int. */
  function ToInt32(x: int): (r: int)
    ensures -0x8000_0000 <= r < 0x8000_0000 && (x - r) % 0x1_0000_0000 == 0
    ensures -0x8000_0000 <= x < 0x8000_0000 ==> r == x
  {
    (x + TWO31) % TWO32 - TWO31
  }

  // ---------- sorting

  /** `compare_chunks`. */
  function Compare(a: Chunk, b: Chunk): int { ToInt32(a.start - b.start) }

  /** The comparison sees the right order if and only if the difference fits; this for any two
      chunks less than 2^32 seconds apart. */
  lemma CompareExact(a: Chunk, b: Chunk)
    requires -0x1_0000_0000 < a.start - b.start < 0x1_0000_0000
    ensures (Compare(a, b) < 0 <==> a.start < b.start) && (Compare(a, b) > 0 <==> a.start > b.start)
      <==> -0x8000_0000 <= a.start - b.start < 0x8000_0000
  {
    var d := a.start - b.start;
    if d < -TWO31 { assert ToInt32(d) == d + TWO32; }
    if d >= TWO31 { assert ToInt32(d) == d - TWO32; }
  }

  /** What qsort leaves: the same chunks, no later one comparing below an earlier one. */
  ghost predicate QsortResult(before: seq<Chunk>, after: seq<Chunk>) {
    multiset(after) == multiset(before) && forall j, k :: 0 <= j < k < |after| ==> Compare(after[j], after[k]) <= 0
  }

  ghost predicate Sorted(cs: seq<Chunk>) {
    forall j, k :: 0 <= j < k < |cs| ==> cs[j].start <= cs[k].start
  }

  /** Any two chunks are less than 2^31 seconds apart, start to start and start to end. */
  ghost predicate Near(cs: seq<Chunk>) {
    forall c, d :: c in cs && d in cs ==>
      && -0x8000_0000 < c.start - d.start < 0x8000_0000
      && -0x8000_0000 < c.start - (d.start + d.duration / 1000000) < 0x8000_0000
  }

  lemma SameMembers(a: seq<Chunk>, b: seq<Chunk>)
    requires multiset(a) == multiset(b)
    ensures forall c :: c in a <==> c in b
  {
    forall c ensures c in a <==> c in b { assert c in a <==> c in multiset(a); }
  }

  lemma QsortSorts(before: seq<Chunk>, after: seq<Chunk>)
    requires QsortResult(before, after) && Near(before)
    ensures Sorted(after) && Near(after)
  {
    SameMembers(before, after);
  }

  // ---------- merging

  /** The chunk does not continue the one before: `abs` of the gap, cut to an int, exceeds 1. */
  predicate Gap(prev: Chunk, next: Chunk) {
    var d := ToInt32(next.start - End(prev));
    d > 1 || d < -1
  }

  /** Chunk j starts a new segment. */
  predicate Breaks(cs: seq<Chunk>, j: nat)
    requires 0 < j < |cs|
  {
    Gap(cs[j - 1], cs[j])
  }

  /** A segment is printed from the start of its first chunk to the end of its last one. */
  datatype Run = Run(first: nat, last: nat)

  function Runs(cs: seq<Chunk>, n: nat): (rs: seq<Run>)
    requires 1 <= n <= |cs|
    ensures |rs| > 0 && rs[|rs| - 1].last == n - 1
  {
    if n == 1 then [Run(0, 0)]
    else
      var rs := Runs(cs, n - 1);
      if Breaks(cs, n - 1) then rs + [Run(n - 1, n - 1)]
      else rs[..|rs| - 1] + [Run(rs[|rs| - 1].first, n - 1)]
  }

  ghost predicate NoGaps(cs: seq<Chunk>, first: nat, last: nat)
    requires first <= last < |cs|
  {
    forall j :: first < j <= last ==> !Breaks(cs, j)
  }

  /** The runs split the first n chunks without hole or overlap, with no gap inside a run and a
      gap before every run but the first: none can be made longer. */
  ghost predicate MaximalRuns(cs: seq<Chunk>, rs: seq<Run>, n: nat)
    requires 1 <= n <= |cs|
  {
    && |rs| > 0
    && (var r := rs[|rs| - 1];
        && r.first <= r.last == n - 1 && NoGaps(cs, r.first, r.last)
        && (if r.first == 0 then |rs| == 1
            else Breaks(cs, r.first) && MaximalRuns(cs, rs[..|rs| - 1], r.first)))
  }

  lemma {:induction false} RunsMaximal(cs: seq<Chunk>, n: nat)
    requires 1 <= n <= |cs|
    ensures MaximalRuns(cs, Runs(cs, n), n)
  {
    if n > 1 {
      RunsMaximal(cs, n - 1);
      var before, rs := Runs(cs, n - 1), Runs(cs, n);
      assert rs[..|rs| - 1] == if Breaks(cs, n - 1) then before else before[..|before| - 1];
    }
  }

  /** The last of the maximal runs. */
  lemma LastRun(cs: seq<Chunk>, rs: seq<Run>, n: nat)
    requires 1 <= n <= |cs| && MaximalRuns(cs, rs, n)
    ensures |rs| > 0
    ensures var r, init := rs[|rs| - 1], rs[..|rs| - 1];
      && r.first <= r.last == n - 1 && (r.first < n - 1 ==> !Breaks(cs, n - 1))
      && (if r.first == 0 then init == [] else Breaks(cs, r.first) && MaximalRuns(cs, init, r.first))
  {}

  lemma RunsOne(cs: seq<Chunk>)
    requires 1 <= |cs|
    ensures Runs(cs, 1) == [Run(0, 0)]
  {}

  lemma RunsStep(cs: seq<Chunk>, n: nat, init: seq<Run>, r: Run)
    requires 1 < n <= |cs| && Runs(cs, n - 1) == init + [r]
    ensures Runs(cs, n)
      == if Breaks(cs, n - 1) then init + [r] + [Run(n - 1, n - 1)] else init + [Run(r.first, n - 1)]
  {
    hide Breaks;
  }

  /** The partition into maximal runs is unique, so there is no other list of segments to print. */
  lemma {:induction false} RunsUnique(cs: seq<Chunk>, rs: seq<Run>, n: nat)
    requires 1 <= n <= |cs| && MaximalRuns(cs, rs, n)
    ensures rs == Runs(cs, n)
    decreases n
  {
    hide Breaks, MaximalRuns, NoGaps, Runs;
    LastRun(cs, rs, n);
    var r, init := rs[|rs| - 1], rs[..|rs| - 1];
    assert rs == init + [r];
    if r.first < n - 1 {
      OneShorter(cs, init, r.first, n);
      RunsUnique(cs, init + [Run(r.first, n - 2)], n - 1);
      RunsStep(cs, n, init, Run(r.first, n - 2));
    } else if n > 1 {
      RunsUnique(cs, init, n - 1);
      RunsStep(cs, n, init[..|init| - 1], init[|init| - 1]);
    } else {
      assert rs == [Run(0, 0)];
      RunsOne(cs);
    }
  }

  lemma OneShorter(cs: seq<Chunk>, init: seq<Run>, first: nat, n: nat)
    requires first < n - 1 && n <= |cs| && MaximalRuns(cs, init + [Run(first, n - 1)], n)
    ensures MaximalRuns(cs, init + [Run(first, n - 2)], n - 1)
  {
    assert (init + [Run(first, n - 2)])[..|init|] == init == (init + [Run(first, n - 1)])[..|init|];
  }

  /** Run k of a partition lies within the chunks and has no gap inside. */
  lemma {:induction false} RunInside(cs: seq<Chunk>, rs: seq<Run>, n: nat, k: nat)
    requires 1 <= n <= |cs| && MaximalRuns(cs, rs, n) && k < |rs|
    ensures rs[k].first <= rs[k].last < n && NoGaps(cs, rs[k].first, rs[k].last)
  {
    if k < |rs| - 1 { RunInside(cs, rs[..|rs| - 1], rs[|rs| - 1].first, k); }
  }

  /** Every chunk is in some run. */
  lemma {:induction false} RunOf(cs: seq<Chunk>, rs: seq<Run>, n: nat, j: nat) returns (k: nat)
    requires 1 <= n <= |cs| && MaximalRuns(cs, rs, n) && j < n
    ensures k < |rs| && rs[k].first <= j <= rs[k].last
  {
    if rs[|rs| - 1].first <= j {
      k := |rs| - 1;
    } else {
      k := RunOf(cs, rs[..|rs| - 1], rs[|rs| - 1].first, j);
    }
  }

  // ---------- what a segment covers

  lemma {:induction false} Covered(cs: seq<Chunk>, first: nat, last: nat, t: int) returns (k: nat)
    requires Near(cs) && first <= last < |cs| && NoGaps(cs, first, last)
    requires cs[first].start <= t <= End(cs[last])
    ensures first <= k <= last && cs[k].start <= t <= End(cs[k])
  {
    if t >= cs[last].start {
      k := last;
    } else {
      assert !Breaks(cs, last);
      k := Covered(cs, first, last - 1, t);
    }
  }

  lemma NoSlack(cs: seq<Chunk>, first: nat, last: nat, k: nat)
    requires Near(cs) && Sorted(cs) && first <= k <= last < |cs| && NoGaps(cs, first, last)
    ensures cs[first].start <= cs[k].start && End(cs[k]) <= End(cs[last]) + 1
  {
    if k < last {
      assert !Breaks(cs, k + 1);
      assert cs[k + 1].start <= cs[last].start;
    }
  }

  lemma SortedRuns(before: seq<Chunk>, cs: seq<Chunk>)
    requires |before| > 0 && Near(before) && QsortResult(before, cs)
    ensures |cs| > 0 && Sorted(cs) && Near(cs) && MaximalRuns(cs, Runs(cs, |cs|), |cs|)
  {
    assert |cs| == |multiset(cs)| == |before|;
    QsortSorts(before, cs);
    RunsMaximal(cs, |cs|);
  }

  /** Merge correctness, first half: whatever order qsort leaves equal starts in, every second of
      a printed segment lies in a chunk of its run. */
  lemma SegmentCovered(before: seq<Chunk>, cs: seq<Chunk>, k: nat, t: int) returns (j: nat)
    requires |before| > 0 && Near(before) && QsortResult(before, cs)
    requires |cs| > 0 ==> k < |Runs(cs, |cs|)|
    ensures |cs| > 0
    ensures var r := Runs(cs, |cs|)[k];
      && r.first <= r.last < |cs|
      && (cs[r.first].start <= t <= End(cs[r.last]) ==> r.first <= j <= r.last && cs[j].start <= t <= End(cs[j]))
  {
    SortedRuns(before, cs);
    RunInside(cs, Runs(cs, |cs|), |cs|, k);
    var r := Runs(cs, |cs|)[k];
    j := r.first;
    if cs[r.first].start <= t <= End(cs[r.last]) { j := Covered(cs, r.first, r.last, t); }
  }

  /** Second half: every chunk lies in one of the printed segments, and sticks out at its end by
      one second at most; the slack does not add up along a run. */
  lemma ChunkInSegment(before: seq<Chunk>, cs: seq<Chunk>, j: nat) returns (k: nat)
    requires Near(before) && QsortResult(before, cs) && j < |cs|
    ensures k < |Runs(cs, |cs|)|
    ensures var r := Runs(cs, |cs|)[k];
      && r.first <= j <= r.last < |cs|
      && cs[r.first].start <= cs[j].start && End(cs[j]) <= End(cs[r.last]) + 1
  {
    assert |before| == |multiset(before)| == |cs|;
    SortedRuns(before, cs);
    k := RunOf(cs, Runs(cs, |cs|), |cs|, j);
    RunInside(cs, Runs(cs, |cs|), |cs|, k);
    var r := Runs(cs, |cs|)[k];
    NoSlack(cs, r.first, r.last, j);
  }

  // ---------- where segments begin and end

  /** The chunk ends in second e: its start plus the whole seconds of its duration. */
  ghost predicate EndsAt(c: Chunk, e: int) {
    1000000 * (e - c.start) <= c.duration < 1000000 * (e - c.start + 1)
  }

  lemma EndIs(c: Chunk, e: int)
    ensures EndsAt(c, e) <==> e == End(c)
  {}

  /** The next chunk starts within a second, either way, of the second in which this one ends. */
  ghost predicate ContinuesFrom(c: Chunk, next: Chunk) {
    exists e :: EndsAt(c, e) && -1 <= next.start - e <= 1
  }

  lemma ContinuesExact(c: Chunk, next: Chunk, e: int)
    requires EndsAt(c, e)
    ensures ContinuesFrom(c, next) <==> -1 <= next.start - e <= 1
  {
    forall d ensures EndsAt(c, d) <==> d == e {
      EndIs(c, d);
      EndIs(c, e);
    }
  }

  ghost predicate Continues(cs: seq<Chunk>, j: nat)
    requires 0 < j < |cs|
  {
    ContinuesFrom(cs[j - 1], cs[j])
  }

  lemma BreaksExact(cs: seq<Chunk>, j: nat)
    requires Near(cs) && 0 < j < |cs|
    ensures !Breaks(cs, j) <==> Continues(cs, j)
  {
    EndIs(cs[j - 1], End(cs[j - 1]));
  }

  ghost predicate InOneRun(rs: seq<Run>, i: nat, j: nat) {
    exists k :: 0 <= k < |rs| && rs[k].first <= i && j <= rs[k].last
  }

  /** Runs follow each other; each but the first starts at a break. */
  lemma {:induction false} RunStart(cs: seq<Chunk>, rs: seq<Run>, n: nat, k: nat)
    requires 1 <= n <= |cs| && MaximalRuns(cs, rs, n) && k < |rs|
    ensures rs[k].first == (if k == 0 then 0 else rs[k - 1].last + 1)
    ensures rs[k].last < n && (k > 0 ==> 0 < rs[k].first < n && Breaks(cs, rs[k].first))
  {
    var init := rs[..|rs| - 1];
    if k < |rs| - 1 {
      RunStart(cs, init, rs[|rs| - 1].first, k);
    } else if rs[k].first > 0 {
      assert init[|init| - 1] == rs[k - 1];
    }
  }

  lemma InOneRunExact(cs: seq<Chunk>, rs: seq<Run>, j: nat)
    requires 0 < j < |cs| && MaximalRuns(cs, rs, |cs|)
    ensures InOneRun(rs, j - 1, j) <==> !Breaks(cs, j)
  {
    hide Breaks, MaximalRuns;
    var k := RunOf(cs, rs, |cs|, j);
    RunStart(cs, rs, |cs|, k);
    if i :| 0 <= i < |rs| && rs[i].first <= j - 1 && j <= rs[i].last {
      RunInside(cs, rs, |cs|, i);
    }
  }

  /** Consecutive chunks lie in one printed run if and only if the second starts within a second,
      either way, of the second in which the first ends. */
  lemma OneRunExact(before: seq<Chunk>, cs: seq<Chunk>, j: nat, e: int)
    requires |before| > 0 && Near(before) && QsortResult(before, cs)
    requires 0 < j < |cs| && EndsAt(cs[j - 1], e)
    ensures InOneRun(Runs(cs, |cs|), j - 1, j) <==> -1 <= cs[j].start - e <= 1
  {
    SortedRuns(before, cs);
    InOneRunExact(cs, Runs(cs, |cs|), j);
    BreaksExact(cs, j);
    ContinuesExact(cs[j - 1], cs[j], e);
    hide Breaks, Runs, Near, Sorted, QsortResult, InOneRun, MaximalRuns, ContinuesFrom, EndsAt;
  }

  // ---------- printing

  datatype Token = StartTime(t: int) | EndTime(t: int)

  /** What is printed for a partition: one start and one end per run. */
  ghost function Printed(cs: seq<Chunk>, rs: seq<Run>, n: nat): seq<Token>
    requires 1 <= n <= |cs| && MaximalRuns(cs, rs, n)
  {
    var r := rs[|rs| - 1];
    (if r.first == 0 then [] else Printed(cs, rs[..|rs| - 1], r.first))
    + [StartTime(cs[r.first].start), EndTime(End(cs[r.last]))]
  }

  /** What is printed for chunks that are near each other, run by run: the start of the first
      chunk and the second in which the last one ends; inside a run every chunk starts within a
      second of the end of the one before, and between two segments there is more than that. */
  ghost predicate Segmented(cs: seq<Chunk>, rs: seq<Run>, out: seq<Token>) {
    && |out| == 2 * |rs| > 0 && rs[|rs| - 1].last == |cs| - 1
    && forall k :: 0 <= k < |rs| ==> SegmentAt(cs, rs, out, k)
  }

  ghost predicate SegmentAt(cs: seq<Chunk>, rs: seq<Run>, out: seq<Token>, k: nat)
    requires |out| == 2 * |rs| && k < |rs|
  {
    var r, start, end := rs[k], out[2 * k], out[2 * k + 1];
    && r.first == (if k == 0 then 0 else rs[k - 1].last + 1) && r.first <= r.last < |cs|
    && start.StartTime? && start.t == cs[r.first].start
    && end.EndTime? && EndsAt(cs[r.last], end.t)
    && (forall j :: r.first < j <= r.last ==> Continues(cs, j))
    && (k > 0 ==> out[2 * k - 1].EndTime? && !(-1 <= start.t - out[2 * k - 1].t <= 1))
  }

  /** The tokens of run k. */
  lemma {:induction false} PrintedAt(cs: seq<Chunk>, rs: seq<Run>, n: nat, k: nat)
    requires 1 <= n <= |cs| && MaximalRuns(cs, rs, n) && k < |rs|
    ensures var out := Printed(cs, rs, n);
      && |out| == 2 * |rs| && rs[k].first <= rs[k].last < n
      && out[2 * k] == StartTime(cs[rs[k].first].start) && out[2 * k + 1] == EndTime(End(cs[rs[k].last]))
  {
    hide NoGaps, End;
    var init, first := rs[..|rs| - 1], rs[|rs| - 1].first;
    if first > 0 { PrintedAt(cs, init, first, if k < |rs| - 1 then k else 0); }
  }

  lemma SegmentExact(cs: seq<Chunk>, rs: seq<Run>, k: nat)
    requires |cs| > 0 && Near(cs) && MaximalRuns(cs, rs, |cs|) && k < |rs|
    ensures var out := Printed(cs, rs, |cs|); |out| == 2 * |rs| && SegmentAt(cs, rs, out, k)
  {
    hide Near, Breaks, MaximalRuns, Printed, End, EndsAt;
    PrintedAt(cs, rs, |cs|, k);
    RunStart(cs, rs, |cs|, k);
    RunInside(cs, rs, |cs|, k);
    var r := rs[k];
    EndIs(cs[r.last], End(cs[r.last]));
    if k > 0 {
      PrintedAt(cs, rs, |cs|, k - 1);
      EndIs(cs[r.first - 1], End(cs[r.first - 1]));
      BreaksExact(cs, r.first);
    }
    forall j | r.first < j <= r.last ensures Continues(cs, j) { BreaksExact(cs, j); }
  }

  lemma SegmentsExact(cs: seq<Chunk>)
    requires |cs| > 0 && Near(cs) && MaximalRuns(cs, Runs(cs, |cs|), |cs|)
    ensures Segmented(cs, Runs(cs, |cs|), Printed(cs, Runs(cs, |cs|), |cs|))
  {
    var rs := Runs(cs, |cs|);
    hide SegmentAt, Runs, Printed, Near;
    PrintedAt(cs, rs, |cs|, 0);
    forall k | 0 <= k < |rs| ensures SegmentAt(cs, rs, Printed(cs, rs, |cs|), k) { SegmentExact(cs, rs, k); }
  }

  /** The tokens printed while the run from `first` is open, `done` being closed. */
  ghost predicate OpenSegment(cs: seq<Chunk>, done: seq<Run>, first: nat, last: nat, out: seq<Token>)
    requires first <= last < |cs|
  {
    && NoGaps(cs, first, last)
    && (if first == 0 then done == [] && out == [StartTime(cs[0].start)]
        else Breaks(cs, first) && MaximalRuns(cs, done, first)
             && out == Printed(cs, done, first) + [StartTime(cs[first].start)])
  }

  lemma CloseSegment(cs: seq<Chunk>, done: seq<Run>, first: nat, last: nat, out: seq<Token>)
    requires first <= last < |cs| && OpenSegment(cs, done, first, last, out)
    ensures MaximalRuns(cs, done + [Run(first, last)], last + 1)
    ensures Printed(cs, done + [Run(first, last)], last + 1) == out + [EndTime(End(cs[last]))]
  {
    assert (done + [Run(first, last)])[..|done|] == done;
  }

  lemma FirstChunk(cs: seq<Chunk>)
    requires |cs| > 0
    ensures OpenSegment(cs, [], 0, 0, [StartTime(cs[0].start)])
  {}

  /** One more chunk: the open segment goes on, or is closed and another one opened. */
  lemma NextChunk(cs: seq<Chunk>, done: seq<Run>, first: nat, j: nat, out: seq<Token>)
    requires first < j < |cs| && OpenSegment(cs, done, first, j - 1, out)
    ensures !Breaks(cs, j) ==> OpenSegment(cs, done, first, j, out)
    ensures Breaks(cs, j) ==>
      OpenSegment(cs, done + [Run(first, j - 1)], j, j, out + [EndTime(End(cs[j - 1]))] + [StartTime(cs[j].start)])
  {
    CloseSegment(cs, done, first, j - 1, out);
  }

  lemma Finished(cs: seq<Chunk>, done: seq<Run>, first: nat, out: seq<Token>)
    requires first < |cs| && OpenSegment(cs, done, first, |cs| - 1, out)
    ensures MaximalRuns(cs, Runs(cs, |cs|), |cs|)
    ensures Printed(cs, Runs(cs, |cs|), |cs|) == out + [EndTime(End(cs[|cs| - 1]))]
  {
    hide OpenSegment, MaximalRuns, Printed, Runs, End;
    CloseSegment(cs, done, first, |cs| - 1, out);
    RunsUnique(cs, done + [Run(first, |cs| - 1)], |cs|);
  }

  /** The comparison in the loop: `abs` of the gap against one second. */
  method FindGap(prev: Chunk, next: Chunk) returns (gap: bool)
    ensures gap == Gap(prev, next)
  {
    var d := ToInt32(next.start - End(prev));
    gap := (if d < 0 then -d else d) > 1;
  }

  /** `print_ssd` for one camera, after sorting: one pass that closes a segment and opens the
      next wherever there is a gap prints the maximal runs. */
  method PrintSegments(chunks: array<Chunk>) returns (out: seq<Token>)
    ensures chunks.Length == 0 ==> out == []
    ensures chunks.Length > 0 ==>
      && MaximalRuns(chunks[..], Runs(chunks[..], chunks.Length), chunks.Length)
      && out == Printed(chunks[..], Runs(chunks[..], chunks.Length), chunks.Length)
      && (Near(chunks[..]) ==> Segmented(chunks[..], Runs(chunks[..], chunks.Length), out))
  {
    hide OpenSegment, MaximalRuns, Printed, Runs, NoGaps, End, Gap, Near, Segmented;
    out := [];
    if chunks.Length == 0 { return; }
    ghost var cs := chunks[..];
    out := [StartTime(chunks[0].start)];
    var j := 1;
    ghost var done: seq<Run>, first: nat := [], 0;
    FirstChunk(cs);
    while j < chunks.Length
      invariant 1 <= j <= chunks.Length && first < j
      invariant OpenSegment(cs, done, first, j - 1, out)
    {
      NextChunk(cs, done, first, j, out);
      assert cs[j] == chunks[j] && cs[j - 1] == chunks[j - 1];
      var gap := FindGap(chunks[j - 1], chunks[j]);
      if gap {
        out := out + [EndTime(End(chunks[j - 1]))];
        done, first := done + [Run(first, j - 1)], j;
        out := out + [StartTime(chunks[j].start)];
      }
      j := j + 1;
    }
    Finished(cs, done, first, out);
    out := out + [EndTime(End(chunks[j - 1]))];
    if Near(cs) { SegmentsExact(cs); }
  }
}
