/** The whole path of a record: message handler, ring, recorder, published chunks, reader. */
module Pipeline {
  import opened ChunkNames
  import opened Options
  import opened RecorderState
  import opened ChunkReader
  import opened RoundTrip
  import H = Handoff
  import C = Collector
  import RecorderPaths
  import SoundRuns
  import D = RecorderDirs

  /** One step of either thread. `Finish` carries the mode the recorder reads for that record. */
  datatype Move =
    | Produce(r: Record, woken: bool)
    | Take(woken: bool)
    | Finish(chm: bool, ssd: bool, deadTell: nat)
    | IdleMove(now: nat)
    | TimeMove

  /** The hand-over step of a move, if it is one. */
  function ActionOf(m: Move): seq<H.Action> {
    match m
    case Produce(r, woken) => [H.Produce(r, woken)]
    case Take(woken) => [H.Take(woken)]
    case Finish(_, _, _) => [H.Finish]
    case IdleMove(_) => []
    case TimeMove => []
  }

  /** What the recorder does in a move; a finished record is as copied out of its slot. */
  function EventOf(before: H.Sys, m: Move): seq<Event>
    requires H.Ok(before)
  {
    match m
    case Finish(chm, ssd, dead) =>
      if before.slot.None? then []
      else [Write(H.RecordOf(before.heap, before.ring.buf[before.slot.value]), chm, ssd, dead)]
    case IdleMove(now) => [Idle(now)]
    case TimeMove => [TimeChange]
    case Produce(_, _) => []
    case Take(_) => []
  }

  function Actions(ms: seq<Move>): seq<H.Action> {
    if ms == [] then [] else Actions(ms[..|ms| - 1]) + ActionOf(ms[|ms| - 1])
  }

  function Sys(ms: seq<Move>): (s: H.Sys)
    ensures H.Ok(s)
  {
    H.Acts(H.Init(), Actions(ms))
  }

  function Events(ms: seq<Move>): seq<Event> {
    if ms == [] then [] else Events(ms[..|ms| - 1]) + EventOf(Sys(ms[..|ms| - 1]), ms[|ms| - 1])
  }

  function Written(es: seq<Event>): seq<Record> {
    if es == [] then []
    else Written(es[..|es| - 1]) + if es[|es| - 1].Write? then [es[|es| - 1].r] else []
  }

  lemma WrittenSnoc(es: seq<Event>, e: Event)
    ensures Written(es + [e]) == Written(es) + if e.Write? then [e.r] else []
  {
    assert (es + [e])[..|es|] == es;
  }

  lemma ActsSnoc(s: H.Sys, acts: seq<H.Action>, a: H.Action)
    requires H.Ok(s)
    ensures H.Acts(s, acts + [a]) == H.Act(H.Acts(s, acts), a)
  {
    assert (acts + [a])[..|acts|] == acts;
  }

  lemma ActHandles(s: H.Sys, a: H.Action)
    requires H.Ok(s)
    ensures H.Act(s, a).handled == s.handled
      + if a.Finish? && s.slot.Some? then [H.RecordOf(s.heap, s.ring.buf[s.slot.value])] else []
  {}

  /** One move handles a record exactly when it makes the recorder write that record. */
  lemma MoveHandles(acts: seq<H.Action>, es: seq<Event>, m: Move)
    requires Written(es) == H.Acts(H.Init(), acts).handled
    ensures Written(es + EventOf(H.Acts(H.Init(), acts), m)) == H.Acts(H.Init(), acts + ActionOf(m)).handled
  {
    hide H.Acts, H.Act, Written;
    var s := H.Acts(H.Init(), acts);
    assert acts + [] == acts && es + [] == es && s.handled + [] == s.handled;
    if ActionOf(m) != [] { ActHandles(s, ActionOf(m)[0]); }
    match m
    case Produce(r, woken) => ActsSnoc(H.Init(), acts, H.Produce(r, woken));
    case Take(woken) => ActsSnoc(H.Init(), acts, H.Take(woken));
    case Finish(chm, ssd, dead) =>
      ActsSnoc(H.Init(), acts, H.Finish);
      if s.slot.Some? { WrittenSnoc(es, EventOf(s, m)[0]); }
    case IdleMove(now) => WrittenSnoc(es, Idle(now));
    case TimeMove => WrittenSnoc(es, TimeChange);
  }

  /** The recorder writes exactly what the hand-over handled. */
  lemma {:induction false} WrittenIsHandled(ms: seq<Move>)
    ensures Written(Events(ms)) == Sys(ms).handled
  {
    if ms != [] {
      WrittenIsHandled(ms[..|ms| - 1]);
      MoveHandles(Actions(ms[..|ms| - 1]), Events(ms[..|ms| - 1]), ms[|ms| - 1]);
    }
  }

  // ---------- drives that stay in use

  function Items(rs: seq<Record>): seq<Item> {
    if rs == [] then [] else Items(rs[..|rs| - 1]) + [ItemOf(rs[|rs| - 1])]
  }

  predicate AlwaysCommanded(es: seq<Event>, i: nat) {
    forall e <- es :: e.Write? ==> if i == 0 then e.chm else e.ssd
  }

  predicate StaysUsed(s: State, i: nat)
    requires |s.drives| == 2 && i < 2
  {
    s.drives[i].used
    && (if i == 0 then s.preChm == Some(true) || s.preChm == None
        else s.preSsd == Some(true) || s.preSsd == None)
  }

  lemma UpdateStaysUsed(cfg: Config, s: State, e: Event, i: nat)
    requires Ok(cfg, s) && i < 2 && StaysUsed(s, i) && e.Write? && (if i == 0 then e.chm else e.ssd)
    ensures StaysUsed(UpdateDrives(cfg, s, e.chm, e.ssd), i)
  {}

  lemma StepStaysUsed(cfg: Config, s: State, e: Event, i: nat)
    requires Ok(cfg, s) && i < 2 && StaysUsed(s, i) && (e.Write? ==> if i == 0 then e.chm else e.ssd)
    ensures StaysUsed(Step(cfg, s, e), i)
  {
    match e
    case Write(r, chm, ssd, dead) =>
      UpdateStaysUsed(cfg, s, e, i);
      var s1 := UpdateDrives(cfg, s, chm, ssd);
      PlacedKeepsUse(cfg, s1, r);
      SoundRuns.PlacedKeepsPre(cfg, s1, r);
      WriteKeepsUse(cfg, Placed(cfg, s1, r), r, dead, i);
    case Idle(now) =>
    case TimeChange =>
  }

  lemma WriteKeepsUse(cfg: Config, s: State, r: Record, dead: nat, i: nat)
    requires Ok(cfg, s) && i < 2 && StaysUsed(s, i)
    ensures StaysUsed(Reposition(cfg, WriteAll(cfg, AppendIndex(cfg, s, r), r), dead), i)
  {}

  /** A drive commanded on all along has every written record in its history. */
  lemma {:induction false} HistoryOfUsed(cfg: Config, chm: bool, ssd: bool, es: seq<Event>, i: nat)
    requires i < 2 && (if i == 0 then chm else ssd) && AlwaysCommanded(es, i)
    ensures var s0 := Init(cfg, chm, ssd);
      RecordedRun(cfg, s0, es, i) == Items(Written(es)) && StaysUsed(Run(cfg, s0, es), i)
  {
    if es != [] {
      var init, e := es[..|es| - 1], es[|es| - 1];
      assert forall x <- init :: x in es;
      HistoryOfUsed(cfg, chm, ssd, init, i);
      var s := Run(cfg, Init(cfg, chm, ssd), init);
      assert e in es;
      StepStaysUsed(cfg, s, e, i);
      if e.Write? {
        UpdateStaysUsed(cfg, s, e, i);
        assert Written(es) == Written(init) + [e.r];
        assert Written(es)[..|Written(es)| - 1] == Written(init);
      } else {
        assert Written(es) == Written(init);
      }
    }
  }

  /** A drive commanded on all along has the directory its chunks go to, at every moment. */
  lemma {:induction false} CommandedHasDirectory(cfg: Config, chm: bool, ssd: bool, es: seq<Event>, i: nat)
    requires i < 2 && (if i == 0 then chm else ssd) && AlwaysCommanded(es, i)
    ensures D.UsedAtMove(cfg, Init(cfg, chm, ssd), es, i)
    ensures var s := Run(cfg, Init(cfg, chm, ssd), es); s.subpath in s.drives[i].dirs
  {
    hide Step, D.Moves, D.UsedIn;
    if es != [] {
      assert forall x <- es[..|es| - 1] :: x in es;
      CommandedHasDirectory(cfg, chm, ssd, es[..|es| - 1], i);
      HistoryOfUsed(cfg, chm, ssd, es, i);
      D.StepDirs(cfg, Run(cfg, Init(cfg, chm, ssd), es[..|es| - 1]), es[|es| - 1], i);
    }
    D.UsedHasDirectory(cfg, chm, ssd, es, i);
  }

  lemma {:induction false} ItemsPrefix(a: seq<Record>, b: seq<Record>)
    ensures Items(a + b) == Items(a) + Items(b)
  {
    if b == [] { assert a + b == a; } else {
      assert (a + b)[..|a + b| - 1] == a + b[..|b| - 1];
      ItemsPrefix(a, b[..|b| - 1]);
    }
  }

  lemma {:induction false} ItemsAre(rs: seq<Record>)
    ensures |Items(rs)| == |rs|
    ensures forall k :: 0 <= k < |rs| ==> Items(rs)[k] == Item(rs[k].tod, rs[k].kind, rs[k].payload)
  {
    if rs != [] { ItemsAre(rs[..|rs| - 1]); }
  }

  // ---------- end to end

  /** Items answer a request among records when they are, in order, the time, type and payload of
      exactly those of the type asked for whose time is in the window: from `start` to `end`
      inclusive when both are given, everything when neither is, nothing when only one is. */
  ghost predicate AnswersRecords(rs: seq<Record>, q: Query, js: seq<nat>, items: seq<Item>) {
    && |js| == |items|
    && (forall k :: 0 <= k < |js| ==>
          js[k] < |rs| && items[k] == Item(rs[js[k]].tod, rs[js[k]].kind, rs[js[k]].payload))
    && (forall j, k :: 0 <= j < k < |js| ==> js[j] < js[k])
    && (forall j :: 0 <= j < |rs| ==>
          (j in js <==> rs[j].kind == q.kind && (q.start == q.end == 0 || 0 < q.start <= rs[j].tod <= q.end)))
  }

  lemma FilteredAnswers(rs: seq<Record>, q: Query) returns (js: seq<nat>)
    ensures AnswersRecords(rs, q, js, Filtered(Items(rs), q))
  {
    ItemsAre(rs);
    hide Items, Filtered;
    js := FilteredExact(Items(rs), q);
  }

  /** End-to-end round trip, for every interleaving of handlers and recorder. When the hand-over
      and the recorder's run are sound, reading a drive that was commanded on all along returns
      the matching ones among the accepted records handled so far; the accepted records are
      those followed by the ones still in flight, in the order they were enqueued. */
  lemma EndToEnd(cfg: Config, chm: bool, ssd: bool, ms: seq<Move>, i: nat, q: Query)
    requires cfg.Valid() && cfg.deltat != 0 && cfg.copies == 2
    requires i < 2 && (if i == 0 then chm else ssd) && AlwaysCommanded(Events(ms), i)
    requires H.SoundActions(H.Init(), Actions(ms))
    requires SoundRun(cfg, Init(cfg, chm, ssd), Events(ms), i)
    requires FinalizeSound(Run(cfg, Init(cfg, chm, ssd), Events(ms)), i)
    ensures var s := Sys(ms);
      var d := Finalize(cfg, Run(cfg, Init(cfg, chm, ssd), Events(ms))).drives[i];
      var waiting := H.Records(s.heap, H.InFlight(s));
      && s.handled + waiting == s.accepted
      && (exists js :: AnswersRecords(s.handled, q, js, ReadBack(cfg, d, d.published, q)))
      && ReadBack(cfg, d, d.published, q) + Filtered(Items(waiting), q) == Filtered(Items(s.accepted), q)
  {
    var s := Sys(ms);
    var waiting := H.Records(s.heap, H.InFlight(s));
    H.ActsOwned(Actions(ms));
    ReadBackIsHistory(cfg, chm, ssd, Events(ms), i, q);
    HistoryOfUsed(cfg, chm, ssd, Events(ms), i);
    WrittenIsHandled(ms);
    ItemsPrefix(s.handled, waiting);
    FilteredAppend(Items(s.handled), Items(waiting), q);
    var js := FilteredAnswers(s.handled, q);
  }

  /** The same through the collector, which finds each file again only by its name, listed in any
      order. The accepted records are those handled so far and those still waiting; what it writes
      out, without blank entries, is exactly those handled that are asked for, each as often as it
      was accepted, and in the order they were enqueued when the files are listed in the order they
      were published. */
  lemma CollectedEndToEnd(cfg: Config, chm: bool, ssd: bool, ms: seq<Move>, i: nat, q: Query, ps: seq<Published>,
                          mktime: Civil -> int, localtime: int -> Civil)
    requires cfg.Valid() && cfg.deltat != 0 && cfg.copies == 2
    requires i < 2 && (if i == 0 then chm else ssd) && AlwaysCommanded(Events(ms), i)
    requires H.SoundActions(H.Init(), Actions(ms))
    requires SoundRun(cfg, Init(cfg, chm, ssd), Events(ms), i)
    requires FinalizeSound(Run(cfg, Init(cfg, chm, ssd), Events(ms)), i)
    requires RecorderPaths.FiledRun(cfg, Init(cfg, chm, ssd), Events(ms)) && C.CalendarAgrees(cfg, mktime, localtime)
    requires multiset(ps) == multiset(Finalize(cfg, Run(cfg, Init(cfg, chm, ssd), Events(ms))).drives[i].published)
    ensures var s := Sys(ms);
      var d := Finalize(cfg, Run(cfg, Init(cfg, chm, ssd), Events(ms))).drives[i];
      var items := C.Collected(cfg.bodyStart, d, localtime, C.Listing(mktime, ps), |ps|, q);
      && s.handled + H.Records(s.heap, H.InFlight(s)) == s.accepted
      && (forall x: Item :: multiset(items)[x]
            == if x.kind == q.kind && (q.start == q.end == 0 || 0 < q.start <= x.timestamp <= q.end)
               then multiset(Items(s.handled))[x] else 0)
      && (ps == d.published ==> exists js :: AnswersRecords(s.handled, q, js, items))
      && C.Blanks(cfg.bodyStart, d, localtime, C.Listing(mktime, ps), |ps|, q) == 0
  {
    hide SoundRun, FinalizeSound, Run, Finalize, Filtered, Items, H.Records, C.Collected, C.Blanks, Events;
    hide AnswersRecords, Answers, Sys, ReadBack;
    var s := Sys(ms);
    EndToEnd(cfg, chm, ssd, ms, i, q);
    C.CollectedIsHistory(cfg, chm, ssd, Events(ms), i, q, ps, mktime, localtime);
    HistoryOfUsed(cfg, chm, ssd, Events(ms), i);
    WrittenIsHandled(ms);
    var js := FilteredAnswers(s.handled, q);
  }
}
