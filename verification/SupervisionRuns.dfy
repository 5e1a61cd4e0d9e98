/** Starts over whole runs: when a camera is given up, and when a waiting one is started again,
    told by the history of the run instead of by the counters. */
module SupervisionRuns {
  import opened Options
  import opened SupervisionState
  import opened SupervisionSafety

  // ---------- the start a step makes

  /** A call of `start_recording_process`: the state it is made in, the camera, what a fork answers. */
  datatype Call = Call(before: State, i: nat, spawn: int)

  function PauseCall(s: State, camera: Option<nat>, record: nat, spawn: int): Option<Call>
    requires Ok(s) && (camera.Some? ==> camera.value < |s.cams|)
  {
    if s.shutdown || camera.None? then None
    else
      var i := camera.value;
      var c := s.cams[i];
      if !c.isOnline || !c.isAssigned || VideoOn(c) || record == 0 || !(s.chmReady || s.ssdReady) then None
      else Some(Call(s.(cams := s.cams[i := c.(paused := false)]), i, spawn))
  }

  /** The start made in a step, if there is one; there is never more than one. */
  function StartCall(s: State, e: Event): Option<Call>
    requires Ok(s) && Possible(|s.cams|, e)
  {
    match e
    case Report(i, alive, died, spawn) =>
      var c := s.cams[i];
      if c.isAssigned && alive && !c.isOnline && c.mode != NO_FLAGS && c.pid > 0 && died
      then Some(Call(s.(ttl := s.ttl[i := CAMON_TTL]), i, spawn)) else None
    case Supervise(i, _, spawn) =>
      if Waiting(s, i) && s.rpTtl[i] > 2 * CAMON_TTL then Some(Call(s.(rpTtl := s.rpTtl[i := 0]), i, spawn)) else None
    case RecordPause(camera, record, spawn) => PauseCall(s, camera, record, spawn)
    case ResetStream(camera, spawn) =>
      var (s1, ok) := Pause(s, camera, 0, spawn);
      if ok then PauseCall(s1, camera, 1, spawn) else None
    case _ => None
  }

  /** Nothing a start decides by has changed: retry counters, names, assignments. */
  ghost predicate SameCounters(s: State, s': State) {
    && s'.retry == s.retry && |s'.cams| == |s.cams|
    && forall k :: 0 <= k < |s.cams| ==>
      s'.cams[k].name == s.cams[k].name && s'.cams[k].isAssigned == s.cams[k].isAssigned
  }

  /** As far as counters go, a step is the start it makes, or nothing. */
  ghost predicate Makes(s: State, call: Option<Call>, s': State) {
    match call
    case None => SameCounters(s, s')
    case Some(c) =>
      && Ok(c.before) && c.i < |c.before.cams| && SameCounters(s, c.before)
      && SameCounters(StartRecording(c.before, c.i, c.spawn).0, s')
  }

  lemma StoppedSame(s: State, i: nat)
    requires Ok(s) && i < |s.cams|
    ensures SameCounters(s, JustStopped(s, i))
  {}

  lemma PauseMakes(s: State, camera: Option<nat>, record: nat, spawn: int)
    requires Ok(s) && (camera.Some? ==> camera.value < |s.cams|)
    ensures Makes(s, PauseCall(s, camera, record, spawn), Pause(s, camera, record, spawn).0)
  {
    hide StartRecording;
    if camera.Some? {
      var i := camera.value;
      var c := s.cams[i];
      StoppedSame(s.(cams := s.cams[i := c.(mode := NO_FLAGS, paused := true)]), i);
    }
  }

  lemma OnlineSame(s: State, i: nat, alive: bool)
    requires Ok(s) && i < |s.cams|
    ensures SameCounters(s, s.(cams := s.cams[i := s.cams[i].(isOnline := alive)], ttl := s.ttl[i := CAMON_TTL]))
  {}

  lemma GoingSame(s: State, i: nat, died: bool)
    requires Ok(s) && i < |s.cams|
    ensures SameCounters(s, GoingOffline(s, i, died))
  {
    StoppedSame(s, i);
    hide JustStopped;
  }

  lemma ComingMakes(s: State, i: nat, died: bool, spawn: int)
    requires Ok(s) && i < |s.cams| && s.ttl[i] == CAMON_TTL
    ensures var c := s.cams[i];
      var starts := c.isAssigned && c.mode != NO_FLAGS && c.pid > 0 && died;
      if starts then ComingOnline(s, i, died, spawn) == StartRecording(s, i, spawn).0
      else SameCounters(s, ComingOnline(s, i, died, spawn))
  {
    hide StartRecording;
  }

  lemma SameTransitive(a: State, b: State, c: State)
    requires SameCounters(a, b) && SameCounters(b, c)
    ensures SameCounters(a, c)
  {}

  lemma ReflectMakes(s: State, i: nat, alive: bool, died: bool, spawn: int)
    requires Ok(s) && i < |s.cams| && s.cams[i].isAssigned && PidOk(spawn)
    ensures Makes(s, StartCall(s, Report(i, alive, died, spawn)), ReflectOnline(s, i, alive, died, spawn))
  {
    hide StartRecording, GoingOffline, ComingOnline;
    var s1 := if alive then s.(ttl := s.ttl[i := CAMON_TTL]) else s;
    if s1.cams[i].isOnline != alive && (alive || s1.ttl[i] <= 1) {
      GoingSame(s1, i, died);
      if alive { ComingMakes(s1, i, died, spawn); }
      var s2 := if alive then ComingOnline(s1, i, died, spawn) else GoingOffline(s1, i, died);
      OnlineSame(s2, i, alive);
      assert ReflectOnline(s, i, alive, died, spawn)
        == s2.(cams := s2.cams[i := s2.cams[i].(isOnline := alive)], ttl := s2.ttl[i := CAMON_TTL]);
      if StartCall(s, Report(i, alive, died, spawn)).None? {
        SameTransitive(s, s2, ReflectOnline(s, i, alive, died, spawn));
      }
    }
  }

  lemma WatchMakes(s: State, i: nat, died: bool, spawn: int)
    requires Ok(s) && i < |s.cams| && PidOk(spawn)
    ensures Makes(s, StartCall(s, Supervise(i, died, spawn)), Watch(s, i, died, spawn))
  {
    hide StartRecording;
    var s1 := s.(rpTtl := s.rpTtl[i := 0]);
    StoppedSame(s1.(cams := s1.cams[i := s1.cams[i].(isOnline := false)]), i);
  }

  lemma ResetMakes(s: State, camera: Option<nat>, spawn: int)
    requires Ok(s) && (camera.Some? ==> camera.value < |s.cams|) && PidOk(spawn)
    ensures Makes(s, StartCall(s, ResetStream(camera, spawn)), Reset(s, camera, spawn))
  {
    hide StartRecording, JustStopped;
    PauseMakes(s, camera, 0, spawn);
    PauseMakes(Pause(s, camera, 0, spawn).0, camera, 1, spawn);
    hide Pause;
  }

  lemma StepMakes(s: State, e: Event)
    requires Ok(s) && Possible(|s.cams|, e)
    ensures Makes(s, StartCall(s, e), Step(s, e))
  {
    match e
    case Report(i, alive, died, spawn) =>
      if s.cams[i].isAssigned { ReflectMakes(s, i, alive, died, spawn); }
    case Supervise(i, died, spawn) => WatchMakes(s, i, died, spawn);
    case Ready(chm, ssd) =>
    case Shutdown(d) =>
    case RecordPause(camera, record, spawn) => PauseMakes(s, camera, record, spawn);
    case ResetStream(camera, spawn) => ResetMakes(s, camera, spawn);
    case Settings(i, noAudio, noChm) =>
  }

  // ---------- failed spawns in a row

  /** Whether a start is turned down because CHM is asked for and not ready. */
  predicate Refused(c: Call)
    requires c.i < |c.before.cams|
  {
    (c.before.cams[c.i].essential || c.before.cams[c.i].mode.chmVideo) && !c.before.chmReady
  }

  /** Whether a start gets to spawn a worker. */
  predicate Spawns(c: Call)
    requires c.i < |c.before.cams|
  {
    !Refused(c) && c.before.cams[c.i].isAssigned && c.before.cams[c.i].pid in {0, -1}
  }

  predicate CallOk(c: Call) { Ok(c.before) && c.i < |c.before.cams| }

  /** Failed spawns after a start, given how many there were: a refusal and a success clear them,
      the third failure is final. */
  function Counts(c: Call, n: nat): nat
    requires c.i < |c.before.cams|
  {
    if n >= 3 then n
    else if Refused(c) then 0
    else if Spawns(c) then if c.spawn != -1 then 0 else n + 1
    else n
  }

  /** Failed spawns in a row of the cameras that share a counter, since the last success or
      refusal of one of them. */
  function Failures(s: State, es: seq<Event>, cid: nat): nat
    requires Ok(s) && AllPossible(|s.cams|, es)
  {
    if es == [] then 0
    else
      var before, n := Run(s, es[..|es| - 1]), Failures(s, es[..|es| - 1], cid);
      match StartCall(before, es[|es| - 1])
      case Some(c) => if CallOk(c) && Counter(c.before, c.i) == cid then Counts(c, n) else n
      case None => n
  }

  lemma StartCameraCounts(c: Call, n: nat)
    requires CallOk(c) && n <= 3
    ensures var cam := c.before.cams[c.i];
      var t := StartCamera(cam, n, c.before.chmReady, c.before.ssdReady, c.spawn);
      t.retries == Counts(c, n) && (t.cam.isAssigned <==> cam.isAssigned && n < 3)
  {
    hide DefaultMode, StatusOf, Counter, Ok, StartWithMode;
    if n < 3 { ModeCounts(c, n); }
  }

  lemma ModeCounts(c: Call, n: nat)
    requires c.i < |c.before.cams| && n < 3
    ensures var cam := c.before.cams[c.i];
      var t := StartWithMode(cam.(mode := DefaultMode(cam)), n, c.before.chmReady, c.before.ssdReady, c.spawn);
      t.retries == Counts(c, n) && t.cam.isAssigned == cam.isAssigned
  {
    hide StatusOf;
  }

  lemma StartCounts(c: Call, n: nat)
    requires CallOk(c) && c.before.retry[Counter(c.before, c.i)] == n <= 3
    ensures var cid, s' := Counter(c.before, c.i), StartRecording(c.before, c.i, c.spawn).0;
      s'.retry == c.before.retry[cid := Counts(c, n)]
  {
    StartCameraCounts(c, n);
    hide StartCamera, Counts;
  }

  lemma {:induction false} RetryCountsFailures(s: State, es: seq<Event>, cid: nat)
    requires Initial(s) && AllPossible(|s.cams|, es) && cid < MAX_CAMS
    ensures Failures(s, es, cid) <= 3 && Run(s, es).retry[cid] == Failures(s, es, cid)
  {
    if es != [] {
      var before, e := Run(s, es[..|es| - 1]), es[|es| - 1];
      RetryCountsFailures(s, es[..|es| - 1], cid);
      StepMakes(before, e);
      hide Step, StartCall, Counts, Counter, StartRecording;
      match StartCall(before, e)
      case None =>
      case Some(c) => CounterStep(before, c, Step(before, e), cid, Failures(s, es[..|es| - 1], cid));
    }
  }

  lemma CounterStep(s: State, c: Call, s': State, cid: nat, n: nat)
    requires Ok(s) && Ok(s') && Makes(s, Some(c), s') && cid < MAX_CAMS && n <= 3
    requires s.retry[cid] == n
    ensures s'.retry[cid] == if Counter(c.before, c.i) == cid then Counts(c, n) else n
    ensures (if Counter(c.before, c.i) == cid then Counts(c, n) else n) <= 3
  {
    hide StartCamera, FirstFrom;
    if Counter(c.before, c.i) == cid { StartCounts(c, n); }
  }

  /** Giving up, over all runs: a camera loses its assignment exactly when it is started once more
      after three failed spawns in a row of the cameras of its name, with no success and no
      refusal for CHM in between; and nothing assigns it again. */
  lemma GivenUpExactly(s: State, es: seq<Event>, e: Event, k: nat)
    requires Initial(s) && AllPossible(|s.cams|, es) && Possible(|s.cams|, e) && k < |s.cams|
    ensures var before, after := Run(s, es), Step(Run(s, es), e);
      && (before.cams[k].isAssigned ==>
          (!after.cams[k].isAssigned <==>
            StartCall(before, e).Some? && StartCall(before, e).value.i == k
              && Failures(s, es, Counter(before, k)) == 3))
      && (!before.cams[k].isAssigned ==> !after.cams[k].isAssigned)
  {
    var before := Run(s, es);
    StepMakes(before, e);
    RetryCountsFailures(s, es, Counter(before, k));
    hide Step, StartCall, Counts, FirstFrom;
    match StartCall(before, e)
    case None =>
    case Some(c) => AssignedAfter(before, c, Step(before, e), k);
  }

  lemma AssignedAfter(s: State, c: Call, s': State, k: nat)
    requires Ok(s) && Makes(s, Some(c), s') && k < |s.cams|
    ensures |s'.cams| == |s.cams|
    ensures s'.cams[k].isAssigned <==> s.cams[k].isAssigned && !(c.i == k && s.retry[Counter(s, k)] > 2)
  {
    SameCounter(s, c.before, c.i);
    hide StartWithMode, FirstFrom;
    StartAssigns(c.before.cams[c.i], c.before.retry[Counter(c.before, c.i)], c.before.chmReady, c.before.ssdReady,
      c.spawn);
  }

  lemma StartAssigns(c: Camera, retries: int, chm: bool, ssd: bool, spawn: int)
    ensures StartCamera(c, retries, chm, ssd, spawn).cam.isAssigned == (c.isAssigned && retries <= 2)
  {}

  // ---------- waiting turns

  /** Turns of the watching loop a camera has waited since that loop last saw it with a worker or
      started it. */
  function Waited(s: State, es: seq<Event>, i: nat): nat
    requires Ok(s) && AllPossible(|s.cams|, es) && i < |s.cams|
  {
    if es == [] then 0
    else
      var before, e, n := Run(s, es[..|es| - 1]), es[|es| - 1], Waited(s, es[..|es| - 1], i);
      if !e.Supervise? || e.i != i || before.cams[i].mode == NO_FLAGS then n
      else if before.cams[i].pid != 0 then 0
      else if StartCall(before, e).Some? then 0
      else if Waiting(before, i) then n + 1
      else n
  }

  lemma StartKeepsTurns(s: State, i: nat, spawn: int)
    requires Ok(s) && i < |s.cams|
    ensures StartRecording(s, i, spawn).0.rpTtl == s.rpTtl
  {}

  lemma StepTurns(s: State, e: Event, k: nat)
    requires Ok(s) && Possible(|s.cams|, e) && k < |s.cams|
    ensures Step(s, e).rpTtl[k] ==
      if !e.Supervise? || e.i != k || s.cams[k].mode == NO_FLAGS then s.rpTtl[k]
      else if s.cams[k].pid != 0 then 0
      else if StartCall(s, e).Some? then 0
      else if Waiting(s, k) then s.rpTtl[k] + 1
      else s.rpTtl[k]
  {
    match e
    case Report(i, alive, died, spawn) => ReflectTurns(s, i, alive, died, spawn);
    case Supervise(i, died, spawn) =>
      hide StartRecording;
      StartKeepsTurns(s.(rpTtl := s.rpTtl[i := 0]), i, spawn);
    case Ready(chm, ssd) =>
    case Shutdown(d) =>
    case RecordPause(camera, record, spawn) => PauseTurns(s, camera, record, spawn);
    case ResetStream(camera, spawn) =>
      PauseTurns(s, camera, 0, spawn);
      PauseTurns(Pause(s, camera, 0, spawn).0, camera, 1, spawn);
      hide Pause;
    case Settings(i, noAudio, noChm) =>
  }

  lemma ReflectTurns(s: State, i: nat, alive: bool, died: bool, spawn: int)
    requires Ok(s) && i < |s.cams|
    ensures ReflectOnline(s, i, alive, died, spawn).rpTtl == s.rpTtl
  {
    hide StartRecording;
    var s1 := if alive then s.(ttl := s.ttl[i := CAMON_TTL]) else s;
    StartKeepsTurns(s1, i, spawn);
    StartKeepsTurns(s1.(ttl := s1.ttl[i := s1.ttl[i] - 1]), i, spawn);
  }

  lemma PauseTurns(s: State, camera: Option<nat>, record: nat, spawn: int)
    requires Ok(s) && (camera.Some? ==> camera.value < |s.cams|)
    ensures Pause(s, camera, record, spawn).0.rpTtl == s.rpTtl
  {
    hide StartRecording;
    if camera.Some? {
      var i := camera.value;
      StartKeepsTurns(s.(cams := s.cams[i := s.cams[i].(paused := false)]), i, spawn);
    }
  }

  lemma {:induction false} TurnsAreWaited(s: State, es: seq<Event>, i: nat)
    requires Initial(s) && AllPossible(|s.cams|, es) && i < |s.cams|
    ensures Waited(s, es, i) <= 13 && Run(s, es).rpTtl[i] == Waited(s, es, i)
  {
    if es != [] {
      TurnsAreWaited(s, es[..|es| - 1], i);
      StepTurns(Run(s, es[..|es| - 1]), es[|es| - 1], i);
      hide Step;
    }
  }

  /** Restart delay, over all runs: the loop that watches the workers starts a camera exactly when
      the camera is waiting and has waited thirteen turns already. */
  lemma RestartedExactly(s: State, es: seq<Event>, i: nat, died: bool, spawn: int)
    requires Initial(s) && AllPossible(|s.cams|, es) && i < |s.cams| && PidOk(spawn)
    ensures var before := Run(s, es);
      && (StartCall(before, Supervise(i, died, spawn)).Some? <==> Waiting(before, i) && Waited(s, es, i) == 13)
      && (StartCall(before, Supervise(i, died, spawn)).Some? ==>
          Step(before, Supervise(i, died, spawn))
            == StartRecording(before.(rpTtl := before.rpTtl[i := 0]), i, spawn).0)
  {
    TurnsAreWaited(s, es, i);
    hide StartRecording;
  }
}
