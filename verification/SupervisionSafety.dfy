/** What camera supervision keeps over every run, and exactly when a camera goes offline, is
    restarted, or is given up. */
module SupervisionSafety {
  import opened Options
  import opened SupervisionState

  // ---------- counting workers

  function Workers(cams: seq<Camera>, n: nat): nat
    requires n <= |cams|
  {
    if n == 0 then 0 else Workers(cams, n - 1) + if cams[n - 1].pid != 0 then 1 else 0
  }

  function One(b: bool): int { if b then 1 else 0 }

  lemma {:induction false} WorkersUpdate(cams: seq<Camera>, n: nat, i: nat, c: Camera)
    requires n <= |cams| && i < |cams|
    ensures Workers(cams[i := c], n)
      == Workers(cams, n) + if i < n then One(c.pid != 0) - One(cams[i].pid != 0) else 0
    ensures i < n && cams[i].pid != 0 ==> Workers(cams, n) > 0
  {
    if n > 0 { WorkersUpdate(cams, n - 1, i, c); }
  }

  lemma {:induction false} WorkersFrame(a: seq<Camera>, b: seq<Camera>, n: nat)
    requires n <= |a| == |b| && forall j :: 0 <= j < n ==> a[j].pid == b[j].pid
    ensures Workers(a, n) == Workers(b, n)
  {
    if n > 0 { WorkersFrame(a, b, n - 1); }
  }

  // ---------- the invariant

  /** No recording bits without a worker; audio on a drive only beside video on it. */
  ghost predicate CameraOk(c: Camera) {
    && c.pid >= 0
    && (c.pid == 0 ==> !Recording(c.status))
    && (c.status.chmAudio ==> c.status.chmVideo)
    && (c.status.ssdAudio ==> c.status.ssdVideo)
  }

  ghost predicate Counted(s: State)
    requires Ok(s)
  {
    s.nRecording == Workers(s.cams, |s.cams|) && forall j :: 0 <= j < |s.cams| ==> CameraOk(s.cams[j])
  }

  /** A retry counter stops at three, a restart counter at thirteen. */
  ghost predicate Bounded(s: State)
    requires Ok(s)
  {
    && (forall j :: 0 <= j < MAX_CAMS ==> 0 <= s.retry[j] <= 3)
    && (forall j :: 0 <= j < MAX_CAMS ==> 0 <= s.rpTtl[j] <= 2 * CAMON_TTL + 1)
  }

  ghost predicate Inv(s: State) { Ok(s) && Counted(s) && Bounded(s) }

  lemma SetCamera(s: State, i: nat, c: Camera, s': State)
    requires Inv(s) && Ok(s') && i < |s.cams| && CameraOk(c)
    requires s'.cams == s.cams[i := c]
    requires s'.nRecording == s.nRecording + One(c.pid != 0) - One(s.cams[i].pid != 0)
    requires Bounded(s')
    ensures Inv(s')
  {
    WorkersUpdate(s.cams, |s.cams|, i, c);
  }

  /** The guard on the decrement never hides an underflow: a camera that stops was counted. */
  lemma StoppedInv(s: State, i: nat)
    requires Inv(s) && i < |s.cams| && s.cams[i].pid != 0
    ensures s.nRecording > 0 && JustStopped(s, i).nRecording == s.nRecording - 1
    ensures Inv(JustStopped(s, i))
  {
    var c := s.cams[i].(pid := 0, status := Stopped(s.cams[i].status));
    WorkersUpdate(s.cams, |s.cams|, i, c);
    SetCamera(s, i, c, JustStopped(s, i));
  }

  lemma StartInv(s: State, i: nat, spawn: int)
    requires Inv(s) && i < |s.cams| && PidOk(spawn)
    ensures Inv(StartRecording(s, i, spawn).0)
  {
    var s' := StartRecording(s, i, spawn).0;
    StartCameraOk(s.cams[i], s.retry[Counter(s, i)], s.chmReady, s.ssdReady, spawn);
    hide StartCamera, CameraOk;
    SetCamera(s, i, s'.cams[i], s');
  }

  lemma StartWithModeOk(c: Camera, retries: int, chm: bool, ssd: bool, spawn: int)
    requires CameraOk(c) && PidOk(spawn) && 0 <= retries <= 2
    ensures var t := StartWithMode(c, retries, chm, ssd, spawn);
      && CameraOk(t.cam) && 0 <= t.retries <= 3
      && (if t.spawned then 1 else 0) == One(t.cam.pid != 0) - One(c.pid != 0)
  {}

  lemma StartCameraOk(c: Camera, retries: int, chm: bool, ssd: bool, spawn: int)
    requires CameraOk(c) && PidOk(spawn) && 0 <= retries <= 3
    ensures var t := StartCamera(c, retries, chm, ssd, spawn);
      && CameraOk(t.cam) && 0 <= t.retries <= 3
      && (if t.spawned then 1 else 0) == One(t.cam.pid != 0) - One(c.pid != 0)
  {
    hide DefaultMode, StartWithMode;
    if retries <= 2 { StartWithModeOk(c.(mode := DefaultMode(c)), retries, chm, ssd, spawn); }
  }

  lemma LivesInv(s: State, ttl: seq<int>)
    requires Inv(s) && |ttl| == MAX_CAMS
    ensures Inv(s.(ttl := ttl))
  {}

  lemma ComingOnlineInv(s: State, i: nat, died: bool, spawn: int)
    requires Inv(s) && i < |s.cams| && PidOk(spawn)
    ensures Inv(ComingOnline(s, i, died, spawn))
  {
    var s1 := s.(ttl := s.ttl[i := s.ttl[i] - 1]);
    LivesInv(s, s1.ttl);
    LivesInv(s, s.ttl[i := 10 * CAMON_TTL]);
    StartInv(s, i, spawn);
    StartInv(s1, i, spawn);
    hide StartRecording, Counted, Bounded;
  }

  lemma GoingOfflineInv(s: State, i: nat, died: bool)
    requires Inv(s) && i < |s.cams|
    ensures Inv(GoingOffline(s, i, died))
  {
    if s.cams[i].pid > 0 { StoppedInv(s, i); }
  }

  lemma ReflectInv(s: State, i: nat, alive: bool, died: bool, spawn: int)
    requires Inv(s) && i < |s.cams| && PidOk(spawn)
    ensures Inv(ReflectOnline(s, i, alive, died, spawn))
  {
    var s1 := if alive then s.(ttl := s.ttl[i := CAMON_TTL]) else s;
    LivesInv(s, s1.ttl);
    LivesInv(s, s1.ttl[i := s1.ttl[i] - 1]);
    ComingOnlineInv(s1, i, died, spawn);
    GoingOfflineInv(s1, i, died);
    hide ComingOnline, GoingOffline, Counted, Bounded;
    if s1.cams[i].isOnline != alive && (alive || s1.ttl[i] <= 1) {
      var s2 := if alive then ComingOnline(s1, i, died, spawn) else GoingOffline(s1, i, died);
      SetOnline(s2, i, alive);
      assert ReflectOnline(s, i, alive, died, spawn)
        == s2.(cams := s2.cams[i := s2.cams[i].(isOnline := alive)], ttl := s2.ttl[i := CAMON_TTL]);
    }
  }

  lemma SetOnline(s: State, i: nat, alive: bool)
    requires Inv(s) && i < |s.cams|
    ensures Inv(s.(cams := s.cams[i := s.cams[i].(isOnline := alive)], ttl := s.ttl[i := CAMON_TTL]))
  {
    var c := s.cams[i].(isOnline := alive);
    SetCamera(s, i, c, s.(cams := s.cams[i := c], ttl := s.ttl[i := CAMON_TTL]));
  }

  lemma WatchInv(s: State, i: nat, died: bool, spawn: int)
    requires Inv(s) && i < |s.cams| && PidOk(spawn)
    ensures Inv(Watch(s, i, died, spawn))
  {
    var s1 := s.(rpTtl := s.rpTtl[i := 0]);
    assert Inv(s1);
    var c := s.cams[i].(isOnline := false);
    SetCamera(s1, i, c, s1.(cams := s1.cams[i := c]));
    if c.pid != 0 { StoppedInv(s1.(cams := s1.cams[i := c]), i); }
    StartInv(s1, i, spawn);
  }

  lemma AllCamerasInv(s: State, s': State)
    requires Inv(s) && Ok(s') && |s'.cams| == |s.cams| && s'.nRecording == s.nRecording
    requires s'.retry == s.retry && s'.rpTtl == s.rpTtl
    requires forall j :: 0 <= j < |s.cams| ==> s'.cams[j].pid == s.cams[j].pid && CameraOk(s'.cams[j])
    ensures Inv(s')
  {
    WorkersFrame(s.cams, s'.cams, |s.cams|);
  }

  lemma PauseInv(s: State, camera: Option<nat>, record: nat, spawn: int)
    requires Inv(s) && (camera.Some? ==> camera.value < |s.cams|) && PidOk(spawn)
    ensures Inv(Pause(s, camera, record, spawn).0)
  {
    if camera.Some? {
      var i := camera.value;
      var c := s.cams[i];
      var pausing := s.(cams := s.cams[i := c.(mode := NO_FLAGS, paused := true)]);
      SetCamera(s, i, pausing.cams[i], pausing);
      if c.pid != 0 { StoppedInv(pausing, i); }
      var recording := s.(cams := s.cams[i := c.(paused := false)]);
      SetCamera(s, i, recording.cams[i], recording);
      StartInv(recording, i, spawn);
    }
  }

  lemma StepInv(s: State, e: Event)
    requires Inv(s) && Possible(|s.cams|, e)
    ensures Inv(Step(s, e))
  {
    match e
    case Report(i, alive, died, spawn) => ReflectInv(s, i, alive, died, spawn);
    case Supervise(i, died, spawn) => WatchInv(s, i, died, spawn);
    case Ready(chm, ssd) => AllCamerasInv(s, Step(s, e));
    case Shutdown(d) => AllCamerasInv(s, Step(s, e));
    case RecordPause(camera, record, spawn) => PauseInv(s, camera, record, spawn);
    case ResetStream(camera, spawn) =>
      PauseInv(s, camera, 0, spawn);
      PauseInv(Pause(s, camera, 0, spawn).0, camera, 1, spawn);
    case Settings(i, noAudio, noChm) => SetCamera(s, i, Step(s, e).cams[i], Step(s, e));
  }

  lemma {:induction false} RunKeepsInv(s: State, es: seq<Event>)
    requires Inv(s) && AllPossible(|s.cams|, es)
    ensures Inv(Run(s, es))
  {
    if es != [] {
      RunKeepsInv(s, es[..|es| - 1]);
      StepInv(Run(s, es[..|es| - 1]), es[|es| - 1]);
      hide Step;
    }
  }

  /** Supervision invariant, over all runs: the recording counter is the number of cameras with
      a worker, a camera without one has no recording bits, audio on a drive implies video on it,
      and the retry and restart counters stay in bounds. */
  lemma RunInv(s: State, es: seq<Event>)
    requires Initial(s) && AllPossible(|s.cams|, es)
    ensures Inv(Run(s, es))
  {
    forall j | 0 <= j < |s.cams| ensures CameraOk(s.cams[j]) && s.cams[j].pid == 0 { assert s.cams[j] in s.cams; }
    NoWorkers(s.cams, |s.cams|);
    RunKeepsInv(s, es);
  }

  lemma {:induction false} NoWorkers(cams: seq<Camera>, n: nat)
    requires n <= |cams| && forall j :: 0 <= j < n ==> cams[j].pid == 0
    ensures Workers(cams, n) == 0
  {
    if n > 0 { NoWorkers(cams, n - 1); }
  }

  // ---------- going offline

  /** Misses of a camera in a row: reports without a sign of life since the last one with. */
  function Misses(s: State, es: seq<Event>, i: nat): nat
    requires Ok(s) && AllPossible(|s.cams|, es) && i < |s.cams|
  {
    if es == [] then 0
    else
      var e, before := es[|es| - 1], Run(s, es[..|es| - 1]);
      if e.Report? && e.i == i && before.cams[i].isAssigned then
        if e.alive then 0 else Misses(s, es[..|es| - 1], i) + 1
      else Misses(s, es[..|es| - 1], i)
  }

  /** Only a report on an assigned camera moves its lives, and only two events its online flag. */
  predicate Reported(s: State, e: Event, i: nat)
    requires i < |s.cams|
  {
    e.Report? && e.i == i && s.cams[i].isAssigned
  }

  predicate WorkerLost(s: State, e: Event, i: nat)
    requires i < |s.cams|
  {
    e.Supervise? && e.i == i && e.died && s.cams[i].pid != 0 && s.cams[i].mode != NO_FLAGS
  }

  lemma StartKeepsOnline(s: State, i: nat, spawn: int, k: nat)
    requires Ok(s) && i < |s.cams| && k < |s.cams|
    ensures var s' := StartRecording(s, i, spawn).0; s'.cams[k].isOnline == s.cams[k].isOnline && s'.ttl == s.ttl
  {
    hide StartCamera;
  }

  lemma PauseKeepsOnline(s: State, camera: Option<nat>, record: nat, spawn: int, k: nat)
    requires Ok(s) && (camera.Some? ==> camera.value < |s.cams|) && k < |s.cams|
    ensures var s' := Pause(s, camera, record, spawn).0; s'.cams[k].isOnline == s.cams[k].isOnline && s'.ttl == s.ttl
  {
    if camera.Some? {
      var i := camera.value;
      StartKeepsOnline(s.(cams := s.cams[i := s.cams[i].(paused := false)]), i, spawn, k);
    }
  }

  lemma WatchAfter(s: State, i: nat, died: bool, spawn: int, k: nat)
    requires Ok(s) && i < |s.cams| && k < |s.cams|
    ensures var s' := Watch(s, i, died, spawn);
      && |s'.cams| == |s.cams| && s'.ttl[k] == s.ttl[k]
      && s'.cams[k].isOnline == (s.cams[k].isOnline && !WorkerLost(s, Supervise(i, died, spawn), k))
  {
    hide StartRecording;
    StartKeepsOnline(s.(rpTtl := s.rpTtl[i := 0]), i, spawn, k);
  }

  /** Lives and the online flag of camera k after any event. */
  lemma OnlineAfter(s: State, e: Event, k: nat)
    requires Ok(s) && Possible(|s.cams|, e) && k < |s.cams|
    ensures var s' := Step(s, e);
      if Reported(s, e, k) then
        if e.alive then s'.cams[k].isOnline && s'.ttl[k] == CAMON_TTL
        else if s.cams[k].isOnline && s.ttl[k] > 1 then s'.cams[k].isOnline && s'.ttl[k] == s.ttl[k] - 1
        else !s'.cams[k].isOnline && s'.ttl[k] == if s.cams[k].isOnline then CAMON_TTL else s.ttl[k]
      else s'.ttl[k] == s.ttl[k] && s'.cams[k].isOnline == (s.cams[k].isOnline && !WorkerLost(s, e, k))
  {
    hide ReflectOnline, Watch, Pause;
    match e
    case Report(i, alive, died, spawn) => ReflectAfter(s, i, alive, died, spawn, k);
    case Supervise(i, died, spawn) => WatchAfter(s, i, died, spawn, k);
    case Ready(chm, ssd) =>
    case Shutdown(d) =>
    case RecordPause(camera, record, spawn) => PauseKeepsOnline(s, camera, record, spawn, k);
    case ResetStream(camera, spawn) =>
      PauseKeepsOnline(s, camera, 0, spawn, k);
      PauseKeepsOnline(Pause(s, camera, 0, spawn).0, camera, 1, spawn, k);
    case Settings(i, noAudio, noChm) =>
  }

  lemma ComingOnlineAfter(s: State, i: nat, died: bool, spawn: int, k: nat)
    requires Ok(s) && i < |s.cams| && k < |s.cams|
    ensures var s' := ComingOnline(s, i, died, spawn);
      |s'.cams| == |s.cams| && s'.cams[k].isOnline == s.cams[k].isOnline && (k != i ==> s'.ttl[k] == s.ttl[k])
  {
    StartKeepsOnline(s, i, spawn, k);
    StartKeepsOnline(s.(ttl := s.ttl[i := s.ttl[i] - 1]), i, spawn, k);
    hide StartRecording;
  }

  lemma ReflectAfter(s: State, i: nat, alive: bool, died: bool, spawn: int, k: nat)
    requires Ok(s) && i < |s.cams| && k < |s.cams|
    ensures var s' := ReflectOnline(s, i, alive, died, spawn);
      if k != i then s'.ttl[k] == s.ttl[k] && s'.cams[k].isOnline == s.cams[k].isOnline
      else if alive then s'.cams[k].isOnline && s'.ttl[k] == CAMON_TTL
      else if s.cams[k].isOnline && s.ttl[k] > 1 then s'.cams[k].isOnline && s'.ttl[k] == s.ttl[k] - 1
      else !s'.cams[k].isOnline && s'.ttl[k] == if s.cams[k].isOnline then CAMON_TTL else s.ttl[k]
  {
    if alive { ComingOnlineAfter(s.(ttl := s.ttl[i := CAMON_TTL]), i, died, spawn, k); }
    hide ComingOnline;
  }

  lemma {:induction false} LivesCountMisses(s: State, es: seq<Event>, i: nat)
    requires Initial(s) && AllPossible(|s.cams|, es) && i < |s.cams|
    ensures var s' := Run(s, es);
      && 1 <= s'.ttl[i] <= CAMON_TTL
      && (s'.cams[i].isOnline ==> s'.ttl[i] == CAMON_TTL - Misses(s, es, i))
  {
    if es != [] {
      LivesCountMisses(s, es[..|es| - 1], i);
      OnlineAfter(Run(s, es[..|es| - 1]), es[|es| - 1], i);
    }
  }

  /** Debounce, over all runs: lives stay between 1 and 6, and an online camera goes offline
      exactly on the sixth miss in a row, or when the loop that watches workers finds its worker
      dead; it comes back online exactly on a sign of life. */
  lemma OfflineOnSixthMiss(s: State, es: seq<Event>, e: Event, i: nat)
    requires Initial(s) && AllPossible(|s.cams|, es) && Possible(|s.cams|, e) && i < |s.cams|
    ensures var before, after := Run(s, es), Step(Run(s, es), e);
      && 1 <= after.ttl[i] <= CAMON_TTL
      && (before.cams[i].isOnline ==>
          (!after.cams[i].isOnline <==>
            (Reported(before, e, i) && !e.alive && Misses(s, es, i) == 5) || WorkerLost(before, e, i)))
      && (!before.cams[i].isOnline ==> (after.cams[i].isOnline <==> Reported(before, e, i) && e.alive))
  {
    LivesCountMisses(s, es, i);
    OnlineAfter(Run(s, es), e, i);
  }

  // ---------- giving up, restarting

  lemma SameCounter(s: State, s': State, i: nat)
    requires Ok(s) && Ok(s') && |s'.cams| == |s.cams| && i < |s.cams|
    requires forall j :: 0 <= j < |s.cams| ==> s'.cams[j].name == s.cams[j].name
    ensures Counter(s', i) == Counter(s, i)
  {}

  /** A camera that should record, is there, and has no worker. */
  predicate Waiting(s: State, i: nat)
    requires i < |s.cams|
  {
    var c := s.cams[i];
    c.mode != NO_FLAGS && c.pid == 0 && c.isOnline && c.isAssigned
  }

  // ---------- ready and shutdown messages

  /** For one camera, a shutdown that leaves fewer drives undoes the readiness of the others if
      and only if the camera follows ready messages or its mode does not ask for them. */
  lemma ShutdownUndoesReadyCamera(c: Camera, chm: bool, ssd: bool, chm': bool, ssd': bool)
    requires CameraOk(c) && (chm' ==> chm) && (ssd' ==> ssd)
    ensures ShutdownCamera(ReadyCamera(c, chm, ssd), chm', ssd') == ReadyCamera(c, chm', ssd')
      <==> (c.isOnline && !c.paused) || WithoutDrives(c.mode, chm', ssd') == c.mode
  {
    if !c.isOnline || c.paused {
      assert ShutdownCamera(ReadyCamera(c, chm, ssd), chm', ssd').mode == WithoutDrives(c.mode, chm', ssd');
    }
  }

  /** A shutdown right after a ready message leaves what a ready message for the drives that remain
      would have left, when every camera is online and not paused. */
  lemma ShutdownUndoesReady(s: State, chm: bool, ssd: bool, d: Drives)
    requires Inv(s) && !d.Invalid? && !d.All?
    requires forall j :: 0 <= j < |s.cams| ==> s.cams[j].isOnline && !s.cams[j].paused
    ensures ShutdownDrives(ReadyStatus(s, chm, ssd), d) == ReadyStatus(s, chm && d.Ssd?, ssd && d.Chm?)
  {
    forall j | 0 <= j < |s.cams|
      ensures ShutdownDrives(ReadyStatus(s, chm, ssd), d).cams[j]
        == ReadyStatus(s, chm && d.Ssd?, ssd && d.Chm?).cams[j]
    {
      ShutdownUndoesReadyCamera(s.cams[j], chm, ssd, chm && d.Ssd?, ssd && d.Chm?);
    }
  }

  // ---------- the recording status sent out

  /** `see_if_recording`: a drive is reported as recording exactly when no camera commanded to
      record video there (for CHM: whose essential setting is not empty) fails to. */
  method SeeIfRecording(cams: seq<Camera>) returns (chm: bool, ssd: bool)
    ensures !chm <==> exists c :: c in cams && c.essentialText && c.mode.chmVideo && !c.status.chmVideo
    ensures !ssd <==> exists c :: c in cams && c.mode.ssdVideo && !c.status.ssdVideo
  {
    chm, ssd := true, true;
    for i := 0 to |cams|
      invariant !chm <==> exists c :: c in cams[..i] && c.essentialText && c.mode.chmVideo && !c.status.chmVideo
      invariant !ssd <==> exists c :: c in cams[..i] && c.mode.ssdVideo && !c.status.ssdVideo
    {
      var c := cams[i];
      assert cams[..i + 1] == cams[..i] + [c];
      if c.essentialText {
        if c.mode.chmVideo && !c.status.chmVideo { chm := false; }
      }
      if c.mode.ssdVideo && !c.status.ssdVideo { ssd := false; }
    }
    assert cams[..|cams|] == cams;
  }
}
