/** Camera supervision as a transition system: who has a worker process, what each camera is
    commanded to record and reported to record, and the counters that decide when a camera goes
    offline, is restarted, or is given up. */
module SupervisionState {
  import opened Options

  const CAMON_TTL: int := 6
  const MAX_CAMS: nat := 16

  /** The bits of a recording mode or status word. */
  datatype Flags = Flags(chmVideo: bool, chmAudio: bool, ssdVideo: bool, ssdAudio: bool, dontUseChm: bool)

  const NO_FLAGS := Flags(false, false, false, false, false)

  /** One of the four audio and video bits is set. */
  predicate Recording(f: Flags) { f.chmVideo || f.chmAudio || f.ssdVideo || f.ssdAudio }

  function Stopped(f: Flags): (r: Flags)
    ensures !Recording(r)
  {
    f.(chmVideo := false, chmAudio := false, ssdVideo := false, ssdAudio := false)
  }

  /** The status a worker with this mode is credited with: audio only beside video. */
  function StatusOf(mode: Flags): Flags {
    Flags(mode.chmVideo, mode.chmVideo && mode.chmAudio, mode.ssdVideo, mode.ssdVideo && mode.ssdAudio, false)
  }

  /** `essential` is the runtime flag, `essentialText` whether the configured text is non-empty;
      `name` is what names are compared by, case folded and cut to twelve characters. */
  datatype Camera = Camera(
    name: string,
    essential: bool,
    essentialText: bool,
    audio: bool,
    isAssigned: bool,
    isOnline: bool,
    paused: bool,
    mode: Flags,
    status: Flags,
    pid: int)

  datatype State = State(
    cams: seq<Camera>,
    retry: seq<int>,
    ttl: seq<int>,
    rpTtl: seq<int>,
    nRecording: int,
    chmReady: bool,
    ssdReady: bool,
    shutdown: bool)

  predicate Ok(s: State) {
    |s.cams| <= MAX_CAMS && |s.retry| == |s.ttl| == |s.rpTtl| == MAX_CAMS
  }

  datatype Drives = Chm | Ssd | All | Invalid

  /** What drives the supervisor. `died` is what waitpid says of the worker, `spawn` the process
      id a start obtains (-1 when it fails); `Report` is one camera's turn in the reporting pass
      of the 1 Hz timer, `Supervise` its turn in the loop that watches the workers. */
  datatype Event =
    | Report(i: nat, alive: bool, died: bool, spawn: int)
    | Supervise(i: nat, died: bool, spawn: int)
    | Ready(chm: bool, ssd: bool)
    | Shutdown(drives: Drives)
    | RecordPause(camera: Option<nat>, record: nat, spawn: int)
    | ResetStream(camera: Option<nat>, spawn: int)
    | Settings(i: nat, noAudio: bool, noChm: bool)

  // ---------- starting and stopping

  /** The first camera with the same name owns the retry counter. */
  function FirstNamed(cams: seq<Camera>, name: string, n: nat): (r: nat)
    requires n < |cams| && cams[n].name == name
    ensures r <= n && cams[r].name == name
    ensures forall j :: 0 <= j < r ==> cams[j].name != name
  {
    FirstFrom(cams, name, 0, n)
  }

  function FirstFrom(cams: seq<Camera>, name: string, from: nat, n: nat): (r: nat)
    requires from <= n < |cams| && cams[n].name == name
    requires forall j :: 0 <= j < from ==> cams[j].name != name
    ensures from <= r <= n && cams[r].name == name
    ensures forall j :: 0 <= j < r ==> cams[j].name != name
    decreases n - from
  {
    if cams[from].name == name then from else FirstFrom(cams, name, from + 1, n)
  }

  function Counter(s: State, i: nat): (cid: nat)
    requires Ok(s) && i < |s.cams|
    ensures cid <= i
  {
    FirstNamed(s.cams, s.cams[i].name, i)
  }

  /** `camera_recording_just_stopped`. */
  function JustStopped(s: State, i: nat): (s': State)
    requires Ok(s) && i < |s.cams|
    ensures Ok(s')
  {
    s.(cams := s.cams[i := s.cams[i].(pid := 0, status := Stopped(s.cams[i].status))],
       nRecording := if s.nRecording > 0 then s.nRecording - 1 else s.nRecording)
  }

  /** `stop_recording_process`. */
  function StopRecording(s: State, i: nat): (r: (State, bool))
    requires Ok(s) && i < |s.cams|
    ensures Ok(r.0)
  {
    if s.cams[i].pid != 0 then (JustStopped(s, i), true) else (s, false)
  }

  /** What a start asks for, on top of what the mode already says. */
  function DefaultMode(c: Camera): Flags {
    var m := c.mode;
    var m1 := if c.essential
              then m.(chmVideo := true, chmAudio := m.chmAudio || c.audio)
              else m.(dontUseChm := true);
    m1.(ssdVideo := true, ssdAudio := m1.ssdAudio || c.audio)
  }

  /** What a start does to its camera and its retry counter, its result, and whether a worker
      was spawned. */
  datatype Start = Start(cam: Camera, retries: int, ok: bool, spawned: bool)

  function StartCamera(c: Camera, retries: int, chmReady: bool, ssdReady: bool, spawn: int): (t: Start)
    ensures t.cam.name == c.name && t.cam.isOnline == c.isOnline
  {
    if retries > 2 then Start(c.(isAssigned := false), retries, false, false)
    else StartWithMode(c.(mode := DefaultMode(c)), retries, chmReady, ssdReady, spawn)
  }

  /** From the checks on the drives on. */
  function StartWithMode(c: Camera, retries: int, chmReady: bool, ssdReady: bool, spawn: int): (t: Start)
    ensures t.cam.name == c.name && t.cam.isOnline == c.isOnline
  {
    if c.mode.chmVideo && !chmReady then Start(c, 0, false, false)
    else
      var c' := if c.mode.ssdVideo && !ssdReady then c.(mode := c.mode.(ssdVideo := false, ssdAudio := false)) else c;
      if c'.isAssigned && (c'.pid == 0 || c'.pid == -1) then
        if spawn != -1 then Start(c'.(pid := spawn, status := StatusOf(c'.mode)), 0, true, true)
        else Start(c', retries + 1, false, false)
      else Start(c', retries, true, false)
  }

  /** `start_recording_process`; the flag is its result. */
  function StartRecording(s: State, i: nat, spawn: int): (r: (State, bool))
    requires Ok(s) && i < |s.cams|
    ensures Ok(r.0) && |r.0.cams| == |s.cams|
  {
    var cid := Counter(s, i);
    var t := StartCamera(s.cams[i], s.retry[cid], s.chmReady, s.ssdReady, spawn);
    (s.(cams := s.cams[i := t.cam], retry := s.retry[cid := t.retries],
        nRecording := s.nRecording + if t.spawned then 1 else 0), t.ok)
  }

  // ---------- the 1 Hz timer

  /** The part of `reflect_camera_online_status` for a camera whose lives have run out. */
  function GoingOffline(s: State, i: nat, died: bool): (s': State)
    requires Ok(s) && i < |s.cams|
    ensures Ok(s')
  {
    var c := s.cams[i];
    if !Recording(c.status) then s
    else if c.pid > 0 then
      if died then JustStopped(s, i) else StopRecording(s, i).0
    else s.(cams := s.cams[i := c.(status := Stopped(c.status))])
  }

  /** The part for a camera that is back: a running worker is left alone. */
  function ComingOnline(s: State, i: nat, died: bool, spawn: int): (s': State)
    requires Ok(s) && i < |s.cams|
    ensures Ok(s')
  {
    var c := s.cams[i];
    if !c.isAssigned || c.mode == NO_FLAGS then s
    else if c.pid > 0 then
      if !died then s.(ttl := s.ttl[i := 10 * CAMON_TTL]) else StartRecording(s, i, spawn).0
    else
      var left := s.ttl[i] - 1;
      if left >= 0 then s.(ttl := s.ttl[i := 10 * CAMON_TTL])
      else StartRecording(s.(ttl := s.ttl[i := left]), i, spawn).0
  }

  /** `reflect_camera_online_status`. */
  function ReflectOnline(s: State, i: nat, alive: bool, died: bool, spawn: int): (s': State)
    requires Ok(s) && i < |s.cams|
    ensures Ok(s')
  {
    var s1 := if alive then s.(ttl := s.ttl[i := CAMON_TTL]) else s;
    if s1.cams[i].isOnline == alive then s1
    else if !alive && s1.ttl[i] > 1 then s1.(ttl := s1.ttl[i := s1.ttl[i] - 1])
    else
      var s2 := if alive then ComingOnline(s1, i, died, spawn) else GoingOffline(s1, i, died);
      s2.(cams := s2.cams[i := s2.cams[i].(isOnline := alive)], ttl := s2.ttl[i := CAMON_TTL])
  }

  /** One camera's turn in the supervision loop. */
  function Watch(s: State, i: nat, died: bool, spawn: int): (s': State)
    requires Ok(s) && i < |s.cams|
    ensures Ok(s')
  {
    var c := s.cams[i];
    if c.mode == NO_FLAGS then s
    else if c.pid != 0 then
      var s1 := s.(rpTtl := s.rpTtl[i := 0]);
      if died then JustStopped(s1.(cams := s1.cams[i := c.(isOnline := false)]), i) else s1
    else if c.isOnline && c.isAssigned then
      if s.rpTtl[i] > 2 * CAMON_TTL then StartRecording(s.(rpTtl := s.rpTtl[i := 0]), i, spawn).0
      else s.(rpTtl := s.rpTtl[i := s.rpTtl[i] + 1])
    else s
  }

  // ---------- messages

  function ReadyMode(audio: bool, chm: bool, ssd: bool): Flags {
    Flags(chm, chm && audio, ssd, ssd && audio, false)
  }

  /** The turn of one camera in `msgcb_ready_status`. */
  function ReadyCamera(c: Camera, chm: bool, ssd: bool): Camera {
    var m := if c.isOnline && !c.paused then ReadyMode(c.audio, chm, ssd) else c.mode;
    c.(mode := m, status := if c.pid > 0 then StatusOf(m) else c.status)
  }

  function WithoutDrives(f: Flags, chm: bool, ssd: bool): Flags {
    Flags(f.chmVideo && chm, f.chmAudio && chm, f.ssdVideo && ssd, f.ssdAudio && ssd, f.dontUseChm)
  }

  /** The turn of one camera in `msgcb_shutdown_rec`, given which drives are still ready. */
  function ShutdownCamera(c: Camera, chm: bool, ssd: bool): Camera {
    c.(mode := WithoutDrives(c.mode, chm, ssd), status := WithoutDrives(c.status, chm, ssd))
  }

  function ReadyStatus(s: State, chm: bool, ssd: bool): (s': State)
    requires Ok(s)
    ensures Ok(s')
  {
    s.(cams := seq(|s.cams|, j requires 0 <= j < |s.cams| => ReadyCamera(s.cams[j], chm, ssd)),
       chmReady := chm, ssdReady := ssd)
  }

  function ShutdownDrives(s: State, d: Drives): (s': State)
    requires Ok(s)
    ensures Ok(s')
  {
    if d.Invalid? then s
    else
      var chm, ssd := s.chmReady && d.Ssd?, s.ssdReady && d.Chm?;
      s.(cams := seq(|s.cams|, j requires 0 <= j < |s.cams| => ShutdownCamera(s.cams[j], chm, ssd)),
         chmReady := chm, ssdReady := ssd, shutdown := s.shutdown || d.All?)
  }

  predicate VideoOn(c: Camera) { c.status.chmVideo || c.status.ssdVideo }

  /** `handle_camera_record_pause`. */
  function Pause(s: State, camera: Option<nat>, record: nat, spawn: int): (r: (State, bool))
    requires Ok(s) && (camera.Some? ==> camera.value < |s.cams|)
    ensures Ok(r.0) && |r.0.cams| == |s.cams|
  {
    if s.shutdown || camera.None? then (s, false)
    else
      var i := camera.value;
      var c := s.cams[i];
      if !c.isOnline || !c.isAssigned then (s, false)
      else if (if VideoOn(c) then 1 else 0) == record then (s, true)
      else if VideoOn(c) then StopRecording(s.(cams := s.cams[i := c.(mode := NO_FLAGS, paused := true)]), i)
      else if s.chmReady || s.ssdReady then StartRecording(s.(cams := s.cams[i := c.(paused := false)]), i, spawn)
      else (s, false)
  }

  /** `reset_camera_stream`: pause, and record again if that went well. */
  function Reset(s: State, camera: Option<nat>, spawn: int): (s': State)
    requires Ok(s) && (camera.Some? ==> camera.value < |s.cams|)
    ensures Ok(s')
  {
    var (s1, ok) := Pause(s, camera, 0, spawn);
    if ok then Pause(s1, camera, 1, spawn).0 else s1
  }

  /** The mode a settings message leaves; a flag is only followed when it differs from what
      the mode says now. */
  function SettingsMode(m: Flags, noAudio: bool, noChm: bool): Flags {
    var m1 := if noAudio == (!m.chmAudio && !m.ssdAudio) then m
              else m.(chmAudio := !noAudio, ssdAudio := !noAudio);
    if noChm == !m1.chmVideo then m1 else m1.(chmVideo := !noChm, chmAudio := !noChm)
  }

  /** `msgcb_camera_settings`. */
  function ApplySettings(s: State, i: nat, noAudio: bool, noChm: bool): (s': State)
    requires Ok(s) && i < |s.cams|
    ensures Ok(s')
  {
    s.(cams := s.cams[i := s.cams[i].(mode := SettingsMode(s.cams[i].mode, noAudio, noChm))])
  }

  // ---------- runs

  predicate PidOk(spawn: int) { spawn == -1 || spawn > 0 }

  /** Indices name cameras, and a fork answers -1 or a positive process id. */
  predicate Possible(n: nat, e: Event) {
    match e
    case Report(i, _, _, spawn) => i < n && PidOk(spawn)
    case Supervise(i, _, spawn) => i < n && PidOk(spawn)
    case RecordPause(c, _, spawn) => (c.Some? ==> c.value < n) && PidOk(spawn)
    case ResetStream(c, spawn) => (c.Some? ==> c.value < n) && PidOk(spawn)
    case Settings(i, _, _) => i < n
    case _ => true
  }

  function Step(s: State, e: Event): (s': State)
    requires Ok(s) && Possible(|s.cams|, e)
    ensures Ok(s') && |s'.cams| == |s.cams|
  {
    match e
    case Report(i, alive, died, spawn) => if s.cams[i].isAssigned then ReflectOnline(s, i, alive, died, spawn) else s
    case Supervise(i, died, spawn) => Watch(s, i, died, spawn)
    case Ready(chm, ssd) => ReadyStatus(s, chm, ssd)
    case Shutdown(d) => ShutdownDrives(s, d)
    case RecordPause(camera, record, spawn) => Pause(s, camera, record, spawn).0
    case ResetStream(camera, spawn) => Reset(s, camera, spawn)
    case Settings(i, noAudio, noChm) => ApplySettings(s, i, noAudio, noChm)
  }

  predicate AllPossible(n: nat, es: seq<Event>) {
    forall e <- es :: Possible(n, e)
  }

  function Run(s: State, es: seq<Event>): (s': State)
    requires Ok(s) && AllPossible(|s.cams|, es)
    ensures Ok(s') && |s'.cams| == |s.cams|
  {
    if es == [] then s else Step(Run(s, es[..|es| - 1]), es[|es| - 1])
  }

  /** Nothing recording yet, full lives, no failures. */
  ghost predicate Initial(s: State) {
    && Ok(s) && s.nRecording == 0
    && (forall c <- s.cams :: c.pid == 0 && c.status == NO_FLAGS)
    && (forall j :: 0 <= j < MAX_CAMS ==> s.retry[j] == 0 && s.ttl[j] == CAMON_TTL && s.rpTtl[j] == 0)
  }
}
