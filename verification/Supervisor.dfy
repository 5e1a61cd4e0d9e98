/** The supervisor as it runs: camera records and static counters updated in place by message
    callbacks and by the loops of the 1 Hz timer, each tied to `SupervisionState`. */
module Supervisor {
  import opened Options
  import opened SupervisionState
  import opened SupervisionSafety

  /** What the outside answers during one camera's turn of the timer. */
  datatype Turn = Turn(alive: bool, died: bool, spawn: int)

  function Reports(turns: seq<Turn>, n: nat): (es: seq<Event>)
    requires n <= |turns|
    ensures forall e <- es :: e.Report?
  {
    if n == 0 then []
    else Reports(turns, n - 1) + [Report(n - 1, turns[n - 1].alive, turns[n - 1].died, turns[n - 1].spawn)]
  }

  function Watches(turns: seq<Turn>, n: nat): (es: seq<Event>)
    requires n <= |turns|
    ensures forall e <- es :: e.Supervise?
  {
    if n == 0 then [] else Watches(turns, n - 1) + [Supervise(n - 1, turns[n - 1].died, turns[n - 1].spawn)]
  }

  lemma {:induction false} TurnsPossible(turns: seq<Turn>, n: nat)
    requires n <= |turns| && forall t <- turns :: PidOk(t.spawn)
    ensures AllPossible(|turns|, Reports(turns, n)) && AllPossible(|turns|, Watches(turns, n))
  {
    if n > 0 { TurnsPossible(turns, n - 1); }
  }

  /** One callback of the timer: a reporting pass every other time, then the watching loop. */
  function TickEvents(reporting: bool, reports: seq<Turn>, watches: seq<Turn>): seq<Event> {
    (if reporting then Reports(reports, |reports|) else []) + Watches(watches, |watches|)
  }

  lemma RunSnoc(s: State, es: seq<Event>, e: Event)
    requires Ok(s) && AllPossible(|s.cams|, es) && Possible(|s.cams|, e)
    ensures AllPossible(|s.cams|, es + [e]) && Run(s, es + [e]) == Step(Run(s, es), e)
  {
    assert (es + [e])[..|es|] == es;
  }

  lemma RunNone(s: State)
    requires Ok(s)
    ensures Run(s, []) == s
  {}

  class Supervisor {
    const cams: array<Camera>
    const retry: array<int>
    const ttl: array<int>
    const rpTtl: array<int>
    var nRecording: int
    var chmReady: bool
    var ssdReady: bool
    var shutdown: bool

    ghost function Abs(): State
      reads this, cams, retry, ttl, rpTtl
    {
      State(cams[..], retry[..], ttl[..], rpTtl[..], nRecording, chmReady, ssdReady, shutdown)
    }

    ghost predicate Valid()
      reads this, cams, retry, ttl, rpTtl
    {
      Ok(Abs()) && retry != rpTtl && ttl != retry && ttl != rpTtl
    }

    constructor (configured: seq<Camera>)
      requires |configured| <= MAX_CAMS
      requires forall c <- configured :: c.pid == 0 && c.status == NO_FLAGS
      ensures Valid() && fresh(cams) && fresh(retry) && fresh(ttl) && fresh(rpTtl)
      ensures cams[..] == configured && Initial(Abs())
    {
      cams := new Camera[|configured|](i requires 0 <= i < |configured| => configured[i]);
      retry := new int[MAX_CAMS](_ => 0);
      ttl := new int[MAX_CAMS](_ => CAMON_TTL);
      rpTtl := new int[MAX_CAMS](_ => 0);
      nRecording, chmReady, ssdReady, shutdown := 0, false, false, false;
      new;
      assert cams[..] == configured;
    }

    /** `camera_recording_just_stopped`. */
    method RecordingJustStopped(i: nat)
      requires Valid() && i < cams.Length
      modifies this`nRecording, cams
      ensures Valid() && Abs() == JustStopped(old(Abs()), i)
    {
      cams[i] := cams[i].(pid := 0, status := Stopped(cams[i].status));
      if nRecording > 0 { nRecording := nRecording - 1; }
    }

    /** `stop_recording_process`. */
    method StopProcess(i: nat) returns (ok: bool)
      requires Valid() && i < cams.Length
      modifies this`nRecording, cams
      ensures Valid() && (Abs(), ok) == StopRecording(old(Abs()), i)
    {
      ok := false;
      if cams[i].pid != 0 {
        RecordingJustStopped(i);
        ok := true;
      }
    }

    /** The name search that picks the retry counter. */
    method FindCounter(i: nat) returns (cid: nat)
      requires Valid() && i < cams.Length
      ensures cid == Counter(Abs(), i)
    {
      cid := 0;
      while cams[cid].name != cams[i].name
        invariant cid <= i && forall j :: 0 <= j < cid ==> cams[j].name != cams[i].name
        decreases i - cid
      {
        cid := cid + 1;
      }
      ghost var first := Counter(Abs(), i);
      assert Abs().cams[cid].name == Abs().cams[i].name && Abs().cams[first].name == Abs().cams[i].name;
    }

    /** Ask for the default recordings, on top of what the mode already says. */
    static method AddDefaults(c: Camera) returns (m: Flags)
      ensures m == DefaultMode(c)
    {
      m := c.mode;
      if c.essential {
        m := m.(chmVideo := true);
        if c.audio { m := m.(chmAudio := true); }
      } else {
        m := m.(dontUseChm := true);
      }
      m := m.(ssdVideo := true);
      if c.audio { m := m.(ssdAudio := true); }
    }

    /** `start_recording_process`. */
    method StartProcess(i: nat, spawn: int) returns (ok: bool)
      requires Valid() && i < cams.Length
      modifies this`nRecording, cams, retry
      ensures Valid() && (Abs(), ok) == StartRecording(old(Abs()), i, spawn)
    {
      var cid := FindCounter(i);
      hide StartCamera;
      var retries, spawned;
      ok, retries, spawned := TryStart(i, retry[cid], spawn);
      retry[cid] := retries;
      if spawned { nRecording := nRecording + 1; }
    }

    /** A start up to its counters: give up, or set the mode and go on. */
    method TryStart(i: nat, tries: int, spawn: int) returns (ok: bool, retries: int, spawned: bool)
      requires Valid() && i < cams.Length
      modifies cams
      ensures Valid() && Abs() == old(Abs()).(cams := old(cams[..])[i := cams[i]])
      ensures Start(cams[i], retries, ok, spawned) == StartCamera(old(cams[i]), tries, chmReady, ssdReady, spawn)
    {
      hide DefaultMode, StatusOf, StartWithMode;
      if tries > 2 {
        cams[i] := cams[i].(isAssigned := false);
        return false, tries, false;
      }
      var mode := AddDefaults(cams[i]);
      cams[i] := cams[i].(mode := mode);
      ok, retries, spawned := StartAsked(i, tries, spawn);
    }

    /** A start with its mode set: the checks on the drives, and the spawn if there is no worker. */
    method StartAsked(i: nat, tries: int, spawn: int) returns (ok: bool, retries: int, spawned: bool)
      requires Valid() && i < cams.Length
      modifies cams
      ensures Valid() && Abs() == old(Abs()).(cams := old(cams[..])[i := cams[i]])
      ensures Start(cams[i], retries, ok, spawned) == StartWithMode(old(cams[i]), tries, chmReady, ssdReady, spawn)
    {
      ok, retries, spawned := true, tries, false;
      hide StatusOf;
      var c := cams[i];
      if c.mode.chmVideo && !chmReady { return false, 0, false; }
      if c.mode.ssdVideo && !ssdReady { c := c.(mode := c.mode.(ssdVideo := false, ssdAudio := false)); }
      if c.isAssigned && (c.pid == 0 || c.pid == -1) {
        if spawn != -1 {
          var status := StatusFromMode(c.mode);
          c := c.(pid := spawn, status := status);
          retries, spawned := 0, true;
        } else {
          retries, ok := tries + 1, false;
        }
      }
      cams[i] := c;
    }

    /** Rebuild the status bits from the mode. */
    static method StatusFromMode(mode: Flags) returns (status: Flags)
      ensures status == StatusOf(mode)
    {
      status := NO_FLAGS;
      if mode.chmVideo {
        status := status.(chmVideo := true);
        if mode.chmAudio { status := status.(chmAudio := true); }
      }
      if mode.ssdVideo {
        status := status.(ssdVideo := true);
        if mode.ssdAudio { status := status.(ssdAudio := true); }
      }
    }

    /** `reflect_camera_online_status`. */
    method Reflect(i: nat, alive: bool, died: bool, spawn: int)
      requires Valid() && i < cams.Length
      modifies this`nRecording, cams, retry, ttl
      ensures Valid() && Abs() == ReflectOnline(old(Abs()), i, alive, died, spawn)
    {
      if alive { ttl[i] := CAMON_TTL; }
      if cams[i].isOnline != alive {
        if !alive {
          if ttl[i] > 1 {
            ttl[i] := ttl[i] - 1;
            return;
          }
          GoOffline(i, died);
        } else {
          ComeOnline(i, died, spawn);
        }
        cams[i] := cams[i].(isOnline := alive);
        ttl[i] := CAMON_TTL;
      }
    }

    method GoOffline(i: nat, died: bool)
      requires Valid() && i < cams.Length
      modifies this`nRecording, cams
      ensures Valid() && Abs() == GoingOffline(old(Abs()), i, died)
    {
      if Recording(cams[i].status) {
        if cams[i].pid > 0 {
          if died { RecordingJustStopped(i); } else { var _ := StopProcess(i); }
        } else {
          cams[i] := cams[i].(status := Stopped(cams[i].status));
        }
      }
    }

    method ComeOnline(i: nat, died: bool, spawn: int)
      requires Valid() && i < cams.Length
      modifies this`nRecording, cams, retry, ttl
      ensures Valid() && Abs() == ComingOnline(old(Abs()), i, died, spawn)
    {
      if cams[i].isAssigned && cams[i].mode != NO_FLAGS {
        var restart := true;
        if cams[i].pid > 0 {
          if !died {
            restart := false;
            ttl[i] := 10 * CAMON_TTL;
          }
        } else {
          ttl[i] := ttl[i] - 1;
          if ttl[i] >= 0 {
            restart := false;
            ttl[i] := 10 * CAMON_TTL;
          }
        }
        if restart { var _ := StartProcess(i, spawn); }
      }
    }

    /** One round of the loop that watches the workers. */
    method WatchOne(i: nat, died: bool, spawn: int)
      requires Valid() && i < cams.Length
      modifies this`nRecording, cams, retry, rpTtl
      ensures Valid() && Abs() == Watch(old(Abs()), i, died, spawn)
    {
      if cams[i].mode != NO_FLAGS {
        if cams[i].pid != 0 {
          rpTtl[i] := 0;
          if died {
            cams[i] := cams[i].(isOnline := false);
            RecordingJustStopped(i);
          }
        } else if cams[i].isOnline && cams[i].isAssigned {
          var was := rpTtl[i];
          rpTtl[i] := rpTtl[i] + 1;
          if was > 2 * CAMON_TTL {
            rpTtl[i] := 0;
            assert rpTtl[..] == old(rpTtl[..])[i := 0];
            var _ := StartProcess(i, spawn);
          }
        }
      }
    }

    /** `_1Hz_timer_callback`: both loops over the cameras. */
    method Tick(reporting: bool, reports: seq<Turn>, watches: seq<Turn>)
      requires Valid() && |reports| == |watches| == cams.Length
      requires (forall t <- reports :: PidOk(t.spawn)) && (forall t <- watches :: PidOk(t.spawn))
      modifies this, cams, retry, ttl, rpTtl
      ensures Valid() && AllPossible(cams.Length, TickEvents(reporting, reports, watches))
      ensures Abs() == Run(old(Abs()), TickEvents(reporting, reports, watches))
      ensures old(Inv(Abs())) ==> Inv(Abs())
    {
      hide ReflectOnline, Watch, Run, Inv;
      ghost var s := Abs();
      ghost var events: seq<Event> := [];
      RunNone(s);
      if reporting {
        for i := 0 to cams.Length
          invariant Valid() && events == Reports(reports, i)
          invariant AllPossible(cams.Length, events) && Abs() == Run(s, events)
        {
          ghost var e := Report(i, reports[i].alive, reports[i].died, reports[i].spawn);
          RunSnoc(s, events, e);
          if cams[i].isAssigned { Reflect(i, reports[i].alive, reports[i].died, reports[i].spawn); }
          events := events + [e];
        }
      }
      ghost var first := events;
      assert first + [] == first;
      for i := 0 to cams.Length
        invariant Valid() && events == first + Watches(watches, i)
        invariant AllPossible(cams.Length, events) && Abs() == Run(s, events)
      {
        ghost var e := Supervise(i, watches[i].died, watches[i].spawn);
        RunSnoc(s, events, e);
        WatchOne(i, watches[i].died, watches[i].spawn);
        events := events + [e];
        assert events == first + Watches(watches, i + 1);
      }
      if Inv(s) { RunKeepsInv(s, events); }
    }

    /** `msgcb_ready_status`. */
    method ReadyMessage(chm: bool, ssd: bool)
      requires Valid()
      modifies this`chmReady, this`ssdReady, cams
      ensures Valid() && Abs() == ReadyStatus(old(Abs()), chm, ssd)
    {
      hide ReadyCamera;
      ghost var s := Abs();
      chmReady, ssdReady := chm, ssd;
      for i := 0 to cams.Length
        invariant Valid() && Abs() == s.(chmReady := chm, ssdReady := ssd, cams := cams[..])
        invariant forall j :: 0 <= j < cams.Length ==>
          cams[j] == if j < i then ReadyCamera(s.cams[j], chm, ssd) else s.cams[j]
      {
        var c := FollowReady(cams[i]);
        cams[i] := c;
      }
      assert cams[..] == ReadyStatus(s, chm, ssd).cams;
    }

    /** One camera's turn. */
    method FollowReady(c: Camera) returns (c': Camera)
      ensures c' == ReadyCamera(c, chmReady, ssdReady)
    {
      hide StatusOf, ReadyMode;
      c' := c;
      if c.isOnline && !c.paused {
        var mode := ModeFromReady(c.audio);
        c' := c'.(mode := mode);
      }
      if c.pid > 0 {
        var status := StatusFromMode(c'.mode);
        c' := c'.(status := status);
      }
    }

    method ModeFromReady(audio: bool) returns (mode: Flags)
      ensures mode == ReadyMode(audio, chmReady, ssdReady)
    {
      mode := NO_FLAGS;
      if chmReady {
        mode := mode.(chmVideo := true);
        if audio { mode := mode.(chmAudio := true); }
      }
      if ssdReady {
        mode := mode.(ssdVideo := true);
        if audio { mode := mode.(ssdAudio := true); }
      }
    }

    /** `msgcb_shutdown_rec`. */
    method ShutdownMessage(d: Drives)
      requires Valid()
      modifies this`chmReady, this`ssdReady, this`shutdown, cams
      ensures Valid() && Abs() == ShutdownDrives(old(Abs()), d)
    {
      hide ShutdownCamera;
      ghost var s := Abs();
      match d {
        case Chm => chmReady := false;
        case Ssd => ssdReady := false;
        case All => chmReady, ssdReady, shutdown := false, false, true;
        case Invalid => return;
      }
      ghost var s1 := Abs();
      for i := 0 to cams.Length
        invariant Valid() && Abs() == s1.(cams := cams[..])
        invariant forall j :: 0 <= j < cams.Length ==>
          cams[j] == if j < i then ShutdownCamera(s.cams[j], chmReady && d.Ssd?, ssdReady && d.Chm?) else s.cams[j]
      {
        var c := FollowShutdown(cams[i]);
        cams[i] := c;
      }
      assert cams[..] == ShutdownDrives(s, d).cams;
    }

    /** One camera's turn. */
    method FollowShutdown(c: Camera) returns (c': Camera)
      ensures c' == ShutdownCamera(c, chmReady, ssdReady)
    {
      c' := c;
      if !chmReady {
        c' := c'.(mode := c'.mode.(chmVideo := false, chmAudio := false),
                  status := c'.status.(chmVideo := false, chmAudio := false));
      }
      if !ssdReady {
        c' := c'.(mode := c'.mode.(ssdVideo := false, ssdAudio := false),
                  status := c'.status.(ssdVideo := false, ssdAudio := false));
      }
    }

    /** `handle_camera_record_pause`; `camera` is what the name lookup found. */
    method HandleRecordPause(camera: Option<nat>, record: nat, spawn: int) returns (ok: bool)
      requires Valid() && (camera.Some? ==> camera.value < cams.Length)
      modifies this`nRecording, cams, retry
      ensures Valid() && (Abs(), ok) == Pause(old(Abs()), camera, record, spawn)
    {
      ok := false;
      if shutdown || camera.None? { return; }
      var i := camera.value;
      if cams[i].isOnline && cams[i].isAssigned {
        var recording := if VideoOn(cams[i]) then 1 else 0;
        if recording != record {
          if recording == 1 {
            cams[i] := cams[i].(mode := NO_FLAGS, paused := true);
            ok := StopProcess(i);
          } else if chmReady || ssdReady {
            cams[i] := cams[i].(paused := false);
            ok := StartProcess(i, spawn);
          }
        } else {
          ok := true;
        }
      }
    }

    /** `reset_camera_stream`. */
    method ResetCameraStream(camera: Option<nat>, spawn: int)
      requires Valid() && (camera.Some? ==> camera.value < cams.Length)
      modifies this`nRecording, cams, retry
      ensures Valid() && Abs() == Reset(old(Abs()), camera, spawn)
    {
      var ok := HandleRecordPause(camera, 0, spawn);
      if ok { ok := HandleRecordPause(camera, 1, spawn); }
    }

    /** `msgcb_camera_settings`. */
    method SettingsMessage(i: nat, noAudio: bool, noChm: bool)
      requires Valid() && i < cams.Length
      modifies cams
      ensures Valid() && Abs() == ApplySettings(old(Abs()), i, noAudio, noChm)
    {
      var m := FollowSettings(cams[i].mode, noAudio, noChm);
      cams[i] := cams[i].(mode := m);
    }

    static method FollowSettings(mode: Flags, noAudio: bool, noChm: bool) returns (m: Flags)
      ensures m == SettingsMode(mode, noAudio, noChm)
    {
      m := mode;
      if noAudio != (!m.chmAudio && !m.ssdAudio) {
        m := m.(chmAudio := !noAudio, ssdAudio := !noAudio);
      }
      if noChm != !m.chmVideo {
        m := m.(chmVideo := !noChm, chmAudio := !noChm);
      }
    }
  }
}
