/** What cameras are told to record and credited with, bit by bit: after a start, a ready message, a
    shutdown, a settings message, and a command to record or to pause. */
module SupervisionModes {
  import opened Options
  import opened SupervisionState
  import opened SupervisionSafety

  /** CHM video is asked for when the camera is essential or was told to record there before. */
  predicate AsksChm(c: Camera) { c.essential || c.mode.chmVideo }

  /** A start that is not given up asks for the SSD in any case, for CHM as above, and for audio
      beside video when the camera has it. Asking for CHM while it is not ready is refused. What is
      asked of an SSD that is not ready is taken back. */
  ghost predicate Asked(c: Camera, m: Flags, chmReady: bool, ssdReady: bool) {
    && (m.chmVideo <==> c.essential || c.mode.chmVideo)
    && (m.chmAudio <==> c.mode.chmAudio || (c.essential && c.audio))
    && (m.ssdVideo <==> ssdReady || (AsksChm(c) && !chmReady))
    && (m.ssdAudio <==> (ssdReady || (AsksChm(c) && !chmReady)) && (c.mode.ssdAudio || c.audio))
    && (m.dontUseChm <==> c.mode.dontUseChm || !c.essential)
  }

  /** Each status bit is its mode bit, audio only beside video. */
  ghost predicate Credited(status: Flags, m: Flags) {
    && (status.chmVideo <==> m.chmVideo) && (status.chmAudio <==> m.chmVideo && m.chmAudio)
    && (status.ssdVideo <==> m.ssdVideo) && (status.ssdAudio <==> m.ssdVideo && m.ssdAudio)
    && !status.dontUseChm
  }

  /** Only the fields of camera i that a start may change. */
  ghost predicate OnlyStarted(s: State, s': State, i: nat)
    requires Ok(s) && i < |s.cams|
  {
    && |s'.cams| == |s.cams| && s'.ttl == s.ttl && s'.rpTtl == s.rpTtl
    && s'.chmReady == s.chmReady && s'.ssdReady == s.ssdReady && s'.shutdown == s.shutdown
    && (forall j :: 0 <= j < |s.cams| && j != i ==> s'.cams[j] == s.cams[j])
    && SameSettings(s.cams[i], s'.cams[i])
  }

  /** What a start leaves of its camera. */
  ghost predicate SameSettings(c: Camera, c': Camera) {
    && c'.name == c.name && c'.essential == c.essential && c'.essentialText == c.essentialText
    && c'.audio == c.audio && c'.isOnline == c.isOnline && c'.paused == c.paused
  }

  lemma StartFields(c: Camera, retries: int, chm: bool, ssd: bool, spawn: int)
    ensures SameSettings(c, StartCamera(c, retries, chm, ssd, spawn).cam)
  {
    hide DefaultMode, StatusOf, StartWithMode;
    AskedFields(c.(mode := DefaultMode(c)), retries, chm, ssd, spawn);
  }

  lemma AskedFields(c: Camera, retries: int, chm: bool, ssd: bool, spawn: int)
    ensures SameSettings(c, StartWithMode(c, retries, chm, ssd, spawn).cam)
  {
    hide StatusOf;
  }

  lemma OnlyStarts(s: State, i: nat, spawn: int)
    requires Ok(s) && i < |s.cams|
    ensures OnlyStarted(s, StartRecording(s, i, spawn).0, i)
  {
    hide StartCamera, Counter;
    StartFields(s.cams[i], s.retry[Counter(s, i)], s.chmReady, s.ssdReady, spawn);
  }

  lemma GivesUp(c: Camera, retries: int, chm: bool, ssd: bool, spawn: int)
    requires retries > 2
    ensures StartCamera(c, retries, chm, ssd, spawn) == Start(c.(isAssigned := false), retries, false, false)
  {}

  lemma StartsCamera(c: Camera, retries: int, chm: bool, ssd: bool, spawn: int)
    requires retries <= 2
    ensures var t := StartCamera(c, retries, chm, ssd, spawn);
      && Asked(c, t.cam.mode, chm, ssd) && t.cam.isAssigned == c.isAssigned
      && (t.spawned <==> !((c.essential || c.mode.chmVideo) && !chm) && c.isAssigned && c.pid in {0, -1} && spawn != -1)
      && (t.spawned ==> t.cam.pid == spawn && Credited(t.cam.status, t.cam.mode) && t.ok && t.retries == 0)
      && (!t.spawned ==> t.cam.pid == c.pid && t.cam.status == c.status)
  {}

  lemma StartAnswers(c: Camera, retries: int, chm: bool, ssd: bool, spawn: int)
    requires retries <= 2
    ensures var t := StartCamera(c, retries, chm, ssd, spawn);
      var refused := (c.essential || c.mode.chmVideo) && !chm;
      && (t.ok <==> !refused && (!c.isAssigned || c.pid !in {0, -1} || spawn != -1))
      && t.retries == (if refused then 0 else if !c.isAssigned || c.pid !in {0, -1} then retries
                       else if spawn != -1 then 0 else retries + 1)
  {}

  /** A start, bit by bit. With three failures counted it only gives the camera up. Otherwise the
      mode is what is asked for; a worker is spawned if and only if CHM is not asked for in vain,
      the camera is assigned and without a worker, and the fork succeeds; the status then is the
      mode. With the SSD ready the worker is told to record there, whatever the mode was. */
  lemma StartExact(s: State, i: nat, spawn: int)
    requires Ok(s) && i < |s.cams|
    ensures var c, (s', ok) := s.cams[i], StartRecording(s, i, spawn);
      var c' := s'.cams[i];
      var refused := (c.essential || c.mode.chmVideo) && !s.chmReady;
      var spawned := s.retry[Counter(s, i)] <= 2 && !refused && c.isAssigned && c.pid in {0, -1} && spawn != -1;
      && OnlyStarted(s, s', i)
      && (if s.retry[Counter(s, i)] > 2 then c' == c.(isAssigned := false) && !ok
          else Asked(c, c'.mode, s.chmReady, s.ssdReady) && c'.isAssigned == c.isAssigned)
      && (spawned ==> c'.pid == spawn && Credited(c'.status, c'.mode) && ok)
      && (!spawned ==> c'.pid == c.pid && c'.status == c.status)
      && s'.nRecording == s.nRecording + (if spawned then 1 else 0)
      && (s.retry[Counter(s, i)] <= 2 ==>
            (ok <==> !refused && (!c.isAssigned || c.pid !in {0, -1} || spawn != -1)))
  {
    var c, retries := s.cams[i], s.retry[Counter(s, i)];
    if retries > 2 {
      GivesUp(c, retries, s.chmReady, s.ssdReady, spawn);
    } else {
      StartsCamera(c, retries, s.chmReady, s.ssdReady, spawn);
      StartAnswers(c, retries, s.chmReady, s.ssdReady, spawn);
    }
    OnlyStarts(s, i, spawn);
    hide StartCamera, Counter, Asked, Credited, OnlyStarted;
  }

  // ---------- messages

  /** A ready message: a camera online and not paused is told to record on the drives that are ready,
      with audio when it has it; any other keeps its mode. A camera with a worker is credited with
      its mode. */
  lemma ReadyExact(s: State, chm: bool, ssd: bool, j: nat)
    requires Ok(s) && j < |s.cams|
    ensures var s' := Step(s, Ready(chm, ssd));
      var c, c' := s.cams[j], s'.cams[j];
      && s'.chmReady == chm && s'.ssdReady == ssd && s'.shutdown == s.shutdown && s'.nRecording == s.nRecording
      && c' == c.(mode := c'.mode, status := c'.status)
      && (if c.isOnline && !c.paused then
            && (c'.mode.chmVideo <==> chm) && (c'.mode.chmAudio <==> chm && c.audio)
            && (c'.mode.ssdVideo <==> ssd) && (c'.mode.ssdAudio <==> ssd && c.audio) && !c'.mode.dontUseChm
          else c'.mode == c.mode)
      && (if c.pid > 0 then Credited(c'.status, c'.mode) else c'.status == c.status)
  {}

  /** Whether a drive is still ready after a shutdown. */
  lemma ShutdownReady(s: State, d: Drives)
    requires Ok(s)
    ensures var s' := Step(s, Shutdown(d));
      && (s'.chmReady <==> s.chmReady && d != Chm && d != All)
      && (s'.ssdReady <==> s.ssdReady && d != Ssd && d != All)
      && (s'.shutdown <==> s.shutdown || d == All) && s'.nRecording == s.nRecording
  {}

  /** A valid shutdown clears, in mode and status, the bits of the drives that are not ready after
      it, and no other; an invalid one changes nothing. */
  lemma ShutdownExact(s: State, d: Drives, j: nat)
    requires Ok(s) && j < |s.cams|
    ensures var s' := Step(s, Shutdown(d));
      var c, c' := s.cams[j], s'.cams[j];
      && (d == Invalid ==> s' == s)
      && (d != Invalid ==>
            && c' == c.(mode := c'.mode, status := c'.status)
            && (c'.mode.chmVideo <==> c.mode.chmVideo && s'.chmReady)
            && (c'.mode.chmAudio <==> c.mode.chmAudio && s'.chmReady)
            && (c'.mode.ssdVideo <==> c.mode.ssdVideo && s'.ssdReady)
            && (c'.mode.ssdAudio <==> c.mode.ssdAudio && s'.ssdReady)
            && c'.mode.dontUseChm == c.mode.dontUseChm
            && (c'.status.chmVideo <==> c.status.chmVideo && s'.chmReady)
            && (c'.status.chmAudio <==> c.status.chmAudio && s'.chmReady)
            && (c'.status.ssdVideo <==> c.status.ssdVideo && s'.ssdReady)
            && (c'.status.ssdAudio <==> c.status.ssdAudio && s'.ssdReady)
            && c'.status.dontUseChm == c.status.dontUseChm)
  {}

  /** A settings message turns CHM video on or off as permitted. Audio that is permitted stays as it
      is if there is any and comes back on both drives if there is none; CHM audio follows CHM video
      when that changes. */
  lemma SettingsExact(s: State, i: nat, noAudio: bool, noChm: bool)
    requires Ok(s) && i < |s.cams|
    ensures var s' := Step(s, Settings(i, noAudio, noChm));
      var m, m' := s.cams[i].mode, s'.cams[i].mode;
      && s' == s.(cams := s.cams[i := s.cams[i].(mode := m')])
      && (m'.chmVideo <==> !noChm) && m'.ssdVideo == m.ssdVideo && m'.dontUseChm == m.dontUseChm
      && (m'.ssdAudio <==> !noAudio && (m.ssdAudio || !m.chmAudio))
      && (m'.chmAudio <==> if m.chmVideo == noChm then !noChm else !noAudio && (m.chmAudio || !m.ssdAudio))
  {}

  // ---------- commands

  /** A command for a camera that is not there, offline or unassigned, or during a shutdown, fails
      and changes nothing; one that asks for what the status already says succeeds and changes
      nothing. */
  lemma CommandIgnored(s: State, i: nat, record: nat, spawn: int)
    requires Ok(s) && i < |s.cams|
    ensures var c, (s', ok) := s.cams[i], Pause(s, Some(i), record, spawn);
      var on := c.status.chmVideo || c.status.ssdVideo;
      && (s.shutdown || !c.isOnline || !c.isAssigned ==> s' == s && !ok)
      && (!s.shutdown && c.isOnline && c.isAssigned && record == (if on then 1 else 0) ==> s' == s && ok)
      && Pause(s, None, record, spawn) == (s, false)
  {}

  /** A command for a recording camera pauses it: nothing is asked for any more, its worker is
      stopped, and it stays paused. */
  lemma PauseExact(s: State, i: nat, record: nat, spawn: int)
    requires Ok(s) && i < |s.cams| && !s.shutdown && s.cams[i].isOnline && s.cams[i].isAssigned
    requires (s.cams[i].status.chmVideo || s.cams[i].status.ssdVideo) && record != 1
    ensures var c, (s', ok) := s.cams[i], Pause(s, Some(i), record, spawn);
      var c' := s'.cams[i];
      && c'.mode == Flags(false, false, false, false, false) && c'.paused && c'.pid == 0 && (ok <==> c.pid != 0)
      && (forall j :: 0 <= j < |s.cams| && j != i ==> s'.cams[j] == s.cams[j])
      && (c.pid != 0 ==> !(c'.status.chmVideo || c'.status.chmAudio || c'.status.ssdVideo || c'.status.ssdAudio))
  {}

  /** A command for a camera that is not recording starts it, no longer paused, if a drive is ready;
      `StartExact` says with what. */
  lemma RecordExact(s: State, i: nat, record: nat, spawn: int)
    requires Ok(s) && i < |s.cams| && !s.shutdown && s.cams[i].isOnline && s.cams[i].isAssigned
    requires !(s.cams[i].status.chmVideo || s.cams[i].status.ssdVideo) && record != 0
    ensures Pause(s, Some(i), record, spawn)
      == if s.chmReady || s.ssdReady
         then StartRecording(s.(cams := s.cams[i := s.cams[i].(paused := false)]), i, spawn) else (s, false)
  {}

  /** For instance a record command for a camera that was paused, with both drives ready and audio:
      the worker is told to record video and audio on the SSD, and credited with it. */
  lemma PausedCameraRecords(s: State, i: nat, spawn: int)
    requires Ok(s) && i < |s.cams| && !s.shutdown && s.chmReady && s.ssdReady && spawn > 0
    requires s.retry[Counter(s, i)] <= 2
    requires var c := s.cams[i];
      c.isOnline && c.isAssigned && c.pid == 0 && c.audio && c.mode == NO_FLAGS && c.status == NO_FLAGS
    ensures var c' := Step(s, RecordPause(Some(i), 1, spawn)).cams[i];
      && c'.pid == spawn && c'.mode.ssdVideo && c'.mode.ssdAudio && c'.status.ssdVideo && c'.status.ssdAudio
      && (c'.status.chmVideo <==> s.cams[i].essential)
  {
    var s1 := s.(cams := s.cams[i := s.cams[i].(paused := false)]);
    RecordExact(s, i, 1, spawn);
    SameCounter(s, s1, i);
    hide StartRecording;
    StartExact(s1, i, spawn);
  }

  /** The pause a stream reset begins with. */
  lemma ResetPauses(s: State, i: nat, spawn: int)
    requires Ok(s) && i < |s.cams|
    ensures var c := s.cams[i];
      var t := s.(cams := s.cams[i := c.(mode := Flags(false, false, false, false, false), paused := true)]);
      Pause(s, Some(i), 0, spawn)
        == if s.shutdown || !c.isOnline || !c.isAssigned then (s, false)
           else if !c.status.chmVideo && !c.status.ssdVideo then (s, true)
           else if c.pid == 0 then (t, false)
           else (JustStopped(t, i), true)
  {
    hide StartRecording, JustStopped;
  }

  /** A stream reset is ignored like a command. It starts a camera that is not recording; one that is
      recording is paused first and, if it had a worker, started again; one without stays paused. */
  lemma ResetExact(s: State, i: nat, spawn: int)
    requires Ok(s) && i < |s.cams| && PidOk(spawn)
    ensures var c, s' := s.cams[i], Step(s, ResetStream(Some(i), spawn));
      var t := s.(cams := s.cams[i := c.(mode := Flags(false, false, false, false, false), paused := true)]);
      if s.shutdown || !c.isOnline || !c.isAssigned then s' == s
      else if !c.status.chmVideo && !c.status.ssdVideo then s' == Pause(s, Some(i), 1, spawn).0
      else if c.pid == 0 then s' == t
      else s' == Pause(JustStopped(t, i), Some(i), 1, spawn).0
  {
    hide Pause, JustStopped;
    ResetPauses(s, i, spawn);
  }

  // ---------- the timer

  /** A camera that comes back is given full lives. Its worker is left alone while it lives, and a
      camera without one is not started here; if the worker has died a start is tried. */
  lemma OnlineExact(s: State, i: nat, died: bool, spawn: int)
    requires Ok(s) && i < |s.cams| && s.cams[i].isAssigned && !s.cams[i].isOnline && PidOk(spawn)
    ensures var m, t := s.cams[i].mode, s.(ttl := s.ttl[i := 6]);
      var asked := m.chmVideo || m.chmAudio || m.ssdVideo || m.ssdAudio || m.dontUseChm;
      var t' := if asked && s.cams[i].pid > 0 && died then StartRecording(t, i, spawn).0 else t;
      Step(s, Report(i, true, died, spawn)) == t'.(cams := t'.cams[i := t'.cams[i].(isOnline := true)])
  {
    var t := s.(ttl := s.ttl[i := 6]);
    OnlyStarts(t, i, spawn);
    hide StartRecording;
    assert t.ttl[i := 60][i := 6] == t.ttl == t.ttl[i := 6];
  }

  /** Such a start spawns nothing: the process id has not been cleared. */
  lemma OnlineSpawnsNothing(s: State, i: nat, died: bool, spawn: int)
    requires Ok(s) && i < |s.cams| && s.cams[i].isAssigned && !s.cams[i].isOnline && PidOk(spawn)
    ensures var c, s' := s.cams[i], Step(s, Report(i, true, died, spawn));
      s'.cams[i].pid == c.pid && s'.cams[i].status == c.status && s'.nRecording == s.nRecording
  {
    var t := s.(ttl := s.ttl[i := 6]);
    OnlineExact(s, i, died, spawn);
    if s.cams[i].pid > 0 { StartExact(t, i, spawn); }
    hide StartRecording, Step;
  }

  /** A camera found dead by the watching loop: offline, no worker, no recording bits, uncounted; with
      a worker alive only the restart counter is cleared. */
  lemma WatchExact(s: State, i: nat, died: bool, spawn: int)
    requires Ok(s) && i < |s.cams| && s.cams[i].pid != 0 && s.cams[i].mode != NO_FLAGS && PidOk(spawn)
    ensures var c, s' := s.cams[i], Step(s, Supervise(i, died, spawn));
      var c' := s'.cams[i];
      && s'.rpTtl == s.rpTtl[i := 0]
      && (!died ==> s'.cams == s.cams && s'.nRecording == s.nRecording)
      && (died ==>
            && !c'.isOnline && c'.pid == 0 && c'.mode == c.mode
            && !(c'.status.chmVideo || c'.status.chmAudio || c'.status.ssdVideo || c'.status.ssdAudio)
            && s'.nRecording == if s.nRecording > 0 then s.nRecording - 1 else s.nRecording)
  {}

  /** A camera that goes offline while credited with recording loses its worker and its recording
      bits; its mode stays. */
  lemma OfflineExact(s: State, i: nat, died: bool, spawn: int)
    requires Inv(s) && PidOk(spawn) && i < |s.cams| && s.cams[i].isAssigned && s.cams[i].isOnline && s.ttl[i] <= 1
    ensures var c, c' := s.cams[i], Step(s, Report(i, false, died, spawn)).cams[i];
      var on := c.status.chmVideo || c.status.chmAudio || c.status.ssdVideo || c.status.ssdAudio;
      && !c'.isOnline && c'.mode == c.mode && c'.pid == (if on then 0 else c.pid)
      && !(c'.status.chmVideo || c'.status.chmAudio || c'.status.ssdVideo || c'.status.ssdAudio)
  {}
}
