/** Event control as it runs: the register and the timer array updated in place by the 10 Hz poll
    and by timer callbacks, each tied to `DiscreteInputs`. */
module EventControl {
  import opened Options
  import opened DiscreteInputs

  class EventControl {
    const cfg: Config
    var current: bv8
    var previous: bv8
    const timers: array<Timer>
    /** What has been sent and performed so far. */
    var sent: seq<Message>
    var performed: seq<Action>
    /** Polls and timer callbacks so far. */
    ghost var history: seq<Event>

    ghost function Abs(): State
      reads this, timers
    {
      State(current, previous, timers[..], sent, performed)
    }

    ghost predicate WellFormed()
      reads this, timers
    {
      Ok(cfg, Abs())
    }

    /** The fields are what the history leads to. */
    ghost predicate Valid()
      reads this, timers
    {
      Run(cfg, history) && Abs() == After(cfg, history)
    }

    /** What that says of every input and of every camera. */
    ghost predicate Explained()
      reads this, timers
      requires Valid()
    {
      && (cfg.mask & ALL_SET == ALL_SET ==>
          forall k :: 1 <= k <= 3 ==> DeltaAfter(cfg, Abs(), history, k))
      && (forall c :: 0 <= c < |cfg.cameras| ==> ExplainedIn(cfg, Abs(), Ops(cfg, history, c), c))
    }

    /** `init_event_control`. */
    constructor (cfg: Config)
      ensures Valid() && this.cfg == cfg && fresh(timers) && Abs() == Init(cfg) && history == []
    {
      this.cfg := cfg;
      current, previous := UNINITIALIZED, UNINITIALIZED;
      timers := new Timer[|cfg.cameras|](_ => Timer(None, false));
      sent, performed, history := [], [], [];
      new;
      assert timers[..] == Init(cfg).timers;
    }

    /** One more event behind the history. */
    lemma HistorySnoc(es: seq<Event>, e: Event)
      requires Run(cfg, es) && Enabled(After(cfg, es), e)
      ensures Run(cfg, es + [e]) && After(cfg, es + [e]) == Step(cfg, After(cfg, es), e)
    {
      hide Step;
      assert (es + [e])[..|es|] == es;
    }

    lemma HistoryExplains()
      requires Valid()
      ensures Explained()
    {
      forall k | 1 <= k <= 3 && cfg.mask & ALL_SET == ALL_SET
        ensures DeltaAfter(cfg, Abs(), history, k)
      {
        ReportsAreChanges(cfg, history, k);
      }
      forall c | 0 <= c < |cfg.cameras| ensures ExplainedIn(cfg, Abs(), Ops(cfg, history, c), c) {
        PerformedIsFiring(cfg, history, c);
      }
    }

    /** `check_for_event`, the part that reads the register. Afterwards what was reported of every
        input is its signal without repetitions, and what was performed for every camera are the
        matches that no later one superseded. */
    method CheckForEvent(data: Option<bv8>)
      requires Valid()
      modifies this`current, this`previous, this`sent, this`performed, this`history, timers
      ensures Valid() && history == old(history) + [Poll(data)] && Abs() == Step(cfg, old(Abs()), Poll(data))
      ensures Explained()
    {
      hide Run, After, Step, DeltaAfter, ExplainedIn, Ops;
      HistorySnoc(history, Poll(data));
      OnData(data);
      history := history + [Poll(data)];
      HistoryExplains();
    }

    /** Read the register and process what changed. */
    method OnData(data: Option<bv8>)
      requires WellFormed()
      modifies this`current, this`previous, this`sent, this`performed, timers
      ensures WellFormed() && Abs() == Step(cfg, old(Abs()), Poll(data))
    {
      if data.Some? {
        var doThemAll := previous == UNINITIALIZED;
        ghost var s := Abs();
        hide Masked, Differing, Bit;
        current := Masked(cfg, data.value);
        var news: seq<nat> := [];
        if current != UNINITIALIZED && (previous != current || doThemAll) {
          var bits := if doThemAll then ALL_SET else Differing(current, previous);
          previous := current;
          for index := 0 to NUM_INPUTS
            invariant news == Marked(bits, index)
          {
            if Bit(bits, index) { news := news + [index + 1]; }
          }
        }
        assert news == News(cfg, s, data.value);
        assert Abs() == Latch(cfg, s, data.value);
        ProcessInputs(news);
      }
    }

    /** `check_digital_events`. */
    method CheckDigitalEvents(input: nat, value: bool)
      requires WellFormed()
      modifies this`sent
      ensures WellFormed()
      ensures Abs() == old(Abs()).(sent := old(sent)
        + if Recorded(cfg.inputs, input) then [Message(input, value)] else [])
    {
      var i := 0;
      while i < |cfg.inputs|
        invariant i <= |cfg.inputs| && sent == old(sent)
        invariant Recorded(cfg.inputs[i..], input) == Recorded(cfg.inputs, input)
      {
        assert cfg.inputs[i..][1..] == cfg.inputs[i + 1..];
        if cfg.inputs[i].number == input {
          if cfg.inputs[i].recording { sent := sent + [Message(input, value)]; }
          return;
        }
        i := i + 1;
      }
    }

    /** The search for the first matching trigger of a camera that events control. */
    method FindMatch(c: nat, input: nat, value: bool) returns (t: Option<nat>)
      requires WellFormed() && c < |cfg.cameras|
      ensures t == Matched(cfg.cameras[c], input, value)
    {
      t := None;
      var camera := cfg.cameras[c];
      if camera.controlled {
        var index := 0;
        while t.None? && index < |camera.triggers|
          invariant index <= |camera.triggers|
          invariant t.None? ==> FirstMatch(camera.triggers, input, value, index) == Matched(camera, input, value)
          invariant t.Some? ==> t == Matched(camera, input, value)
          decreases |camera.triggers| - index
        {
          if camera.triggers[index].input == input && camera.triggers[index].state == value { t := Some(index); }
          index := index + 1;
        }
      }
    }

    /** One camera's turn for a changed input. */
    method TakeTurn(c: nat, input: nat, value: bool)
      requires WellFormed() && c < |cfg.cameras|
      modifies this`performed, timers
      ensures WellFormed() && Abs() == CameraTurn(cfg, old(Abs()), c, input, value)
    {
      var t := FindMatch(c, input, value);
      hide Matched;
      if t.Some? {
        timers[c] := timers[c].(saved := t);
        if cfg.cameras[c].triggers[t.value].delay > 0 {
          if timers[c].active { timers[c] := timers[c].(active := false); }
          timers[c] := timers[c].(active := true);
        } else {
          if timers[c].active { timers[c] := timers[c].(active := false); }
          performed := performed + [Action(c, t.value)];
        }
      }
    }

    /** `process_discrete_input_data`. */
    method ProcessInputs(inputs: seq<nat>)
      requires WellFormed() && Numbers(inputs)
      modifies this`sent, this`performed, timers
      ensures WellFormed() && Abs() == Process(cfg, old(Abs()), inputs, |inputs|)
    {
      ghost var s := Abs();
      for i := 0 to |inputs|
        invariant WellFormed() && Abs() == Process(cfg, s, inputs, i)
      {
        HandleChange(inputs[i]);
      }
    }

    /** One changed input: report it, then give every camera its turn. */
    method HandleChange(input: nat)
      requires WellFormed() && 1 <= input <= NUM_INPUTS
      modifies this`sent, this`performed, timers
      ensures WellFormed() && Abs() == Changed(cfg, old(Abs()), input)
    {
      hide CameraTurn, Recorded, Bit;
      var value := Bit(current, input - 1);
      ghost var s := Abs();
      CheckDigitalEvents(input, value);
      assert s.sent + [] == s.sent;
      ghost var s1 := Abs();
      for c := 0 to |cfg.cameras|
        invariant WellFormed() && Abs() == Cameras(cfg, s1, input, value, c)
      {
        TakeTurn(c, input, value);
      }
    }

    /** `discreteInputTimerEventHandler`: look the timer up, stop it, perform what is saved. Only a
        running timer calls back. */
    method TimerExpired(id: nat)
      requires Valid() && Enabled(Abs(), Expire(id))
      modifies this`performed, this`history, timers
      ensures Valid() && history == old(history) + [Expire(id)] && Abs() == Step(cfg, old(Abs()), Expire(id))
      ensures Explained()
    {
      HistorySnoc(history, Expire(id));
      PerformSaved(id);
      hide Run, After, Step, DeltaAfter, ExplainedIn, Ops;
      history := history + [Expire(id)];
      HistoryExplains();
    }

    method PerformSaved(id: nat)
      requires WellFormed() && Enabled(Abs(), Expire(id))
      modifies this`performed, timers
      ensures WellFormed() && Abs() == OnExpire(old(Abs()), id)
    {
      var i := 0;
      while i != id
        invariant i <= id
      {
        i := i + 1;
      }
      timers[i] := timers[i].(active := false);
      performed := performed + [Action(i, timers[i].saved.value)];
    }
  }
}
