/** Discrete inputs: polls of a register become events on change, recorded inputs are reported,
    and each camera runs at most one delayed action, the latest match superseding earlier ones. */
module DiscreteInputs {
  import opened Options

  const UNINITIALIZED: bv8 := 99
  const ALL_SET: bv8 := 7
  const NUM_INPUTS: nat := 3

  /** Configured digital input: its number, and whether its changes are reported. */
  datatype Input = Input(number: nat, recording: bool)

  /** What a camera does on an input reaching a state, `delay` seconds later. */
  datatype Trigger = Trigger(input: nat, state: bool, delay: nat)

  datatype Camera = Camera(controlled: bool, triggers: seq<Trigger>)

  /** `mask` selects the register bits in use. */
  datatype Config = Config(mask: bv8, inputs: seq<Input>, cameras: seq<Camera>)

  /** A camera's timer: the trigger saved for it, and whether it is running. */
  datatype Timer = Timer(saved: Option<nat>, active: bool)

  datatype Message = Message(input: nat, value: bool)
  datatype Action = Action(camera: nat, trigger: nat)

  datatype State = State(
    current: bv8,
    previous: bv8,
    timers: seq<Timer>,
    sent: seq<Message>,
    performed: seq<Action>)

  /** A poll of the register, which may be unknown, or the expiry of a camera's timer. */
  datatype Event = Poll(data: Option<bv8>) | Expire(camera: nat)

  ghost predicate Ok(cfg: Config, s: State) {
    && |s.timers| == |cfg.cameras|
    && forall c :: 0 <= c < |s.timers| ==>
         && (s.timers[c].active ==> s.timers[c].saved.Some?)
         && (s.timers[c].saved.Some? ==> s.timers[c].saved.value < |cfg.cameras[c].triggers|)
  }

  function Init(cfg: Config): (s: State)
    ensures Ok(cfg, s)
  {
    State(UNINITIALIZED, UNINITIALIZED, seq(|cfg.cameras|, _ => Timer(None, false)), [], [])
  }

  // ---------- which inputs changed

  function BitMask(i: nat): bv8
    requires i < NUM_INPUTS
  {
    if i == 0 then 1 else if i == 1 then 2 else 4
  }

  predicate Bit(v: bv8, i: nat)
    requires i < NUM_INPUTS
  {
    v & BitMask(i) != 0
  }

  predicate Numbers(inputs: seq<nat>) {
    forall j :: 0 <= j < |inputs| ==> 1 <= inputs[j] <= NUM_INPUTS
  }

  /** The input numbers, from 1, of the bits set among the first n. */
  function Marked(bits: bv8, n: nat): (r: seq<nat>)
    requires n <= NUM_INPUTS
    ensures forall j :: 0 <= j < |r| ==> 1 <= r[j] <= n
  {
    if n == 0 then [] else Marked(bits, n - 1) + if Bit(bits, n - 1) then [n] else []
  }

  // ---------- one changed input

  function FirstMatch(ts: seq<Trigger>, input: nat, value: bool, from: nat): (t: Option<nat>)
    requires from <= |ts|
    ensures t.Some? ==> from <= t.value < |ts| && ts[t.value].input == input && ts[t.value].state == value
    ensures t.Some? ==> forall j :: from <= j < t.value ==> !(ts[j].input == input && ts[j].state == value)
    ensures t.None? ==> forall j :: from <= j < |ts| ==> !(ts[j].input == input && ts[j].state == value)
    decreases |ts| - from
  {
    if from == |ts| then None
    else if ts[from].input == input && ts[from].state == value then Some(from)
    else FirstMatch(ts, input, value, from + 1)
  }

  function Matched(cam: Camera, input: nat, value: bool): (t: Option<nat>)
    ensures t.Some? ==>
      && cam.controlled && t.value < |cam.triggers|
      && cam.triggers[t.value].input == input && cam.triggers[t.value].state == value
      && forall j :: 0 <= j < t.value ==> !(cam.triggers[j].input == input && cam.triggers[j].state == value)
    ensures t.None? ==>
      !cam.controlled || forall j :: 0 <= j < |cam.triggers| ==>
        !(cam.triggers[j].input == input && cam.triggers[j].state == value)
  {
    if cam.controlled then FirstMatch(cam.triggers, input, value, 0) else None
  }

  /** The first configured input with this number decides whether it is reported. */
  function Recorded(inputs: seq<Input>, number: nat): bool {
    if inputs == [] then false
    else if inputs[0].number == number then inputs[0].recording
    else Recorded(inputs[1..], number)
  }

  /** Input i is the first configured one with this number. */
  ghost predicate FirstWith(inputs: seq<Input>, number: nat, i: nat) {
    && i < |inputs| && inputs[i].number == number
    && forall j :: 0 <= j < i ==> inputs[j].number != number
  }

  lemma FirstWithTail(inputs: seq<Input>, number: nat, i: nat)
    requires inputs != [] && inputs[0].number != number
    ensures FirstWith(inputs[1..], number, i) <==> FirstWith(inputs, number, i + 1)
  {
    if FirstWith(inputs, number, i + 1) {
      assert forall j :: 0 <= j < i ==> inputs[1..][j] == inputs[j + 1];
    }
  }

  lemma {:induction false} RecordedExact(inputs: seq<Input>, number: nat)
    ensures Recorded(inputs, number) <==> exists i: nat :: FirstWith(inputs, number, i) && inputs[i].recording
  {
    if inputs != [] && inputs[0].number == number {
      assert FirstWith(inputs, number, 0);
    } else if inputs != [] {
      RecordedExact(inputs[1..], number);
      forall i: nat { FirstWithTail(inputs, number, i); }
      if i: nat :| FirstWith(inputs, number, i) && inputs[i].recording {
        assert FirstWith(inputs[1..], number, i - 1);
      }
    }
  }

  /** A match is saved; it is delayed, replacing a running timer, or performed at once. */
  function OnMatch(s: State, c: nat, t: nat, delay: nat): State
    requires c < |s.timers|
  {
    if delay > 0 then s.(timers := s.timers[c := Timer(Some(t), true)])
    else s.(timers := s.timers[c := Timer(Some(t), false)], performed := s.performed + [Action(c, t)])
  }

  function CameraTurn(cfg: Config, s: State, c: nat, input: nat, value: bool): (s': State)
    requires Ok(cfg, s) && c < |cfg.cameras|
    ensures Ok(cfg, s')
  {
    match Matched(cfg.cameras[c], input, value)
    case Some(t) => OnMatch(s, c, t, cfg.cameras[c].triggers[t].delay)
    case None => s
  }

  function Cameras(cfg: Config, s: State, input: nat, value: bool, n: nat): (s': State)
    requires Ok(cfg, s) && n <= |cfg.cameras|
    ensures Ok(cfg, s') && s'.previous == s.previous && s'.current == s.current && s'.sent == s.sent
  {
    if n == 0 then s else CameraTurn(cfg, Cameras(cfg, s, input, value, n - 1), n - 1, input, value)
  }

  /** One changed input: report it, then look at every camera. */
  function Changed(cfg: Config, s: State, input: nat): (s': State)
    requires Ok(cfg, s) && 1 <= input <= NUM_INPUTS
    ensures Ok(cfg, s') && s'.previous == s.previous && s'.current == s.current
  {
    var value := Bit(s.current, input - 1);
    var s1 := if Recorded(cfg.inputs, input) then s.(sent := s.sent + [Message(input, value)]) else s;
    Cameras(cfg, s1, input, value, |cfg.cameras|)
  }

  /** `process_discrete_input_data`, for the first n changed inputs. */
  function Process(cfg: Config, s: State, inputs: seq<nat>, n: nat): (s': State)
    requires Ok(cfg, s) && n <= |inputs| && Numbers(inputs)
    ensures Ok(cfg, s') && s'.previous == s.previous && s'.current == s.current
  {
    if n == 0 then s else Changed(cfg, Process(cfg, s, inputs, n - 1), inputs[n - 1])
  }

  // ---------- runs

  function Masked(cfg: Config, data: bv8): bv8 { data & cfg.mask }

  /** The bits in which two values differ. */
  function Differing(a: bv8, b: bv8): bv8 { a ^ b }

  /** A masked value that looks uninitialized is taken for no data. */
  predicate Counts(cfg: Config, data: bv8) { Masked(cfg, data) != UNINITIALIZED }

  predicate Fresh(s: State) { s.previous == UNINITIALIZED }

  /** The inputs a poll finds changed: all of them the first time, later those that differ. */
  function News(cfg: Config, s: State, data: bv8): (inputs: seq<nat>)
    ensures Numbers(inputs)
  {
    var value := Masked(cfg, data);
    if Counts(cfg, data) && (s.previous != value || Fresh(s))
    then Marked(if Fresh(s) then ALL_SET else Differing(value, s.previous), NUM_INPUTS)
    else []
  }

  function Latch(cfg: Config, s: State, data: bv8): (s': State)
    ensures s'.timers == s.timers && s'.sent == s.sent && s'.performed == s.performed
  {
    s.(current := Masked(cfg, data), previous := if Counts(cfg, data) then Masked(cfg, data) else s.previous)
  }

  /** `check_for_event`, the part that reads the register. */
  function OnPoll(cfg: Config, s: State, data: bv8): (s': State)
    requires Ok(cfg, s)
    ensures Ok(cfg, s')
  {
    var news := News(cfg, s, data);
    Process(cfg, Latch(cfg, s, data), news, |news|)
  }

  /** `discreteInputTimerEventHandler`: stop the timer, perform what is saved. */
  function OnExpire(s: State, c: nat): State
    requires c < |s.timers| && s.timers[c].active && s.timers[c].saved.Some?
  {
    s.(timers := s.timers[c := s.timers[c].(active := false)],
       performed := s.performed + [Action(c, s.timers[c].saved.value)])
  }

  /** Only a running timer expires. */
  predicate Enabled(s: State, e: Event) {
    e.Expire? ==> e.camera < |s.timers| && s.timers[e.camera].active
  }

  function Step(cfg: Config, s: State, e: Event): (s': State)
    requires Ok(cfg, s) && Enabled(s, e)
    ensures Ok(cfg, s')
  {
    match e
    case Poll(Some(data)) => OnPoll(cfg, s, data)
    case Poll(None) => s
    case Expire(c) => OnExpire(s, c)
  }

  predicate Run(cfg: Config, es: seq<Event>)
  {
    es == [] || (Run(cfg, es[..|es| - 1]) && Enabled(After(cfg, es[..|es| - 1]), es[|es| - 1]))
  }

  /** The state after a run; events that are not enabled do nothing. */
  function After(cfg: Config, es: seq<Event>): (s: State)
    ensures Ok(cfg, s)
  {
    if es == [] then Init(cfg)
    else
      var s := After(cfg, es[..|es| - 1]);
      if Enabled(s, es[|es| - 1]) then Step(cfg, s, es[|es| - 1]) else s
  }

  // ---------- which bit is which input

  /** Input k is on: the k-th binary digit of the register value. */
  predicate On(data: bv8, k: nat)
    requires 1 <= k <= 3
  {
    data as int / (if k == 1 then 1 else if k == 2 then 2 else 4) % 2 == 1
  }

  lemma FirstBit(data: bv8)
    ensures data & 1 != 0 <==> On(data, 1)
  {}

  lemma SecondBit(data: bv8)
    ensures data & 2 != 0 <==> On(data, 2)
  {}

  lemma ThirdBit(data: bv8)
    ensures data & 4 != 0 <==> On(data, 3)
  {}

  lemma BitIsOn(data: bv8, k: nat)
    requires 1 <= k <= 3
    ensures Bit(data, k - 1) <==> On(data, k)
  {
    FirstBit(data);
    SecondBit(data);
    ThirdBit(data);
    hide On;
  }

  // ---------- delta encoding

  /** Values reported for one input. */
  function Reported(sent: seq<Message>, input: nat): seq<bool> {
    if sent == [] then []
    else Reported(sent[..|sent| - 1], input)
         + if sent[|sent| - 1].input == input then [sent[|sent| - 1].value] else []
  }

  /** The polled signal of input k: polls with unknown data, or that look uninitialized behind the
      mask, do not count. */
  function Signal(cfg: Config, es: seq<Event>, k: nat): seq<bool>
    requires 1 <= k <= 3
  {
    if es == [] then []
    else Signal(cfg, es[..|es| - 1], k)
         + match es[|es| - 1]
           case Poll(Some(data)) => if data & cfg.mask != 99 then [On(data, k)] else []
           case _ => []
  }

  /** A signal without its repetitions: the first value, and every value that differs from the
      one before. */
  function Changes(signal: seq<bool>): seq<bool> {
    if signal == [] then []
    else
      var n := |signal| - 1;
      Changes(signal[..n]) + if n == 0 || signal[n] != signal[n - 1] then [signal[n]] else []
  }

  lemma ReportedSnoc(sent: seq<Message>, m: Message, input: nat)
    ensures Reported(sent + [m], input) == Reported(sent, input) + if m.input == input then [m.value] else []
  {
    assert (sent + [m])[..|sent|] == sent;
  }

  lemma ChangedReports(cfg: Config, s: State, input: nat, k: nat)
    requires Ok(cfg, s) && 1 <= input <= NUM_INPUTS && 1 <= k <= NUM_INPUTS
    ensures Reported(Changed(cfg, s, input).sent, k) == Reported(s.sent, k)
      + if Recorded(cfg.inputs, k) && input == k then [Bit(s.current, k - 1)] else []
  {
    hide Bit, Cameras, Reported;
    ReportedSnoc(s.sent, Message(input, Bit(s.current, input - 1)), k);
  }

  predicate Ascending(inputs: seq<nat>) {
    forall i, j :: 0 <= i < j < |inputs| ==> inputs[i] < inputs[j]
  }

  lemma {:induction false} ProcessReports(cfg: Config, s: State, inputs: seq<nat>, n: nat, k: nat)
    requires Ok(cfg, s) && n <= |inputs| && 1 <= k <= NUM_INPUTS && Numbers(inputs) && Ascending(inputs)
    ensures Reported(Process(cfg, s, inputs, n).sent, k) == Reported(s.sent, k)
      + if Recorded(cfg.inputs, k) && k in inputs[..n] then [Bit(s.current, k - 1)] else []
  {
    hide Bit, Changed, Recorded;
    if n > 0 {
      ProcessReports(cfg, s, inputs, n - 1, k);
      ChangedReports(cfg, Process(cfg, s, inputs, n - 1), inputs[n - 1], k);
      assert inputs[..n] == inputs[..n - 1] + [inputs[n - 1]];
    }
  }

  lemma {:induction false} MarkedIs(bits: bv8, n: nat)
    requires n <= NUM_INPUTS
    ensures var m := Marked(bits, n);
      && Ascending(m)
      && forall k :: k in m <==> 1 <= k <= n && Bit(bits, k - 1)
  {
    hide Bit;
    if n > 0 {
      MarkedIs(bits, n - 1);
      var m := Marked(bits, n - 1);
      forall k ensures k in Marked(bits, n) <==> 1 <= k <= n && Bit(bits, k - 1) {
        assert k in Marked(bits, n) <==> k in m || (k == n && Bit(bits, n - 1));
      }
    }
  }

  lemma BitFacts(value: bv8, previous: bv8, i: nat)
    requires i < NUM_INPUTS
    ensures Bit(Differing(value, previous), i) <==> Bit(value, i) != Bit(previous, i)
    ensures Bit(ALL_SET, i)
  {}

  lemma MaskedBit(cfg: Config, data: bv8, i: nat)
    requires i < NUM_INPUTS && cfg.mask & ALL_SET == ALL_SET
    ensures Bit(Masked(cfg, data), i) == Bit(data, i)
  {}

  lemma MarkedNews(value: bv8, previous: bv8, k: nat)
    requires 1 <= k <= NUM_INPUTS
    ensures k in Marked(ALL_SET, NUM_INPUTS)
    ensures k in Marked(Differing(value, previous), NUM_INPUTS) <==> Bit(value, k - 1) != Bit(previous, k - 1)
    ensures Ascending(Marked(ALL_SET, NUM_INPUTS)) && Ascending(Marked(Differing(value, previous), NUM_INPUTS))
  {
    MarkedIs(ALL_SET, NUM_INPUTS);
    MarkedIs(Differing(value, previous), NUM_INPUTS);
    BitFacts(value, previous, k - 1);
    hide Bit, Marked;
  }

  /** Input k is news exactly when nothing was polled before or its bit differs. */
  lemma NewsIs(cfg: Config, s: State, data: bv8, k: nat)
    requires 1 <= k <= NUM_INPUTS && cfg.mask & ALL_SET == ALL_SET
    ensures var news := News(cfg, s, data);
      && Ascending(news)
      && (k in news <==> Counts(cfg, data) && (Fresh(s) || Bit(data, k - 1) != Bit(s.previous, k - 1)))
  {
    MaskedBit(cfg, data, k - 1);
    hide Bit, Marked, Masked, Differing;
    MarkedNews(Masked(cfg, data), s.previous, k);
  }

  lemma LatchIs(cfg: Config, s: State, data: bv8, k: nat)
    requires 1 <= k <= NUM_INPUTS && cfg.mask & ALL_SET == ALL_SET
    ensures var s1 := Latch(cfg, s, data);
      && Bit(s1.current, k - 1) == Bit(data, k - 1)
      && (if Counts(cfg, data) then !Fresh(s1) && Bit(s1.previous, k - 1) == Bit(data, k - 1)
          else s1.previous == s.previous)
  {
    MaskedBit(cfg, data, k - 1);
    hide Bit, Masked;
  }

  lemma PollReports(cfg: Config, s: State, data: bv8, k: nat)
    requires Ok(cfg, s) && 1 <= k <= NUM_INPUTS && cfg.mask & ALL_SET == ALL_SET
    ensures Reported(OnPoll(cfg, s, data).sent, k) == Reported(s.sent, k)
      + if Recorded(cfg.inputs, k) && Counts(cfg, data) && (Fresh(s) || Bit(data, k - 1) != Bit(s.previous, k - 1))
        then [Bit(data, k - 1)] else []
  {
    var news := News(cfg, s, data);
    NewsIs(cfg, s, data, k);
    LatchIs(cfg, s, data, k);
    hide Bit, Process, News, Latch, Counts, Fresh, Recorded, Reported;
    ProcessReports(cfg, Latch(cfg, s, data), news, |news|, k);
    assert news[..|news|] == news;
  }

  /** The state of one input explained by its signal. */
  ghost predicate Delta(cfg: Config, s: State, signal: seq<bool>, k: nat)
    requires 1 <= k <= 3
  {
    && Reported(s.sent, k) == (if Recorded(cfg.inputs, k) then Changes(signal) else [])
    && (s.previous == 99 <==> signal == [])
    && (signal != [] ==> On(s.previous, k) == signal[|signal| - 1])
  }

  /** The same of input k, for the signal polled in a run. */
  ghost predicate DeltaAfter(cfg: Config, s: State, es: seq<Event>, k: nat)
    requires 1 <= k <= 3
  {
    Delta(cfg, s, Signal(cfg, es, k), k)
  }

  lemma ChangesSnoc(signal: seq<bool>, b: bool)
    ensures Changes(signal + [b])
      == Changes(signal) + if signal == [] || b != signal[|signal| - 1] then [b] else []
  {
    assert (signal + [b])[..|signal|] == signal;
  }

  lemma PollDelta(cfg: Config, s: State, data: bv8, signal: seq<bool>, k: nat)
    requires Ok(cfg, s) && 1 <= k <= NUM_INPUTS && cfg.mask & ALL_SET == ALL_SET && Delta(cfg, s, signal, k)
    ensures Delta(cfg, OnPoll(cfg, s, data), signal + if Counts(cfg, data) then [On(data, k)] else [], k)
  {
    PollReports(cfg, s, data, k);
    LatchIs(cfg, s, data, k);
    KeepsLatch(cfg, s, data);
    BitIsOn(data, k);
    BitIsOn(s.previous, k);
    BitIsOn(OnPoll(cfg, s, data).previous, k);
    hide Bit, On, News, Latch, Counts, Recorded, OnPoll, Reported, Delta, Fresh;
    DeltaStep(cfg, s, OnPoll(cfg, s, data), signal, Counts(cfg, data), On(data, k), k);
  }

  lemma DeltaStep(cfg: Config, s: State, s': State, signal: seq<bool>, counts: bool, b: bool, k: nat)
    requires 1 <= k <= 3 && Delta(cfg, s, signal, k)
    requires Reported(s'.sent, k) == Reported(s.sent, k)
      + if Recorded(cfg.inputs, k) && counts && (s.previous == 99 || b != On(s.previous, k)) then [b] else []
    requires if counts then s'.previous != 99 && On(s'.previous, k) == b else s'.previous == s.previous
    ensures Delta(cfg, s', signal + if counts then [b] else [], k)
  {
    hide On, Recorded, Reported, Changes;
    if counts { ChangesSnoc(signal, b); } else { assert signal + [] == signal; }
  }

  lemma KeepsLatch(cfg: Config, s: State, data: bv8)
    requires Ok(cfg, s)
    ensures OnPoll(cfg, s, data).previous == Latch(cfg, s, data).previous
  {
    hide News, Latch;
  }

  /** Delta encoding, for every run: with a mask that covers the three inputs, the values reported
      for a recorded input are its polled signal without repetitions, one at the first poll and
      one per change; an input that is not recorded is never reported. */
  lemma {:induction false} ReportsAreChanges(cfg: Config, es: seq<Event>, k: nat)
    requires 1 <= k <= 3 && cfg.mask & ALL_SET == ALL_SET
    ensures Delta(cfg, After(cfg, es), Signal(cfg, es, k), k)
  {
    if es != [] {
      var before, e := es[..|es| - 1], es[|es| - 1];
      ReportsAreChanges(cfg, before, k);
      var signal := Signal(cfg, before, k);
      hide Bit, On, OnPoll, Recorded, Reported;
      match e
      case Poll(Some(data)) => PollDelta(cfg, After(cfg, before), data, signal, k);
      case Poll(None) => assert signal + [] == signal;
      case Expire(_) => assert signal + [] == signal;
    }
  }

  function CountChanges(signal: seq<bool>): nat {
    if |signal| < 2 then 0
    else CountChanges(signal[..|signal| - 1]) + if signal[|signal| - 1] != signal[|signal| - 2] then 1 else 0
  }

  /** The reports of a signal tell its latest value, and there is one more of them than changes. */
  lemma {:induction false} ReplayIsCurrent(signal: seq<bool>)
    requires signal != []
    ensures var c := Changes(signal);
      |c| == 1 + CountChanges(signal) && c[|c| - 1] == signal[|signal| - 1]
  {
    if |signal| > 1 { ReplayIsCurrent(signal[..|signal| - 1]); } else { assert signal[..0] == []; }
  }

  /** Replay, for every run: once something has been polled, the last value reported for a recorded
      input is the bit of the latest poll, and there is one report more than the input changed. */
  lemma ReplayTellsInput(cfg: Config, es: seq<Event>, k: nat)
    requires 1 <= k <= 3 && cfg.mask & ALL_SET == ALL_SET
    requires Recorded(cfg.inputs, k) && Signal(cfg, es, k) != []
    ensures var reports := Reported(After(cfg, es).sent, k);
      && |reports| == 1 + CountChanges(Signal(cfg, es, k))
      && reports[|reports| - 1] == Latest(cfg, es, k)
  {
    hide Signal, Changes, Reported, CountChanges, Recorded, Fresh, On, After, Latest;
    ReportsAreChanges(cfg, es, k);
    ReplayIsCurrent(Signal(cfg, es, k));
    LatestIsLast(cfg, es, k);
  }

  /** Input k in the latest poll that counts. */
  function Latest(cfg: Config, es: seq<Event>, k: nat): bool
    requires 1 <= k <= 3
  {
    if es == [] then false
    else match es[|es| - 1]
      case Poll(Some(data)) => if data & cfg.mask != 99 then On(data, k) else Latest(cfg, es[..|es| - 1], k)
      case _ => Latest(cfg, es[..|es| - 1], k)
  }

  lemma {:induction false} LatestIsLast(cfg: Config, es: seq<Event>, k: nat)
    requires 1 <= k <= 3
    ensures var signal := Signal(cfg, es, k); signal != [] ==> signal[|signal| - 1] == Latest(cfg, es, k)
  {
    hide On;
    if es != [] { LatestIsLast(cfg, es[..|es| - 1], k); }
  }

  // ---------- superseding timers

  /** What happens to one camera. */
  datatype Op = Match(trigger: nat) | Expiry

  function MatchOf(cfg: Config, c: nat, input: nat, value: bool): (ops: seq<Op>)
    requires c < |cfg.cameras|
  {
    match Matched(cfg.cameras[c], input, value)
    case Some(t) => [Match(t)]
    case None => []
  }

  function MatchOps(cfg: Config, s: State, inputs: seq<nat>, n: nat, c: nat): (ops: seq<Op>)
    requires c < |cfg.cameras| && n <= |inputs| && Numbers(inputs)
  {
    if n == 0 then []
    else MatchOps(cfg, s, inputs, n - 1, c) + MatchOf(cfg, c, inputs[n - 1], Bit(s.current, inputs[n - 1] - 1))
  }

  /** The matches a poll makes for a camera among the first n inputs: those inputs that changed, or
      all when nothing was polled before, in order and with their new values. */
  function PollMatches(cfg: Config, c: nat, previous: bv8, value: bv8, n: nat): seq<Op>
    requires c < |cfg.cameras| && n <= 3
  {
    if n == 0 then []
    else PollMatches(cfg, c, previous, value, n - 1)
         + if previous == 99 || On(value, n) != On(previous, n) then MatchOf(cfg, c, n, On(value, n)) else []
  }

  lemma MatchOpsSnoc(cfg: Config, s: State, inputs: seq<nat>, input: nat, c: nat)
    requires c < |cfg.cameras| && Numbers(inputs) && 1 <= input <= NUM_INPUTS
    ensures MatchOps(cfg, s, inputs + [input], |inputs| + 1, c)
      == MatchOps(cfg, s, inputs, |inputs|, c) + MatchOf(cfg, c, input, Bit(s.current, input - 1))
  {
    hide Bit, MatchOf;
    MatchOpsFrame(cfg, s, inputs, inputs + [input], |inputs|, c);
  }

  lemma {:induction false} MatchOpsFrame(cfg: Config, s: State, a: seq<nat>, b: seq<nat>, n: nat, c: nat)
    requires c < |cfg.cameras| && Numbers(a) && Numbers(b) && n <= |a| && n <= |b|
    requires forall j :: 0 <= j < n ==> a[j] == b[j]
    ensures MatchOps(cfg, s, a, n, c) == MatchOps(cfg, s, b, n, c)
  {
    hide Bit, MatchOf;
    if n > 0 { MatchOpsFrame(cfg, s, a, b, n - 1, c); }
  }

  /** The bit of input k is marked exactly when the input changed or nothing was polled before. */
  ghost predicate MarksAt(bits: bv8, previous: bv8, value: bv8, k: nat)
    requires 1 <= k <= 3
  {
    Bit(bits, k - 1) <==> previous == 99 || On(value, k) != On(previous, k)
  }

  ghost predicate Marks(bits: bv8, previous: bv8, value: bv8) {
    forall k :: 1 <= k <= 3 ==> MarksAt(bits, previous, value, k)
  }

  lemma PollMatchesStep(cfg: Config, s: State, previous: bv8, bits: bv8, n: nat, c: nat)
    requires c < |cfg.cameras| && 1 <= n <= 3 && MarksAt(bits, previous, s.current, n)
    requires var inputs := Marked(bits, n - 1);
      MatchOps(cfg, s, inputs, |inputs|, c) == PollMatches(cfg, c, previous, s.current, n - 1)
    ensures var inputs := Marked(bits, n);
      MatchOps(cfg, s, inputs, |inputs|, c) == PollMatches(cfg, c, previous, s.current, n)
  {
    hide Bit, On, MatchOf, MatchOps;
    MatchOpsSnoc(cfg, s, Marked(bits, n - 1), n, c);
    BitIsOn(s.current, n);
    var inputs := Marked(bits, n - 1);
    if !Bit(bits, n - 1) { assert inputs + [] == inputs; }
  }

  lemma {:induction false} MarkedMatches(cfg: Config, s: State, previous: bv8, bits: bv8, n: nat, c: nat)
    requires c < |cfg.cameras| && n <= 3 && Marks(bits, previous, s.current)
    ensures var inputs := Marked(bits, n);
      MatchOps(cfg, s, inputs, |inputs|, c) == PollMatches(cfg, c, previous, s.current, n)
  {
    hide Bit, On, MatchOf, MarksAt;
    if n > 0 {
      MarkedMatches(cfg, s, previous, bits, n - 1, c);
      PollMatchesStep(cfg, s, previous, bits, n, c);
    }
  }

  lemma DifferingOn(value: bv8, previous: bv8, k: nat)
    requires 1 <= k <= 3
    ensures Bit(Differing(value, previous), k - 1) <==> On(value, k) != On(previous, k)
    ensures Bit(ALL_SET, k - 1)
  {
    BitFacts(value, previous, k - 1);
    BitIsOn(value, k);
    BitIsOn(previous, k);
    hide Bit, On, Differing;
  }

  lemma NewsMarks(value: bv8, previous: bv8)
    ensures Marks(if previous == 99 then ALL_SET else Differing(value, previous), previous, value)
  {
    hide Bit, On, Differing;
    var bits := if previous == 99 then ALL_SET else Differing(value, previous);
    forall k | 1 <= k <= 3 ensures MarksAt(bits, previous, value, k) { DifferingOn(value, previous, k); }
  }

  lemma NewsAre(cfg: Config, s: State, data: bv8)
    ensures Latch(cfg, s, data).current == data & cfg.mask
    ensures var value := data & cfg.mask;
      News(cfg, s, data) == if value == 99 || value == s.previous then []
        else Marked(if s.previous == 99 then ALL_SET else Differing(value, s.previous), 3)
  {
    hide Marked, Differing;
  }

  /** The news of a poll make exactly those matches. */
  lemma NewsMatches(cfg: Config, s: State, data: bv8, c: nat)
    requires c < |cfg.cameras|
    ensures var news := News(cfg, s, data);
      MatchOps(cfg, Latch(cfg, s, data), news, |news|, c) == OpsOf(cfg, s, Poll(Some(data)), c)
  {
    hide Bit, On, Differing, MatchOf, PollMatches, Marks, Marked, News, Latch;
    NewsAre(cfg, s, data);
    var value := data & cfg.mask;
    if value == s.previous {
      if value != 99 { NoMatches(cfg, c, value, 3); }
    } else if value != 99 {
      NewsMarks(value, s.previous);
      var bits := if s.previous == 99 then ALL_SET else Differing(value, s.previous);
      MarkedMatches(cfg, Latch(cfg, s, data), s.previous, bits, 3, c);
    }
  }

  lemma {:induction false} NoMatches(cfg: Config, c: nat, value: bv8, n: nat)
    requires c < |cfg.cameras| && n <= 3 && value != 99
    ensures PollMatches(cfg, c, value, value, n) == []
  {
    if n > 0 { NoMatches(cfg, c, value, n - 1); }
  }

  function OpsOf(cfg: Config, s: State, e: Event, c: nat): seq<Op>
    requires c < |cfg.cameras|
  {
    match e
    case Poll(Some(data)) =>
      if data & cfg.mask == 99 then [] else PollMatches(cfg, c, s.previous, data & cfg.mask, 3)
    case Poll(None) => []
    case Expire(camera) => if camera == c then [Expiry] else []
  }

  /** The history of one camera. */
  function Ops(cfg: Config, es: seq<Event>, c: nat): seq<Op>
    requires c < |cfg.cameras|
  {
    if es == [] then [] else Ops(cfg, es[..|es| - 1], c) + OpsOf(cfg, After(cfg, es[..|es| - 1]), es[|es| - 1], c)
  }

  /** Triggers performed for one camera. */
  function For(performed: seq<Action>, c: nat): seq<nat> {
    if performed == [] then []
    else For(performed[..|performed| - 1], c)
         + if performed[|performed| - 1].camera == c then [performed[|performed| - 1].trigger] else []
  }

  lemma ForSnoc(performed: seq<Action>, a: Action, c: nat)
    ensures For(performed + [a], c) == For(performed, c) + if a.camera == c then [a.trigger] else []
  {
    assert (performed + [a])[..|performed|] == performed;
  }

  predicate Delayed(ts: seq<Trigger>, o: Op) {
    o.Match? && o.trigger < |ts| && ts[o.trigger].delay > 0
  }

  /** A match is performed exactly when it is immediate or the next thing to happen to its camera
      is the expiry of the timer. */
  predicate Fires(ts: seq<Trigger>, ops: seq<Op>, i: nat)
    requires i < |ops|
  {
    && ops[i].Match? && ops[i].trigger < |ts|
    && (ts[ops[i].trigger].delay == 0 || (i + 1 < |ops| && ops[i + 1].Expiry?))
  }

  /** The triggers of the first n matches that fire, in order. */
  function Firing(ts: seq<Trigger>, ops: seq<Op>, n: nat): seq<nat>
    requires n <= |ops|
  {
    if n == 0 then []
    else Firing(ts, ops, n - 1) + if Fires(ts, ops, n - 1) then [ops[n - 1].trigger] else []
  }

  /** The state of one camera explained by its history: what was performed, what is saved, and
      that its timer runs exactly when the last thing that happened is a delayed match. */
  ghost predicate Explained(ts: seq<Trigger>, ops: seq<Op>, timer: Timer, performed: seq<nat>) {
    && performed == Firing(ts, ops, |ops|)
    && (timer.active <==> ops != [] && Delayed(ts, ops[|ops| - 1]))
    && (timer.active ==> timer.saved == Some(ops[|ops| - 1].trigger))
    && (forall i :: 0 <= i < |ops| && ops[i].Expiry? ==> i > 0 && Delayed(ts, ops[i - 1]))
  }

  lemma {:induction false} FiringFrame(ts: seq<Trigger>, ops: seq<Op>, more: seq<Op>, n: nat)
    requires n < |ops| || (n == |ops| && (more == [] || !more[0].Expiry?))
    ensures Firing(ts, ops + more, n) == Firing(ts, ops, n)
  {
    if n > 0 { FiringFrame(ts, ops, more, n - 1); }
  }

  lemma ExplainMatch(ts: seq<Trigger>, ops: seq<Op>, timer: Timer, performed: seq<nat>, t: nat)
    requires Explained(ts, ops, timer, performed) && t < |ts|
    ensures Explained(ts, ops + [Match(t)], Timer(Some(t), ts[t].delay > 0),
                      performed + if ts[t].delay > 0 then [] else [t])
  {
    FiringFrame(ts, ops, [Match(t)], |ops|);
  }

  lemma ExplainExpiry(ts: seq<Trigger>, ops: seq<Op>, timer: Timer, performed: seq<nat>)
    requires Explained(ts, ops, timer, performed) && timer.active && timer.saved.Some?
    ensures Explained(ts, ops + [Expiry], timer.(active := false), performed + [timer.saved.value])
  {
    var n := |ops| - 1;
    FiringFrame(ts, ops, [Expiry], n);
    assert Firing(ts, ops + [Expiry], n + 1) == Firing(ts, ops, n) + [ops[n].trigger];
  }

  /** What a changed input does to the timer of a camera and to the triggers performed for it. */
  ghost predicate Turned(cfg: Config, s: State, s': State, input: nat, value: bool, c: nat)
    requires Ok(cfg, s) && Ok(cfg, s') && c < |cfg.cameras|
  {
    match Matched(cfg.cameras[c], input, value)
    case Some(t) =>
      var delay := cfg.cameras[c].triggers[t].delay;
      && s'.timers[c] == Timer(Some(t), delay > 0)
      && For(s'.performed, c) == For(s.performed, c) + if delay > 0 then [] else [t]
    case None => s'.timers[c] == s.timers[c] && For(s'.performed, c) == For(s.performed, c)
  }

  ghost predicate SameCamera(cfg: Config, s: State, s': State, c: nat)
    requires Ok(cfg, s) && Ok(cfg, s') && c < |cfg.cameras|
  {
    s'.timers[c] == s.timers[c] && For(s'.performed, c) == For(s.performed, c)
  }

  lemma CameraTurned(cfg: Config, s: State, input: nat, value: bool, d: nat, c: nat)
    requires Ok(cfg, s) && c < |cfg.cameras| && d < |cfg.cameras|
    ensures var s' := CameraTurn(cfg, s, d, input, value);
      if c == d then Turned(cfg, s, s', input, value, c) else SameCamera(cfg, s, s', c)
  {
    match Matched(cfg.cameras[d], input, value)
    case Some(t) => ForSnoc(s.performed, Action(d, t), c);
    case None =>
  }

  lemma TurnedAround(cfg: Config, s: State, a: State, b: State, s': State, input: nat, value: bool, c: nat)
    requires Ok(cfg, s) && Ok(cfg, a) && Ok(cfg, b) && Ok(cfg, s') && c < |cfg.cameras|
    requires SameCamera(cfg, s, a, c) && Turned(cfg, a, b, input, value, c) && SameCamera(cfg, b, s', c)
    ensures Turned(cfg, s, s', input, value, c)
  {
    hide Matched, For;
  }

  /** Camera turns before and after c's leave camera c alone. */
  lemma {:induction false} CamerasTurn(cfg: Config, s: State, input: nat, value: bool, n: nat, c: nat)
    requires Ok(cfg, s) && n <= |cfg.cameras| && c < |cfg.cameras|
    ensures var s' := Cameras(cfg, s, input, value, n);
      if c < n then Turned(cfg, s, s', input, value, c) else SameCamera(cfg, s, s', c)
  {
    hide CameraTurn, Turned, For;
    if n > 0 {
      CamerasTurn(cfg, s, input, value, n - 1, c);
      var s1, s' := Cameras(cfg, s, input, value, n - 1), Cameras(cfg, s, input, value, n);
      CameraTurned(cfg, s1, input, value, n - 1, c);
      if c < n - 1 {
        TurnedAround(cfg, s, s, s1, s', input, value, c);
      } else if c == n - 1 {
        TurnedAround(cfg, s, s1, s', s', input, value, c);
      }
    }
  }

  ghost predicate ExplainedIn(cfg: Config, s: State, ops: seq<Op>, c: nat)
    requires Ok(cfg, s) && c < |cfg.cameras|
  {
    Explained(cfg.cameras[c].triggers, ops, s.timers[c], For(s.performed, c))
  }

  lemma ChangedExplained(cfg: Config, s: State, input: nat, c: nat, ops: seq<Op>)
    requires Ok(cfg, s) && c < |cfg.cameras| && 1 <= input <= NUM_INPUTS && ExplainedIn(cfg, s, ops, c)
    ensures ExplainedIn(cfg, Changed(cfg, s, input), ops + MatchOf(cfg, c, input, Bit(s.current, input - 1)), c)
  {
    hide Bit, Recorded, Explained;
    var value := Bit(s.current, input - 1);
    var s1 := if Recorded(cfg.inputs, input) then s.(sent := s.sent + [Message(input, value)]) else s;
    CamerasTurn(cfg, s1, input, value, |cfg.cameras|, c);
    match Matched(cfg.cameras[c], input, value)
    case Some(t) => ExplainMatch(cfg.cameras[c].triggers, ops, s.timers[c], For(s.performed, c), t);
    case None => assert ops + [] == ops && For(s.performed, c) + [] == For(s.performed, c);
  }

  lemma {:induction false} ProcessExplained(cfg: Config, s: State, inputs: seq<nat>, n: nat, c: nat, ops: seq<Op>)
    requires Ok(cfg, s) && c < |cfg.cameras| && n <= |inputs| && Numbers(inputs)
    requires ExplainedIn(cfg, s, ops, c)
    ensures ExplainedIn(cfg, Process(cfg, s, inputs, n), ops + MatchOps(cfg, s, inputs, n, c), c)
  {
    hide Bit, Changed, ExplainedIn, MatchOf;
    if n == 0 {
      assert ops + [] == ops;
    } else {
      ProcessExplained(cfg, s, inputs, n - 1, c, ops);
      var before := ops + MatchOps(cfg, s, inputs, n - 1, c);
      ChangedExplained(cfg, Process(cfg, s, inputs, n - 1), inputs[n - 1], c, before);
      assert ops + MatchOps(cfg, s, inputs, n, c)
        == before + MatchOf(cfg, c, inputs[n - 1], Bit(s.current, inputs[n - 1] - 1));
    }
  }

  lemma PollExplained(cfg: Config, s: State, data: bv8, c: nat, ops: seq<Op>)
    requires Ok(cfg, s) && c < |cfg.cameras| && ExplainedIn(cfg, s, ops, c)
    ensures ExplainedIn(cfg, OnPoll(cfg, s, data), ops + OpsOf(cfg, s, Poll(Some(data)), c), c)
  {
    NewsMatches(cfg, s, data, c);
    hide News, Process, Bit, On, MatchOps, Explained, Counts, OpsOf, PollMatches;
    var news := News(cfg, s, data);
    ProcessExplained(cfg, Latch(cfg, s, data), news, |news|, c, ops);
  }

  lemma ExpireExplained(cfg: Config, s: State, camera: nat, c: nat, ops: seq<Op>)
    requires Ok(cfg, s) && c < |cfg.cameras| && ExplainedIn(cfg, s, ops, c) && Enabled(s, Expire(camera))
    ensures ExplainedIn(cfg, OnExpire(s, camera), ops + OpsOf(cfg, s, Expire(camera), c), c)
  {
    ForSnoc(s.performed, Action(camera, s.timers[camera].saved.value), c);
    hide Explained;
    if camera == c {
      ExplainExpiry(cfg.cameras[c].triggers, ops, s.timers[c], For(s.performed, c));
    } else {
      assert ops + [] == ops;
    }
  }

  /** Superseding timers, for every run and camera: the actions performed are exactly the matches
      that are immediate or whose timer expires before the next match, in the order of the
      matches; so an earlier trigger is dropped exactly when a later match comes first. A camera
      has a pending action exactly when its last match was delayed, and it is that match. */
  lemma {:induction false} PerformedIsFiring(cfg: Config, es: seq<Event>, c: nat)
    requires c < |cfg.cameras| && Run(cfg, es)
    ensures ExplainedIn(cfg, After(cfg, es), Ops(cfg, es, c), c)
  {
    if es != [] {
      var before, e := es[..|es| - 1], es[|es| - 1];
      PerformedIsFiring(cfg, before, c);
      var s, ops := After(cfg, before), Ops(cfg, before, c);
      hide ExplainedIn, OnPoll, PollMatches;
      match e
      case Poll(Some(data)) => PollExplained(cfg, s, data, c, ops);
      case Poll(None) => assert ops + [] == ops;
      case Expire(camera) => ExpireExplained(cfg, s, camera, c, ops);
    }
  }
}
