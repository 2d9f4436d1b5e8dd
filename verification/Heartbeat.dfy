/**
 Heartbeat producer and the consumer-side monitor of one remote node, with
 the grammar of the monitor's event log.
 */
module Heartbeat {
  import opened Types
  import opened Nmt

  // ---- Producer ----

  datatype Producer = Producer(nodeId: nat, intervalUs: nat, lastSentUs: U64)

  function HeartbeatFrame(nodeId: nat, s: NmtState): CanFrame {
    CanFrame(0x700 + nodeId, [HeartbeatByte(s)])
  }

  /** The heartbeat due at `now`, if any; sending is confirmed separately. */
  function Due(p: Producer, now: U64, s: NmtState): Option<CanFrame> {
    if p.intervalUs != 0 && Elapsed(now, p.lastSentUs) >= p.intervalUs then Some(HeartbeatFrame(p.nodeId, s)) else None
  }

  // ---- Monitor ----

  datatype MonitorState =
    | Waiting
    | Alive(nmt: NmtState, lastSeenUs: U64)
    | Timeout(lastNmt: NmtState, lastSeenUs: U64, timedOutUs: U64)

  datatype Event =
    | Started(state: NmtState)
    | Changed(old_: NmtState, new_: NmtState)
    | RemoteReset
    | TimedOut
    | Recovered(state: NmtState)

  datatype Monitor = Monitor(nodeId: nat, timeoutMs: nat, state: MonitorState)

  function NewMonitor(nodeId: nat, timeoutMs: nat): Monitor {
    Monitor(nodeId, timeoutMs, Waiting)
  }

  /** Events a valid heartbeat state produces. */
  function FrameEvents(m: MonitorState, new_: NmtState): (es: seq<Event>)
    ensures |es| <= 2
  {
    match m
    case Waiting => [Started(new_)]
    case Alive(old_, _) =>
      if new_ == old_ then []
      else if new_.Initializing? then [Changed(old_, new_), RemoteReset]
      else [Changed(old_, new_)]
    case Timeout(last, _, _) =>
      if new_.Initializing? && !last.Initializing? then [Recovered(new_), RemoteReset] else [Recovered(new_)]
  }

  /** Effect of a heartbeat frame from `node`. */
  function Received(m: Monitor, node: nat, byte: bv8, now: U64): (Monitor, seq<Event>) {
    if node != m.nodeId || FromHeartbeatByte(byte).None? then (m, [])
    else
      var s := FromHeartbeatByte(byte).value;
      (m.(state := Alive(s, now)), FrameEvents(m.state, s))
  }

  predicate Overdue(m: Monitor, now: U64) {
    m.state.Alive? && m.timeoutMs != 0 && Elapsed(now, m.state.lastSeenUs) > m.timeoutMs * 1000
  }

  /** Effect of a timeout check. */
  function Checked(m: Monitor, now: U64): (Monitor, seq<Event>) {
    if Overdue(m, now)
    then (m.(state := Timeout(m.state.nmt, m.state.lastSeenUs, now)), [TimedOut])
    else (m, [])
  }

  class HeartbeatMonitor {
    const nodeId: nat
    const timeoutMs: nat
    var state: MonitorState

    ghost function View(): Monitor
      reads this
    {
      Monitor(nodeId, timeoutMs, state)
    }

    constructor (nodeId: nat, timeoutMs: nat)
      ensures View() == NewMonitor(nodeId, timeoutMs)
    {
      this.nodeId, this.timeoutMs := nodeId, timeoutMs;
      state := Waiting;
    }

    /** Feeds a frame; pushes into a two-slot buffer that silently refuses a third event. */
    method Process(node: nat, byte: bv8, now: U64) returns (ours: bool, events: seq<Event>)
      modifies this
      ensures (View(), events) == Received(old(View()), node, byte, now)
      ensures ours == (node == nodeId)
    {
      events := [];
      if node != nodeId {
        return false, events;
      }
      var decoded := FromHeartbeatByte(byte);
      if decoded.None? {
        return true, events;
      }
      var new_ := decoded.value;
      match state {
        case Waiting =>
          events := Push(events, Started(new_));
        case Alive(old_, _) =>
          if new_ != old_ {
            events := Push(events, Changed(old_, new_));
            if new_.Initializing? {
              events := Push(events, RemoteReset);
            }
          }
        case Timeout(last, _, _) =>
          events := Push(events, Recovered(new_));
          if new_.Initializing? && !last.Initializing? {
            events := Push(events, RemoteReset);
          }
      }
      assert events == FrameEvents(state, new_);
      state := Alive(new_, now);
      ours := true;
    }

    method CheckTimeout(now: U64) returns (events: seq<Event>)
      modifies this
      ensures (View(), events) == Checked(old(View()), now)
    {
      events := [];
      if state.Alive? {
        if timeoutMs != 0 && Elapsed(now, state.lastSeenUs) > timeoutMs * 1000 {
          state := Timeout(state.nmt, state.lastSeenUs, now);
          events := [TimedOut];
        }
      }
    }
  }

  /** `heapless::Vec<_, 2>::push`, its result discarded. */
  function Push(buffer: seq<Event>, e: Event): seq<Event> {
    if |buffer| < 2 then buffer + [e] else buffer
  }

  // ---- Every run ----

  datatype Input = Frame(node: nat, byte: bv8, at: U64) | Check(at: U64)

  function Step(m: Monitor, i: Input): (Monitor, seq<Event>) {
    match i
    case Frame(node, byte, at) => Received(m, node, byte, at)
    case Check(at) => Checked(m, at)
  }

  function Run(m: Monitor, inputs: seq<Input>): Monitor {
    if inputs == [] then m else Step(Run(m, inputs[..|inputs| - 1]), inputs[|inputs| - 1]).0
  }

  /** All events of a run, in order. */
  function Log(m: Monitor, inputs: seq<Input>): seq<Event> {
    if inputs == [] then []
    else
      var front := inputs[..|inputs| - 1];
      Log(m, front) + Step(Run(m, front), inputs[|inputs| - 1]).1
  }

  /**
   What an observer reconstructs from the log alone. `Tracking(s, t, r)`: last
   reported state `s`, timed out if `t`, a `RemoteReset` announcement due if
   `r`. `Broken` marks a log outside the grammar.
   */
  datatype Observer = Nothing | Tracking(state: NmtState, timedOut: bool, resetDue: bool) | Broken

  function Observe(o: Observer, e: Event): Observer {
    match (o, e)
    case (Nothing, Started(s)) => Tracking(s, false, false)
    case (Tracking(s, false, false), Changed(old_, new_)) =>
      if old_ == s && new_ != s then Tracking(new_, false, new_.Initializing?) else Broken
    case (Tracking(s, false, false), TimedOut) => Tracking(s, true, false)
    case (Tracking(s, true, false), Recovered(new_)) =>
      Tracking(new_, false, new_.Initializing? && !s.Initializing?)
    case (Tracking(s, false, true), RemoteReset) => Tracking(s, false, false)
    case _ => Broken
  }

  function Replay(log: seq<Event>): Observer {
    if log == [] then Nothing else Observe(Replay(log[..|log| - 1]), log[|log| - 1])
  }

  function Seen(m: MonitorState): Observer {
    match m
    case Waiting => Nothing
    case Alive(s, _) => Tracking(s, false, false)
    case Timeout(s, _, _) => Tracking(s, true, false)
  }

  lemma ReplaySnoc(log: seq<Event>, e: Event)
    ensures Replay(log + [e]) == Observe(Replay(log), e)
  {
    assert (log + [e])[..|log|] == log;
  }

  lemma ReplayStep(log: seq<Event>, m: Monitor, i: Input)
    requires Replay(log) == Seen(m.state)
    ensures Replay(log + Step(m, i).1) == Seen(Step(m, i).0.state)
  {
    var es := Step(m, i).1;
    if |es| == 0 {
      assert log + es == log;
    } else if |es| == 1 {
      assert log + es == log + [es[0]];
      ReplaySnoc(log, es[0]);
    } else {
      assert log + es == log + [es[0]] + [es[1]];
      ReplaySnoc(log, es[0]);
      ReplaySnoc(log + [es[0]], es[1]);
    }
  }

  /**
   The event log is complete: whatever the run, replaying it yields exactly the
   monitor's view, so the log lies in the grammar. `Started` comes once and
   first, `TimedOut` and `Recovered` alternate, and each `RemoteReset` follows
   at once upon, and only upon, a report of boot-up after another state.
   */
  lemma {:induction false} LogIsComplete(nodeId: nat, timeoutMs: nat, inputs: seq<Input>)
    ensures Replay(Log(NewMonitor(nodeId, timeoutMs), inputs)) == Seen(Run(NewMonitor(nodeId, timeoutMs), inputs).state)
  {
    var m := NewMonitor(nodeId, timeoutMs);
    if inputs != [] {
      var front := inputs[..|inputs| - 1];
      LogIsComplete(nodeId, timeoutMs, front);
      ReplayStep(Log(m, front), Run(m, front), inputs[|inputs| - 1]);
    }
  }

  lemma {:induction false} ReplayPrefix(log: seq<Event>, n: nat)
    requires n <= |log| && !Replay(log).Broken?
    ensures !Replay(log[..n]).Broken?
  {
    if n < |log| {
      ReplayPrefix(log[..|log| - 1], n);
      assert log[..|log| - 1][..n] == log[..n];
    } else {
      assert log[..n] == log;
    }
  }

  lemma ReplayAt(log: seq<Event>, k: nat)
    requires k < |log| && !Replay(log).Broken?
    ensures !Replay(log[..k]).Broken?
    ensures Observe(Replay(log[..k]), log[k]) == Replay(log[..k + 1]) && !Replay(log[..k + 1]).Broken?
  {
    ReplayPrefix(log, k);
    ReplayPrefix(log, k + 1);
    assert log[..k + 1][..k] == log[..k];
  }

  /** `Started` occurs once and first. */
  lemma StartedOnceAndFirst(nodeId: nat, timeoutMs: nat, inputs: seq<Input>, k: nat)
    requires k < |Log(NewMonitor(nodeId, timeoutMs), inputs)|
    ensures Log(NewMonitor(nodeId, timeoutMs), inputs)[k].Started? <==> k == 0
  {
    var log := Log(NewMonitor(nodeId, timeoutMs), inputs);
    LogIsComplete(nodeId, timeoutMs, inputs);
    ReplayAt(log, k);
    if k > 0 {
      NothingOnlyAtStart(log[..k]);
    }
  }

  lemma NothingOnlyAtStart(log: seq<Event>)
    requires log != []
    ensures !Replay(log).Nothing?
  {
  }

  /** The last timeout-related event of a log: true after `TimedOut`, false after `Recovered` or none. */
  function Silenced(log: seq<Event>): bool {
    if log == [] then false
    else match log[|log| - 1]
      case TimedOut => true
      case Recovered(_) => false
      case _ => Silenced(log[..|log| - 1])
  }

  lemma {:induction false} ReplaySilenced(log: seq<Event>)
    requires !Replay(log).Broken?
    ensures Replay(log).Tracking? ==> Replay(log).timedOut == Silenced(log)
    ensures Replay(log).Nothing? ==> log == []
  {
    if log != [] {
      ReplaySilenced(log[..|log| - 1]);
    }
  }

  /** `TimedOut` and `Recovered` strictly alternate, `TimedOut` first. */
  lemma TimeoutsAlternate(nodeId: nat, timeoutMs: nat, inputs: seq<Input>, k: nat)
    requires k < |Log(NewMonitor(nodeId, timeoutMs), inputs)|
    ensures var log := Log(NewMonitor(nodeId, timeoutMs), inputs);
            (log[k].TimedOut? ==> !Silenced(log[..k])) && (log[k].Recovered? ==> Silenced(log[..k]))
  {
    var log := Log(NewMonitor(nodeId, timeoutMs), inputs);
    LogIsComplete(nodeId, timeoutMs, inputs);
    ReplayAt(log, k);
    ReplaySilenced(log[..k]);
    hide Log, Replay, Silenced;
  }

  /** Time of the last frame that counts as a heartbeat of the monitored node. */
  function LastHeartbeat(nodeId: nat, inputs: seq<Input>): Option<U64> {
    if inputs == [] then None
    else match inputs[|inputs| - 1]
      case Frame(node, byte, at) =>
        if node == nodeId && FromHeartbeatByte(byte).Some? then Some(at)
        else LastHeartbeat(nodeId, inputs[..|inputs| - 1])
      case Check(_) => LastHeartbeat(nodeId, inputs[..|inputs| - 1])
  }

  lemma {:induction false} SeenAtLastHeartbeat(nodeId: nat, timeoutMs: nat, inputs: seq<Input>)
    ensures var m := Run(NewMonitor(nodeId, timeoutMs), inputs);
            m.nodeId == nodeId && m.timeoutMs == timeoutMs
            && LastHeartbeat(nodeId, inputs) == if m.state.Waiting? then None else Some(m.state.lastSeenUs)
  {
    if inputs != [] {
      SeenAtLastHeartbeat(nodeId, timeoutMs, inputs[..|inputs| - 1]);
    }
  }

  /**
   A check reports a timeout exactly when the node has been heard, no timeout is
   outstanding, monitoring has a consumer time, and the silence since its last
   heartbeat exceeds it.
   */
  lemma TimeoutIsExact(nodeId: nat, timeoutMs: nat, inputs: seq<Input>, now: U64)
    ensures var m := NewMonitor(nodeId, timeoutMs);
            Step(Run(m, inputs), Check(now)).1 == [TimedOut] <==>
              LastHeartbeat(nodeId, inputs).Some? && !Silenced(Log(m, inputs)) && timeoutMs != 0
              && Elapsed(now, LastHeartbeat(nodeId, inputs).value) > timeoutMs * 1000
  {
    SeenAtLastHeartbeat(nodeId, timeoutMs, inputs);
    LogIsComplete(nodeId, timeoutMs, inputs);
    ReplaySilenced(Log(NewMonitor(nodeId, timeoutMs), inputs));
  }
}
