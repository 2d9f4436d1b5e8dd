/**
 A run of the node cut into the steps its processing takes, in their order, and
 where each received frame goes.
 */
module NodeSteps {
  import opened Types
  import opened ObjectDictionary
  import opened PdoWire
  import opened Transport
  import opened Nmt
  import opened NodeModel
  import opened NodeRuns
  import Lss

  /** The parts of a processing call, each dispatched frame, and the application's calls. */
  datatype Step =
    | Boot(at: U64)
    | Begin(at: U64)
    | Frame(frame: DataFrame, at: U64)
    | Service(at: U64)
    | Produce(at: U64)
    | Retry(at: U64)
    | Deadlines(at: U64)
    | Heartbeat(at: U64)
    | Monitors(at: U64)
    | Emergencies(at: U64)
    | Poll(at: U64)
    | Notify(addr: Addr)
    | Edit(od: Od)
    | Reset(kind: ResetType)
    | Queue(emergency: CanFrame)
    | Take

  function Stepped(w: World, step: Step): (w': World)
    requires WellShaped(w.n)
    ensures WellShaped(w'.n)
  {
    match step
    case Boot(now) => BootTried(w, now).0
    case Begin(now) => CallBegun(w, now)
    case Frame(f, now) => Dispatched(w, f, now)
    case Service(now) => SdoServiced(w, now)
    case Produce(now) => SyncProduced(w, now)
    case Retry(now) => Retried(w, now)
    case Deadlines(now) => w.(n := DeadlinesPolled(w.n, now))
    case Heartbeat(now) => HeartbeatSent(w, now)
    case Monitors(now) => w.(n := MonitorsChecked(w.n, now, |w.n.monitors|))
    case Emergencies(now) => EmergenciesSent(w, now)
    case Poll(now) => TpdosPolled(w, now)
    case Notify(a) => w.(n := ChangeNotified(w.n, a))
    case Edit(od) => OdEdited(w, od)
    case Reset(kind) => WorldReset(w, kind)
    case Queue(f) => w.(n := EmergencyQueued(w.n, f))
    case Take => w.(n := EventTaken(w.n))
  }

  function StepRun(w: World, steps: seq<Step>): (w': World)
    requires WellShaped(w.n)
    ensures WellShaped(w'.n)
  {
    if steps == [] then w else Stepped(StepRun(w, steps[..|steps| - 1]), steps[|steps| - 1])
  }

  lemma OneMore(w: World, steps: seq<Step>, step: Step)
    requires WellShaped(w.n)
    ensures StepRun(w, steps + [step]) == Stepped(StepRun(w, steps), step)
  {
    hide Stepped, WellShaped;
    assert (steps + [step])[..|steps|] == steps;
  }

  lemma {:induction false} StepsConcat(w: World, a: seq<Step>, b: seq<Step>)
    requires WellShaped(w.n)
    ensures StepRun(w, a + b) == StepRun(StepRun(w, a), b)
  {
    hide Stepped, WellShaped;
    if b == [] {
      assert a + b == a;
    } else {
      var n := |b| - 1;
      StepsConcat(w, a, b[..n]);
      assert (a + b)[..|a + b| - 1] == a + b[..n];
    }
  }

  // ---- The order of the steps ----

  function FrameSteps(fs: seq<DataFrame>, now: U64): (steps: seq<Step>)
    ensures |steps| == |fs|
  {
    seq(|fs|, i requires 0 <= i < |fs| => Frame(fs[i], now))
  }

  /** What follows the receive loop, in order. */
  function ClosingSteps(now: U64): seq<Step> {
    [Service(now), Produce(now), Retry(now), Deadlines(now), Heartbeat(now), Monitors(now), Emergencies(now), Poll(now)]
  }

  /**
   The steps of a call: boot, and unless the boot-up frame has to wait, latch,
   dispatch every received frame, service SDO, produce SYNC, retry, check
   deadlines, send the heartbeat, check monitors, send emergencies, poll TPDOs.
   */
  function CallSteps(w: World, call: Call): seq<Step> {
    match call
    case Process(fs, now) =>
      if w.n.booted || !NextVerdict(w.l).WouldBlock?
      then [Boot(now), Begin(now)] + FrameSteps(fs, now) + ClosingSteps(now)
      else [Boot(now)]
    case NotifyChanged(a) => [Notify(a)]
    case EditOd(od) => [Edit(od)]
    case RequestReset(kind) => [Reset(kind)]
    case QueueEmergency(f) => [Queue(f)]
    case TakeEvent => [Take]
  }

  function RunSteps(w: World, calls: seq<Call>): seq<Step>
    requires WellShaped(w.n)
  {
    if calls == [] then []
    else
      var front := calls[..|calls| - 1];
      RunSteps(w, front) + CallSteps(Run(w, front), calls[|calls| - 1])
  }

  lemma {:induction false} DrainSteps(w: World, fs: seq<DataFrame>, now: U64)
    requires WellShaped(w.n)
    ensures Drained(w, fs, now) == StepRun(w, FrameSteps(fs, now))
    decreases |fs|
  {
    hide Dispatched, WellShaped;
    if fs != [] {
      var w1 := Dispatched(w, fs[0], now);
      DrainSteps(w1, fs[1..], now);
      assert FrameSteps(fs, now) == [Frame(fs[0], now)] + FrameSteps(fs[1..], now);
      StepsConcat(w, [Frame(fs[0], now)], FrameSteps(fs[1..], now));
      OneMore(w, [], Frame(fs[0], now));
      assert [] + [Frame(fs[0], now)] == [Frame(fs[0], now)];
    }
  }

  lemma FourSteps(w: World, a: Step, b: Step, c: Step, d: Step)
    requires WellShaped(w.n)
    ensures StepRun(w, [a, b, c, d]) == Stepped(Stepped(Stepped(Stepped(w, a), b), c), d)
  {
    hide WellShaped, Stepped, StepRun;
    NoSteps(w);
    OneMore(w, [], a);
    OneMore(w, [a], b);
    OneMore(w, [a, b], c);
    OneMore(w, [a, b, c], d);
    assert [] + [a] == [a] && [a] + [b] == [a, b] && [a, b] + [c] == [a, b, c] && [a, b, c] + [d] == [a, b, c, d];
  }

  lemma StepIs(w: World, now: U64)
    requires WellShaped(w.n)
    ensures Stepped(w, Service(now)) == SdoServiced(w, now) && Stepped(w, Produce(now)) == SyncProduced(w, now)
    ensures Stepped(w, Retry(now)) == Retried(w, now) && Stepped(w, Deadlines(now)) == w.(n := DeadlinesPolled(w.n, now))
  {
    hide WellShaped, BootTried, CallBegun, Dispatched, SdoServiced, SyncProduced, Retried, DeadlinesPolled, HeartbeatSent,
         MonitorsChecked, EmergenciesSent, TpdosPolled, ChangeNotified, OdEdited, WorldReset, EmergencyQueued, EventTaken;
  }

  lemma ServiceIs(w: World, now: U64)
    requires WellShaped(w.n)
    ensures Stepped(w, Heartbeat(now)) == HeartbeatSent(w, now)
    ensures Stepped(w, Monitors(now)) == w.(n := MonitorsChecked(w.n, now, |w.n.monitors|))
    ensures Stepped(w, Emergencies(now)) == EmergenciesSent(w, now) && Stepped(w, Poll(now)) == TpdosPolled(w, now)
  {
    hide WellShaped, BootTried, CallBegun, Dispatched, SdoServiced, SyncProduced, Retried, DeadlinesPolled, HeartbeatSent,
         MonitorsChecked, EmergenciesSent, TpdosPolled, ChangeNotified, OdEdited, WorldReset, EmergencyQueued, EventTaken;
  }

  lemma PdoWorkIs(w: World, now: U64)
    requires WellShaped(w.n)
    ensures PdoWorkDone(w, now) == StepRun(w, [Service(now), Produce(now), Retry(now), Deadlines(now)])
  {
    hide StepRun, Stepped, WellShaped, SdoServiced, SyncProduced, Retried, DeadlinesPolled;
    FourSteps(w, Service(now), Produce(now), Retry(now), Deadlines(now));
    StepIs(w, now);
    var w1 := SdoServiced(w, now);
    StepIs(w1, now);
    var w2 := SyncProduced(w1, now);
    StepIs(w2, now);
    StepIs(Retried(w2, now), now);
  }

  lemma ServicesAre(w: World, now: U64)
    requires WellShaped(w.n)
    ensures ServicesDone(w, now) == StepRun(w, [Heartbeat(now), Monitors(now), Emergencies(now), Poll(now)])
  {
    hide StepRun, Stepped, WellShaped, HeartbeatSent, MonitorsChecked, EmergenciesSent, TpdosPolled;
    FourSteps(w, Heartbeat(now), Monitors(now), Emergencies(now), Poll(now));
    ServiceIs(w, now);
    var w1 := HeartbeatSent(w, now);
    ServiceIs(w1, now);
    var w2 := w1.(n := MonitorsChecked(w1.n, now, |w1.n.monitors|));
    ServiceIs(w2, now);
    ServiceIs(EmergenciesSent(w2, now), now);
  }

  lemma ClosingIs(w: World, now: U64)
    requires WellShaped(w.n)
    ensures ServicesDone(PdoWorkDone(w, now), now) == StepRun(w, ClosingSteps(now))
  {
    hide WellShaped, PdoWorkDone, ServicesDone, StepRun, Stepped;
    var first, second := [Service(now), Produce(now), Retry(now), Deadlines(now)],
                         [Heartbeat(now), Monitors(now), Emergencies(now), Poll(now)];
    assert ClosingSteps(now) == first + second;
    StepsConcat(w, first, second);
    PdoWorkIs(w, now);
    ServicesAre(PdoWorkDone(w, now), now);
  }

  lemma NoSteps(w: World)
    requires WellShaped(w.n)
    ensures StepRun(w, []) == w
  {
  }

  lemma ProcessSteps(w: World, fs: seq<DataFrame>, now: U64)
    requires WellShaped(w.n)
    ensures Processed(w, fs, now) == StepRun(w, CallSteps(w, Process(fs, now)))
  {
    hide WellShaped, CallBegun, Drained, PdoWorkDone, ServicesDone, StepRun, ClosingSteps;
    NoSteps(w);
    OneMore(w, [], Boot(now));
    assert [] + [Boot(now)] == [Boot(now)];
    BootProceeds(w, now);
    var (w1, up) := BootTried(w, now);
    hide BootTried;
    if up {
      OneMore(w, [Boot(now)], Begin(now));
      assert [Boot(now)] + [Begin(now)] == [Boot(now), Begin(now)];
      var w2 := CallBegun(w1, now);
      StepsConcat(w, [Boot(now), Begin(now)], FrameSteps(fs, now));
      DrainSteps(w2, fs, now);
      StepsConcat(w, [Boot(now), Begin(now)] + FrameSteps(fs, now), ClosingSteps(now));
      ClosingIs(Drained(w2, fs, now), now);
    }
  }

  lemma BootProceeds(w: World, now: U64)
    ensures BootTried(w, now).1 <==> w.n.booted || !NextVerdict(w.l).WouldBlock?
  {
  }

  lemma CalledIsSteps(w: World, call: Call)
    requires WellShaped(w.n)
    ensures Called(w, call) == StepRun(w, CallSteps(w, call))
  {
    hide WellShaped, Processed, StepRun, Called, Stepped;
    if call.Process? {
      ProcessSteps(w, call.frames, call.at);
      ProcessIs(w, call);
    } else {
      NoSteps(w);
      var step := CallSteps(w, call)[0];
      assert CallSteps(w, call) == [] + [step];
      OneMore(w, [], step);
      ApplicationIs(w, call);
    }
  }

  lemma ProcessIs(w: World, call: Call)
    requires WellShaped(w.n) && call.Process?
    ensures Called(w, call) == Processed(w, call.frames, call.at)
  {
    hide WellShaped, Processed;
  }

  lemma ApplicationIs(w: World, call: Call)
    requires WellShaped(w.n) && !call.Process?
    ensures Called(w, call) == Stepped(w, CallSteps(w, call)[0])
  {
    hide WellShaped, BootTried, CallBegun, Dispatched, SdoServiced, SyncProduced, Retried, DeadlinesPolled, HeartbeatSent,
         MonitorsChecked, EmergenciesSent, TpdosPolled, ChangeNotified, OdEdited, WorldReset, EmergencyQueued, EventTaken;
  }

  /** Every run is exactly the sequence of its calls' steps. */
  lemma {:induction false} RunIsSteps(w: World, calls: seq<Call>)
    requires WellShaped(w.n)
    ensures Run(w, calls) == StepRun(w, RunSteps(w, calls))
  {
    hide WellShaped, Called, CallSteps;
    if calls != [] {
      var front, call := calls[..|calls| - 1], calls[|calls| - 1];
      RunIsSteps(w, front);
      CalledIsSteps(Run(w, front), call);
      StepsConcat(w, RunSteps(w, front), CallSteps(Run(w, front), call));
    }
  }

  // ---- Where a received frame goes ----

  datatype Route = ToSdo(channel: nat) | ToSync | ToNmt | ToLss | ToMonitor(slot: nat) | ToRpdo

  /** No additional SDO channel listens on the COB-ID. */
  predicate NoExtraChannel(n: Node, id: nat) {
    forall c :: 1 <= c < |n.channels| ==> n.channels[c].rxCob != id
  }

  predicate ConsumesSync(n: Node, id: nat) {
    n.consumer.cobId != 0 && n.consumer.cobId == id
  }

  predicate Watches(n: Node, s: nat, id: nat) {
    s < |n.monitors| && n.monitors[s].Some? && id == 0x700 + n.monitors[s].value.nodeId
  }

  /** SDO, SYNC, NMT and LSS leave the frame to heartbeat consumption and PDOs. */
  predicate Unclaimed(n: Node, f: CanFrame)
    requires |n.channels| >= 1
  {
    NoExtraChannel(n, f.id) && !ConsumesSync(n, f.id) && f.id != 0 && f.id != n.channels[0].rxCob && f.id != Lss.REQUEST_COB
  }

  /** The frame belongs to this part of the node and to no other. */
  predicate Routed(n: Node, f: CanFrame, r: Route)
    requires |n.channels| >= 1
  {
    match r
    case ToSdo(c) =>
      c < |n.channels| && n.channels[c].rxCob == f.id && (forall d :: 1 <= d < c ==> n.channels[d].rxCob != f.id)
      && (c == 0 ==> NoExtraChannel(n, f.id) && !ConsumesSync(n, f.id) && f.id != 0)
    case ToSync => NoExtraChannel(n, f.id) && ConsumesSync(n, f.id)
    case ToNmt => NoExtraChannel(n, f.id) && !ConsumesSync(n, f.id) && f.id == 0
    case ToLss =>
      NoExtraChannel(n, f.id) && !ConsumesSync(n, f.id) && f.id != n.channels[0].rxCob && f.id == Lss.REQUEST_COB
    case ToMonitor(s) =>
      Unclaimed(n, f) && |f.data| == 1 && Watches(n, s, f.id) && forall t :: 0 <= t < s ==> !Watches(n, t, f.id)
    case ToRpdo => Unclaimed(n, f) && (|f.data| == 1 ==> forall s :: 0 <= s < |n.monitors| ==> !Watches(n, s, f.id))
  }

  /** No frame has two routes. */
  lemma OneRoute(n: Node, f: CanFrame, r: Route, r': Route)
    requires |n.channels| >= 1 && Routed(n, f, r) && Routed(n, f, r')
    ensures r == r'
  {
  }

  /** Every frame has a route. */
  function RouteOf(n: Node, f: CanFrame): (r: Route)
    requires |n.channels| >= 1
    ensures Routed(n, f, r)
  {
    var extra := ExtraChannel(n.channels, f.id, 1);
    if extra.Some? then ToSdo(extra.value)
    else if ConsumesSync(n, f.id) then ToSync
    else if f.id == 0 then ToNmt
    else if f.id == n.channels[0].rxCob then ToSdo(0)
    else if f.id == Lss.REQUEST_COB then ToLss
    else
      var m := if |f.data| == 1 then MonitorOf(n.monitors, f.id, 0) else None;
      if m.Some? then ToMonitor(m.value) else ToRpdo
  }

  /** What the owner of a frame does with it. */
  function Handled(w: World, f: DataFrame, now: U64, r: Route): World
    requires WellShaped(w.n) && Routed(w.n, f, r)
  {
    match r
    case ToSdo(c) => SdoReceived(w, c, f, now)
    case ToSync => SyncReceived(w, f, now)
    case ToNmt => NmtReceived(w, f)
    case ToLss => LssReceived(w, f, now)
    case ToMonitor(s) => w.(n := HeartbeatReceived(w.n, s, f.data[0], now))
    case ToRpdo => RpdoReceived(w, f, now)
  }

  /** Every dispatched frame reaches the part of the node it belongs to, and no other. */
  lemma DispatchedByRoute(w: World, f: DataFrame, now: U64, r: Route)
    requires WellShaped(w.n) && Routed(w.n, f, r)
    ensures Dispatched(w, f, now) == Handled(w, f, now, r)
  {
    hide SdoReceived, SyncReceived, NmtReceived, LssReceived, HeartbeatReceived, RpdoReceived;
    OneRoute(w.n, f, r, RouteOf(w.n, f));
  }
}
