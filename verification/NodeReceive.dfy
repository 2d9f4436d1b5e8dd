/**
 The node drives its RPDO engine and its dictionary only through the engine's
 own operations, so what is proved of every engine run holds of every node run.
 */
module NodeReceive {
  import opened Types
  import opened ObjectDictionary
  import opened PdoWire
  import opened Transport
  import opened Nmt
  import opened NodeModel
  import opened NodeRuns
  import opened NodeSteps
  import H = Heartbeat
  import History
  import NodeSafety
  import R = RpdoEngine
  import Slot = SdoSlot
  import S = Sync
  import T = TpdoEngine

  // ---- The receive side, step by step ----

  function StateOf(n: Node): R.State {
    R.State(n.rpdo, n.sink)
  }

  /** Leaving Operational forgets deadlines and drops what is buffered. */
  function LeaveOps(): seq<R.Op> {
    [R.Forget, R.Discard]
  }

  function ResetOps(n: Node): seq<R.Op> {
    [R.Reload(LoadedRpdos(n.sink.od, n.rpdo.pdos)), R.Discard, R.Forget]
  }

  function NmtOps(w: World, f: CanFrame): seq<R.Op> {
    if |f.data| != 2 || CommandFromByte(f.data[0]).None? then []
    else
      var (s, t) := Commanded(w.n.nmt, CommandFromByte(f.data[0]).value, f.data[1] as nat, w.n.id);
      match t
      case NoTransition => []
      case StateChanged => if s.Operational? then [] else LeaveOps()
      case _ => ResetOps(w.n)
  }

  /** A committed download is in the dictionary with its event; a PDO record is then re-read. */
  function CommitOps(n: Node, c: Slot.Commit): seq<R.Op> {
    match Write(n.sink.od, c.addr, c.data)
    case Err(_) => []
    case Ok(od) =>
      [R.Edit(EventPushed(n.sink.(od := od), OdEvent(c.addr, FromSdo), n.capacity))]
      + if 0x1400 <= c.addr.index <= 0x1BFF then [R.Reload(LoadedRpdos(od, n.rpdo.pdos))] else []
  }

  function SdoOps(w: World, c: nat, f: CanFrame, now: U64): seq<R.Op>
    requires c < |w.n.channels|
  {
    if !History.Talking(w.n.nmt) || |f.data| != 8 then []
    else
      var commit := Slot.Requested(w.n.channels[c], w.l, c, f.data[0] == 0x80, now).2;
      if commit.Some? then CommitOps(w.n, commit.value) else []
  }

  function PulseOps(n: Node): seq<R.Op> {
    if n.nmt.Operational? then [R.SyncPulse] else []
  }

  /** Heartbeat events may overflow their own queue; only the count of dropped events changes. */
  function DroppedOp(n: Node, dropped: nat): seq<R.Op> {
    [R.Edit(n.sink.(dropped := dropped))]
  }

  /** What a dispatched frame does to the receive side, by the part of the node it belongs to. */
  function FrameOps(w: World, f: DataFrame, now: U64): seq<R.Op>
    requires WellShaped(w.n)
  {
    match RouteOf(w.n, f)
    case ToSdo(c) => SdoOps(w, c, f, now)
    case ToSync => if |f.data| <= 1 then PulseOps(w.n) else []
    case ToNmt => NmtOps(w, f)
    case ToLss => []
    case ToMonitor(_) => DroppedOp(w.n, Dispatched(w, f, now).n.sink.dropped)
    case ToRpdo => if w.n.nmt.Operational? then [R.Receive(f, now)] else []
  }

  function ProduceOps(w: World, now: U64): seq<R.Op> {
    if w.n.booted && !w.n.nmt.Stopped? && S.Polled(w.n.producer, now).1.Some? && NextVerdict(w.l).Accepted?
    then PulseOps(w.n) else []
  }

  /** Deadlines are checked and reported in Operational, forgotten outside. */
  function DeadlineOps(n: Node, now: U64): seq<R.Op>
    requires WellShaped(n)
  {
    if !n.nmt.Operational? then LeaveOps()
    else
      ReportsPositive(n.rpdo, now, |n.rpdo.pdos|);
      [R.Check(now), R.Edit(DeadlinesPushed(n.sink, R.Reports(n.rpdo, now, |n.rpdo.pdos|), n.capacity))]
  }

  /** What each step does to the receive side. */
  function StepOps(w: World, step: Step): seq<R.Op>
    requires WellShaped(w.n)
  {
    match step
    case Frame(f, now) => FrameOps(w, f, now)
    case Produce(now) => ProduceOps(w, now)
    case Deadlines(now) => DeadlineOps(w.n, now)
    case Monitors(now) => DroppedOp(w.n, Stepped(w, step).n.sink.dropped)
    case Edit(od) => [R.Edit(w.n.sink.(od := od))]
    case Reset(_) => ResetOps(w.n)
    case Take => [R.Edit(w.n.sink.(events := if w.n.sink.events == [] then [] else w.n.sink.events[1..]))]
    case _ => []
  }

  /** The receive side took the steps `ops`. */
  ghost predicate Follows(n: Node, n': Node, ops: seq<R.Op>) {
    R.RpdoOk(n.rpdo) && n'.capacity == n.capacity && R.Run(StateOf(n), n.capacity, ops) == StateOf(n')
  }

  lemma NoOp(n: Node, n': Node)
    requires R.RpdoOk(n.rpdo) && n'.capacity == n.capacity && n'.rpdo == n.rpdo && n'.sink == n.sink
    ensures Follows(n, n', [])
  {
  }

  lemma OneOp(s: R.State, capacity: nat, op: R.Op)
    requires R.RpdoOk(s.rpdo)
    ensures R.Run(s, capacity, [op]) == R.Step(s, capacity, op)
  {
    hide R.Step;
    assert [op][..0] == [];
  }

  lemma TwoOps(s: R.State, capacity: nat, a: R.Op, b: R.Op)
    requires R.RpdoOk(s.rpdo)
    ensures R.Run(s, capacity, [a, b]) == R.Step(R.Step(s, capacity, a), capacity, b)
  {
    hide R.Step, R.Run;
    OneOp(s, capacity, a);
    OneOp(R.Step(s, capacity, a), capacity, b);
    assert [a, b] == [a] + [b];
    R.RunConcat(s, capacity, [a], [b]);
  }

  lemma ResetFollows(w: World, kind: ResetType)
    requires WellShaped(w.n)
    ensures Follows(w.n, WorldReset(w, kind).n, ResetOps(w.n))
  {
    hide LoadedSync, LoadedMonitor, LoadedTpdos, LoadedRpdos, ReadNat, ChannelsCancelled, R.Run;
    var s, reload := StateOf(w.n), R.Reload(LoadedRpdos(w.n.sink.od, w.n.rpdo.pdos));
    assert ResetOps(w.n) == [reload] + [R.Discard, R.Forget];
    OneOp(s, w.n.capacity, reload);
    var s1 := R.Step(s, w.n.capacity, reload);
    TwoOps(s1, w.n.capacity, R.Discard, R.Forget);
    R.RunConcat(s, w.n.capacity, [reload], [R.Discard, R.Forget]);
  }

  lemma LeftFollows(n: Node)
    requires WellShaped(n)
    ensures Follows(n, LeftOperational(n), LeaveOps())
  {
    hide R.Run;
    TwoOps(StateOf(n), n.capacity, R.Forget, R.Discard);
  }

  lemma SwitchFollows(w: World, s: NmtState)
    requires WellShaped(w.n)
    ensures Follows(w.n, Switched(w, s).n, if s.Operational? then [] else LeaveOps())
  {
    hide ChannelsCancelled, LeftOperational, R.Run, LeaveOps;
    LeftFollows(w.n);
    NoOp(w.n, w.n);
  }

  lemma NmtFollows(w: World, f: CanFrame)
    requires WellShaped(w.n)
    ensures Follows(w.n, NmtReceived(w, f).n, NmtOps(w, f))
  {
    hide CommandFromByte, WorldReset, Switched, Follows, ResetOps, LeaveOps;
    NoChange(w.n);
    if |f.data| == 2 && CommandFromByte(f.data[0]).Some? {
      var (s, t) := Commanded(w.n.nmt, CommandFromByte(f.data[0]).value, f.data[1] as nat, w.n.id);
      match t {
        case NoTransition =>
        case StateChanged => SwitchFollows(w, s);
        case ResetApplication => ResetFollows(w, ResetApp);
        case ResetComm => ResetFollows(w, ResetCom);
      }
    }
  }

  lemma NoChange(n: Node)
    requires WellShaped(n)
    ensures Follows(n, n, [])
  {
  }

  lemma PulseFollows(w: World, now: U64)
    requires WellShaped(w.n)
    ensures Follows(w.n, SyncHandled(w, now).n, PulseOps(w.n))
  {
    hide T.SyncFrames, CommitsNoted, OfferedFirst, DueSources, R.Committed;
    OneOp(StateOf(w.n), w.n.capacity, R.SyncPulse);
  }

  /** A committed download reaches the dictionary and the event queue whatever object it is to. */
  lemma CommitFollows(w: World, c: Slot.Commit)
    requires WellShaped(w.n)
    ensures Follows(w.n, CommitApplied(w, c).n, CommitOps(w.n, c))
  {
    hide Write, R.Run, R.Step, CommitApplied, LoadedRpdos;
    CommitEffect(w, c);
    match Write(w.n.sink.od, c.addr, c.data) {
      case Err(_) => NoChange(w.n);
      case Ok(od) =>
        var edit := R.Edit(EventPushed(w.n.sink.(od := od), OdEvent(c.addr, FromSdo), w.n.capacity));
        var reload := R.Reload(LoadedRpdos(od, w.n.rpdo.pdos));
        OneOp(StateOf(w.n), w.n.capacity, edit);
        TwoOps(StateOf(w.n), w.n.capacity, edit, reload);
        EditThenReload(StateOf(w.n), w.n.capacity, edit, reload);
        assert [edit] + [reload] == [edit, reload] && [edit] + [] == [edit];
    }
  }

  lemma EditThenReload(s: R.State, capacity: nat, edit: R.Op, reload: R.Op)
    requires R.RpdoOk(s.rpdo) && edit.Edit? && reload.Reload? && |reload.configs| == |s.rpdo.pdos|
    ensures R.Step(s, capacity, edit) == s.(sink := edit.sink)
    ensures R.Step(R.Step(s, capacity, edit), capacity, reload) == R.State(s.rpdo.(pdos := reload.configs), edit.sink)
  {
  }

  lemma CommitEffect(w: World, c: Slot.Commit)
    ensures CommitApplied(w, c).n.capacity == w.n.capacity
    ensures Write(w.n.sink.od, c.addr, c.data).Err? ==> CommitApplied(w, c) == w
    ensures Write(w.n.sink.od, c.addr, c.data).Ok? ==>
              var (n', od) := (CommitApplied(w, c).n, Write(w.n.sink.od, c.addr, c.data).value);
              n'.sink == EventPushed(w.n.sink.(od := od), OdEvent(c.addr, FromSdo), w.n.capacity)
              && n'.rpdo == if 0x1400 <= c.addr.index <= 0x1BFF then w.n.rpdo.(pdos := LoadedRpdos(od, w.n.rpdo.pdos))
                            else w.n.rpdo
  {
    hide LoadedSync, LoadedMonitor, LoadedTpdos, LoadedRpdos, ReadNat, Write, Newest, CycleNoted, S.Configured, S.Retarget;
  }

  lemma SdoFollows(w: World, c: nat, f: CanFrame, now: U64)
    requires WellShaped(w.n) && c < |w.n.channels|
    ensures Follows(w.n, SdoReceived(w, c, f, now).n, SdoOps(w, c, f, now))
  {
    hide Slot.Requested, CommitApplied, Write, LoadedRpdos, R.Step, R.Run, EventPushed;
    NoChange(w.n);
    if History.Talking(w.n.nmt) && |f.data| == 8 {
      var (ch, l, commit) := Slot.Requested(w.n.channels[c], w.l, c, f.data[0] == 0x80, now);
      var w1 := World(w.n.(channels := w.n.channels[c := ch]), l);
      if commit.Some? {
        CommitFollows(w1, commit.value);
      }
    }
  }

  lemma SyncFollows(w: World, f: DataFrame, now: U64)
    requires WellShaped(w.n) && ConsumesSync(w.n, f.id)
    ensures Follows(w.n, SyncReceived(w, f, now).n, if |f.data| <= 1 then PulseOps(w.n) else [])
  {
    hide SyncHandled, R.Step, R.Run;
    NoChange(w.n);
    PulseFollows(w.(n := w.n.(consumer := S.Consumed(w.n.consumer, f).0)), now);
  }

  /** A frame no other service claims is received by the RPDO engine, in Operational only. */
  lemma ReceiveFollows(w: World, f: DataFrame, now: U64)
    requires WellShaped(w.n)
    ensures Follows(w.n, RpdoReceived(w, f, now).n, if w.n.nmt.Operational? then [R.Receive(f, now)] else [])
  {
    hide R.Processed;
    OneOp(StateOf(w.n), w.n.capacity, R.Receive(f, now));
  }

  lemma MonitorFollows(n: Node, notes: seq<HeartbeatNote>, monitors: seq<Option<H.Monitor>>)
    requires WellShaped(n)
    ensures var n' := HeartbeatNoted(n.(monitors := monitors), notes); Follows(n, n', DroppedOp(n, n'.sink.dropped))
  {
    hide HeartbeatNoted, R.Run;
    NotedKeepsMonitors(n.(monitors := monitors), notes);
    var n' := HeartbeatNoted(n.(monitors := monitors), notes);
    OneOp(StateOf(n), n.capacity, R.Edit(n.sink.(dropped := n'.sink.dropped)));
  }

  lemma LssFollows(w: World, f: DataFrame, now: U64)
    requires WellShaped(w.n)
    ensures Follows(w.n, LssReceived(w, f, now).n, [])
  {
    NoOp(w.n, LssReceived(w, f, now).n);
  }

  /** Whatever frame is dispatched, the receive side takes exactly the operations of the part it belongs to. */
  lemma DispatchFollows(w: World, f: DataFrame, now: U64)
    requires WellShaped(w.n)
    ensures Follows(w.n, Dispatched(w, f, now).n, FrameOps(w, f, now))
  {
    hide Follows, Dispatched, SdoReceived, SyncReceived, NmtReceived, LssReceived, RpdoReceived, SdoOps, NmtOps, RouteOf, PulseOps,
         HeartbeatNoted, DroppedOp, H.Received;
    var r := RouteOf(w.n, f);
    DispatchedByRoute(w, f, now, r);
    match r {
      case ToSdo(c) => SdoFollows(w, c, f, now);
      case ToSync => SyncFollows(w, f, now);
      case ToNmt => NmtFollows(w, f);
      case ToLss => LssFollows(w, f, now);
      case ToMonitor(s) =>
        var m := w.n.monitors[s].value;
        var (m', es) := H.Received(m, m.nodeId, f.data[0], now);
        MonitorFollows(w.n, Tagged(m.nodeId, es), w.n.monitors[s := Some(m')]);
      case ToRpdo => ReceiveFollows(w, f, now);
    }
  }

  lemma ProduceFollows(w: World, now: U64)
    requires WellShaped(w.n)
    ensures Follows(w.n, SyncProduced(w, now).n, ProduceOps(w, now))
  {
    hide SyncHandled, S.Polled, S.Confirmed, R.Step, R.Run, PulseOps;
    NoChange(w.n);
    if w.n.booted && !w.n.nmt.Stopped? {
      var (producer, pulse) := S.Polled(w.n.producer, now);
      if pulse.Some? && NextVerdict(w.l).Accepted? {
        var w1 := World(w.n.(producer := S.Confirmed(producer, now)), Offered(w.l, SyncPulse, pulse.value, now));
        PulseFollows(w1, now);
        SamePulse(w.n, w1.n);
      }
    }
  }

  lemma SamePulse(n: Node, n': Node)
    requires n'.nmt == n.nmt
    ensures PulseOps(n') == PulseOps(n)
  {
  }

  lemma DeadlinesFollow(n: Node, now: U64)
    requires WellShaped(n)
    ensures Follows(n, DeadlinesPolled(n, now), DeadlineOps(n, now))
  {
    hide R.Reports, DeadlinesPushed, R.NewlyExpired, LeftOperational, R.Run;
    if !n.nmt.Operational? {
      LeftFollows(n);
    } else {
      ReportsPositive(n.rpdo, now, |n.rpdo.pdos|);
      TwoOps(StateOf(n), n.capacity, R.Check(now),
             R.Edit(DeadlinesPushed(n.sink, R.Reports(n.rpdo, now, |n.rpdo.pdos|), n.capacity)));
    }
  }

  lemma MonitorsFollow(n: Node, now: U64)
    requires WellShaped(n)
    ensures var n' := MonitorsChecked(n, now, |n.monitors|); Follows(n, n', DroppedOp(n, n'.sink.dropped))
  {
    hide MonitorsChecked, R.Run;
    NodeSafety.MonitorsCheckedCore(n, now, |n.monitors|);
    var n' := MonitorsChecked(n, now, |n.monitors|);
    OneOp(StateOf(n), n.capacity, R.Edit(n.sink.(dropped := n'.sink.dropped)));
  }

  lemma ApplicationFollows(w: World, od: Od)
    requires WellShaped(w.n)
    ensures Follows(w.n, OdEdited(w, od).n, [R.Edit(w.n.sink.(od := od))])
    ensures Follows(w.n, EventTaken(w.n),
                    [R.Edit(w.n.sink.(events := if w.n.sink.events == [] then [] else w.n.sink.events[1..]))])
  {
    hide ChangesLatched, R.Run;
    OneOp(StateOf(w.n), w.n.capacity, R.Edit(w.n.sink.(od := od)));
    OneOp(StateOf(w.n), w.n.capacity,
          R.Edit(w.n.sink.(events := if w.n.sink.events == [] then [] else w.n.sink.events[1..])));
  }

  lemma {:induction false} DrainingKeeps(w: World, now: U64)
    ensures EmergenciesDrained(w, now).n == w.n.(emergencies := EmergenciesDrained(w, now).n.emergencies)
    decreases |w.n.emergencies|
  {
    if w.n.emergencies != [] && NextVerdict(w.l).Accepted? {
      DrainingKeeps(World(w.n.(emergencies := w.n.emergencies[1..]),
                          Offered(w.l, Emergency, w.n.emergencies[0], now)), now);
    }
  }

  /** Steps that leave the receive side alone. */
  lemma QuietSteps(w: World, now: U64)
    requires WellShaped(w.n)
    ensures Follows(w.n, BootTried(w, now).0.n, []) && Follows(w.n, CallBegun(w, now).n, [])
    ensures Follows(w.n, SdoServiced(w, now).n, []) && Follows(w.n, Retried(w, now).n, [])
  {
    hide ChannelsServiced, OfferedFirst, PollsBegun, T.SyncLatched, H.HeartbeatFrame;
  }

  lemma QuietServices(w: World, now: U64, a: Addr, f: CanFrame)
    requires WellShaped(w.n)
    ensures Follows(w.n, HeartbeatSent(w, now).n, []) && Follows(w.n, EmergenciesSent(w, now).n, [])
    ensures Follows(w.n, TpdosPolled(w, now).n, [])
    ensures Follows(w.n, ChangeNotified(w.n, a), []) && Follows(w.n, EmergencyQueued(w.n, f), [])
  {
    hide EmergenciesDrained, H.Due, T.Polled, T.Notified;
    DrainingKeeps(w, now);
  }

  /** Whatever the step, the receive side takes exactly the operations listed for it. */
  lemma StepFollows(w: World, step: Step)
    requires WellShaped(w.n)
    ensures Follows(w.n, Stepped(w, step).n, StepOps(w, step))
  {
    hide Follows, WellShaped, BootTried, CallBegun, Dispatched, SdoServiced, SyncProduced, Retried, DeadlinesPolled, HeartbeatSent,
         MonitorsChecked, EmergenciesSent, TpdosPolled, ChangeNotified, OdEdited, WorldReset, EmergencyQueued, EventTaken, FrameOps,
         ProduceOps, DeadlineOps, DroppedOp, ResetOps;
    match step {
      case Frame(f, now) => DispatchFollows(w, f, now);
      case Produce(now) => ProduceFollows(w, now);
      case Deadlines(now) => DeadlinesFollow(w.n, now);
      case Monitors(now) => MonitorsFollow(w.n, now);
      case Edit(od) => ApplicationFollows(w, od);
      case Reset(kind) => ResetFollows(w, kind);
      case Take => ApplicationFollows(w, map[]);
      case Notify(a) => QuietServices(w, 0, a, CanFrame(0, []));
      case Queue(f) => QuietServices(w, 0, Addr(0, 0), f);
      case _ =>
        QuietSteps(w, step.at);
        QuietServices(w, step.at, Addr(0, 0), CanFrame(0, []));
    }
  }

  // ---- Whole runs ----

  /** Everything that happens to the receive side along the node's steps, in order. */
  function Trace(w: World, steps: seq<Step>): seq<R.Op>
    requires WellShaped(w.n)
  {
    if steps == [] then []
    else
      var front := steps[..|steps| - 1];
      Trace(w, front) + StepOps(StepRun(w, front), steps[|steps| - 1])
  }

  function RunTrace(w: World, calls: seq<Call>): seq<R.Op>
    requires WellShaped(w.n)
  {
    Trace(w, RunSteps(w, calls))
  }

  lemma Chain(n: Node, a: seq<R.Op>, n1: Node, b: seq<R.Op>, n2: Node)
    requires Follows(n, n1, a) && Follows(n1, n2, b)
    ensures Follows(n, n2, a + b)
  {
    hide R.Run;
    R.RunConcat(StateOf(n), n.capacity, a, b);
  }

  lemma {:induction false} StepsFollow(w: World, steps: seq<Step>)
    requires WellShaped(w.n)
    ensures Follows(w.n, StepRun(w, steps).n, Trace(w, steps))
  {
    hide Follows, Stepped, StepOps, WellShaped;
    if steps == [] {
      NoChange(w.n);
    } else {
      var front, step := steps[..|steps| - 1], steps[|steps| - 1];
      StepsFollow(w, front);
      var before := StepRun(w, front);
      StepFollows(before, step);
      Chain(w.n, Trace(w, front), before.n, StepOps(before, step), Stepped(before, step).n);
    }
  }

  /** Along every run the RPDO engine and the dictionary are exactly where the engine's operations lead them. */
  lemma RunFollows(w: World, calls: seq<Call>)
    requires WellShaped(w.n)
    ensures Follows(w.n, Run(w, calls).n, RunTrace(w, calls))
  {
    hide Follows, Run, StepRun, Trace, RunSteps, WellShaped;
    RunIsSteps(w, calls);
    StepsFollow(w, RunSteps(w, calls));
  }

  /**
   Received data over any run of the node: the dictionary and the event queue are
   exactly what the receptions, pulses, downloads, edits and reconfigurations
   along the run prescribe.
   */
  lemma DictionaryInAnyRun(w: World, calls: seq<Call>)
    requires WellShaped(w.n) && forall i :: 0 <= i < |w.n.rpdo.pdos| ==> w.n.rpdo.pending[i].None?
    ensures Run(w, calls).n.sink
         == R.Play(w.n.capacity, w.n.sink, R.Effects(w.n.rpdo.pdos, RunTrace(w, calls)))
  {
    hide Run, RunTrace, R.Run, R.Play, R.Effects;
    RunFollows(w, calls);
    R.CommitsFollowHistory(StateOf(w.n), w.n.capacity, RunTrace(w, calls));
  }

  /** RPDO deadlines over any run of the node: exactly when a check reports, and exactly when the level is true. */
  lemma DeadlinesInAnyRun(w: World, calls: seq<Call>, i: nat, now: U64)
    requires WellShaped(w.n) && i < |w.n.rpdo.pdos| && !w.n.rpdo.armed[i] && !w.n.rpdo.expired[i]
    ensures var (pdos, ops, r) := (w.n.rpdo.pdos, RunTrace(w, calls), Run(w, calls).n.rpdo);
            |r.pdos| == |pdos|
            && (R.NewlyExpired(r, i, now) <==>
                  R.Overdue(R.ConfigsAfter(pdos, ops)[i], R.LastHeard(pdos, ops, i), now) && !R.Lapsed(pdos, ops, i))
            && (R.Stale(r, i) <==>
                  R.Monitored(R.ConfigsAfter(pdos, ops)[i])
                  && (R.LastHeard(pdos, ops, i).None? || R.Lapsed(pdos, ops, i)))
  {
    hide Run, RunTrace, R.Run, R.ConfigsAfter, R.LastHeard, R.Lapsed, R.NewlyExpired, R.Stale;
    RunFollows(w, calls);
    R.DeadlineEdge(StateOf(w.n), w.n.capacity, RunTrace(w, calls), i, now);
    R.DeadlineLevel(StateOf(w.n), w.n.capacity, RunTrace(w, calls), i);
  }
}
