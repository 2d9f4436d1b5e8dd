/**
 The NMT state, the dirty set, heartbeat consumption, the LSS slave and the SYNC
 producer along every run of the node: each is driven only through its own
 operations.
 */
module NodeServices {
  import opened Types
  import opened ObjectDictionary
  import opened PdoWire
  import opened Transport
  import opened Nmt
  import opened NodeModel
  import opened NodeRuns
  import opened NodeSteps
  import H = Heartbeat
  import History
  import Lss
  import NodeReceive
  import R = RpdoEngine
  import Slot = SdoSlot
  import S = Sync
  import T = TpdoEngine

  datatype Services = Services(
    nmt: NmtState, dirty: seq<Addr>, monitors: seq<Option<H.Monitor>>, lss: Lss.Slave, producer: S.Producer)

  function ServicesOf(n: Node): Services {
    Services(n.nmt, n.dirty, n.monitors, n.lss, n.producer)
  }

  /**
   What happens to the services: a state is entered, a change is marked in the
   bounded dirty set or the set is cleared, a heartbeat, a timeout check, an LSS
   frame, a producer cycle, re-read configuration.
   */
  datatype Op =
    | StateEntered(state: NmtState)
    | ChangeMarked(addr: Addr, capacity: nat)
    | ChangesCleared
    | HeartbeatFrom(slot: nat, node: nat, byte: bv8, at: U64)
    | TimeoutCheck(at: U64)
    | MonitorsLoaded(od: Od, preserve: bool)
    | LssFrame(frame: CanFrame)
    | ProducerCycle(at: U64, accepts: bool)
    | SyncLoaded(od: Od)
    | SyncRestarted

  function Seen(m: Option<H.Monitor>, i: H.Input): Option<H.Monitor> {
    if m.Some? then Some(H.Step(m.value, i).0) else None
  }

  /** The producer with the settings an object dictionary holds. */
  function Reconfigured(p: S.Producer, od: Od): S.Producer {
    match LoadedSync(od)
    case None => p
    case Some(s) => S.Configured(p, if s.produce then s.cobId else 0, s.periodUs, s.overflow)
  }

  function OpDone(s: Services, op: Op): (s': Services)
    ensures |s'.monitors| == |s.monitors|
  {
    match op
    case StateEntered(state) => s.(nmt := state)
    case ChangeMarked(a, capacity) => if a in s.dirty || |s.dirty| >= capacity then s else s.(dirty := s.dirty + [a])
    case ChangesCleared => s.(dirty := [])
    case HeartbeatFrom(slot, node, byte, at) =>
      if slot < |s.monitors| then s.(monitors := s.monitors[slot := Seen(s.monitors[slot], H.Frame(node, byte, at))]) else s
    case TimeoutCheck(at) =>
      s.(monitors := seq(|s.monitors|, i requires 0 <= i < |s.monitors| => Seen(s.monitors[i], H.Check(at))))
    case MonitorsLoaded(od, preserve) =>
      s.(monitors := seq(|s.monitors|, i requires 0 <= i < |s.monitors| => LoadedMonitor(od, i, s.monitors[i], preserve)))
    case LssFrame(f) => s.(lss := Lss.Step(s.lss, f).0)
    case ProducerCycle(at, accepts) => s.(producer := S.StepStation(S.Station(s.producer, []), S.Cycle(at, accepts, false)).producer)
    case SyncLoaded(od) => s.(producer := Reconfigured(s.producer, od))
    case SyncRestarted => s.(producer := S.Restarted(s.producer))
  }

  function OpsDone(s: Services, ops: seq<Op>): (s': Services)
    ensures |s'.monitors| == |s.monitors|
  {
    if ops == [] then s else OpDone(OpsDone(s, ops[..|ops| - 1]), ops[|ops| - 1])
  }

  lemma {:induction false} OpsConcat(s: Services, a: seq<Op>, b: seq<Op>)
    ensures OpsDone(s, a + b) == OpsDone(OpsDone(s, a), b)
  {
    hide OpDone;
    if b == [] {
      assert a + b == a;
    } else {
      var n := |b| - 1;
      OpsConcat(s, a, b[..n]);
      assert (a + b)[..|a + b| - 1] == a + b[..n];
    }
  }

  // ---- Step by step ----

  /** The commit a dispatched SDO request leads to, if it can be written. */
  function Committed(w: World, c: nat, f: CanFrame, now: U64): Option<Slot.Commit>
    requires c < |w.n.channels|
  {
    if !History.Talking(w.n.nmt) || |f.data| != 8 then None
    else
      var commit := Slot.Requested(w.n.channels[c], w.l, c, f.data[0] == 0x80, now).2;
      if commit.Some? && Write(w.n.sink.od, commit.value.addr, commit.value.data).Ok? then commit else None
  }

  /** A download to 0x1016 or 0x1017 re-reads the heartbeat objects, one to 0x1005, 0x1006, 0x1007 or 0x1019 the SYNC objects. */
  function CommitOps(od: Od, index: nat): seq<Op> {
    if index == 0x1016 || index == 0x1017 then [MonitorsLoaded(od, true)]
    else if index == 0x1005 || index == 0x1006 || index == 0x1007 || index == 0x1019 then [SyncLoaded(od)]
    else []
  }

  function ResetOps(od: Od): seq<Op> {
    [MonitorsLoaded(od, false), SyncLoaded(od), SyncRestarted, ChangesCleared, StateEntered(Initializing)]
  }

  /** A two-byte frame with a known command leads to the state the command asks for; leaving Operational clears the dirty set. */
  function NmtOps(n: Node, f: CanFrame): seq<Op> {
    if |f.data| != 2 || CommandFromByte(f.data[0]).None? then []
    else
      var (s, t) := Commanded(n.nmt, CommandFromByte(f.data[0]).value, f.data[1] as nat, n.id);
      match t
      case NoTransition => []
      case StateChanged => if s.Operational? then [StateEntered(s)] else [ChangesCleared, StateEntered(s)]
      case _ => ResetOps(n.sink.od)
  }

  /** A boot-up frame that need not wait leads out of Initializing. */
  function BootOps(w: World): seq<Op> {
    if w.n.booted || NextVerdict(w.l).WouldBlock? then []
    else if w.n.autoStart then [StateEntered(PreOperational), StateEntered(Operational)] else [StateEntered(PreOperational)]
  }

  function FrameOps(w: World, f: DataFrame, now: U64): seq<Op>
    requires WellShaped(w.n)
  {
    match RouteOf(w.n, f)
    case ToMonitor(s) => [HeartbeatFrom(s, f.id - 0x700, f.data[0], now)]
    case ToSdo(c) =>
      var commit := Committed(w, c, f, now);
      if commit.Some?
      then CommitOps(Write(w.n.sink.od, commit.value.addr, commit.value.data).value, commit.value.addr.index) else []
    case ToNmt => NmtOps(w.n, f)
    case ToLss => [LssFrame(f)]
    case _ => []
  }

  /** What each step does to the services. */
  function StepOps(w: World, step: Step): seq<Op>
    requires WellShaped(w.n)
  {
    match step
    case Boot(_) => BootOps(w)
    case Deadlines(_) => if w.n.nmt.Operational? then [] else [ChangesCleared]
    case Poll(_) => [ChangesCleared]
    case Notify(a) => [ChangeMarked(a, w.n.dirtyCapacity)]
    case Frame(f, now) => FrameOps(w, f, now)
    case Monitors(now) => [TimeoutCheck(now)]
    case Produce(now) => if w.n.booted && !w.n.nmt.Stopped? then [ProducerCycle(now, NextVerdict(w.l).Accepted?)] else []
    case Reset(_) => ResetOps(w.n.sink.od)
    case _ => []
  }

  ghost predicate Follows(n: Node, n': Node, ops: seq<Op>) {
    OpsDone(ServicesOf(n), ops) == ServicesOf(n')
  }

  lemma OneOp(s: Services, op: Op)
    ensures OpsDone(s, [op]) == OpDone(s, op)
  {
    hide OpDone;
    assert [op][..0] == [];
  }

  lemma Untouched(n: Node, n': Node)
    requires ServicesOf(n') == ServicesOf(n)
    ensures Follows(n, n', [])
  {
  }

  lemma TwoOps(s: Services, a: Op, b: Op)
    ensures OpsDone(s, [a, b]) == OpDone(OpDone(s, a), b)
  {
    hide OpDone, OpsDone;
    OneOp(s, a);
    OneOp(OpDone(s, a), b);
    OpsConcat(s, [a], [b]);
    assert [a, b] == [a] + [b];
  }

  lemma ResetSteps(s: Services, od: Od)
    ensures OpsDone(s, ResetOps(od))
         == Services(Initializing, [], OpDone(s, MonitorsLoaded(od, false)).monitors, s.lss,
                     S.Restarted(Reconfigured(s.producer, od)))
  {
    hide OpsDone, LoadedMonitor, Reconfigured, S.Restarted;
    var first, last := [MonitorsLoaded(od, false), SyncLoaded(od)], [SyncRestarted, ChangesCleared];
    assert ResetOps(od) == first + last + [StateEntered(Initializing)];
    TwoOps(s, MonitorsLoaded(od, false), SyncLoaded(od));
    var s1 := OpsDone(s, first);
    TwoOps(s1, SyncRestarted, ChangesCleared);
    OpsConcat(s, first, last);
    var s2 := OpsDone(s1, last);
    OneOp(s2, StateEntered(Initializing));
    OpsConcat(s, first + last, [StateEntered(Initializing)]);
  }

  lemma ResetFollows(w: World, kind: ResetType)
    ensures Follows(w.n, WorldReset(w, kind).n, ResetOps(w.n.sink.od))
  {
    hide LoadedSync, LoadedMonitor, LoadedTpdos, LoadedRpdos, ReadNat, ChannelsCancelled, S.Configured, OpsDone, ResetOps;
    ResetSteps(ServicesOf(w.n), w.n.sink.od);
  }

  lemma SwitchFollows(w: World, s: NmtState)
    ensures Follows(w.n, Switched(w, s).n, if s.Operational? then [StateEntered(s)] else [ChangesCleared, StateEntered(s)])
  {
    hide ChannelsCancelled, OpsDone;
    OneOp(ServicesOf(w.n), StateEntered(s));
    TwoOps(ServicesOf(w.n), ChangesCleared, StateEntered(s));
  }

  lemma NmtFollows(w: World, f: CanFrame)
    ensures Follows(w.n, NmtReceived(w, f).n, NmtOps(w.n, f))
  {
    hide CommandFromByte, WorldReset, Switched, ResetOps, OpDone, Follows;
    Untouched(w.n, w.n);
    if |f.data| == 2 && CommandFromByte(f.data[0]).Some? {
      var (s, t) := Commanded(w.n.nmt, CommandFromByte(f.data[0]).value, f.data[1] as nat, w.n.id);
      SwitchFollows(w, s);
      ResetFollows(w, ResetApp);
      ResetFollows(w, ResetCom);
    }
  }

  /** Boot-up leads to Pre-Operational, and on to Operational for a node that starts by itself. */
  lemma BootFollows(w: World, now: U64)
    ensures Follows(w.n, BootTried(w, now).0.n, BootOps(w))
  {
    hide OpsDone, H.HeartbeatFrame;
    Untouched(w.n, w.n);
    OneOp(ServicesOf(w.n), StateEntered(PreOperational));
    TwoOps(ServicesOf(w.n), StateEntered(PreOperational), StateEntered(Operational));
    NothingDone(ServicesOf(w.n));
  }

  lemma NothingDone(s: Services)
    ensures OpsDone(s, []) == s
  {
  }

  lemma CommitFollows(w: World, c: Slot.Commit)
    ensures Follows(w.n, CommitApplied(w, c).n,
                    if Write(w.n.sink.od, c.addr, c.data).Ok?
                    then CommitOps(Write(w.n.sink.od, c.addr, c.data).value, c.addr.index) else [])
  {
    hide LoadedSync, LoadedMonitor, LoadedTpdos, LoadedRpdos, ReadNat, Write, Newest, CycleNoted, S.Configured, S.Retarget;
    if Write(w.n.sink.od, c.addr, c.data).Ok? {
      var od := Write(w.n.sink.od, c.addr, c.data).value;
      OneOp(ServicesOf(w.n), MonitorsLoaded(od, true));
      OneOp(ServicesOf(w.n), SyncLoaded(od));
    }
  }

  lemma SdoFollows(w: World, c: nat, f: DataFrame, now: U64)
    requires WellShaped(w.n) && c < |w.n.channels| && RouteOf(w.n, f) == ToSdo(c)
    ensures Follows(w.n, SdoReceived(w, c, f, now).n, FrameOps(w, f, now))
  {
    hide Slot.Requested, CommitApplied, Write, OpDone, RouteOf, CommitOps;
    if History.Talking(w.n.nmt) && |f.data| == 8 {
      var (ch, l, commit) := Slot.Requested(w.n.channels[c], w.l, c, f.data[0] == 0x80, now);
      var w1 := World(w.n.(channels := w.n.channels[c := ch]), l);
      if commit.Some? {
        CommitFollows(w1, commit.value);
      }
    }
  }

  lemma HearFollows(n: Node, s: nat, f: DataFrame, now: U64)
    requires s < |n.monitors| && n.monitors[s].Some? && f.id == 0x700 + n.monitors[s].value.nodeId && |f.data| == 1
    ensures Follows(n, HeartbeatReceived(n, s, f.data[0], now), [HeartbeatFrom(s, f.id - 0x700, f.data[0], now)])
  {
    hide H.Received, HeartbeatNoted;
    var m := n.monitors[s].value;
    var (m', es) := H.Received(m, m.nodeId, f.data[0], now);
    NotedKeepsMonitors(n.(monitors := n.monitors[s := Some(m')]), Tagged(m.nodeId, es));
    OneOp(ServicesOf(n), HeartbeatFrom(s, f.id - 0x700, f.data[0], now));
  }

  lemma LssFollows(w: World, f: DataFrame, now: U64)
    ensures Follows(w.n, LssReceived(w, f, now).n, [LssFrame(f)])
  {
    hide Lss.Step;
    OneOp(ServicesOf(w.n), LssFrame(f));
  }

  lemma PulseKeeps(w: World, now: U64)
    requires WellShaped(w.n)
    ensures ServicesOf(SyncHandled(w, now).n) == ServicesOf(w.n)
  {
    hide T.SyncFrames, CommitsNoted, OfferedFirst, DueSources, R.Committed;
  }

  lemma PdoFramesKeep(w: World, f: DataFrame, now: U64)
    requires WellShaped(w.n)
    ensures ServicesOf(RpdoReceived(w, f, now).n) == ServicesOf(w.n)
    ensures ServicesOf(SyncReceived(w, f, now).n) == ServicesOf(w.n)
  {
    hide R.Processed, SyncHandled;
    PulseKeeps(w.(n := w.n.(consumer := S.Consumed(w.n.consumer, f).0)), now);
  }

  lemma DispatchFollows(w: World, f: DataFrame, now: U64)
    requires WellShaped(w.n)
    ensures Follows(w.n, Dispatched(w, f, now).n, FrameOps(w, f, now))
  {
    hide Dispatched, SdoReceived, SyncReceived, NmtReceived, LssReceived, RpdoReceived, HeartbeatReceived, RouteOf, Committed, NmtOps,
         OpDone, CommitOps;
    var r := RouteOf(w.n, f);
    DispatchedByRoute(w, f, now, r);
    match r {
      case ToSdo(c) => SdoFollows(w, c, f, now);
      case ToNmt => NmtFollows(w, f);
      case ToMonitor(s) => HearFollows(w.n, s, f, now);
      case ToLss => LssFollows(w, f, now);
      case _ => PdoFramesKeep(w, f, now);
    }
  }

  /** A booted node outside Stopped runs one producer cycle per call; an accepted pulse is confirmed. */
  lemma ProduceFollows(w: World, now: U64)
    requires WellShaped(w.n)
    ensures Follows(w.n, SyncProduced(w, now).n,
                    if w.n.booted && !w.n.nmt.Stopped? then [ProducerCycle(now, NextVerdict(w.l).Accepted?)] else [])
  {
    hide SyncHandled, S.Polled, S.Confirmed;
    OneOp(ServicesOf(w.n), ProducerCycle(now, NextVerdict(w.l).Accepted?));
    var (producer, pulse) := S.Polled(w.n.producer, now);
    if pulse.Some? {
      PulseKeeps(World(w.n.(producer := S.Confirmed(producer, now)), Offered(w.l, SyncPulse, pulse.value, now)), now);
    }
  }

  lemma {:induction false} ChecksFollow(n: Node, now: U64, k: nat)
    requires k <= |n.monitors|
    ensures var n' := MonitorsChecked(n, now, k);
            n'.lss == n.lss && n'.producer == n.producer && n'.nmt == n.nmt && n'.dirty == n.dirty
            && forall i :: 0 <= i < |n.monitors| ==>
                 n'.monitors[i] == if i < k then Seen(n.monitors[i], H.Check(now)) else n.monitors[i]
  {
    hide H.Checked;
    if k > 0 {
      ChecksFollow(n, now, k - 1);
      var n1 := MonitorsChecked(n, now, k - 1);
      if n1.monitors[k - 1].Some? {
        var (m, es) := H.Checked(n1.monitors[k - 1].value, now);
        NotedKeepsMonitors(n1.(monitors := n1.monitors[k - 1 := Some(m)]), Tagged(m.nodeId, es));
      }
    }
  }

  lemma MonitorsFollow(n: Node, now: U64)
    ensures Follows(n, MonitorsChecked(n, now, |n.monitors|), [TimeoutCheck(now)])
  {
    hide MonitorsChecked, Seen;
    ChecksFollow(n, now, |n.monitors|);
    OneOp(ServicesOf(n), TimeoutCheck(now));
  }

  /** Steps that leave the services alone. */
  lemma QuietSteps(w: World, now: U64)
    requires WellShaped(w.n)
    ensures ServicesOf(CallBegun(w, now).n) == ServicesOf(w.n) == ServicesOf(SdoServiced(w, now).n)
    ensures ServicesOf(Retried(w, now).n) == ServicesOf(w.n) == ServicesOf(HeartbeatSent(w, now).n)
    ensures ServicesOf(EmergenciesSent(w, now).n) == ServicesOf(w.n)
  {
    hide ChannelsServiced, OfferedFirst, PollsBegun, T.SyncLatched, EmergenciesDrained, H.Due;
    NodeReceive.DrainingKeeps(w, now);
  }

  lemma ApplicationKeeps(w: World, od: Od, f: CanFrame)
    requires WellShaped(w.n)
    ensures ServicesOf(OdEdited(w, od).n) == ServicesOf(w.n)
    ensures ServicesOf(EmergencyQueued(w.n, f)) == ServicesOf(w.n) == ServicesOf(EventTaken(w.n))
  {
    hide ChangesLatched;
  }

  /** A notified change is marked while there is room; a poll, and every call outside Operational, clears the set. */
  lemma DirtySetFollows(w: World, a: Addr, now: U64)
    requires WellShaped(w.n)
    ensures Follows(w.n, ChangeNotified(w.n, a), [ChangeMarked(a, w.n.dirtyCapacity)])
    ensures Follows(w.n, TpdosPolled(w, now).n, [ChangesCleared])
    ensures Follows(w.n, DeadlinesPolled(w.n, now), if w.n.nmt.Operational? then [] else [ChangesCleared])
  {
    hide T.Notified, T.Polled, R.Reports, DeadlinesPushed, OpsDone;
    OneOp(ServicesOf(w.n), ChangeMarked(a, w.n.dirtyCapacity));
    OneOp(ServicesOf(w.n), ChangesCleared);
    NothingDone(ServicesOf(w.n));
  }

  /** Whatever the step, the services take exactly the operations listed for it. */
  lemma StepFollows(w: World, step: Step)
    requires WellShaped(w.n)
    ensures Follows(w.n, Stepped(w, step).n, StepOps(w, step))
  {
    hide Follows, WellShaped, BootTried, CallBegun, Dispatched, SdoServiced, SyncProduced, Retried, DeadlinesPolled, HeartbeatSent,
         MonitorsChecked, EmergenciesSent, TpdosPolled, ChangeNotified, OdEdited, WorldReset, EmergencyQueued, EventTaken, FrameOps,
         ServicesOf, ResetOps, BootOps;
    match step {
      case Boot(now) => BootFollows(w, now);
      case Deadlines(now) => DirtySetFollows(w, Addr(0, 0), now);
      case Poll(now) => DirtySetFollows(w, Addr(0, 0), now);
      case Notify(a) => DirtySetFollows(w, a, 0);
      case Frame(f, now) => DispatchFollows(w, f, now);
      case Monitors(now) => MonitorsFollow(w.n, now);
      case Reset(kind) => ResetFollows(w, kind);
      case Produce(now) => ProduceFollows(w, now);
      case Edit(od) =>
        ApplicationKeeps(w, od, CanFrame(0, []));
        Untouched(w.n, Stepped(w, step).n);
      case Queue(f) =>
        ApplicationKeeps(w, map[], f);
        Untouched(w.n, Stepped(w, step).n);
      case Take =>
        ApplicationKeeps(w, map[], CanFrame(0, []));
        Untouched(w.n, Stepped(w, step).n);
      case _ =>
        QuietSteps(w, step.at);
        Untouched(w.n, Stepped(w, step).n);
    }
  }

  // ---- Whole runs ----

  /** Everything that happens to the services along the node's steps, in order. */
  function Trace(w: World, steps: seq<Step>): seq<Op>
    requires WellShaped(w.n)
  {
    if steps == [] then []
    else
      var front := steps[..|steps| - 1];
      Trace(w, front) + StepOps(StepRun(w, front), steps[|steps| - 1])
  }

  function RunTrace(w: World, calls: seq<Call>): seq<Op>
    requires WellShaped(w.n)
  {
    Trace(w, RunSteps(w, calls))
  }

  lemma {:induction false} StepsFollow(w: World, steps: seq<Step>)
    requires WellShaped(w.n)
    ensures Follows(w.n, StepRun(w, steps).n, Trace(w, steps))
  {
    hide Stepped, StepOps, WellShaped, OpDone, ServicesOf;
    if steps != [] {
      var front, step := steps[..|steps| - 1], steps[|steps| - 1];
      StepsFollow(w, front);
      var before := StepRun(w, front);
      StepFollows(before, step);
      OpsConcat(ServicesOf(w.n), Trace(w, front), StepOps(before, step));
    }
  }

  /** Along every run the services are exactly where their own operations lead them. */
  lemma RunFollows(w: World, calls: seq<Call>)
    requires WellShaped(w.n)
    ensures Follows(w.n, Run(w, calls).n, RunTrace(w, calls))
  {
    hide Follows, Run, StepRun, Trace, RunSteps, WellShaped;
    RunIsSteps(w, calls);
    StepsFollow(w, RunSteps(w, calls));
  }

  // ---- Each service on its own ----

  /** The state the last `StateEntered` among the operations names. */
  function LastEntered(before: NmtState, ops: seq<Op>): NmtState {
    if ops == [] then before
    else match ops[|ops| - 1]
      case StateEntered(s) => s
      case _ => LastEntered(before, ops[..|ops| - 1])
  }

  lemma {:induction false} StateOfOps(s: Services, ops: seq<Op>)
    ensures OpsDone(s, ops).nmt == LastEntered(s.nmt, ops)
  {
    if ops != [] {
      StateOfOps(s, ops[..|ops| - 1]);
    }
  }

  /** The NMT state of a node is the one its last boot-up, command or reset led to. */
  lemma StateInAnyRun(w: World, calls: seq<Call>)
    requires WellShaped(w.n)
    ensures Run(w, calls).n.nmt == LastEntered(w.n.nmt, RunTrace(w, calls))
  {
    hide Run, RunTrace, OpsDone, LastEntered;
    RunFollows(w, calls);
    StateOfOps(ServicesOf(w.n), RunTrace(w, calls));
  }

  /** The LSS frames among the operations. */
  function LssFrames(ops: seq<Op>): seq<CanFrame> {
    if ops == [] then []
    else LssFrames(ops[..|ops| - 1]) + if ops[|ops| - 1].LssFrame? then [ops[|ops| - 1].frame] else []
  }

  lemma {:induction false} LssOfOps(s: Services, ops: seq<Op>)
    ensures OpsDone(s, ops).lss == Lss.Run(s.lss, LssFrames(ops))
  {
    hide Lss.Step;
    if ops != [] {
      var front, op := ops[..|ops| - 1], ops[|ops| - 1];
      LssOfOps(s, front);
      if op.LssFrame? {
        assert (LssFrames(front) + [op.frame])[..|LssFrames(front)|] == LssFrames(front);
      } else {
        assert LssFrames(front) + [] == LssFrames(front);
      }
    }
  }

  /** The LSS slave of a node sees exactly the frames routed to it, whatever else the node does. */
  lemma LssInAnyRun(w: World, calls: seq<Call>)
    requires WellShaped(w.n)
    ensures Run(w, calls).n.lss == Lss.Run(w.n.lss, LssFrames(RunTrace(w, calls)))
  {
    hide Run, RunTrace, OpsDone, Lss.Run, LssFrames;
    RunFollows(w, calls);
    LssOfOps(ServicesOf(w.n), RunTrace(w, calls));
  }

  /** What the monitor in a slot sees among the operations. */
  function InputsOf(ops: seq<Op>, slot: nat): seq<H.Input> {
    if ops == [] then []
    else
      InputsOf(ops[..|ops| - 1], slot)
      + match ops[|ops| - 1]
        case HeartbeatFrom(s, node, byte, at) => if s == slot then [H.Frame(node, byte, at)] else []
        case TimeoutCheck(at) => [H.Check(at)]
        case _ => []
  }

  lemma {:induction false} MonitorOfOps(s: Services, ops: seq<Op>, slot: nat)
    requires slot < |s.monitors| && s.monitors[slot].Some? && forall k :: 0 <= k < |ops| ==> !ops[k].MonitorsLoaded?
    ensures OpsDone(s, ops).monitors[slot] == Some(H.Run(s.monitors[slot].value, InputsOf(ops, slot)))
  {
    hide H.Step;
    if ops != [] {
      var front := ops[..|ops| - 1];
      MonitorOfOps(s, front, slot);
      var before, all := InputsOf(front, slot), InputsOf(ops, slot);
      if all != before {
        assert |all| == |before| + 1 && all[..|before|] == before;
      }
    }
  }

  /**
   A heartbeat monitor of a node, as long as its configuration is not re-read, is
   where the heartbeats routed to it and the node's timeout checks lead it; so
   what is proved of every monitor run holds of it.
   */
  lemma MonitorInAnyRun(w: World, calls: seq<Call>, slot: nat)
    requires WellShaped(w.n) && slot < |w.n.monitors| && w.n.monitors[slot].Some?
    requires forall k :: 0 <= k < |RunTrace(w, calls)| ==> !RunTrace(w, calls)[k].MonitorsLoaded?
    ensures |Run(w, calls).n.monitors| == |w.n.monitors|
    ensures Run(w, calls).n.monitors[slot] == Some(H.Run(w.n.monitors[slot].value, InputsOf(RunTrace(w, calls), slot)))
  {
    hide Run, RunTrace, OpsDone, H.Run, InputsOf;
    RunFollows(w, calls);
    MonitorOfOps(ServicesOf(w.n), RunTrace(w, calls), slot);
  }

  /** The producer cycles among the operations. */
  function CyclesOf(ops: seq<Op>): seq<S.Cycle> {
    if ops == [] then []
    else CyclesOf(ops[..|ops| - 1])
         + match ops[|ops| - 1] case ProducerCycle(at, accepts) => [S.Cycle(at, accepts, false)] case _ => []
  }

  lemma {:induction false} ProducerOfOps(s: Services, ops: seq<Op>)
    requires forall k :: 0 <= k < |ops| ==> !ops[k].SyncLoaded? && !ops[k].SyncRestarted?
    ensures OpsDone(s, ops).producer == S.RunStation(S.Station(s.producer, []), CyclesOf(ops)).producer
  {
    hide S.Polled, S.Confirmed;
    if ops != [] {
      var front := ops[..|ops| - 1];
      ProducerOfOps(s, front);
      var before, all := CyclesOf(front), CyclesOf(ops);
      if all != before {
        assert |all| == |before| + 1 && all[..|before|] == before;
      }
    }
  }

  /**
   The SYNC producer of a node, between configuration changes and resets, runs one
   cycle per processing call outside Initializing and Stopped; so a pulse is
   offered exactly when it is due, numbered and spaced as proved of every station.
   */
  lemma ProducerInAnyRun(w: World, calls: seq<Call>, now: U64)
    requires WellShaped(w.n) && !w.n.producer.armed
    requires forall k :: 0 <= k < |RunTrace(w, calls)| ==>
               !RunTrace(w, calls)[k].SyncLoaded? && !RunTrace(w, calls)[k].SyncRestarted?
    ensures var cycles := CyclesOf(RunTrace(w, calls));
            var s := S.RunStation(S.Station(w.n.producer, []), cycles);
            Run(w, calls).n.producer == s.producer
            && (S.Polled(Run(w, calls).n.producer, now).1.Some? <==>
                  S.Enabled(w.n.producer) && cycles != [] && Elapsed(now, S.PeriodStart(s, cycles)) >= w.n.producer.intervalUs)
  {
    hide Run, RunTrace, OpsDone, S.RunStation, S.Polled, CyclesOf, Elapsed;
    RunFollows(w, calls);
    ProducerOfOps(ServicesOf(w.n), RunTrace(w, calls));
    S.PulseDueExactly(w.n.producer, CyclesOf(RunTrace(w, calls)), now);
  }
}
