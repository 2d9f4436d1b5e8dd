/**
 The node drives its TPDO engine only through the engine's own operations, so
 what is proved of every engine run holds of every node run.
 */
module NodeEngines {
  import opened Types
  import opened ObjectDictionary
  import opened PdoWire
  import opened Transport
  import opened Nmt
  import opened NodeModel
  import opened NodeRuns
  import opened NodeSteps
  import H = Heartbeat
  import History
  import NodeSafety
  import R = RpdoEngine
  import Slot = SdoSlot
  import S = Sync
  import T = TpdoEngine

  // ---- The TPDO engine's operations, step by step ----

  function ReloadOp(n: Node): T.Op {
    T.Reload(LoadedTpdos(n.sink.od, n.tpdo.pdos))
  }

  function NmtOps(w: World, f: CanFrame): seq<T.Op> {
    if |f.data| != 2 || CommandFromByte(f.data[0]).None? then []
    else
      var (s, t) := Commanded(w.n.nmt, CommandFromByte(f.data[0]).value, f.data[1] as nat, w.n.id);
      match t
      case NoTransition => []
      case StateChanged => if s.Operational? then [] else [T.Discard]
      case ResetApplication => [ReloadOp(w.n), T.ResetAll]
      case ResetComm => [ReloadOp(w.n), T.ResetAll]
  }

  function PulseOps(n: Node): seq<T.Op> {
    if n.nmt.Operational? then [T.Pulse] else []
  }

  /** A committed download to a PDO record reloads the engine. */
  function CommitOps(n: Node, c: Slot.Commit): seq<T.Op> {
    match Write(n.sink.od, c.addr, c.data)
    case Err(_) => []
    case Ok(od) => if 0x1400 <= c.addr.index <= 0x1BFF then [T.Reload(LoadedTpdos(od, n.tpdo.pdos))] else []
  }

  function SdoOps(w: World, c: nat, f: CanFrame, now: U64): seq<T.Op>
    requires c < |w.n.channels|
  {
    if !History.Talking(w.n.nmt) || |f.data| != 8 then []
    else
      var commit := Slot.Requested(w.n.channels[c], w.l, c, f.data[0] == 0x80, now).2;
      if commit.Some? then CommitOps(w.n, commit.value) else []
  }

  /** A frame on the SYNC COB-ID with at most one byte is a pulse. */
  predicate IsPulse(f: CanFrame) {
    |f.data| <= 1
  }

  /** What a dispatched frame does to the TPDO engine, by the part of the node it belongs to. */
  function FrameOps(w: World, f: DataFrame, now: U64): seq<T.Op>
    requires WellShaped(w.n)
  {
    match RouteOf(w.n, f)
    case ToSdo(c) => SdoOps(w, c, f, now)
    case ToSync => if IsPulse(f) then PulseOps(w.n) else []
    case ToNmt => NmtOps(w, f)
    case _ => []
  }

  function ProduceOps(w: World, now: U64): seq<T.Op> {
    if w.n.booted && !w.n.nmt.Stopped? && S.Polled(w.n.producer, now).1.Some? && NextVerdict(w.l).Accepted?
    then PulseOps(w.n) else []
  }

  /** Outside Operational every processing call discards latched triggers. */
  function DeadlineOps(n: Node): seq<T.Op> {
    if n.nmt.Operational? then [] else [T.Discard]
  }

  /** A poll samples the dictionary as it is. */
  function PollOps(w: World, now: U64): seq<T.Op> {
    if w.n.nmt.Operational? then [T.Poll(w.n.sink.od, now, w.n.dirty, w.l)] else []
  }

  /** An edited dictionary latches each TPDO that maps a changed object, in slot order. */
  function EditOps(n: Node, od: Od, k: nat): seq<T.Op>
    requires WellShaped(n) && k <= |n.tpdo.pdos|
  {
    if k == 0 then []
    else EditOps(n, od, k - 1)
         + if MappedDiffers(n.sink.od, od, n.tpdo.pdos[k - 1].mappings) then [T.LatchSlot(k - 1)] else []
  }

  /** What each step does to the TPDO engine. */
  function StepOps(w: World, step: Step): seq<T.Op>
    requires WellShaped(w.n)
  {
    match step
    case Begin(_) => [T.LatchDirty(w.n.dirty)]
    case Frame(f, now) => FrameOps(w, f, now)
    case Produce(now) => ProduceOps(w, now)
    case Deadlines(_) => DeadlineOps(w.n)
    case Poll(now) => PollOps(w, now)
    case Notify(a) => [T.Notify(a)]
    case Edit(od) => EditOps(w.n, od, |w.n.tpdo.pdos|)
    case Reset(_) => [ReloadOp(w.n), T.ResetAll]
    case _ => []
  }

  /** The engine took the steps `ops`; triggers were dropped only if the node is left outside Operational. */
  ghost predicate Follows(t: T.Tpdo, n': Node, ops: seq<T.Op>) {
    T.TpdoOk(t) && T.Run(t, ops) == n'.tpdo
    && forall k :: 0 <= k < |ops| && T.Drops(ops[k]) ==> !n'.nmt.Operational?
  }

  lemma OneOp(t: T.Tpdo, op: T.Op)
    requires T.TpdoOk(t)
    ensures T.Run(t, [op]) == T.Step(t, op)
  {
    assert [op][..0] == [];
  }

  lemma ResetFollows(w: World, kind: ResetType)
    requires WellShaped(w.n)
    ensures Follows(w.n.tpdo, WorldReset(w, kind).n, [ReloadOp(w.n), T.ResetAll])
  {
    hide LoadedSync, LoadedMonitor, LoadedTpdos, LoadedRpdos, ReadNat, ChannelsCancelled;
    var ops := [ReloadOp(w.n), T.ResetAll];
    OneOp(w.n.tpdo, ops[0]);
    assert ops[..1] == [ops[0]];
    assert T.Run(w.n.tpdo, ops) == T.Step(T.Step(w.n.tpdo, ops[0]), T.ResetAll);
  }

  lemma DiscardStep(t: T.Tpdo)
    requires T.TpdoOk(t)
    ensures T.Run(t, [T.Discard]) == T.EventsDiscarded(t)
  {
    OneOp(t, T.Discard);
  }

  lemma NmtFollows(w: World, f: CanFrame)
    requires WellShaped(w.n)
    ensures Follows(w.n.tpdo, NmtReceived(w, f).n, NmtOps(w, f))
  {
    hide CommandFromByte, WorldReset, ChannelsCancelled, T.Step, ReloadOp;
    if |f.data| == 2 && CommandFromByte(f.data[0]).Some? {
      DiscardStep(w.n.tpdo);
      ResetFollows(w, ResetApp);
      ResetFollows(w, ResetCom);
    }
  }

  lemma PulseFollows(w: World, now: U64)
    requires WellShaped(w.n)
    ensures Follows(w.n.tpdo, SyncHandled(w, now).n, PulseOps(w.n))
  {
    hide T.SyncFrames, CommitsNoted, OfferedFirst, DueSources, R.Committed;
    OneOp(w.n.tpdo, T.Pulse);
  }

  lemma CommitFollows(w: World, c: Slot.Commit)
    requires WellShaped(w.n)
    ensures Follows(w.n.tpdo, CommitApplied(w, c).n, CommitOps(w.n, c))
  {
    hide LoadedSync, LoadedMonitor, LoadedTpdos, LoadedRpdos, ReadNat, Write, Newest, CycleNoted;
    match Write(w.n.sink.od, c.addr, c.data) {
      case Err(_) =>
      case Ok(od) => OneOp(w.n.tpdo, T.Reload(LoadedTpdos(od, w.n.tpdo.pdos)));
    }
  }

  lemma SdoFollows(w: World, c: nat, f: CanFrame, now: U64)
    requires WellShaped(w.n) && c < |w.n.channels|
    ensures Follows(w.n.tpdo, SdoReceived(w, c, f, now).n, SdoOps(w, c, f, now))
  {
    hide Slot.Requested, CommitApplied, Write, LoadedTpdos, T.Step;
    if History.Talking(w.n.nmt) && |f.data| == 8 {
      var (ch, l, commit) := Slot.Requested(w.n.channels[c], w.l, c, f.data[0] == 0x80, now);
      var w1 := World(w.n.(channels := w.n.channels[c := ch]), l);
      if commit.Some? {
        CommitFollows(w1, commit.value);
      }
    }
  }

  lemma SyncFollows(w: World, f: DataFrame, now: U64)
    requires WellShaped(w.n) && ConsumesSync(w.n, f.id)
    ensures Follows(w.n.tpdo, SyncReceived(w, f, now).n, if IsPulse(f) then PulseOps(w.n) else [])
  {
    hide SyncHandled, T.Step;
    PulseFollows(w.(n := w.n.(consumer := S.Consumed(w.n.consumer, f).0)), now);
  }

  lemma OtherFramesKeepTpdo(w: World, f: DataFrame, now: U64)
    requires WellShaped(w.n)
    ensures LssReceived(w, f, now).n.tpdo == w.n.tpdo && RpdoReceived(w, f, now).n.tpdo == w.n.tpdo
    ensures forall s, b :: 0 <= s < |w.n.monitors| && w.n.monitors[s].Some? ==>
              HeartbeatReceived(w.n, s, b, now).tpdo == w.n.tpdo
  {
    hide R.Processed, HeartbeatNoted;
    forall s, b | 0 <= s < |w.n.monitors| && w.n.monitors[s].Some?
      ensures HeartbeatReceived(w.n, s, b, now).tpdo == w.n.tpdo
    {
      var m := w.n.monitors[s].value;
      var (m', es) := H.Received(m, m.nodeId, b, now);
      NotedKeepsMonitors(w.n.(monitors := w.n.monitors[s := Some(m')]), Tagged(m.nodeId, es));
    }
  }

  /**
   Whatever frame is dispatched, the TPDO engine takes exactly these steps, and
   a trigger is dropped only when the node is left outside Operational.
   */
  lemma DispatchFollows(w: World, f: DataFrame, now: U64)
    requires WellShaped(w.n)
    ensures Follows(w.n.tpdo, Dispatched(w, f, now).n, FrameOps(w, f, now))
  {
    hide Dispatched, SdoReceived, SyncReceived, NmtReceived, LssReceived, RpdoReceived, HeartbeatReceived, SdoOps, NmtOps, T.Step,
         RouteOf;
    var r := RouteOf(w.n, f);
    DispatchedByRoute(w, f, now, r);
    match r {
      case ToSdo(c) => SdoFollows(w, c, f, now);
      case ToSync => SyncFollows(w, f, now);
      case ToNmt => NmtFollows(w, f);
      case _ => OtherFramesKeepTpdo(w, f, now);
    }
  }

  lemma ProduceFollows(w: World, now: U64)
    requires WellShaped(w.n)
    ensures Follows(w.n.tpdo, SyncProduced(w, now).n, ProduceOps(w, now))
  {
    hide SyncHandled, S.Polled, S.Confirmed, T.Step;
    if w.n.booted && !w.n.nmt.Stopped? {
      var (producer, pulse) := S.Polled(w.n.producer, now);
      if pulse.Some? && NextVerdict(w.l).Accepted? {
        PulseFollows(World(w.n.(producer := S.Confirmed(producer, now)), Offered(w.l, SyncPulse, pulse.value, now)), now);
      }
    }
  }

  /** The start of a call only latches; the deadline step drops triggers only outside Operational. */
  lemma CallEdgesFollow(w: World, now: U64)
    requires WellShaped(w.n)
    ensures Follows(w.n.tpdo, CallBegun(w, now).n, [T.LatchDirty(w.n.dirty)])
    ensures Follows(w.n.tpdo, DeadlinesPolled(w.n, now), DeadlineOps(w.n))
  {
    hide PollsBegun, T.SyncLatched, R.Reports, DeadlinesPushed;
    OneOp(w.n.tpdo, T.LatchDirty(w.n.dirty));
    DiscardStep(w.n.tpdo);
  }

  /** A poll samples the current dictionary; outside Operational the engine is left alone. */
  lemma PollFollows(w: World, now: U64)
    requires WellShaped(w.n)
    ensures Follows(w.n.tpdo, TpdosPolled(w, now).n, PollOps(w, now))
  {
    hide T.Polled;
    OneOp(w.n.tpdo, T.Poll(w.n.sink.od, now, w.n.dirty, w.l));
  }

  /** A notified change latches every event-driven TPDO mapping the object, however full the dirty set is. */
  lemma NotifyAlwaysLatches(n: Node, a: Addr, i: nat)
    requires WellShaped(n) && i < |n.tpdo.pdos| && T.Watches(n.tpdo.pdos[i], [a])
    ensures ChangeNotified(n, a).tpdo.asyncPending[i]
  {
    hide T.MapsAny;
    T.StepEffect(n.tpdo, T.Notify(a), i);
  }

  lemma {:induction false} EditFollows(n: Node, od: Od, k: nat)
    requires WellShaped(n) && k <= |n.tpdo.pdos|
    ensures T.Run(n.tpdo, EditOps(n, od, k)) == ChangesLatched(n.tpdo, n.sink.od, od, k)
    ensures forall j :: 0 <= j < |EditOps(n, od, k)| ==> EditOps(n, od, k)[j].LatchSlot?
  {
    hide MappedDiffers, T.SlotLatched;
    if k > 0 {
      EditFollows(n, od, k - 1);
      var ops := EditOps(n, od, k - 1);
      if MappedDiffers(n.sink.od, od, n.tpdo.pdos[k - 1].mappings) {
        assert (ops + [T.LatchSlot(k - 1)])[..|ops|] == ops;
      } else {
        assert ops + [] == ops;
      }
    }
  }

  lemma {:induction false} DrainingKeepsTpdo(w: World, now: U64)
    ensures EmergenciesDrained(w, now).n.tpdo == w.n.tpdo
    decreases |w.n.emergencies|
  {
    if w.n.emergencies != [] && NextVerdict(w.l).Accepted? {
      DrainingKeepsTpdo(World(w.n.(emergencies := w.n.emergencies[1..]),
                              Offered(w.l, Emergency, w.n.emergencies[0], now)), now);
    }
  }

  /** Steps that leave the TPDO engine alone. */
  lemma QuietSteps(w: World, now: U64)
    ensures SdoServiced(w, now).n.tpdo == w.n.tpdo && Retried(w, now).n.tpdo == w.n.tpdo
    ensures BootTried(w, now).0.n.tpdo == w.n.tpdo && HeartbeatSent(w, now).n.tpdo == w.n.tpdo
    ensures MonitorsChecked(w.n, now, |w.n.monitors|).tpdo == w.n.tpdo && EmergenciesSent(w, now).n.tpdo == w.n.tpdo
  {
    hide ChannelsServiced, OfferedFirst, MonitorsChecked, EmergenciesDrained, H.Due;
    NodeSafety.MonitorsCheckedCore(w.n, now, |w.n.monitors|);
    DrainingKeepsTpdo(w, now);
  }

  lemma Still(t: T.Tpdo, n': Node)
    requires T.TpdoOk(t) && n'.tpdo == t
    ensures Follows(t, n', [])
  {
  }

  lemma ApplicationFollows(w: World, a: Addr, od: Od)
    requires WellShaped(w.n)
    ensures Follows(w.n.tpdo, ChangeNotified(w.n, a), [T.Notify(a)])
    ensures Follows(w.n.tpdo, OdEdited(w, od).n, EditOps(w.n, od, |w.n.tpdo.pdos|))
  {
    hide T.Notified, ChangesLatched, EditOps;
    OneOp(w.n.tpdo, T.Notify(a));
    EditFollows(w.n, od, |w.n.tpdo.pdos|);
  }

  /** Whatever the step, the TPDO engine takes exactly the operations listed for it. */
  lemma StepFollows(w: World, step: Step)
    requires WellShaped(w.n)
    ensures Follows(w.n.tpdo, Stepped(w, step).n, StepOps(w, step))
  {
    hide Follows, WellShaped, BootTried, CallBegun, Dispatched, SdoServiced, SyncProduced, Retried, DeadlinesPolled, HeartbeatSent,
         MonitorsChecked, EmergenciesSent, TpdosPolled, ChangeNotified, OdEdited, WorldReset, FrameOps, ProduceOps, DeadlineOps,
         PollOps, EditOps, ReloadOp;
    ShapedTpdo(w.n);
    match step {
      case Begin(now) => CallEdgesFollow(w, now);
      case Frame(f, now) => DispatchFollows(w, f, now);
      case Produce(now) => ProduceFollows(w, now);
      case Deadlines(now) => CallEdgesFollow(w, now);
      case Poll(now) => PollFollows(w, now);
      case Notify(a) => ApplicationFollows(w, a, map[]);
      case Edit(od) => ApplicationFollows(w, Addr(0, 0), od);
      case Reset(kind) => ResetFollows(w, kind);
      case Queue(_) => Still(w.n.tpdo, Stepped(w, step).n);
      case Take => Still(w.n.tpdo, Stepped(w, step).n);
      case _ =>
        QuietSteps(w, step.at);
        Still(w.n.tpdo, Stepped(w, step).n);
    }
  }

  lemma ShapedTpdo(n: Node)
    requires WellShaped(n)
    ensures T.TpdoOk(n.tpdo)
  {
  }

  // ---- Whole runs ----

  /** An engine operation and the NMT state the node was left in by the step that took it. */
  datatype Took = Took(op: T.Op, state: NmtState)

  function OpsOf(trace: seq<Took>): (ops: seq<T.Op>)
    ensures |ops| == |trace| && forall k :: 0 <= k < |trace| ==> ops[k] == trace[k].op
  {
    seq(|trace|, k requires 0 <= k < |trace| => trace[k].op)
  }

  function TookAll(ops: seq<T.Op>, s: NmtState): (trace: seq<Took>)
    ensures |trace| == |ops| && forall k :: 0 <= k < |ops| ==> trace[k] == Took(ops[k], s)
  {
    seq(|ops|, k requires 0 <= k < |ops| => Took(ops[k], s))
  }

  /** Everything the node does to its TPDO engine along its steps, in order. */
  function Trace(w: World, steps: seq<Step>): seq<Took>
    requires WellShaped(w.n)
  {
    if steps == [] then []
    else
      var before, step := StepRun(w, steps[..|steps| - 1]), steps[|steps| - 1];
      Trace(w, steps[..|steps| - 1]) + TookAll(StepOps(before, step), Stepped(before, step).n.nmt)
  }

  function RunTrace(w: World, calls: seq<Call>): seq<Took>
    requires WellShaped(w.n)
  {
    Trace(w, RunSteps(w, calls))
  }

  /** The trace leads the engine from `t` to `t'`, dropping triggers only outside Operational. */
  ghost predicate Drives(t: T.Tpdo, trace: seq<Took>, t': T.Tpdo) {
    T.TpdoOk(t) && T.Run(t, OpsOf(trace)) == t'
    && forall k :: 0 <= k < |trace| && T.Drops(trace[k].op) ==> !trace[k].state.Operational?
  }

  lemma {:induction false} RunConcat(t: T.Tpdo, a: seq<T.Op>, b: seq<T.Op>)
    requires T.TpdoOk(t)
    ensures T.Run(t, a + b) == T.Run(T.Run(t, a), b)
  {
    hide T.Step;
    if b == [] {
      assert a + b == a;
    } else {
      var n := |b| - 1;
      RunConcat(t, a, b[..n]);
      assert (a + b)[..|a + b| - 1] == a + b[..n];
    }
  }

  lemma Chain(t: T.Tpdo, a: seq<Took>, t1: T.Tpdo, b: seq<Took>, t2: T.Tpdo)
    requires Drives(t, a, t1) && Drives(t1, b, t2)
    ensures Drives(t, a + b, t2)
  {
    hide T.Run, T.Drops;
    RunConcat(t, OpsOf(a), OpsOf(b));
    assert OpsOf(a + b) == OpsOf(a) + OpsOf(b);
  }

  lemma FollowsDrives(t: T.Tpdo, n': Node, ops: seq<T.Op>)
    requires Follows(t, n', ops)
    ensures Drives(t, TookAll(ops, n'.nmt), n'.tpdo)
  {
    assert OpsOf(TookAll(ops, n'.nmt)) == ops;
  }

  lemma StandsStill(t: T.Tpdo)
    requires T.TpdoOk(t)
    ensures Drives(t, [], t)
  {
    assert OpsOf([]) == [];
  }

  lemma {:induction false} StepsDrive(w: World, steps: seq<Step>)
    requires WellShaped(w.n)
    ensures Drives(w.n.tpdo, Trace(w, steps), StepRun(w, steps).n.tpdo)
  {
    hide Drives, Follows, Stepped, StepOps, WellShaped;
    ShapedTpdo(w.n);
    if steps == [] {
      StandsStill(w.n.tpdo);
    } else {
      var front, step := steps[..|steps| - 1], steps[|steps| - 1];
      StepsDrive(w, front);
      var before := StepRun(w, front);
      StepFollows(before, step);
      FollowsDrives(before.n.tpdo, Stepped(before, step).n, StepOps(before, step));
      Chain(w.n.tpdo, Trace(w, front), before.n.tpdo,
            TookAll(StepOps(before, step), Stepped(before, step).n.nmt), Stepped(before, step).n.tpdo);
    }
  }

  /** Along every run the TPDO engine is exactly where the node's trace of operations leads it. */
  lemma RunDrives(w: World, calls: seq<Call>)
    requires WellShaped(w.n)
    ensures Drives(w.n.tpdo, RunTrace(w, calls), Run(w, calls).n.tpdo)
  {
    hide Drives, Run, StepRun, Trace, RunSteps, WellShaped;
    RunIsSteps(w, calls);
    StepsDrive(w, RunSteps(w, calls));
  }

  /**
   No trigger is lost over any run of the node: the latch of an event-driven
   TPDO is set exactly when some change reported along the run has neither been
   followed by an accepted frame nor been dropped, and drops happen only outside
   Operational.
   */
  lemma NoTriggerLostInAnyRun(w: World, calls: seq<Call>, i: nat)
    requires WellShaped(w.n) && i < |w.n.tpdo.pdos| && !w.n.tpdo.asyncPending[i]
    ensures |Run(w, calls).n.tpdo.pdos| == |w.n.tpdo.pdos|
    ensures Run(w, calls).n.tpdo.asyncPending[i] <==>
              exists j :: 0 <= j < |RunTrace(w, calls)| && T.OwedSince(w.n.tpdo, OpsOf(RunTrace(w, calls)), i, j)
    ensures forall k :: 0 <= k < |RunTrace(w, calls)| && T.Drops(RunTrace(w, calls)[k].op) ==>
              !RunTrace(w, calls)[k].state.Operational?
  {
    hide Run, RunTrace, T.OwedSince;
    RunDrives(w, calls);
    T.NoTriggerLost(w.n.tpdo, OpsOf(RunTrace(w, calls)), i);
  }

  /**
   Synchronous triggers over any run of the node: an enabled acyclic TPDO is due
   on the next pulse exactly when some change to an object it maps was reported
   since the last pulse it answered or the last drop.
   */
  lemma AcyclicIsExactInAnyRun(w: World, calls: seq<Call>, i: nat)
    requires WellShaped(w.n) && i < |w.n.tpdo.pdos| && !w.n.tpdo.syncPending[i]
    ensures |Run(w, calls).n.tpdo.pdos| == |w.n.tpdo.pdos|
    ensures var t := Run(w, calls).n.tpdo;
            t.pdos[i].enabled && t.pdos[i].transmissionType == 0 ==>
              (T.DueOnSync(t, i) <==>
                 exists j :: 0 <= j < |RunTrace(w, calls)| && T.ChangedSince(w.n.tpdo, OpsOf(RunTrace(w, calls)), i, j))
  {
    hide Run, RunTrace, T.ChangedSince, T.DueOnSync;
    RunDrives(w, calls);
    T.AcyclicIsExact(w.n.tpdo, OpsOf(RunTrace(w, calls)), i);
  }

  /**
   The divisor over any run of the node: while a TPDO stays enabled with type
   `n` and no reset intervenes, it is due on exactly every n-th pulse.
   */
  lemma DivisorIsExactInAnyRun(w: World, calls: seq<Call>, i: nat, n: nat)
    requires WellShaped(w.n) && i < |w.n.tpdo.pdos| && w.n.tpdo.syncCounter[i] == 0 && 1 <= n <= 240
    requires var ops := OpsOf(RunTrace(w, calls)); forall j :: 0 <= j <= |ops| ==> T.SteadyAt(w.n.tpdo, ops, i, n, j)
    ensures |Run(w, calls).n.tpdo.pdos| == |w.n.tpdo.pdos|
    ensures T.DueOnSync(Run(w, calls).n.tpdo, i) <==> (T.Pulses(OpsOf(RunTrace(w, calls))) + 1) % n == 0
  {
    hide Run, RunTrace, T.DueOnSync, T.Pulses, T.SteadyAt;
    RunDrives(w, calls);
    var ops := OpsOf(RunTrace(w, calls));
    T.DivisorIsExact(w.n.tpdo, ops, i, n, |ops|);
    assert ops[..|ops|] == ops;
  }
}
