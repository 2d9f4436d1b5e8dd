/**
 Every run of a node: sequences of processing calls and application calls,
 and what holds along all of them.
 */
module NodeRuns {
  import opened Types
  import opened ObjectDictionary
  import opened PdoWire
  import opened Transport
  import opened Nmt
  import opened History
  import opened NodeModel
  import opened NodeSafety
  import Lss
  import R = RpdoEngine
  import Slot = SdoSlot
  import S = Sync
  import T = TpdoEngine

  // ---- One processing call ----

  /** All received frames dispatched in order. */
  function Drained(w: World, fs: seq<DataFrame>, now: U64): (w': World)
    requires WellShaped(w.n)
    ensures WellShaped(w'.n)
    decreases |fs|
  {
    if fs == [] then w else Drained(Dispatched(w, fs[0], now), fs[1..], now)
  }

  /** Everything after the receive loop that may send or discard PDO work. */
  function PdoWorkDone(w: World, now: U64): (w': World)
    requires WellShaped(w.n)
    ensures WellShaped(w'.n)
  {
    var w1 := Retried(SyncProduced(SdoServiced(w, now), now), now);
    w1.(n := DeadlinesPolled(w1.n, now))
  }

  /** The periodic services at the end of a call. */
  function ServicesDone(w: World, now: U64): (w': World)
    requires WellShaped(w.n)
    ensures WellShaped(w'.n)
  {
    var w1 := HeartbeatSent(w, now);
    var w2 := w1.(n := MonitorsChecked(w1.n, now, |w1.n.monitors|));
    TpdosPolled(EmergenciesSent(w2, now), now)
  }

  /** A call once the node is booted. */
  function CallRun(w: World, fs: seq<DataFrame>, now: U64): (w': World)
    requires WellShaped(w.n)
    ensures WellShaped(w'.n)
  {
    ServicesDone(PdoWorkDone(Drained(CallBegun(w, now), fs, now), now), now)
  }

  /** A whole call to `process` with the frames waiting in the transport. */
  function Processed(w: World, fs: seq<DataFrame>, now: U64): (w': World)
    requires WellShaped(w.n)
    ensures WellShaped(w'.n)
  {
    var (w1, up) := BootTried(w, now);
    if up then CallRun(w1, fs, now) else w1
  }

  // ---- Runs ----

  datatype Call =
    | Process(frames: seq<DataFrame>, at: U64)
    | NotifyChanged(addr: Addr)
    | EditOd(od: Od)
    | RequestReset(kind: ResetType)
    | QueueEmergency(frame: CanFrame)
    | TakeEvent

  function Called(w: World, call: Call): (w': World)
    requires WellShaped(w.n)
    ensures WellShaped(w'.n)
  {
    match call
    case Process(fs, now) => Processed(w, fs, now)
    case NotifyChanged(a) => w.(n := ChangeNotified(w.n, a))
    case EditOd(od) => OdEdited(w, od)
    case RequestReset(kind) => WorldReset(w, kind)
    case QueueEmergency(f) => w.(n := EmergencyQueued(w.n, f))
    case TakeEvent => w.(n := EventTaken(w.n))
  }

  function Run(w: World, calls: seq<Call>): (w': World)
    requires WellShaped(w.n)
    ensures WellShaped(w'.n)
  {
    if calls == [] then w else Called(Run(w, calls[..|calls| - 1]), calls[|calls| - 1])
  }

  // ---- Every call keeps the invariant ----

  /** Whatever batch of frames is received, the invariant holds after each of them. */
  lemma {:induction false} DrainedOk(w: World, fs: seq<DataFrame>, now: U64)
    requires Safe(w) && AllFresh(w.n.channels, now)
    ensures Safe(Drained(w, fs, now)) && AllFresh(Drained(w, fs, now).n.channels, now)
    decreases |fs|
  {
    hide Safe, AllFresh, Dispatched;
    if fs != [] {
      SafeShaped(w);
      DispatchOk(w, fs[0], now);
      DrainedOk(Dispatched(w, fs[0], now), fs[1..], now);
    }
  }

  lemma SafeShaped(w: World)
    requires Safe(w)
    ensures WellShaped(w.n)
  {
  }

  lemma PdoWorkOk(w: World, now: U64)
    requires Safe(w) && AllFresh(w.n.channels, now)
    ensures Safe(PdoWorkDone(w, now))
  {
    hide Safe, AllFresh, SdoServiced, SyncProduced, Retried, DeadlinesPolled;
    SafeShaped(w);
    SdoServicedOk(w, now);
    SyncProducedOk(SdoServiced(w, now), now);
    RetriedOk(SyncProduced(SdoServiced(w, now), now), now);
    DeadlinesOk(Retried(SyncProduced(SdoServiced(w, now), now), now), now);
  }

  lemma ServicesOk(w: World, now: U64)
    requires Safe(w)
    ensures Safe(ServicesDone(w, now))
  {
    hide Safe, HeartbeatSent, MonitorsChecked, EmergenciesDrained, TpdosPolled;
    SafeShaped(w);
    HeartbeatSentOk(w, now);
    var w1 := HeartbeatSent(w, now);
    MonitorsOk(w1, now);
    var w2 := w1.(n := MonitorsChecked(w1.n, now, |w1.n.monitors|));
    if w2.n.booted && Talking(w2.n.nmt) {
      EmergenciesOk(w2, now);
    }
    TpdosPolledOk(EmergenciesSent(w2, now), now);
  }

  /** A whole processing call keeps the invariant, whether it boots, is postponed or runs to the end. */
  lemma ProcessedOk(w: World, fs: seq<DataFrame>, now: U64)
    requires Safe(w)
    ensures Safe(Processed(w, fs, now))
  {
    hide Safe, AllFresh, BootTried, CallBegun, Drained, PdoWorkDone, ServicesDone;
    SafeShaped(w);
    BootOk(w, now);
    var (w1, up) := BootTried(w, now);
    if up {
      CallBegunOk(w1, now);
      DrainedOk(CallBegun(w1, now), fs, now);
      PdoWorkOk(Drained(CallBegun(w1, now), fs, now), now);
      ServicesOk(PdoWorkDone(Drained(CallBegun(w1, now), fs, now), now), now);
    }
  }

  lemma ApplicationOk(w: World, a: Addr, f: CanFrame)
    requires Safe(w)
    ensures Safe(w.(n := ChangeNotified(w.n, a)))
    ensures Safe(w.(n := EmergencyQueued(w.n, f))) && Safe(w.(n := EventTaken(w.n)))
  {
    hide Base, Calm, T.Notified;
    BaseShaped(w);
    NodeOnly(w, ChangeNotified(w.n, a));
    NodeOnly(w, EmergencyQueued(w.n, f));
    NodeOnly(w, EventTaken(w.n));
  }

  lemma EditOk(w: World, od: Od)
    requires Safe(w)
    ensures Safe(OdEdited(w, od))
  {
    hide AccountOf, Lawful, BufferFrom, CycleOk, ChangesLatched;
    Observed(w, Edited(od), OdEdited(w, od));
  }

  lemma CalledOk(w: World, call: Call)
    requires Safe(w)
    ensures Safe(Called(w, call))
  {
    hide Safe, Processed, ChangeNotified, OdEdited, WorldReset, EmergencyQueued, EventTaken;
    SafeShaped(w);
    match call {
      case Process(fs, now) => ProcessedOk(w, fs, now);
      case NotifyChanged(a) => ApplicationOk(w, a, CanFrame(0, []));
      case EditOd(od) => EditOk(w, od);
      case RequestReset(kind) => ResetOk(w, kind);
      case QueueEmergency(f) => ApplicationOk(w, Addr(0, 0), f);
      case TakeEvent => ApplicationOk(w, Addr(0, 0), CanFrame(0, []));
    }
  }

  lemma {:induction false} RunOk(w: World, calls: seq<Call>)
    requires Safe(w)
    ensures Safe(Run(w, calls))
  {
    hide Safe, Called;
    SafeShaped(w);
    if calls != [] {
      RunOk(w, calls[..|calls| - 1]);
      CalledOk(Run(w, calls[..|calls| - 1]), calls[|calls| - 1]);
    }
  }

  /** What an observer knows of a node as constructed: its dictionary and its SYNC settings. */
  function Beginning(n: Node): seq<Obs> {
    [Edited(n.sink.od), Restart(n.producer)]
  }

  /** A node as constructed, on a transport that has seen nothing. */
  predicate Initial(w: World) {
    WellShaped(w.n) && w.l.hist == Beginning(w.n) && w.n.nmt.Initializing? && !w.n.booted && Quiet(w.n)
    && AllSilent(w.n.channels) && w.n.producer.counter == 0 && S.ValidOverflow(w.n.producer.overflow)
  }

  /** A newly constructed node on a fresh transport is where every run may start. */
  lemma NewNodeIsInitial(id: nat, autoStart: bool, capacity: nat, dirtyCapacity: nat, od: Od, intervalMs: nat,
                         tpdos: seq<T.TpdoConfig>, rpdos: seq<R.RpdoConfig>, identity: Lss.Identity,
                         channels: seq<Slot.Channel>, oracle: nat -> Verdict)
    requires |channels| >= 1 && AllSilent(channels)
    ensures var n := Configured(Unconfigured(id, autoStart, capacity, dirtyCapacity, od, intervalMs, tpdos, rpdos,
                                             identity, channels));
            Initial(World(n, Link(oracle, 0, Beginning(n))))
  {
    LoadedIsValid(od);
    assert S.ValidOverflow(0);
    hide LoadedSync, LoadedMonitor, ReadNat, S.Retarget, S.ValidOverflow;
  }

  lemma InitialIsSafe(w: World)
    requires Initial(w)
    ensures Safe(w)
  {
    hide AccountOf, Lawful, After;
    NothingYet();
    var first, second := Edited(w.n.sink.od), Restart(w.n.producer);
    assert Beginning(w.n) == [] + [first] + [second];
    Snoc([], first);
    Snoc([first], second);
    assert [] + [first] == [first];
    InitialAccount(w.n);
  }

  lemma InitialAccount(n: Node)
    requires WellShaped(n) && n.nmt.Initializing? && Quiet(n) && AllSilent(n.channels) && n.producer.counter == 0
    requires S.ValidOverflow(n.producer.overflow)
    ensures Lawful([]) && Legal(Blank(), Edited(n.sink.od))
    ensures var a := After(Blank(), Edited(n.sink.od)); Legal(a, Restart(n.producer)) && Matches(n, After(a, Restart(n.producer)))
  {
    EmptyBuffer(n.rpdo.pending, 0);
    hide BufferFrom;
  }

  // ---- What holds along every run ----

  /**
   Along every run, whatever is received, refused and requested: the history
   obeys the law and accounts for the node's state, dictionary and SYNC
   producer; the node is booted exactly when it is not Initializing; and outside
   Operational nothing is buffered, armed or retained and the window is closed.
   */
  lemma EveryRunIsSafe(w: World, calls: seq<Call>)
    requires Initial(w)
    ensures var w' := Run(w, calls);
            Lawful(w'.l.hist) && StateOf(w'.l.hist) == w'.n.nmt && AccountOf(w'.l.hist).dict == w'.n.sink.od
            && Free(AccountOf(w'.l.hist))
            && (w'.n.booted <==> !w'.n.nmt.Initializing?)
            && (!w'.n.nmt.Operational? ==> Quiet(w'.n))
            && |w'.n.retained| <= |w'.n.tpdo.pdos|
  {
    hide Run, Base;
    InitialIsSafe(w);
    RunOk(w, calls);
    BaseShaped(Run(w, calls));
  }

  /** After any reset no gated frame is offered before the boot-up frame is accepted or fails for good. */
  lemma BootGateHolds(w: World, calls: seq<Call>, j: nat)
    requires Initial(w) && j < |Run(w, calls).l.hist|
    requires Run(w, calls).l.hist[j].Offer? && Gated(Run(w, calls).l.hist[j].service)
    ensures exists i :: 0 <= i < j && BootedAt(Run(w, calls).l.hist[..j], i)
  {
    hide Run;
    EveryRunIsSafe(w, calls);
    BootGate(Run(w, calls).l.hist, j);
  }

  /** Synchronous RPDO writes and synchronous TPDOs stem from the same uninterrupted Operational period. */
  lemma NothingCrossesOperational(w: World, calls: seq<Call>, j: nat)
    requires Initial(w) && j < |Run(w, calls).l.hist|
    ensures var h := Run(w, calls).l.hist;
            (h[j].RpdoCommitted? ==>
               StateOf(h[..j]).Operational?
               && exists i :: 0 <= i < j && StillBuffered(h[..j], h[j].slot, h[j].received, i))
            && (h[j].Offer? && h[j].service.SyncTpdo? && h[j].verdict.Accepted? ==>
                  StateOf(h[..j]).Operational?
                  && exists i :: 0 <= i < j && LatestPulse(h[..j], i) && Answers(h, i, j))
  {
    hide Run, Lawful, StateOf, StillBuffered, Answers;
    EveryRunIsSafe(w, calls);
    var h := Run(w, calls).l.hist;
    if h[j].RpdoCommitted? {
      CommitsStemFromPeriod(h, j);
    } else if h[j].Offer? && h[j].service.SyncTpdo? && h[j].verdict.Accepted? {
      SyncTpdosStemFromPulse(h, j);
    }
  }

  /**
   Every pulse of every run is whole: right before it stand the commits of
   exactly the frames then buffered, in slot order; the image it samples is the
   dictionary before them with their payloads applied in turn; and right after
   it every frame it sampled is offered, in order, at its own time.
   */
  lemma PulsesAreWhole(w: World, calls: seq<Call>, j: nat)
    requires Initial(w) && j < |Run(w, calls).l.hist| && Run(w, calls).l.hist[j].Pulse?
    ensures var h := Run(w, calls).l.hist; var i := BlockStart(h[..j]);
            h[j].image == DictAfter(AccountOf(h[..i]).dict, h[i..j])
            && BlockTaken(AccountOf(h[..i]).buffered, map[], h[i..j])
    ensures var h := Run(w, calls).l.hist;
            forall k :: 0 <= k < |FramesOf(h[j])| ==> OffersInTurn(h, j, k)
  {
    hide Run, Lawful, AccountOf, BlockTaken, BlockStart, DictAfter, FramesOf, OffersInTurn;
    EveryRunIsSafe(w, calls);
    var h := Run(w, calls).l.hist;
    PulseSamplesAfterCommits(h, j);
    forall k | 0 <= k < |FramesOf(h[j])| ensures OffersInTurn(h, j, k) {
      PulseOffersEverything(h, j, k);
    }
  }

  /** Every SDO channel accounts for all its server's answers, and consults the server only with an empty slot. */
  lemma SdoSlotsHold(w: World, calls: seq<Call>, c: nat, j: nat)
    requires Initial(w)
    ensures var h := Run(w, calls).l.hist;
            LedgerOk(Ledger(h, c), Outstanding(h, c)) && AcceptedOn(h, c) == DeliveredFrames(Ledger(h, c))
    ensures var h := Run(w, calls).l.hist;
            j < |h| && (h[j].SdoAsked? || h[j].SdoDrawn? || h[j].SdoQueued?) ==> Outstanding(h[..j], h[j].channel).None?
  {
    hide Run, Lawful, Ledger, Outstanding, AcceptedOn, DeliveredFrames, LedgerOk;
    EveryRunIsSafe(w, calls);
    var h := Run(w, calls).l.hist;
    SdoAnswersAccounted(h, c);
    if j < |h| && (h[j].SdoAsked? || h[j].SdoDrawn? || h[j].SdoQueued?) {
      ServerWaitsForSlot(h, j);
    }
  }

  /**
   In every run the SYNC pulses accepted since the producer was last configured
   or reset carry the numbers 1, 2, ... modulo the overflow value in order, are
   at least one period apart, and the producer stands right after the last.
   */
  lemma SyncPulsesHold(w: World, calls: seq<Call>)
    requires Initial(w)
    ensures var (n, a) := (Run(w, calls).n, AccountOf(Run(w, calls).l.hist));
            S.PulsesInOrder(a.cycle, a.beats)
            && a.cycle.cobId == n.producer.cobId && a.cycle.intervalUs == n.producer.intervalUs
            && a.cycle.overflow == n.producer.overflow
            && (a.beats != [] ==> n.producer.armed && n.producer.lastSentUs == a.beats[|a.beats| - 1].at)
            && (n.producer.overflow >= 2 ==>
                  n.producer.counter == if a.beats == [] then 0 else (|a.beats| - 1) % n.producer.overflow + 1)
  {
    hide Run, Lawful, AccountOf, S.PulsesInOrder;
    InitialIsSafe(w);
    RunOk(w, calls);
    BeatsInOrder(Run(w, calls).l.hist);
  }
}
