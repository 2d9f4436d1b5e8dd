/**
 A whole node with its transport: the effect of every part of `process`, of
 every dispatched frame and of every application call.
 */
module NodeModel {
  import opened Types
  import opened ObjectDictionary
  import opened PdoWire
  import opened Transport
  import opened Nmt
  import History
  import Lss
  import MappingRecords
  import H = Heartbeat
  import R = RpdoEngine
  import Slot = SdoSlot
  import S = Sync
  import T = TpdoEngine

  datatype ResetType = ResetApp | ResetCom

  /** A heartbeat consumer event with the node it concerns. */
  datatype HeartbeatNote = HeartbeatNote(node: nat, event: H.Event)

  const MAX_MONITORS: nat := 8
  const HB_EVENT_QUEUE: nat := 8

  /** `channels[0]` is the default SDO server; `retained` are refused synchronous TPDOs. */
  datatype Node = Node(
    id: nat, autoStart: bool, capacity: nat, dirtyCapacity: nat,
    booted: bool, nmt: NmtState, resetEvent: Option<ResetType>,
    sink: Sink, dirty: seq<Addr>, tpdo: T.Tpdo, rpdo: R.Rpdo,
    consumer: S.Consumer, producer: S.Producer, window: S.Window,
    retained: seq<CanFrame>, lastAttempt: Option<U64>,
    heartbeat: H.Producer, monitors: seq<Option<H.Monitor>>, hbEvents: seq<HeartbeatNote>,
    lss: Lss.Slave, emergencies: seq<CanFrame>, channels: seq<Slot.Channel>)

  datatype World = World(n: Node, l: Link)

  /** Component states are complete; event queue and retained list are within their capacities. */
  predicate WellShaped(n: Node) {
    T.TpdoOk(n.tpdo) && R.RpdoOk(n.rpdo) && |n.sink.events| <= n.capacity && |n.channels| >= 1
    && |n.retained| <= |n.tpdo.pdos|
  }

  // ---- Configuration held in the dictionary ----

  function ReadNat(od: Od, index: nat, sub: nat, room: nat): Option<nat> {
    match Read(od, Addr(index, sub), room)
    case Ok(v) => Some(FromLe(v))
    case Err(_) => None
  }

  function RecordOffset(odNumber: nat, slot: nat): nat {
    if odNumber == 0 then slot else odNumber - 1
  }

  /** Readable mapping entries among subindices 1 to `k`. */
  function MappingsUpTo(od: Od, index: nat, k: nat): seq<Mapping> {
    if k == 0 then []
    else MappingsUpTo(od, index, k - 1)
         + match ReadNat(od, index, k, 4) case Some(d) => [MappingRecords.Decode(d)] case None => []
  }

  function LoadedMappings(od: Od, index: nat): seq<Mapping> {
    match ReadNat(od, index, 0, 4)
    case None => []
    case Some(n) => MappingsUpTo(od, index, if n % 0x100 > MappingRecords.PDO_MAX_MAPPINGS then MappingRecords.PDO_MAX_MAPPINGS else n % 0x100)
  }

  /** Enabled unless bit 31 is set or the COB-ID is zero. */
  predicate CobEnabled(raw: nat) {
    raw < 0x8000_0000 && raw % 0x800 != 0
  }

  function LoadedTpdo(od: Od, c: T.TpdoConfig, slot: nat): T.TpdoConfig {
    var comm := 0x1800 + RecordOffset(c.odNumber, slot);
    var cob, kind := ReadNat(od, comm, 1, 4), ReadNat(od, comm, 2, 4);
    var inhibit, timer := ReadNat(od, comm, 3, 2), ReadNat(od, comm, 5, 2);
    T.TpdoConfig(
      c.odNumber,
      if cob.Some? then cob.value % 0x800 else c.cobId,
      if kind.Some? then kind.value % 0x100 else c.transmissionType,
      if inhibit.Some? then inhibit.value else c.inhibit100us,
      if timer.Some? then timer.value else c.eventTimerMs,
      LoadedMappings(od, 0x1A00 + RecordOffset(c.odNumber, slot)),
      if cob.Some? then CobEnabled(cob.value) else c.enabled)
  }

  function LoadedRpdo(od: Od, c: R.RpdoConfig, slot: nat): R.RpdoConfig {
    var comm := 0x1400 + RecordOffset(c.odNumber, slot);
    var cob, kind, deadline := ReadNat(od, comm, 1, 4), ReadNat(od, comm, 2, 4), ReadNat(od, comm, 5, 2);
    R.RpdoConfig(
      c.odNumber,
      if cob.Some? then cob.value % 0x800 else c.cobId,
      if kind.Some? then kind.value % 0x100 else c.transmissionType,
      if deadline.Some? then deadline.value else c.deadlineMs,
      LoadedMappings(od, 0x1600 + RecordOffset(c.odNumber, slot)),
      if cob.Some? then CobEnabled(cob.value) else c.enabled)
  }

  function LoadedTpdos(od: Od, cs: seq<T.TpdoConfig>): (r: seq<T.TpdoConfig>)
    ensures |r| == |cs|
  {
    seq(|cs|, i requires 0 <= i < |cs| => LoadedTpdo(od, cs[i], i))
  }

  function LoadedRpdos(od: Od, cs: seq<R.RpdoConfig>): (r: seq<R.RpdoConfig>)
    ensures |r| == |cs|
  {
    seq(|cs|, i requires 0 <= i < |cs| => LoadedRpdo(od, cs[i], i))
  }

  function PdosReloaded(n: Node): (n': Node)
    ensures WellShaped(n) ==> WellShaped(n')
  {
    n.(tpdo := n.tpdo.(pdos := LoadedTpdos(n.sink.od, n.tpdo.pdos)),
       rpdo := n.rpdo.(pdos := LoadedRpdos(n.sink.od, n.rpdo.pdos)))
  }

  /** The monitor a 0x1016 entry asks for; an unchanged one may be kept. */
  function LoadedMonitor(od: Od, slot: nat, existing: Option<H.Monitor>, preserve: bool): Option<H.Monitor> {
    match ReadNat(od, 0x1016, slot + 1, 4)
    case None => None
    case Some(raw) =>
      var time, node := raw % 0x1_0000, raw / 0x1_0000 % 0x100;
      if time == 0 || !(1 <= node <= 127) then None
      else if preserve && existing.Some? && existing.value.nodeId == node && existing.value.timeoutMs == time then existing
      else Some(H.NewMonitor(node, time))
  }

  function HeartbeatReloaded(n: Node, preserve: bool): (n': Node)
    ensures WellShaped(n) ==> WellShaped(n')
  {
    var interval := ReadNat(n.sink.od, 0x1017, 0, 2);
    n.(heartbeat := if interval.Some? then n.heartbeat.(intervalUs := interval.value * 1000) else n.heartbeat,
       monitors := seq(|n.monitors|, i requires 0 <= i < |n.monitors| =>
                         LoadedMonitor(n.sink.od, i, n.monitors[i], preserve)))
  }

  datatype SyncSettings = SyncSettings(cobId: nat, produce: bool, periodUs: nat, windowUs: nat, overflow: nat)

  /** 0x1005, 0x1006, 0x1007 and 0x1019 with their defaults; `None` for values the node does not support. */
  function LoadedSync(od: Od): Option<SyncSettings> {
    var raw, period := ReadNat(od, 0x1005, 0, 4), ReadNat(od, 0x1006, 0, 4);
    var window, overflow := ReadNat(od, 0x1007, 0, 4), ReadNat(od, 0x1019, 0, 1);
    var cob := if raw.Some? then S.FromRaw((raw.value % 0x1_0000_0000) as bv32)
               else Some(S.SyncCobId(S.SYNC_COB_ID_DEFAULT, false));
    var top := if overflow.Some? then overflow.value else 0;
    if cob.None? || !S.ValidOverflow(top) then None
    else Some(SyncSettings(cob.value.cobId as nat, cob.value.produce,
                           if period.Some? then period.value else 0,
                           if window.Some? then window.value else 0, top))
  }

  function SyncReloaded(n: Node): (n': Node)
    ensures WellShaped(n) ==> WellShaped(n')
  {
    match LoadedSync(n.sink.od)
    case None => n
    case Some(s) =>
      n.(consumer := S.Retarget(n.consumer, s.cobId),
         window := n.window.(lengthUs := s.windowUs),
         producer := S.Configured(n.producer, if s.produce then s.cobId else 0, s.periodUs, s.overflow))
  }

  function NoMonitors(): seq<Option<H.Monitor>> {
    seq(MAX_MONITORS, _ => None)
  }

  /** A node before it has read its heartbeat and SYNC objects. */
  function Unconfigured(id: nat, autoStart: bool, capacity: nat, dirtyCapacity: nat, od: Od, intervalMs: nat,
                        tpdos: seq<T.TpdoConfig>, rpdos: seq<R.RpdoConfig>, identity: Lss.Identity,
                        channels: seq<Slot.Channel>): Node
  {
    Node(id, autoStart, capacity, dirtyCapacity, false, Initializing, None, Sink(od, [], 0), [],
         T.NewTpdo(tpdos), R.NewRpdo(rpdos), S.Consumer(S.SYNC_COB_ID_DEFAULT as nat, 0), S.NewProducer(),
         S.Window(0, 0, false), [], None, H.Producer(id, intervalMs * 1000, 0), NoMonitors(), [],
         Lss.InitialSlave(identity, id), [], channels)
  }

  /** Reads the heartbeat and SYNC objects, as construction does last. */
  function Configured(n: Node): (n': Node)
    ensures WellShaped(n) ==> WellShaped(n')
  {
    SyncReloaded(HeartbeatReloaded(n, false))
  }

  // ---- Leaving Operational, stopping, resetting ----

  function LeftOperational(n: Node): (n': Node)
    ensures WellShaped(n) ==> WellShaped(n')
  {
    n.(rpdo := R.PendingDiscarded(R.MonitoringReset(n.rpdo)), tpdo := T.EventsDiscarded(n.tpdo), dirty := [],
       window := S.Closed(n.window), retained := [], lastAttempt := None)
  }

  /** Re-initialises everything SYNC-related that a reset touches. */
  function SyncStateReset(n: Node): (n': Node)
    ensures WellShaped(n) ==> WellShaped(n')
  {
    var n1 := SyncReloaded(n);
    n1.(consumer := n1.consumer.(counter := 0), producer := S.Restarted(n1.producer), window := S.Closed(n1.window),
        retained := [], lastAttempt := None, rpdo := R.MonitoringReset(R.PendingDiscarded(n1.rpdo)), dirty := [],
        tpdo := T.CommunicationReset(n1.tpdo))
  }

  /** Cancels the SDO channels below `k`. */
  function ChannelsCancelled(chs: seq<Slot.Channel>, l: Link, k: nat): (r: (seq<Slot.Channel>, Link))
    requires k <= |chs|
    ensures |r.0| == |chs|
  {
    if k == 0 then (chs, l)
    else
      var (chs1, l1) := ChannelsCancelled(chs, l, k - 1);
      var (ch, l2) := Slot.Cancelled(chs1[k - 1], l1, k - 1);
      (chs1[k - 1 := ch], l2)
  }

  function CancelledAll(w: World): (w': World)
    ensures WellShaped(w.n) ==> WellShaped(w'.n)
  {
    var (chs, l) := ChannelsCancelled(w.n.channels, w.l, |w.n.channels|);
    World(w.n.(channels := chs), l)
  }

  function EnteredState(w: World, s: NmtState): (w': World)
    ensures WellShaped(w.n) ==> WellShaped(w'.n)
  {
    World(w.n.(nmt := s), Noted(w.l, Entered(s)))
  }

  function CommunicationCleared(n: Node, kind: ResetType): (n': Node)
    ensures WellShaped(n) ==> WellShaped(n')
  {
    SyncStateReset(HeartbeatReloaded(PdosReloaded(n.(booted := false, resetEvent := Some(kind))), false))
  }

  /** The SYNC cycle starts over with the producer's settings. */
  function Restart(p: S.Producer): Obs {
    CycleRestarted(p.cobId, p.intervalUs, p.overflow)
  }

  function WorldReset(w: World, kind: ResetType): (w': World)
    ensures WellShaped(w.n) ==> WellShaped(w'.n)
  {
    var w1 := EnteredState(w.(n := CommunicationCleared(w.n, kind)), Initializing);
    CancelledAll(w1.(l := Noted(w1.l, Restart(w1.n.producer))))
  }

  /** An NMT command that changes the state without a reset. */
  function Switched(w: World, s: NmtState): (w': World)
    ensures WellShaped(w.n) ==> WellShaped(w'.n)
  {
    if s.Operational? then EnteredState(w, s)
    else
      var w1 := EnteredState(w.(n := LeftOperational(w.n)), s);
      if s.Stopped? then CancelledAll(w1) else w1
  }

  function NmtReceived(w: World, f: CanFrame): (w': World)
    ensures WellShaped(w.n) ==> WellShaped(w'.n)
  {
    if |f.data| != 2 || CommandFromByte(f.data[0]).None? then w
    else
      var (s, t) := Commanded(w.n.nmt, CommandFromByte(f.data[0]).value, f.data[1] as nat, w.n.id);
      match t
      case NoTransition => w
      case StateChanged => Switched(w, s)
      case ResetApplication => WorldReset(w, ResetApp)
      case ResetComm => WorldReset(w, ResetCom)
  }

  // ---- SYNC ----

  /** Notes the commit of every buffered RPDO below slot `k`. */
  function CommitsNoted(r: R.Rpdo, l: Link, k: nat): Link
    requires R.RpdoOk(r) && k <= |r.pdos|
  {
    if k == 0 then l
    else
      var l1 := CommitsNoted(r, l, k - 1);
      match r.pending[k - 1]
      case Some(f) => Noted(l1, RpdoCommitted(k - 1, f, r.pdos[k - 1].mappings))
      case None => l1
  }

  /** The TPDOs below slot `k` that are due on this pulse. */
  function DueSources(t: T.Tpdo, k: nat): seq<Source>
    requires T.TpdoOk(t) && k <= |t.pdos|
  {
    if k == 0 then []
    else DueSources(t, k - 1) + if T.DueOnSync(t, k - 1) then [Source(t.pdos[k - 1].cobId, t.pdos[k - 1].mappings)] else []
  }

  /** Offers the first `k` frames in order; the refused ones are kept. */
  function OfferedFirst(l: Link, service: Service, fs: seq<CanFrame>, k: nat, now: U64): (r: (Link, seq<CanFrame>))
    requires k <= |fs|
    ensures |r.1| <= k
  {
    if k == 0 then (l, [])
    else
      var (l1, refused) := OfferedFirst(l, service, fs, k - 1, now);
      (Offered(l1, service, fs[k - 1], now), if NextVerdict(l1).Accepted? then refused else refused + [fs[k - 1]])
  }

  /** Offers frames of the current pulse and keeps those refused for a retry. */
  function SyncTpdosOffered(w: World, fs: seq<CanFrame>, now: U64): (w': World)
    ensures WellShaped(w.n) && |fs| <= |w.n.tpdo.pdos| ==> WellShaped(w'.n)
  {
    var (l, refused) := OfferedFirst(w.l, SyncTpdo(w.n.window.lengthUs), fs, |fs|, now);
    World(w.n.(retained := refused, lastAttempt := if refused == [] then None else Some(now)), l)
  }

  /** Commits the buffered RPDOs and opens the window of this pulse. */
  function PulseCommitted(w: World, now: U64): (w': World)
    requires WellShaped(w.n)
    ensures WellShaped(w'.n)
  {
    World(w.n.(retained := [], lastAttempt := Some(now), window := S.Opened(w.n.window, now),
               sink := R.Committed(w.n.rpdo, |w.n.rpdo.pdos|, w.n.capacity, w.n.sink),
               rpdo := R.PendingDiscarded(w.n.rpdo)),
          CommitsNoted(w.n.rpdo, w.l, |w.n.rpdo.pdos|))
  }

  /** Advances the TPDO divisors and latches; the history keeps what the pulse samples. */
  function PulseSampled(w: World, now: U64): (w': World)
    requires WellShaped(w.n)
    ensures WellShaped(w'.n)
  {
    World(w.n.(tpdo := T.Synced(w.n.tpdo)),
          Noted(w.l, Pulse(now, w.n.sink.od, DueSources(w.n.tpdo, |w.n.tpdo.pdos|))))
  }

  /** One pulse: commit, then sample, then send. */
  function SyncHandled(w: World, now: U64): (w': World)
    requires WellShaped(w.n)
    ensures WellShaped(w'.n)
  {
    if !w.n.nmt.Operational? then w
    else
      var w1 := PulseCommitted(w, now);
      SyncTpdosOffered(PulseSampled(w1, now), T.SyncFrames(w1.n.tpdo, w1.n.sink.od, |w1.n.tpdo.pdos|), now)
  }

  function SyncReceived(w: World, f: CanFrame, now: U64): (w': World)
    requires WellShaped(w.n)
    ensures WellShaped(w'.n)
  {
    var (consumer, pulse) := S.Consumed(w.n.consumer, f);
    var w1 := w.(n := w.n.(consumer := consumer));
    if pulse.Some? then SyncHandled(w1, now) else w1
  }

  function SyncProduced(w: World, now: U64): (w': World)
    requires WellShaped(w.n)
    ensures WellShaped(w'.n)
  {
    if !w.n.booted || w.n.nmt.Stopped? then w
    else
      var (producer, pulse) := S.Polled(w.n.producer, now);
      var w1 := w.(n := w.n.(producer := producer));
      if pulse.None? then w1
      else
        var w2 := w1.(l := Offered(w.l, SyncPulse, pulse.value, now));
        if NextVerdict(w.l).Accepted?
        then SyncHandled(w2.(n := w2.n.(producer := S.Confirmed(producer, now))), now)
        else w2
  }

  function Retried(w: World, now: U64): (w': World)
    ensures WellShaped(w.n) ==> WellShaped(w'.n)
  {
    if w.n.retained == [] then w
    else if !w.n.nmt.Operational? || !S.Allows(w.n.window, now) then w.(n := w.n.(retained := [], lastAttempt := None))
    else if w.n.lastAttempt == Some(now) then w
    else SyncTpdosOffered(w, w.n.retained, now)
  }

  // ---- Other received frames ----

  /** A length-valid reception is buffered for the next pulse or applied at once. */
  function ReceptionNoted(r: R.Rpdo, l: Link, f: DataFrame): Link {
    match R.SlotOf(r.pdos, f)
    case None => l
    case Some(s) =>
      if !R.LongEnough(r.pdos[s], f) then l
      else Noted(l, if R.Synchronous(r.pdos[s]) then RpdoBuffered(s, f) else RpdoApplied(f, r.pdos[s].mappings))
  }

  function RpdoReceived(w: World, f: DataFrame, now: U64): (w': World)
    requires WellShaped(w.n)
    ensures WellShaped(w'.n)
  {
    if !w.n.nmt.Operational? then w
    else
      var (r, sink) := R.Processed(w.n.rpdo, f, now, w.n.capacity, w.n.sink);
      World(w.n.(rpdo := r, sink := sink), ReceptionNoted(w.n.rpdo, w.l, f))
  }

  /** One more event in the dictionary's event queue. */
  function EventPushed(s: Sink, e: OdEvent, capacity: nat): (s': Sink)
    ensures |s'.events| <= capacity
  {
    Sink(s.od, Newest(s.events + [e], capacity), if |s.events| >= capacity then SatAdd(s.dropped, 1) else s.dropped)
  }

  /** Settings that differ restart the SYNC cycle. */
  function CycleNoted(l: Link, before: S.Producer, after: S.Producer): Link {
    if after.cobId == before.cobId && after.intervalUs == before.intervalUs && after.overflow == before.overflow then l
    else Noted(l, Restart(after))
  }

  /** A committed download: the write, its event, and the services whose configuration it touches. */
  function CommitApplied(w: World, c: Slot.Commit): (w': World)
    ensures WellShaped(w.n) ==> WellShaped(w'.n)
  {
    match Write(w.n.sink.od, c.addr, c.data)
    case Err(_) => w
    case Ok(od) =>
      var n1 := w.n.(sink := EventPushed(w.n.sink.(od := od), OdEvent(c.addr, FromSdo), w.n.capacity));
      var l1 := Noted(w.l, Downloaded(c.addr, c.data));
      if 0x1400 <= c.addr.index <= 0x1BFF then World(PdosReloaded(n1), l1)
      else if c.addr.index == 0x1016 || c.addr.index == 0x1017 then World(HeartbeatReloaded(n1, true), l1)
      else if c.addr.index in {0x1005, 0x1006, 0x1007, 0x1019}
      then World(SyncReloaded(n1), CycleNoted(l1, n1.producer, SyncReloaded(n1).producer))
      else World(n1, l1)
  }

  function SdoReceived(w: World, c: nat, f: CanFrame, now: U64): (w': World)
    requires c < |w.n.channels|
    ensures WellShaped(w.n) ==> WellShaped(w'.n)
  {
    if !History.Talking(w.n.nmt) || |f.data| != 8 then w
    else
      var (ch, l, commit) := Slot.Requested(w.n.channels[c], w.l, c, f.data[0] == 0x80, now);
      var w1 := World(w.n.(channels := w.n.channels[c := ch]), l);
      if commit.Some? then CommitApplied(w1, commit.value) else w1
  }

  function LssReceived(w: World, f: CanFrame, now: U64): (w': World)
    ensures WellShaped(w.n) ==> WellShaped(w'.n)
  {
    var (slave, response) := Lss.Step(w.n.lss, f);
    World(w.n.(lss := slave),
          if response.Some? then Offered(w.l, LssResponse, response.value, now) else w.l)
  }

  function HeartbeatNoted(n: Node, notes: seq<HeartbeatNote>): (n': Node)
    ensures WellShaped(n) ==> WellShaped(n')
  {
    if notes == [] then n
    else
      var n1 := HeartbeatNoted(n, notes[..|notes| - 1]);
      n1.(hbEvents := Newest(n1.hbEvents + [notes[|notes| - 1]], HB_EVENT_QUEUE),
          sink := if |n1.hbEvents| >= HB_EVENT_QUEUE then n1.sink.(dropped := SatAdd(n1.sink.dropped, 1)) else n1.sink)
  }

  function Tagged(node: nat, es: seq<H.Event>): seq<HeartbeatNote> {
    seq(|es|, i requires 0 <= i < |es| => HeartbeatNote(node, es[i]))
  }

  /** The first monitor from slot `k` on whose heartbeat COB-ID is `id`. */
  function MonitorOf(ms: seq<Option<H.Monitor>>, id: nat, k: nat): (s: Option<nat>)
    requires k <= |ms|
    ensures s.Some? ==> k <= s.value < |ms| && ms[s.value].Some? && 0x700 + ms[s.value].value.nodeId == id
                        && forall j :: k <= j < s.value ==> ms[j].None? || 0x700 + ms[j].value.nodeId != id
    ensures s.None? ==> forall j :: k <= j < |ms| ==> ms[j].None? || 0x700 + ms[j].value.nodeId != id
    decreases |ms| - k
  {
    if k == |ms| then None
    else if ms[k].Some? && 0x700 + ms[k].value.nodeId == id then Some(k)
    else MonitorOf(ms, id, k + 1)
  }

  function HeartbeatReceived(n: Node, s: nat, byte: bv8, now: U64): (n': Node)
    requires s < |n.monitors| && n.monitors[s].Some?
    ensures WellShaped(n) ==> WellShaped(n')
  {
    var m := n.monitors[s].value;
    var (m', es) := H.Received(m, m.nodeId, byte, now);
    HeartbeatNoted(n.(monitors := n.monitors[s := Some(m')]), Tagged(m.nodeId, es))
  }

  /** The additional SDO channel from `k` on that listens on `id`. */
  function ExtraChannel(chs: seq<Slot.Channel>, id: nat, k: nat): (c: Option<nat>)
    requires k <= |chs|
    ensures c.Some? ==> k <= c.value < |chs| && chs[c.value].rxCob == id
                        && forall j :: k <= j < c.value ==> chs[j].rxCob != id
    ensures c.None? ==> forall j :: k <= j < |chs| ==> chs[j].rxCob != id
    decreases |chs| - k
  {
    if k == |chs| then None else if chs[k].rxCob == id then Some(k) else ExtraChannel(chs, id, k + 1)
  }

  /** Routes one frame, by exact COB-ID in the node's order. */
  function Dispatched(w: World, f: DataFrame, now: U64): (w': World)
    requires WellShaped(w.n)
    ensures WellShaped(w'.n)
  {
    var extra := ExtraChannel(w.n.channels, f.id, 1);
    if extra.Some? then SdoReceived(w, extra.value, f, now)
    else if w.n.consumer.cobId != 0 && w.n.consumer.cobId == f.id then SyncReceived(w, f, now)
    else if f.id == 0 then NmtReceived(w, f)
    else if f.id == w.n.channels[0].rxCob then SdoReceived(w, 0, f, now)
    else if f.id == Lss.REQUEST_COB then LssReceived(w, f, now)
    else
      var m := if |f.data| == 1 then MonitorOf(w.n.monitors, f.id, 0) else None;
      if m.Some? then w.(n := HeartbeatReceived(w.n, m.value, f.data[0], now))
      else RpdoReceived(w, f, now)
  }

  // ---- The parts of one processing call ----

  /** Boot-up; the flag is false when the whole call is postponed. */
  function BootTried(w: World, now: U64): (r: (World, bool))
    ensures WellShaped(w.n) ==> WellShaped(r.0.n)
  {
    if w.n.booted then (w, true)
    else
      var f := H.HeartbeatFrame(w.n.id, Initializing);
      var w1 := World(w.n.(heartbeat := w.n.heartbeat.(lastSentUs := now)), Offered(w.l, BootUp, f, now));
      if NextVerdict(w.l).WouldBlock? then (w1, false)
      else
        var w2 := EnteredState(w1.(n := w1.n.(booted := true)), PreOperational);
        (if w.n.autoStart then EnteredState(w2, Operational) else w2, true)
  }

  /** Starts a poll on the SDO channels below `k`. */
  function PollsBegun(chs: seq<Slot.Channel>, l: Link, now: U64, k: nat): (r: (seq<Slot.Channel>, Link))
    requires k <= |chs|
    ensures |r.0| == |chs|
  {
    if k == 0 then (chs, l)
    else
      var (chs1, l1) := PollsBegun(chs, l, now, k - 1);
      var (ch, l2) := Slot.BeganPoll(chs1[k - 1], l1, k - 1, now);
      (chs1[k - 1 := ch], l2)
  }

  function CallBegun(w: World, now: U64): (w': World)
    requires WellShaped(w.n)
    ensures WellShaped(w'.n)
  {
    var (chs, l) := PollsBegun(w.n.channels, w.l, now, |w.n.channels|);
    World(w.n.(tpdo := T.SyncLatched(w.n.tpdo, w.n.dirty), channels := chs), l)
  }

  function ChannelsServiced(chs: seq<Slot.Channel>, l: Link, now: U64, k: nat): (r: (seq<Slot.Channel>, Link))
    requires k <= |chs|
    ensures |r.0| == |chs|
  {
    if k == 0 then (chs, l)
    else
      var (chs1, l1) := ChannelsServiced(chs, l, now, k - 1);
      var (ch, l2) := Slot.Serviced(chs1[k - 1], l1, k - 1, now);
      (chs1[k - 1 := ch], l2)
  }

  function SdoServiced(w: World, now: U64): (w': World)
    ensures WellShaped(w.n) ==> WellShaped(w'.n)
  {
    var (chs, l) := ChannelsServiced(w.n.channels, w.l, now, |w.n.channels|);
    World(w.n.(channels := chs), l)
  }

  function DeadlineEvent(number: nat): OdEvent {
    OdEvent(Addr(0x1400 + number - 1, 0), FromDeadline)
  }

  function DeadlinesPushed(s: Sink, numbers: seq<nat>, capacity: nat): (s': Sink)
    requires forall i :: 0 <= i < |numbers| ==> numbers[i] >= 1
    ensures |s.events| <= capacity ==> |s'.events| <= capacity
  {
    if numbers == [] then s
    else EventPushed(DeadlinesPushed(s, numbers[..|numbers| - 1], capacity), DeadlineEvent(numbers[|numbers| - 1]), capacity)
  }

  lemma {:induction false} ReportsPositive(r: R.Rpdo, now: U64, k: nat)
    requires R.RpdoOk(r) && k <= |r.pdos|
    ensures forall i :: 0 <= i < |R.Reports(r, now, k)| ==> R.Reports(r, now, k)[i] >= 1
  {
    if k > 0 {
      ReportsPositive(r, now, k - 1);
    }
  }

  function DeadlinesPolled(n: Node, now: U64): (n': Node)
    requires WellShaped(n)
    ensures WellShaped(n')
  {
    if !n.nmt.Operational? then LeftOperational(n)
    else
      ReportsPositive(n.rpdo, now, |n.rpdo.pdos|);
      n.(rpdo := R.DeadlinesChecked(n.rpdo, now),
         sink := DeadlinesPushed(n.sink, R.Reports(n.rpdo, now, |n.rpdo.pdos|), n.capacity))
  }

  function HeartbeatSent(w: World, now: U64): (w': World)
    ensures WellShaped(w.n) ==> WellShaped(w'.n)
  {
    var due := H.Due(w.n.heartbeat, now, w.n.nmt);
    if !w.n.booted || due.None? then w
    else
      World(if NextVerdict(w.l).Accepted? then w.n.(heartbeat := w.n.heartbeat.(lastSentUs := now)) else w.n,
            Offered(w.l, HeartbeatTx, due.value, now))
  }

  function MonitorsChecked(n: Node, now: U64, k: nat): (n': Node)
    requires k <= |n.monitors|
    ensures |n'.monitors| == |n.monitors|
    ensures WellShaped(n) ==> WellShaped(n')
  {
    if k == 0 then n
    else
      var n1 := MonitorsChecked(n, now, k - 1);
      if n1.monitors[k - 1].None? then n1
      else
        var (m, es) := H.Checked(n1.monitors[k - 1].value, now);
        NotedKeepsMonitors(n1.(monitors := n1.monitors[k - 1 := Some(m)]), Tagged(m.nodeId, es));
        HeartbeatNoted(n1.(monitors := n1.monitors[k - 1 := Some(m)]), Tagged(m.nodeId, es))
  }

  lemma {:induction false} NotedKeepsMonitors(n: Node, notes: seq<HeartbeatNote>)
    ensures HeartbeatNoted(n, notes) == n.(hbEvents := HeartbeatNoted(n, notes).hbEvents, sink := HeartbeatNoted(n, notes).sink)
    ensures HeartbeatNoted(n, notes).sink == n.sink.(dropped := HeartbeatNoted(n, notes).sink.dropped)
  {
    if notes != [] {
      NotedKeepsMonitors(n, notes[..|notes| - 1]);
    }
  }

  /** Sends queued emergencies until one is refused. */
  function EmergenciesDrained(w: World, now: U64): (w': World)
    ensures WellShaped(w.n) ==> WellShaped(w'.n)
    decreases |w.n.emergencies|
  {
    if w.n.emergencies == [] then w
    else
      var l1 := Offered(w.l, Emergency, w.n.emergencies[0], now);
      if NextVerdict(w.l).Accepted?
      then EmergenciesDrained(World(w.n.(emergencies := w.n.emergencies[1..]), l1), now)
      else w.(l := l1)
  }

  function EmergenciesSent(w: World, now: U64): (w': World)
    ensures WellShaped(w.n) ==> WellShaped(w'.n)
  {
    if w.n.booted && History.Talking(w.n.nmt) then EmergenciesDrained(w, now) else w
  }

  /** Event-driven TPDOs, then the dirty set is cleared. */
  function TpdosPolled(w: World, now: U64): (w': World)
    requires WellShaped(w.n)
    ensures WellShaped(w'.n)
  {
    if !w.n.nmt.Operational? then w.(n := w.n.(dirty := []))
    else
      var (t, l) := T.Polled(w.n.tpdo, w.l, |w.n.tpdo.pdos|, w.n.sink.od, now, w.n.dirty);
      World(w.n.(tpdo := t, dirty := []), l)
  }

  // ---- Application calls ----

  function ChangeNotified(n: Node, a: Addr): (n': Node)
    requires WellShaped(n)
    ensures WellShaped(n')
  {
    n.(tpdo := T.Notified(n.tpdo, a),
       dirty := if a in n.dirty || |n.dirty| >= n.dirtyCapacity then n.dirty else n.dirty + [a])
  }

  /** What a mapped object supplies, empty when unreadable. */
  function ReadOrEmpty(od: Od, m: Mapping): seq<bv8> {
    match Read(od, AddrOf(m), 8) case Ok(v) => v case Err(_) => []
  }

  predicate MappedDiffers(before: Od, after: Od, ms: seq<Mapping>) {
    exists k :: 0 <= k < |ms| && ReadOrEmpty(before, ms[k]) != ReadOrEmpty(after, ms[k])
  }

  /** Latches the TPDOs below slot `k` that map a changed object. */
  function ChangesLatched(t: T.Tpdo, before: Od, after: Od, k: nat): (t': T.Tpdo)
    requires T.TpdoOk(t) && k <= |t.pdos|
    ensures T.TpdoOk(t') && t'.pdos == t.pdos
  {
    if k == 0 then t
    else
      var t1 := ChangesLatched(t, before, after, k - 1);
      if MappedDiffers(before, after, t.pdos[k - 1].mappings) then T.SlotLatched(t1, k - 1) else t1
  }

  /** A dictionary guard is dropped after the application edited the dictionary. */
  function OdEdited(w: World, od: Od): (w': World)
    requires WellShaped(w.n)
    ensures WellShaped(w'.n)
  {
    World(w.n.(sink := w.n.sink.(od := od), tpdo := ChangesLatched(w.n.tpdo, w.n.sink.od, od, |w.n.tpdo.pdos|)),
          Noted(w.l, Edited(od)))
  }

  const EMCY_QUEUE: nat := 4

  function EmergencyQueued(n: Node, f: CanFrame): (n': Node)
    ensures WellShaped(n) ==> WellShaped(n')
  {
    n.(emergencies := Newest(n.emergencies + [f], EMCY_QUEUE))
  }

  function EventTaken(n: Node): (n': Node)
    ensures WellShaped(n) ==> WellShaped(n')
  {
    if n.sink.events == [] then n else n.(sink := n.sink.(events := n.sink.events[1..]))
  }
}
