/**
 The node as the object it is: fields and component engines updated step by
 step by `process`, frame dispatch and the application calls. Every method is
 tied to the corresponding function of NodeModel.
 */
module NodeObject {
  import opened Types
  import opened ObjectDictionary
  import opened PdoWire
  import opened Transport
  import opened Nmt
  import opened NodeModel
  import opened NodeSafety
  import opened NodeRuns
  import History
  import Lss
  import MappingRecords
  import H = Heartbeat
  import R = RpdoEngine
  import Slot = SdoSlot
  import S = Sync
  import T = TpdoEngine

  // ---- Re-reading configuration ----

  method LoadMappings(od: Od, index: nat) returns (ms: seq<Mapping>)
    ensures ms == LoadedMappings(od, index)
  {
    hide Read;
    ms := [];
    var count := ReadNat(od, index, 0, 4);
    if count.None? {
      return;
    }
    var n := count.value % 0x100;
    if n > MappingRecords.PDO_MAX_MAPPINGS {
      n := MappingRecords.PDO_MAX_MAPPINGS;
    }
    for k := 0 to n
      invariant ms == MappingsUpTo(od, index, k)
    {
      var entry := ReadNat(od, index, k + 1, 4);
      if entry.Some? {
        ms := ms + [MappingRecords.Decode(entry.value)];
      }
    }
  }

  method LoadTpdos(od: Od, cs: seq<T.TpdoConfig>) returns (r: seq<T.TpdoConfig>)
    ensures r == LoadedTpdos(od, cs)
  {
    hide LoadedMappings, ReadNat;
    r := [];
    for i := 0 to |cs|
      invariant |r| == i && forall j :: 0 <= j < i ==> r[j] == LoadedTpdo(od, cs[j], j)
    {
      var c := cs[i];
      var comm, index := 0x1800 + RecordOffset(c.odNumber, i), 0x1A00 + RecordOffset(c.odNumber, i);
      var cob := ReadNat(od, comm, 1, 4);
      if cob.Some? {
        c := c.(enabled := CobEnabled(cob.value), cobId := cob.value % 0x800);
      }
      var kind := ReadNat(od, comm, 2, 4);
      if kind.Some? {
        c := c.(transmissionType := kind.value % 0x100);
      }
      var inhibit := ReadNat(od, comm, 3, 2);
      if inhibit.Some? {
        c := c.(inhibit100us := inhibit.value);
      }
      var timer := ReadNat(od, comm, 5, 2);
      if timer.Some? {
        c := c.(eventTimerMs := timer.value);
      }
      var ms := LoadMappings(od, index);
      c := c.(mappings := ms);
      assert c == LoadedTpdo(od, cs[i], i);
      r := r + [c];
    }
  }

  method LoadRpdos(od: Od, cs: seq<R.RpdoConfig>) returns (r: seq<R.RpdoConfig>)
    ensures r == LoadedRpdos(od, cs)
  {
    hide LoadedMappings, ReadNat;
    r := [];
    for i := 0 to |cs|
      invariant |r| == i && forall j :: 0 <= j < i ==> r[j] == LoadedRpdo(od, cs[j], j)
    {
      var c := cs[i];
      var comm, index := 0x1400 + RecordOffset(c.odNumber, i), 0x1600 + RecordOffset(c.odNumber, i);
      var cob := ReadNat(od, comm, 1, 4);
      if cob.Some? {
        c := c.(enabled := CobEnabled(cob.value), cobId := cob.value % 0x800);
      }
      var kind := ReadNat(od, comm, 2, 4);
      if kind.Some? {
        c := c.(transmissionType := kind.value % 0x100);
      }
      var deadline := ReadNat(od, comm, 5, 2);
      if deadline.Some? {
        c := c.(deadlineMs := deadline.value);
      }
      var ms := LoadMappings(od, index);
      c := c.(mappings := ms);
      assert c == LoadedRpdo(od, cs[i], i);
      r := r + [c];
    }
  }

  method LoadMonitors(od: Od, ms: seq<Option<H.Monitor>>, preserve: bool) returns (r: seq<Option<H.Monitor>>)
    ensures r == seq(|ms|, i requires 0 <= i < |ms| => LoadedMonitor(od, i, ms[i], preserve))
  {
    hide LoadedMonitor;
    r := [];
    for i := 0 to |ms|
      invariant |r| == i && forall j :: 0 <= j < i ==> r[j] == LoadedMonitor(od, j, ms[j], preserve)
    {
      r := r + [LoadedMonitor(od, i, ms[i], preserve)];
    }
  }

  /** Clearing communication state does not look at the SDO channels or the NMT state. */
  lemma ClearedCommutes(n: NodeModel.Node, kind: ResetType, chs: seq<Slot.Channel>, s: NmtState)
    ensures CommunicationCleared(n, kind).(nmt := s, channels := chs)
         == SyncStateReset(HeartbeatReloaded(PdosReloaded(
              n.(booted := false, resetEvent := Some(kind), nmt := s, channels := chs)), false))
  {
    hide LoadedSync, LoadedMonitor, LoadedTpdos, LoadedRpdos, ReadNat;
  }

  lemma ClearedKeepsChannels(n: NodeModel.Node, kind: ResetType)
    ensures CommunicationCleared(n, kind).channels == n.channels
  {
    hide LoadedSync, LoadedMonitor, LoadedTpdos, LoadedRpdos, ReadNat;
  }

  lemma LeftKeeps(n: NodeModel.Node)
    ensures forall s :: LeftOperational(n.(nmt := s)) == LeftOperational(n).(nmt := s)
    ensures LeftOperational(n).channels == n.channels
  {
  }

  /** A reset and a state change overwrite the NMT state they find. */
  lemma ResetIgnoresState(w: World, s: NmtState, kind: ResetType)
    ensures WorldReset(w.(n := w.n.(nmt := s)), kind) == WorldReset(w, kind)
  {
    hide LoadedSync, LoadedMonitor, LoadedTpdos, LoadedRpdos, ReadNat, ChannelsCancelled;
  }

  lemma SwitchIgnoresState(w: World, s: NmtState)
    ensures Switched(w.(n := w.n.(nmt := s)), s) == Switched(w, s)
  {
    hide ChannelsCancelled;
  }

  lemma {:induction false} CommitsNotedLink(r: R.Rpdo, l: Link, k: nat)
    requires R.RpdoOk(r) && k <= |r.pdos|
    ensures CommitsNoted(r, l, k) == l.(hist := CommitsNoted(r, l, k).hist)
  {
    if k > 0 {
      CommitsNotedLink(r, l, k - 1);
    }
  }

  class Node {
    const id: nat
    const autoStart: bool
    const capacity: nat
    const dirtyCapacity: nat
    const nmt: NmtHandler
    const tpdo: T.Engine
    const rpdo: R.Engine
    const sync: S.SyncConsumer
    const producer: S.SyncProducer
    const window: S.SyncWindow
    const lss: Lss.LssSlave
    var booted: bool
    var resetEvent: Option<ResetType>
    var sink: Sink
    var dirty: seq<Addr>
    var retained: seq<CanFrame>
    var lastAttempt: Option<U64>
    var heartbeat: H.Producer
    var monitors: seq<Option<H.Monitor>>
    var hbEvents: seq<HeartbeatNote>
    var emergencies: seq<CanFrame>
    var channels: seq<Slot.Channel>

    ghost function Repr(): set<object> {
      {this, nmt, tpdo, rpdo, sync, producer, window, lss}
    }

    ghost function View(): NodeModel.Node
      reads Repr()
    {
      NodeModel.Node(
        id, autoStart, capacity, dirtyCapacity, booted, nmt.state, resetEvent, sink, dirty, tpdo.View(), rpdo.View(),
        sync.View(), producer.View(), window.View(), retained, lastAttempt, heartbeat, monitors, hbEvents, lss.View(),
        emergencies, channels)
    }

    ghost predicate Valid()
      reads Repr()
    {
      WellShaped(View())
    }

    ghost function At(transport: CanTransport): World
      reads Repr(), transport
    {
      World(View(), transport.View())
    }

    /** A node in Initializing, with an idle server on every SDO channel. */
    constructor (id: nat, autoStart: bool, capacity: nat, dirtyCapacity: nat, od: Od, intervalMs: nat,
                 tpdos: seq<T.TpdoConfig>, rpdos: seq<R.RpdoConfig>, identity: Lss.Identity, channels: seq<Slot.Channel>)
      requires |channels| >= 1
      ensures Valid() && fresh(Repr())
      ensures View() == Unconfigured(id, autoStart, capacity, dirtyCapacity, od, intervalMs, tpdos, rpdos, identity, channels)
    {
      hide T.NewTpdo, R.NewRpdo, T.TpdoOk, R.RpdoOk, NoMonitors, Lss.InitialSlave, S.NewProducer;
      this.id, this.autoStart, this.capacity, this.dirtyCapacity := id, autoStart, capacity, dirtyCapacity;
      nmt := new NmtHandler();
      tpdo := new T.Engine(tpdos);
      rpdo := new R.Engine(rpdos);
      sync := new S.SyncConsumer();
      producer := new S.SyncProducer();
      window := new S.SyncWindow();
      lss := new Lss.LssSlave(identity, id);
      booted, resetEvent, sink, dirty := false, None, Sink(od, [], 0), [];
      retained, lastAttempt := [], None;
      heartbeat := H.Producer(id, intervalMs * 1000, 0);
      monitors := NoMonitors();
      hbEvents, emergencies := [], [];
      this.channels := channels;
    }

    /** The last part of construction. */
    method Configure()
      requires Valid()
      modifies this`heartbeat, this`monitors, sync, producer, window
      ensures Valid() && View() == Configured(old(View()))
    {
      hide HeartbeatReloaded, SyncReloaded;
      SyncHeartbeatFromOd(false);
      SyncConfigFromOd();
    }

    /** Nothing has been offered yet: the observer is told the dictionary and the SYNC settings. */
    ghost method Attach(transport: CanTransport)
      requires transport.hist == []
      modifies transport`hist
      ensures transport.View() == old(transport.View()).(hist := Beginning(View()))
    {
      transport.hist := Beginning(View());
    }

    // ---- Configuration ----

    method SyncPdoFromOd()
      requires Valid()
      modifies tpdo`pdos, rpdo`pdos
      ensures Valid() && View() == PdosReloaded(old(View()))
    {
      hide LoadedTpdos, LoadedRpdos;
      var ts := LoadTpdos(sink.od, tpdo.pdos);
      var rs := LoadRpdos(sink.od, rpdo.pdos);
      tpdo.Reconfigure(ts);
      rpdo.Reconfigure(rs);
    }

    method SyncHeartbeatFromOd(preserve: bool)
      requires Valid()
      modifies this`heartbeat, this`monitors
      ensures Valid() && View() == HeartbeatReloaded(old(View()), preserve)
    {
      hide LoadedMonitor, ReadNat;
      var interval := ReadNat(sink.od, 0x1017, 0, 2);
      if interval.Some? {
        heartbeat := heartbeat.(intervalUs := interval.value * 1000);
      }
      monitors := LoadMonitors(sink.od, monitors, preserve);
    }

    method SyncConfigFromOd()
      requires Valid()
      modifies sync, producer, window
      ensures Valid() && View() == SyncReloaded(old(View()))
    {
      hide LoadedSync, S.Configured, S.Retarget;
      var settings := LoadedSync(sink.od);
      if settings.Some? {
        var s := settings.value;
        sync.SetCobId(s.cobId);
        window.Configure(s.windowUs);
        producer.Configure(if s.produce then s.cobId else 0, s.periodUs, s.overflow);
      }
    }

    // ---- Leaving Operational, stopping, resetting ----

    method LeaveOperational()
      requires Valid()
      modifies this, tpdo, rpdo, window
      ensures Valid() && View() == NodeModel.LeftOperational(old(View()))
    {
      rpdo.ResetDeadlineMonitoring();
      rpdo.DiscardPending();
      tpdo.DiscardEvents();
      dirty := [];
      window.Reset();
      retained, lastAttempt := [], None;
    }

    method ResetSyncState()
      requires Valid()
      modifies this, tpdo, rpdo, sync, producer, window
      ensures Valid() && View() == SyncStateReset(old(View()))
    {
      hide SyncReloaded, S.Restarted, S.Closed;
      SyncConfigFromOd();
      sync.Reset();
      producer.Reset();
      window.Reset();
      retained, lastAttempt := [], None;
      rpdo.DiscardPending();
      rpdo.ResetDeadlineMonitoring();
      dirty := [];
      tpdo.ResetCommunicationState();
    }

    method AbortAllSdoTransfers(ghost transport: CanTransport)
      requires Valid()
      modifies this`channels, transport`hist
      ensures Valid() && At(transport) == CancelledAll(old(At(transport)))
    {
      hide Slot.Dropped;
      ghost var before, l := channels, transport.View();
      for i := 0 to |channels|
        invariant |channels| == |before|
        invariant (channels, transport.View()) == ChannelsCancelled(before, l, i)
      {
        var ch := CancelOne(channels[i], i, transport);
        channels := channels[i := ch];
      }
    }

    static method CancelOne(ch: Slot.Channel, ghost c: nat, ghost transport: CanTransport) returns (ch': Slot.Channel)
      modifies transport`hist
      ensures (ch', transport.View()) == Slot.Cancelled(ch, old(transport.View()), c)
    {
      ghost var held := ch.slot.Some?;
      if held {
        transport.Note(SdoGap(c, StopOrReset));
      }
      ch' := ch.(slot := None, refused := false, server := ch.server.(idle := true));
    }

    /** Re-reads the configuration and restarts SYNC and PDO state. */
    method RestartServices()
      requires Valid()
      modifies this, tpdo, rpdo, sync, producer, window
      ensures Valid() && View() == SyncStateReset(HeartbeatReloaded(PdosReloaded(old(View())), false))
    {
      hide SyncStateReset, HeartbeatReloaded, PdosReloaded, T.TpdoOk, R.RpdoOk;
      SyncPdoFromOd();
      SyncHeartbeatFromOd(false);
      ResetSyncState();
    }

    /** The reset sequence shared by NMT commands and the application's request. */
    method Reset(kind: ResetType, ghost transport: CanTransport)
      requires Valid()
      modifies Repr(), transport`hist
      ensures Valid() && At(transport) == WorldReset(old(At(transport)), kind)
    {
      hide SyncStateReset, HeartbeatReloaded, PdosReloaded, CommunicationCleared, ChannelsCancelled, T.TpdoOk, R.RpdoOk;
      ghost var n := View();
      resetEvent := Some(kind);
      booted := false;
      nmt.state := Initializing;
      transport.Note(Entered(Initializing));
      transport.Note(Restart(CommunicationCleared(n, kind).producer));
      AbortAllSdoTransfers(transport);
      ghost var chs := channels;
      RestartServices();
      ClearedCommutes(n, kind, chs, Initializing);
      ClearedKeepsChannels(n, kind);
    }

    /** An NMT command that stops or starts PDO traffic. */
    method SwitchState(ghost transport: CanTransport)
      requires Valid()
      modifies Repr(), transport`hist
      ensures Valid() && At(transport) == Switched(old(At(transport)), old(nmt.state))
    {
      hide LeftOperational, ChannelsCancelled;
      transport.Note(Entered(nmt.state));
      LeftKeeps(View());
      if !nmt.state.Operational? {
        LeaveOperational();
        if nmt.state.Stopped? {
          AbortAllSdoTransfers(transport);
        }
      }
    }

    method HandleNmt(f: CanFrame, ghost transport: CanTransport)
      requires Valid()
      modifies Repr(), transport`hist
      ensures Valid() && At(transport) == NmtReceived(old(At(transport)), f)
    {
      hide CommandFromByte, WorldReset, Switched;
      if |f.data| != 2 {
        return;
      }
      var cmd := CommandFromByte(f.data[0]);
      if cmd.None? {
        return;
      }
      ghost var w := At(transport);
      var t := nmt.ProcessCommand(cmd.value, f.data[1] as nat, id);
      match t {
        case NoTransition =>
        case StateChanged =>
          SwitchIgnoresState(w, nmt.state);
          SwitchState(transport);
        case ResetApplication =>
          ResetIgnoresState(w, nmt.state, ResetApp);
          Reset(ResetApp, transport);
        case ResetComm =>
          ResetIgnoresState(w, nmt.state, ResetCom);
          Reset(ResetCom, transport);
      }
    }

    // ---- SYNC ----

    /** Offers frames in order; refused ones go to a list with one place per TPDO. */
    method OfferSyncTpdos(fs: seq<CanFrame>, now: U64, transport: CanTransport)
      requires Valid() && |fs| <= |tpdo.pdos|
      modifies this`retained, this`lastAttempt, transport`tried, transport`hist
      ensures Valid() && At(transport) == SyncTpdosOffered(old(At(transport)), fs, now)
    {
      ghost var l := transport.View();
      var refused := [];
      for k := 0 to |fs|
        invariant (transport.View(), refused) == OfferedFirst(l, SyncTpdo(window.lengthUs), fs, k, now)
      {
        var verdict := transport.Transmit(SyncTpdo(window.lengthUs), fs[k], now);
        if !verdict.Accepted? && |refused| < |tpdo.pdos| {
          refused := refused + [fs[k]];
        }
      }
      retained := refused;
      lastAttempt := if refused == [] then None else Some(now);
    }

    method HandleSync(now: U64, transport: CanTransport)
      requires Valid()
      modifies Repr(), transport`tried, transport`hist
      ensures Valid() && At(transport) == SyncHandled(old(At(transport)), now)
    {
      if !nmt.state.Operational? {
        return;
      }
      ghost var w := At(transport);
      CommitPulse(now, transport);
      ghost var w1 := At(transport);
      var out := SamplePulse(now, transport);
      hide PulseCommitted, PulseSampled, SyncTpdosOffered, T.SyncFrames;
      OfferSyncTpdos(out, now, transport);
    }

    method CommitPulse(now: U64, ghost transport: CanTransport)
      requires Valid()
      modifies this`retained, this`lastAttempt, this`sink, rpdo, window, transport`hist
      ensures Valid() && At(transport) == PulseCommitted(old(At(transport)), now)
    {
      hide R.Committed, CommitsNoted, R.RpdoOk, T.TpdoOk, S.Opened;
      ghost var n := View();
      OpenPulse(now);
      NoteCommits(transport);
      sink := rpdo.OnSync(capacity, sink);
      assert View() == n.(retained := [], lastAttempt := Some(now), window := window.View(), sink := sink, rpdo := rpdo.View());
    }

    /** A new pulse supersedes what the previous one never placed. */
    method OpenPulse(now: U64)
      requires Valid()
      modifies this`retained, this`lastAttempt, window
      ensures Valid()
      ensures View() == old(View()).(retained := [], lastAttempt := Some(now), window := S.Opened(old(window.View()), now))
    {
      retained := [];
      window.Open(now);
      lastAttempt := Some(now);
    }

    ghost method NoteCommits(transport: CanTransport)
      requires Valid()
      modifies transport`hist
      ensures transport.View() == CommitsNoted(rpdo.View(), old(transport.View()), |rpdo.pdos|)
    {
      transport.hist := CommitsNoted(rpdo.View(), transport.View(), |rpdo.pdos|).hist;
      CommitsNotedLink(rpdo.View(), old(transport.View()), |rpdo.pdos|);
    }

    method SamplePulse(now: U64, ghost transport: CanTransport) returns (out: seq<CanFrame>)
      requires Valid()
      modifies tpdo, transport`hist
      ensures Valid() && At(transport) == PulseSampled(old(At(transport)), now)
      ensures out == T.SyncFrames(old(tpdo.View()), sink.od, |tpdo.pdos|) && |out| <= |tpdo.pdos|
    {
      hide T.SyncFrames, DueSources;
      transport.Note(Pulse(now, sink.od, DueSources(tpdo.View(), |tpdo.pdos|)));
      out := tpdo.OnSync(sink.od);
    }

    method ReceiveSync(f: CanFrame, now: U64, transport: CanTransport)
      requires Valid()
      modifies Repr(), transport`tried, transport`hist
      ensures Valid() && At(transport) == SyncReceived(old(At(transport)), f, now)
    {
      hide SyncHandled, S.Consumed;
      var pulse := sync.Process(f);
      if pulse.Some? {
        HandleSync(now, transport);
      }
    }

    method ProduceSync(now: U64, transport: CanTransport)
      requires Valid()
      modifies Repr(), transport`tried, transport`hist
      ensures Valid() && At(transport) == SyncProduced(old(At(transport)), now)
    {
      hide SyncHandled, S.Polled, S.Confirmed;
      if !booted || nmt.state.Stopped? {
        return;
      }
      var pulse := producer.Poll(now);
      if pulse.Some? {
        var verdict := transport.Transmit(SyncPulse, pulse.value, now);
        if verdict.Accepted? {
          producer.ConfirmSent(now);
          HandleSync(now, transport);
        }
      }
    }

    method RetryPendingSyncTpdo(now: U64, transport: CanTransport)
      requires Valid()
      modifies this`retained, this`lastAttempt, transport`tried, transport`hist
      ensures Valid() && At(transport) == Retried(old(At(transport)), now)
    {
      hide SyncTpdosOffered, S.Allows;
      if retained == [] {
        return;
      }
      var allowed := window.AllowsTransmit(now);
      if !nmt.state.Operational? || !allowed {
        retained, lastAttempt := [], None;
        return;
      }
      if lastAttempt == Some(now) {
        return;
      }
      OfferSyncTpdos(retained, now, transport);
    }

    // ---- Other received frames ----

    method ProcessRpdoFrame(f: DataFrame, now: U64, ghost transport: CanTransport)
      requires Valid()
      modifies this`sink, rpdo, transport`hist
      ensures Valid() && At(transport) == RpdoReceived(old(At(transport)), f, now)
    {
      hide R.Processed;
      if !nmt.state.Operational? {
        return;
      }
      NoteReception(f, transport);
      var ours, sink' := rpdo.Process(f, now, capacity, sink);
      sink := sink';
    }

    ghost method NoteReception(f: DataFrame, transport: CanTransport)
      modifies transport`hist
      ensures transport.View() == ReceptionNoted(rpdo.View(), old(transport.View()), f)
    {
      hide R.LongEnough;
      transport.hist := ReceptionNoted(rpdo.View(), transport.View(), f).hist;
    }

    ghost method NoteCycle(before: S.Producer, transport: CanTransport)
      modifies transport`hist
      ensures transport.View() == CycleNoted(old(transport.View()), before, producer.View())
    {
      transport.hist := CycleNoted(transport.View(), before, producer.View()).hist;
    }

    method CommitDownload(c: Slot.Commit, ghost transport: CanTransport)
      requires Valid()
      modifies Repr(), transport`hist
      ensures Valid() && At(transport) == CommitApplied(old(At(transport)), c)
    {
      hide Write, PdosReloaded, HeartbeatReloaded, SyncReloaded, CycleNoted;
      var w := Write(sink.od, c.addr, c.data);
      if w.Err? {
        return;
      }
      transport.Note(Downloaded(c.addr, c.data));
      sink := EventPushed(sink.(od := w.value), OdEvent(c.addr, FromSdo), capacity);
      if 0x1400 <= c.addr.index <= 0x1BFF {
        SyncPdoFromOd();
      }
      if c.addr.index == 0x1016 || c.addr.index == 0x1017 {
        SyncHeartbeatFromOd(true);
      }
      if c.addr.index == 0x1005 || c.addr.index == 0x1006 || c.addr.index == 0x1007 || c.addr.index == 0x1019 {
        ghost var before := producer.View();
        SyncConfigFromOd();
        NoteCycle(before, transport);
      }
    }

    method HandleSdoRequest(c: nat, f: CanFrame, now: U64, transport: CanTransport)
      requires Valid() && c < |channels|
      modifies Repr(), transport`tried, transport`hist
      ensures Valid() && At(transport) == SdoReceived(old(At(transport)), c, f, now)
    {
      hide Slot.Requested, CommitApplied, T.TpdoOk, R.RpdoOk;
      if !(nmt.state.PreOperational? || nmt.state.Operational?) || |f.data| != 8 {
        return;
      }
      var ch, commit := Slot.Request(channels[c], c, f.data[0] == 0x80, now, transport);
      channels := channels[c := ch];
      if commit.Some? {
        CommitDownload(commit.value, transport);
      }
    }

    method HandleLss(f: CanFrame, now: U64, transport: CanTransport)
      requires Valid()
      modifies lss, transport`tried, transport`hist
      ensures Valid() && At(transport) == LssReceived(old(At(transport)), f, now)
    {
      hide Lss.Step;
      var response := lss.Process(f);
      if response.Some? {
        var _ := transport.Transmit(LssResponse, response.value, now);
      }
    }

    method PushHeartbeatEvents(notes: seq<HeartbeatNote>)
      requires Valid()
      modifies this`hbEvents, this`sink
      ensures Valid() && View() == HeartbeatNoted(old(View()), notes)
    {
      ghost var n := View();
      for k := 0 to |notes|
        invariant Valid() && View() == HeartbeatNoted(n, notes[..k])
      {
        assert notes[..k + 1][..k] == notes[..k];
        if |hbEvents| >= HB_EVENT_QUEUE {
          sink := sink.(dropped := SatAdd(sink.dropped, 1));
        }
        hbEvents := Newest(hbEvents + [notes[k]], HB_EVENT_QUEUE);
      }
      assert notes[..|notes|] == notes;
    }

    method FindMonitor(cob: nat) returns (s: Option<nat>)
      ensures s == MonitorOf(monitors, cob, 0)
    {
      s := None;
      for k := 0 to |monitors|
        invariant MonitorOf(monitors, cob, 0) == MonitorOf(monitors, cob, k)
      {
        if monitors[k].Some? && 0x700 + monitors[k].value.nodeId == cob {
          return Some(k);
        }
      }
    }

    method FindExtraChannel(cob: nat) returns (c: Option<nat>)
      requires |channels| >= 1
      ensures c == ExtraChannel(channels, cob, 1)
    {
      c := None;
      for k := 1 to |channels|
        invariant ExtraChannel(channels, cob, 1) == ExtraChannel(channels, cob, k)
      {
        if channels[k].rxCob == cob {
          return Some(k);
        }
      }
    }

    method HearHeartbeat(s: nat, byte: bv8, now: U64)
      requires Valid() && s < |monitors| && monitors[s].Some?
      modifies this
      ensures Valid() && View() == HeartbeatReceived(old(View()), s, byte, now)
    {
      hide H.Received, HeartbeatNoted;
      var m := monitors[s].value;
      var (m', events) := H.Received(m, m.nodeId, byte, now);
      monitors := monitors[s := Some(m')];
      PushHeartbeatEvents(Tagged(m.nodeId, events));
    }

    method DispatchFrame(f: DataFrame, now: U64, transport: CanTransport)
      requires Valid()
      modifies Repr(), transport`tried, transport`hist
      ensures Valid() && At(transport) == Dispatched(old(At(transport)), f, now)
    {
      hide SdoReceived, SyncReceived, NmtReceived, LssReceived, HeartbeatReceived, RpdoReceived;
      var extra := FindExtraChannel(f.id);
      if extra.Some? {
        HandleSdoRequest(extra.value, f, now, transport);
        return;
      }
      if sync.cobId != 0 && sync.cobId == f.id {
        ReceiveSync(f, now, transport);
        return;
      }
      if f.id == 0 {
        HandleNmt(f, transport);
        return;
      }
      if f.id == channels[0].rxCob {
        HandleSdoRequest(0, f, now, transport);
        return;
      }
      if f.id == Lss.REQUEST_COB {
        HandleLss(f, now, transport);
        return;
      }
      if |f.data| == 1 {
        var m := FindMonitor(f.id);
        if m.Some? {
          HearHeartbeat(m.value, f.data[0], now);
          return;
        }
      }
      ProcessRpdoFrame(f, now, transport);
    }

    // ---- The parts of one call ----

    method Boot(now: U64, transport: CanTransport) returns (up: bool)
      requires Valid()
      modifies this, nmt, transport`tried, transport`hist
      ensures Valid() && (At(transport), up) == BootTried(old(At(transport)), now)
    {
      hide T.TpdoOk, R.RpdoOk, H.HeartbeatFrame, EnteredState;
      if booted {
        return true;
      }
      heartbeat := heartbeat.(lastSentUs := now);
      var verdict := transport.Transmit(BootUp, H.HeartbeatFrame(id, Initializing), now);
      if verdict.WouldBlock? {
        return false;
      }
      CompleteBoot(transport);
      up := true;
    }

    /** Pre-Operational after boot-up; an autonomous node goes on to Operational. */
    method CompleteBoot(ghost transport: CanTransport)
      requires Valid()
      modifies this`booted, nmt, transport`hist
      ensures Valid()
      ensures var w := old(At(transport)); var w1 := EnteredState(w.(n := w.n.(booted := true)), PreOperational);
              At(transport) == if autoStart then EnteredState(w1, Operational) else w1
    {
      hide T.TpdoOk, R.RpdoOk;
      booted := true;
      nmt.BootComplete();
      transport.Note(Entered(PreOperational));
      if autoStart {
        var _ := nmt.ProcessCommand(StartRemoteNode, 0, id);
        transport.Note(Entered(Operational));
      }
    }

    method BeginCall(now: U64, ghost transport: CanTransport)
      requires Valid()
      modifies this`channels, tpdo, transport`hist
      ensures Valid() && At(transport) == CallBegun(old(At(transport)), now)
    {
      hide Slot.BeganPoll, T.SyncLatched;
      ghost var before, l := channels, transport.View();
      tpdo.LatchSyncEvents(dirty);
      ghost var t := tpdo.View();
      for i := 0 to |channels|
        invariant |channels| == |before| && View() == old(View()).(tpdo := t, channels := channels)
        invariant (channels, transport.View()) == PollsBegun(before, l, now, i)
      {
        var ch := Slot.BeginPoll(channels[i], i, now, transport);
        channels := channels[i := ch];
      }
    }

    method ServiceSdo(now: U64, transport: CanTransport)
      requires Valid()
      modifies this`channels, transport`tried, transport`hist
      ensures Valid() && At(transport) == SdoServiced(old(At(transport)), now)
    {
      hide Slot.Serviced;
      ghost var before, l := channels, transport.View();
      for i := 0 to |channels|
        invariant |channels| == |before|
        invariant (channels, transport.View()) == ChannelsServiced(before, l, now, i)
      {
        var ch := Slot.Service(channels[i], i, now, transport);
        channels := channels[i := ch];
      }
    }

    method CheckDeadlines(now: U64)
      requires Valid()
      modifies Repr()
      ensures Valid() && View() == DeadlinesPolled(old(View()), now)
    {
      hide R.Reports, LeftOperational;
      if !nmt.state.Operational? {
        LeaveOperational();
        return;
      }
      ReportsPositive(rpdo.View(), now, |rpdo.pdos|);
      var expired := rpdo.CheckDeadlines(now);
      PushDeadlines(expired);
    }

    method PushDeadlines(numbers: seq<nat>)
      requires Valid() && forall i :: 0 <= i < |numbers| ==> numbers[i] >= 1
      modifies this`sink
      ensures Valid() && sink == DeadlinesPushed(old(sink), numbers, capacity)
    {
      for k := 0 to |numbers|
        invariant Valid() && sink == DeadlinesPushed(old(sink), numbers[..k], capacity)
      {
        assert numbers[..k + 1][..k] == numbers[..k];
        sink := EventPushed(sink, DeadlineEvent(numbers[k]), capacity);
      }
      assert numbers[..|numbers|] == numbers;
    }

    method SendHeartbeat(now: U64, transport: CanTransport)
      requires Valid()
      modifies this`heartbeat, transport`tried, transport`hist
      ensures Valid() && At(transport) == HeartbeatSent(old(At(transport)), now)
    {
      hide H.Due;
      if !booted {
        return;
      }
      var due := H.Due(heartbeat, now, nmt.state);
      if due.Some? {
        var verdict := transport.Transmit(HeartbeatTx, due.value, now);
        if verdict.Accepted? {
          heartbeat := heartbeat.(lastSentUs := now);
        }
      }
    }

    method CheckMonitors(now: U64)
      requires Valid()
      modifies this
      ensures Valid() && View() == MonitorsChecked(old(View()), now, |old(monitors)|)
    {
      hide H.Checked, HeartbeatNoted;
      ghost var n := View();
      for k := 0 to |monitors|
        invariant Valid() && |monitors| == |n.monitors| && View() == MonitorsChecked(n, now, k)
      {
        if monitors[k].Some? {
          var (m, events) := H.Checked(monitors[k].value, now);
          monitors := monitors[k := Some(m)];
          NotedKeepsMonitors(View(), Tagged(m.nodeId, events));
          PushHeartbeatEvents(Tagged(m.nodeId, events));
        }
      }
    }

    method SendEmergencies(now: U64, transport: CanTransport)
      requires Valid()
      modifies this`emergencies, transport`tried, transport`hist
      ensures Valid() && At(transport) == EmergenciesSent(old(At(transport)), now)
    {
      if !booted || !(nmt.state.PreOperational? || nmt.state.Operational?) {
        return;
      }
      ghost var goal := EmergenciesDrained(At(transport), now);
      while emergencies != []
        invariant Valid() && EmergenciesDrained(At(transport), now) == goal
        decreases |emergencies|
      {
        var verdict := transport.Transmit(Emergency, emergencies[0], now);
        if !verdict.Accepted? {
          return;
        }
        emergencies := emergencies[1..];
      }
    }

    method PollTpdos(now: U64, transport: CanTransport)
      requires Valid()
      modifies this`dirty, tpdo, transport`tried, transport`hist
      ensures Valid() && At(transport) == TpdosPolled(old(At(transport)), now)
    {
      hide T.Polled;
      if nmt.state.Operational? {
        tpdo.PollWith(sink.od, now, dirty, transport);
      }
      dirty := [];
    }

    /** Dispatches until the transport has nothing left. */
    method DrainReceived(now: U64, transport: CanTransport)
      requires Valid()
      modifies Repr(), transport
      ensures Valid() && transport.rx == []
      ensures At(transport) == Drained(old(At(transport)), old(transport.rx), now)
    {
      hide Dispatched;
      ghost var goal := Drained(At(transport), transport.rx, now);
      while transport.rx != []
        invariant Valid() && Drained(At(transport), transport.rx, now) == goal
        decreases |transport.rx|
      {
        ghost var rx := transport.rx;
        var f := transport.Receive();
        assert rx[0] == f.value && rx[1..] == transport.rx;
        DispatchFrame(f.value, now, transport);
      }
    }

    method DoPdoWork(now: U64, transport: CanTransport)
      requires Valid()
      modifies Repr(), transport`tried, transport`hist
      ensures Valid() && At(transport) == PdoWorkDone(old(At(transport)), now)
    {
      hide SdoServiced, SyncProduced, Retried, DeadlinesPolled;
      ServiceSdo(now, transport);
      ProduceSync(now, transport);
      RetryPendingSyncTpdo(now, transport);
      CheckDeadlines(now);
    }

    method DoServices(now: U64, transport: CanTransport)
      requires Valid()
      modifies Repr(), transport`tried, transport`hist
      ensures Valid() && At(transport) == ServicesDone(old(At(transport)), now)
    {
      hide HeartbeatSent, MonitorsChecked, EmergenciesSent, TpdosPolled;
      SendHeartbeat(now, transport);
      CheckMonitors(now);
      SendEmergencies(now, transport);
      PollTpdos(now, transport);
    }

    /** Everything after a successful boot. */
    method RunCall(now: U64, transport: CanTransport)
      requires Valid()
      modifies Repr(), transport
      ensures Valid() && At(transport) == CallRun(old(At(transport)), old(transport.rx), now)
    {
      hide CallBegun, Drained, PdoWorkDone, ServicesDone;
      BeginCall(now, transport);
      DrainReceived(now, transport);
      DoPdoWork(now, transport);
      DoServices(now, transport);
    }

    /** The main processing function: boots, drains, services, produces, retries and polls. */
    method Process(now: U64, transport: CanTransport)
      requires Valid()
      modifies Repr(), transport
      ensures Valid() && At(transport) == Processed(old(At(transport)), old(transport.rx), now)
      ensures Safe(old(At(transport))) ==> Safe(At(transport))
    {
      hide BootTried, CallRun, Safe;
      ghost var w := At(transport);
      var up := Boot(now, transport);
      if up {
        RunCall(now, transport);
      }
      if Safe(w) {
        ProcessedOk(w, old(transport.rx), now);
      }
    }

    // ---- Application calls ----

    method RequestReset(kind: ResetType, ghost transport: CanTransport)
      requires Valid()
      modifies Repr(), transport`hist
      ensures Valid() && At(transport) == WorldReset(old(At(transport)), kind)
    {
      Reset(kind, transport);
    }

    method NotifyChanged(a: Addr)
      requires Valid()
      modifies this`dirty, tpdo
      ensures Valid() && View() == ChangeNotified(old(View()), a)
    {
      hide T.Notified;
      tpdo.NotifyChanged(a);
      if a !in dirty && |dirty| < dirtyCapacity {
        dirty := dirty + [a];
      }
    }

    /** Dropping a dictionary guard: compares every mapped object with the snapshot. */
    method DropGuard(od: Od, ghost transport: CanTransport)
      requires Valid()
      modifies this`sink, tpdo, transport`hist
      ensures Valid() && At(transport) == OdEdited(old(At(transport)), od)
    {
      hide MappedDiffers;
      var snapshot := sink.od;
      ghost var t := tpdo.View();
      sink := sink.(od := od);
      transport.Note(Edited(od));
      for slot := 0 to |tpdo.pdos|
        invariant sink == old(sink).(od := od) && transport.View() == Noted(old(transport.View()), Edited(od))
        invariant tpdo.Valid() && tpdo.View() == ChangesLatched(t, snapshot, od, slot)
      {
        var changed := Differs(snapshot, od, tpdo.pdos[slot].mappings);
        if changed {
          tpdo.LatchSlotEvent(slot);
        }
      }
    }

    static method Differs(before: Od, after: Od, ms: seq<Mapping>) returns (changed: bool)
      ensures changed == MappedDiffers(before, after, ms)
    {
      for k := 0 to |ms|
        invariant forall j :: 0 <= j < k ==> ReadOrEmpty(before, ms[j]) == ReadOrEmpty(after, ms[j])
      {
        if ReadOrEmpty(before, ms[k]) != ReadOrEmpty(after, ms[k]) {
          return true;
        }
      }
      changed := false;
    }
  }
}
