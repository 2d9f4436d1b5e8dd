/**
 Configuration through the dictionary: what a node loads after an object is
 written, and what a committed download changes.
 */
module NodeConfig {
  import opened Types
  import opened ObjectDictionary
  import opened PdoWire
  import opened Transport
  import opened NodeModel
  import MappingRecords
  import H = Heartbeat
  import R = RpdoEngine
  import Slot = SdoSlot
  import S = Sync
  import T = TpdoEngine

  // ---- Reading what was written ----

  /** `od'` is `od` after a write of `data` to a readable, writable object at `a` that a buffer of `room` bytes can hold. */
  predicate Written(od: Od, a: Addr, data: seq<bv8>, room: nat, od': Od) {
    Write(od, a, data) == Ok(od') && od[a].access.Rw? && !od[a].dtype.Boolean? && |data| <= room
  }

  lemma ReadBack(od: Od, a: Addr, data: seq<bv8>, room: nat, od': Od)
    requires Written(od, a, data, room, od')
    ensures ReadNat(od', a.index, a.sub, room) == Some(FromLe(data))
    ensures forall index, sub, n :: Addr(index, sub) != a ==> ReadNat(od', index, sub, n) == ReadNat(od, index, sub, n)
  {
    WriteEffect(od, a, data);
  }

  /** Two dictionaries hold the same record at `index`. */
  ghost predicate SameRecord(od: Od, od': Od, index: nat) {
    forall sub: nat :: ReadNat(od', index, sub, 4) == ReadNat(od, index, sub, 4)
  }

  lemma {:induction false} SameMappings(od: Od, od': Od, index: nat, k: nat)
    requires SameRecord(od, od', index)
    ensures MappingsUpTo(od', index, k) == MappingsUpTo(od, index, k)
  {
    hide ReadNat;
    if k > 0 {
      SameMappings(od, od', index, k - 1);
    }
  }

  lemma SameLoaded(od: Od, od': Od, index: nat)
    requires SameRecord(od, od', index)
    ensures LoadedMappings(od', index) == LoadedMappings(od, index)
  {
    hide ReadNat, MappingsUpTo;
    forall k: nat ensures MappingsUpTo(od', index, k) == MappingsUpTo(od, index, k) {
      SameMappings(od, od', index, k);
    }
  }

  // ---- PDO communication records ----

  function TpdoRecord(c: T.TpdoConfig, slot: nat): nat {
    0x1800 + if c.odNumber == 0 then slot else c.odNumber - 1
  }

  function RpdoRecord(c: R.RpdoConfig, slot: nat): nat {
    0x1400 + if c.odNumber == 0 then slot else c.odNumber - 1
  }

  /** The settings of a communication record after a write of `data` to subindex `sub`. */
  lemma RecordReads(od: Od, comm: nat, sub: nat, data: seq<bv8>, room: nat, od': Od)
    requires Written(od, Addr(comm, sub), data, room, od') && ((sub == 1 || sub == 2) ==> room == 4)
    requires (sub == 3 || sub == 5) ==> room == 2
    ensures ReadNat(od', comm, 1, 4) == if sub == 1 then Some(FromLe(data)) else ReadNat(od, comm, 1, 4)
    ensures ReadNat(od', comm, 2, 4) == if sub == 2 then Some(FromLe(data)) else ReadNat(od, comm, 2, 4)
    ensures ReadNat(od', comm, 3, 2) == if sub == 3 then Some(FromLe(data)) else ReadNat(od, comm, 3, 2)
    ensures ReadNat(od', comm, 5, 2) == if sub == 5 then Some(FromLe(data)) else ReadNat(od, comm, 5, 2)
    ensures LoadedMappings(od', comm + 0x200) == LoadedMappings(od, comm + 0x200)
  {
    ReadBack(od, Addr(comm, sub), data, room, od');
    hide ReadNat, LoadedMappings, FromLe, Written;
    SameLoaded(od, od', comm + 0x200);
  }

  /**
   A TPDO re-read after a write to its communication record: subindex 1 sets
   COB-ID and validity, 2 the transmission type, 3 the inhibit time, 5 the event
   timer, and each changes that setting alone; any other subindex changes nothing.
   */
  lemma TpdoReload(od: Od, c: T.TpdoConfig, slot: nat, sub: nat, data: seq<bv8>, od': Od)
    requires Written(od, Addr(TpdoRecord(c, slot), sub), data, if sub == 3 || sub == 5 then 2 else 4, od')
    ensures var (before, after, v) := (LoadedTpdo(od, c, slot), LoadedTpdo(od', c, slot), FromLe(data));
            (sub == 1 ==> after == before.(cobId := v % 0x800, enabled := v < 0x8000_0000 && v % 0x800 != 0))
            && (sub == 2 ==> after == before.(transmissionType := v % 0x100))
            && (sub == 3 ==> after == before.(inhibit100us := v))
            && (sub == 5 ==> after == before.(eventTimerMs := v))
            && (sub != 1 && sub != 2 && sub != 3 && sub != 5 ==> after == before)
  {
    hide ReadNat, LoadedMappings, FromLe, Written;
    RecordReads(od, TpdoRecord(c, slot), sub, data, if sub == 3 || sub == 5 then 2 else 4, od');
  }

  /** An RPDO re-read after a write to its communication record: as for a TPDO, with subindex 5 the deadline. */
  lemma RpdoReload(od: Od, c: R.RpdoConfig, slot: nat, sub: nat, data: seq<bv8>, od': Od)
    requires Written(od, Addr(RpdoRecord(c, slot), sub), data, if sub == 3 || sub == 5 then 2 else 4, od')
    ensures var (before, after, v) := (LoadedRpdo(od, c, slot), LoadedRpdo(od', c, slot), FromLe(data));
            (sub == 1 ==> after == before.(cobId := v % 0x800, enabled := v < 0x8000_0000 && v % 0x800 != 0))
            && (sub == 2 ==> after == before.(transmissionType := v % 0x100))
            && (sub == 5 ==> after == before.(deadlineMs := v))
            && (sub != 1 && sub != 2 && sub != 5 ==> after == before)
  {
    hide ReadNat, LoadedMappings, FromLe, Written;
    RecordReads(od, RpdoRecord(c, slot), sub, data, if sub == 3 || sub == 5 then 2 else 4, od');
  }

  /** What a communication record does not provide keeps its declared setting; a missing mapping record maps nothing. */
  lemma AbsentKeepsDeclared(od: Od, t: T.TpdoConfig, r: R.RpdoConfig, slot: nat)
    ensures var (comm, after) := (TpdoRecord(t, slot), LoadedTpdo(od, t, slot));
            after.odNumber == t.odNumber
            && (ReadNat(od, comm, 1, 4).None? ==> after.cobId == t.cobId && after.enabled == t.enabled)
            && (ReadNat(od, comm, 2, 4).None? ==> after.transmissionType == t.transmissionType)
            && (ReadNat(od, comm, 3, 2).None? ==> after.inhibit100us == t.inhibit100us)
            && (ReadNat(od, comm, 5, 2).None? ==> after.eventTimerMs == t.eventTimerMs)
            && (ReadNat(od, comm + 0x200, 0, 4).None? ==> after.mappings == [])
    ensures var (comm, after) := (RpdoRecord(r, slot), LoadedRpdo(od, r, slot));
            after.odNumber == r.odNumber
            && (ReadNat(od, comm, 1, 4).None? ==> after.cobId == r.cobId && after.enabled == r.enabled)
            && (ReadNat(od, comm, 2, 4).None? ==> after.transmissionType == r.transmissionType)
            && (ReadNat(od, comm, 5, 2).None? ==> after.deadlineMs == r.deadlineMs)
            && (ReadNat(od, comm + 0x200, 0, 4).None? ==> after.mappings == [])
  {
    hide ReadNat, MappingsUpTo;
  }

  // ---- PDO mapping records ----

  /** The dictionary holds a mapping record: its count, and a descriptor for every active entry. */
  predicate Stores(od: Od, index: nat, r: MappingRecords.Record) {
    r.count <= |r.entries| && r.count <= MappingRecords.PDO_MAX_MAPPINGS && ReadNat(od, index, 0, 4) == Some(r.count)
    && forall k :: 1 <= k <= r.count ==> ReadNat(od, index, k, 4) == Some(r.entries[k - 1])
  }

  lemma {:induction false} MappingsAreEntries(od: Od, index: nat, r: MappingRecords.Record, k: nat)
    requires Stores(od, index, r) && k <= r.count
    ensures MappingsUpTo(od, index, k) == MappingRecords.DecodeAll(r.entries[..k])
  {
    hide ReadNat;
    if k > 0 {
      MappingsAreEntries(od, index, r, k - 1);
      assert ReadNat(od, index, k, 4) == Some(r.entries[k - 1]);
    }
  }

  /** The mapping list a node loads is exactly the record's active entries, in order. */
  lemma LoadedIsActive(od: Od, index: nat, r: MappingRecords.Record)
    requires Stores(od, index, r)
    ensures LoadedMappings(od, index) == MappingRecords.Active(r)
  {
    MappingsAreEntries(od, index, r, r.count);
  }

  lemma {:induction false} NoMoreThan(od: Od, index: nat, k: nat)
    ensures |MappingsUpTo(od, index, k)| <= k
  {
    hide ReadNat;
    if k > 0 {
      NoMoreThan(od, index, k - 1);
    }
  }

  /** However large a stored count is, a node loads at most 64 entries. */
  lemma LoadsAtMost64(od: Od, index: nat)
    ensures |LoadedMappings(od, index)| <= 64
  {
    hide ReadNat, MappingsUpTo;
    var n := ReadNat(od, index, 0, 4);
    if n.Some? {
      NoMoreThan(od, index, if n.value % 0x100 > 64 then 64 else n.value % 0x100);
    }
  }

  // ---- Heartbeat and SYNC objects ----

  /**
   A 0x1016 entry holding consumer time `time` for node `node` yields a fresh
   monitor of that node, an unchanged one is kept if asked for, and a zero time
   or an invalid node id yields none.
   */
  lemma MonitorReload(od: Od, slot: nat, existing: Option<H.Monitor>, preserve: bool, node: nat, time: nat)
    requires ReadNat(od, 0x1016, slot + 1, 4) == Some(node * 0x1_0000 + time) && time < 0x1_0000 && node < 0x100
    ensures var m := LoadedMonitor(od, slot, existing, preserve);
            (m.None? <==> time == 0 || node == 0 || node > 127)
            && (m.Some? ==> m.value.nodeId == node && m.value.timeoutMs == time)
            && (m.Some? && m.value.state != H.Waiting ==> preserve && m == existing)
            && (m.Some? && preserve && existing.Some? && existing.value.nodeId == node && existing.value.timeoutMs == time ==>
                  m == existing)
  {
    hide ReadNat;
    assert (node * 0x1_0000 + time) % 0x1_0000 == time && (node * 0x1_0000 + time) / 0x1_0000 == node;
  }

  /** The heartbeat producer time of 0x1017, in milliseconds, becomes the interval; without the object it stays. */
  lemma ProducerTimeReload(n: Node, preserve: bool)
    ensures var (ms, after) := (ReadNat(n.sink.od, 0x1017, 0, 2), HeartbeatReloaded(n, preserve).heartbeat);
            after == n.heartbeat.(intervalUs := if ms.Some? then 1000 * ms.value else n.heartbeat.intervalUs)
  {
    hide ReadNat, LoadedMonitor;
  }

  /** A value of a SYNC object, or its default when the object is absent. */
  function OrElse(v: Option<nat>, default_: nat): nat {
    if v.Some? then v.value else default_
  }

  /** 0x1005 as a node reads it. */
  function RawCobId(v: nat): bv32 {
    (v % 0x1_0000_0000) as bv32
  }

  lemma RawDecodes(raw: bv32)
    ensures S.FromRaw(raw).Some? <==> S.IsSupported(raw)
    ensures S.FromRaw(raw).Some? ==>
              S.ToRaw(S.FromRaw(raw).value) == raw && S.FromRaw(raw).value.cobId <= 0x7FF
  {
    S.SyncCobIdRoundTrip(raw, S.SyncCobId(0, false));
  }

  /**
   The SYNC settings a node loads: 0x1005 decoded so that re-encoding gives it
   back, 0x1006 as period, 0x1007 as window, 0x1019 as counter overflow; nothing
   is loaded exactly when 0x1005 or 0x1019 holds an unsupported value.
   */
  lemma SyncReload(od: Od) returns (id: bv32)
    ensures var (raw, overflow) := (ReadNat(od, 0x1005, 0, 4), OrElse(ReadNat(od, 0x1019, 0, 1), 0));
            LoadedSync(od).None? <==> (raw.Some? && !S.IsSupported(RawCobId(raw.value))) || !S.ValidOverflow(overflow)
    ensures LoadedSync(od).Some? ==>
              var s := LoadedSync(od).value;
              s.periodUs == OrElse(ReadNat(od, 0x1006, 0, 4), 0) && s.windowUs == OrElse(ReadNat(od, 0x1007, 0, 4), 0)
              && s.overflow == OrElse(ReadNat(od, 0x1019, 0, 1), 0) && s.cobId == id as nat && id <= 0x7FF
              && match ReadNat(od, 0x1005, 0, 4)
                 case Some(v) => S.ToRaw(S.SyncCobId(id, s.produce)) == RawCobId(v)
                 case None => id == 0x80 && !s.produce
  {
    hide ReadNat, S.ToRaw, S.FromRaw, S.IsSupported, RawCobId, S.ValidOverflow;
    id := 0x80;
    var raw := ReadNat(od, 0x1005, 0, 4);
    if raw.Some? {
      RawDecodes(RawCobId(raw.value));
      LoadedWith(od, raw.value);
      if S.FromRaw(RawCobId(raw.value)).Some? {
        id := S.FromRaw(RawCobId(raw.value)).value.cobId;
      }
    }
  }

  lemma LoadedWith(od: Od, v: nat)
    requires ReadNat(od, 0x1005, 0, 4) == Some(v)
    ensures var (cob, top) := (S.FromRaw(RawCobId(v)), OrElse(ReadNat(od, 0x1019, 0, 1), 0));
            LoadedSync(od) == if cob.None? || !S.ValidOverflow(top) then None
                              else Some(SyncSettings(cob.value.cobId as nat, cob.value.produce,
                                                     OrElse(ReadNat(od, 0x1006, 0, 4), 0),
                                                     OrElse(ReadNat(od, 0x1007, 0, 4), 0), top))
  {
    hide ReadNat, S.FromRaw, S.ValidOverflow;
  }

  /**
   Applying the SYNC settings: the consumer listens on the new COB-ID and starts
   counting anew only if it changed, the window keeps its phase, and the producer
   is enabled exactly when 0x1005 asks for it and the period is not zero; an
   unsupported configuration is ignored as a whole.
   */
  lemma SyncApplied(n: Node)
    ensures LoadedSync(n.sink.od).None? ==> SyncReloaded(n) == n
    ensures LoadedSync(n.sink.od).Some? ==>
              var (s, n') := (LoadedSync(n.sink.od).value, SyncReloaded(n));
              n'.consumer.cobId == s.cobId && (n.consumer.cobId == s.cobId ==> n'.consumer == n.consumer)
              && (n.consumer.cobId != s.cobId ==> n'.consumer.counter == 0)
              && n'.window == n.window.(lengthUs := s.windowUs)
              && (S.Enabled(n'.producer) <==> s.produce && s.cobId != 0 && s.periodUs != 0)
              && n'.producer.intervalUs == s.periodUs && n'.producer.overflow == s.overflow
              && n' == n.(consumer := n'.consumer, window := n'.window, producer := n'.producer)
  {
    hide LoadedSync;
  }

  /**
   A reset: the application is told which kind, every PDO, heartbeat and SYNC
   object is re-read, SYNC counts start over and nothing pending survives.
   */
  lemma ResetDuty(w: World, kind: ResetType)
    ensures var (n, n') := (w.n, WorldReset(w, kind).n);
            n'.resetEvent == Some(kind) && n'.nmt.Initializing? && !n'.booted && n'.sink == n.sink
            && n'.tpdo.pdos == LoadedTpdos(n.sink.od, n.tpdo.pdos) && n'.rpdo.pdos == LoadedRpdos(n.sink.od, n.rpdo.pdos)
            && n'.heartbeat == HeartbeatReloaded(n, false).heartbeat && n'.monitors == HeartbeatReloaded(n, false).monitors
            && n'.consumer == SyncReloaded(n).consumer.(counter := 0) && n'.producer == S.Restarted(SyncReloaded(n).producer)
            && !n'.window.active && n'.window.lengthUs == SyncReloaded(n).window.lengthUs
            && n'.retained == [] && n'.lastAttempt.None? && n'.dirty == []
            && n'.emergencies == n.emergencies && n'.lss == n.lss && n'.hbEvents == n.hbEvents
  {
    hide LoadedSync, LoadedMonitor, LoadedTpdos, LoadedRpdos, ReadNat, ChannelsCancelled, S.Configured, S.Retarget;
  }

  // ---- Committed downloads ----

  /**
   A committed download is in the dictionary afterwards, with its event in the
   queue; it re-reads the PDO records (0x1400 to 0x1BFF), the heartbeat objects
   (0x1016, 0x1017) or the SYNC objects (0x1005, 0x1006, 0x1007, 0x1019) exactly
   when it is to one of them; and it changes nothing else. A refused write
   changes nothing.
   */
  lemma DownloadDuty(w: World, c: Slot.Commit)
    ensures Write(w.n.sink.od, c.addr, c.data).Err? ==> CommitApplied(w, c) == w
    ensures Write(w.n.sink.od, c.addr, c.data).Ok? ==>
              var (n, n', od) := (w.n, CommitApplied(w, c).n, Write(w.n.sink.od, c.addr, c.data).value);
              var (pdo, heartbeat, sync) := (0x1400 <= c.addr.index <= 0x1BFF, c.addr.index == 0x1016 || c.addr.index == 0x1017,
                                             c.addr.index == 0x1005 || c.addr.index == 0x1006 || c.addr.index == 0x1007
                                             || c.addr.index == 0x1019);
              n'.sink == Sink(od, Newest(n.sink.events + [OdEvent(c.addr, FromSdo)], n.capacity), n'.sink.dropped)
              && n'.tpdo == n.tpdo.(pdos := if pdo then LoadedTpdos(od, n.tpdo.pdos) else n.tpdo.pdos)
              && n'.rpdo == n.rpdo.(pdos := if pdo then LoadedRpdos(od, n.rpdo.pdos) else n.rpdo.pdos)
              && (!heartbeat ==> n'.heartbeat == n.heartbeat && n'.monitors == n.monitors)
              && (heartbeat ==> (n'.heartbeat, n'.monitors)
                                == (var r := HeartbeatReloaded(n.(sink := n'.sink), true); (r.heartbeat, r.monitors)))
              && (!sync ==> n'.consumer == n.consumer && n'.window == n.window && n'.producer == n.producer)
              && (sync ==> (n'.consumer, n'.window, n'.producer)
                           == (var r := SyncReloaded(n.(sink := n'.sink)); (r.consumer, r.window, r.producer)))
              && n' == n.(sink := n'.sink, tpdo := n'.tpdo, rpdo := n'.rpdo, heartbeat := n'.heartbeat,
                          monitors := n'.monitors, consumer := n'.consumer, window := n'.window, producer := n'.producer)
  {
    hide Write, LoadedSync, LoadedMonitor, LoadedTpdos, LoadedRpdos, ReadNat, CycleNoted, S.Configured, S.Retarget, Newest;
  }
}
