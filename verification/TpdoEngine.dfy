/**
 The TPDO engine: event latches, the synchronous divisor, inhibit time and
 acceptance-aware sends (transmission types of section 7.5.2.31 of CiA 301).
 */
module TpdoEngine {
  import opened Types
  import opened ObjectDictionary
  import opened PdoWire
  import opened Transport
  import Sync

  datatype TpdoConfig = TpdoConfig(
    odNumber: nat, cobId: nat, transmissionType: nat, inhibit100us: nat, eventTimerMs: nat,
    mappings: seq<Mapping>, enabled: bool)

  datatype Tpdo = Tpdo(
    pdos: seq<TpdoConfig>, syncCounter: seq<nat>, lastSendUs: seq<U64>, syncPending: seq<bool>, asyncPending: seq<bool>)

  /** Per-slot state is complete, and no divisor counter can overflow a byte. */
  predicate TpdoOk(t: Tpdo) {
    |t.syncCounter| == |t.pdos| && |t.lastSendUs| == |t.pdos|
    && |t.syncPending| == |t.pdos| && |t.asyncPending| == |t.pdos|
    && forall i :: 0 <= i < |t.pdos| ==> t.syncCounter[i] < 240
  }

  function NewTpdo(pdos: seq<TpdoConfig>): Tpdo {
    Tpdo(pdos, seq(|pdos|, _ => 0), seq(|pdos|, _ => 0), seq(|pdos|, _ => false), seq(|pdos|, _ => false))
  }

  predicate EventDriven(c: TpdoConfig) {
    c.transmissionType == 254 || c.transmissionType == 255
  }

  predicate Cyclic(c: TpdoConfig) {
    1 <= c.transmissionType <= 240
  }

  predicate MapsAny(c: TpdoConfig, changed: seq<Addr>) {
    exists k, j :: 0 <= k < |c.mappings| && 0 <= j < |changed| && AddrOf(c.mappings[k]) == changed[j]
  }

  // ---- Latches ----

  function SlotLatched(t: Tpdo, i: nat): Tpdo
    requires TpdoOk(t)
  {
    if i >= |t.pdos| || !t.pdos[i].enabled then t
    else if t.pdos[i].transmissionType == 0 then t.(syncPending := t.syncPending[i := true])
    else if EventDriven(t.pdos[i]) then t.(asyncPending := t.asyncPending[i := true])
    else t
  }

  /** Effect of an application change to `a`: latched in every enabled TPDO that maps it. */
  function Notified(t: Tpdo, a: Addr): (t': Tpdo)
    requires TpdoOk(t)
    ensures TpdoOk(t') && t'.pdos == t.pdos
  {
    t.(syncPending := seq(|t.pdos|, i requires 0 <= i < |t.pdos| =>
                         t.syncPending[i] || (t.pdos[i].enabled && t.pdos[i].transmissionType == 0 && MapsAny(t.pdos[i], [a]))),
       asyncPending := seq(|t.pdos|, i requires 0 <= i < |t.pdos| =>
                         t.asyncPending[i] || (t.pdos[i].enabled && EventDriven(t.pdos[i]) && MapsAny(t.pdos[i], [a]))))
  }

  /** Effect of latching the dirty set for synchronous acyclic TPDOs. */
  function SyncLatched(t: Tpdo, dirty: seq<Addr>): (t': Tpdo)
    requires TpdoOk(t)
    ensures TpdoOk(t') && t'.pdos == t.pdos
  {
    t.(syncPending := seq(|t.pdos|, i requires 0 <= i < |t.pdos| =>
                         t.syncPending[i] || (t.pdos[i].enabled && t.pdos[i].transmissionType == 0 && MapsAny(t.pdos[i], dirty))))
  }

  function EventsDiscarded(t: Tpdo): Tpdo {
    t.(syncPending := seq(|t.pdos|, _ => false), asyncPending := seq(|t.pdos|, _ => false))
  }

  function CommunicationReset(t: Tpdo): Tpdo {
    EventsDiscarded(t).(syncCounter := seq(|t.pdos|, _ => 0))
  }

  // ---- SYNC ----

  /** A TPDO with this divisor counter and latch is due on a pulse. */
  predicate Due(c: TpdoConfig, counter: nat, latched: bool) {
    c.enabled && ((c.transmissionType == 0 && latched) || (Cyclic(c) && counter + 1 >= c.transmissionType))
  }

  /** The divisor counter after a pulse: it advances, or restarts when the TPDO is due. */
  function NextCounter(c: TpdoConfig, counter: nat): (n: nat)
    ensures counter < 240 ==> n < 240
  {
    if !c.enabled || !Cyclic(c) then counter else if counter + 1 >= c.transmissionType then 0 else counter + 1
  }

  /** A pulse consumes the latch of an enabled acyclic TPDO. */
  function NextLatch(c: TpdoConfig, latched: bool): bool {
    latched && !(c.enabled && c.transmissionType == 0)
  }

  predicate DueOnSync(t: Tpdo, i: nat)
    requires TpdoOk(t) && i < |t.pdos|
  {
    Due(t.pdos[i], t.syncCounter[i], t.syncPending[i])
  }

  function Synced(t: Tpdo): (t': Tpdo)
    requires TpdoOk(t)
    ensures TpdoOk(t') && t'.pdos == t.pdos
  {
    t.(syncCounter := seq(|t.pdos|, i requires 0 <= i < |t.pdos| => NextCounter(t.pdos[i], t.syncCounter[i])),
       syncPending := seq(|t.pdos|, i requires 0 <= i < |t.pdos| => NextLatch(t.pdos[i], t.syncPending[i])))
  }

  /** The first `k` slots have seen the pulse, the others have not. */
  predicate SyncedUpTo(t: Tpdo, k: nat, counters: seq<nat>, latches: seq<bool>)
    requires TpdoOk(t)
  {
    |counters| == |t.pdos| == |latches|
    && forall i :: 0 <= i < |t.pdos| ==>
         counters[i] == (if i < k then NextCounter(t.pdos[i], t.syncCounter[i]) else t.syncCounter[i])
         && latches[i] == if i < k then NextLatch(t.pdos[i], t.syncPending[i]) else t.syncPending[i]
  }

  lemma SyncedNone(t: Tpdo)
    requires TpdoOk(t)
    ensures SyncedUpTo(t, 0, t.syncCounter, t.syncPending)
  {
  }

  lemma SyncedOneMore(t: Tpdo, k: nat, counters: seq<nat>, latches: seq<bool>)
    requires TpdoOk(t) && k < |t.pdos| && SyncedUpTo(t, k, counters, latches)
    ensures |counters| == |t.pdos| == |latches| && counters[k] == t.syncCounter[k] && latches[k] == t.syncPending[k]
    ensures SyncedUpTo(t, k + 1, counters[k := NextCounter(t.pdos[k], counters[k])],
                       latches[k := NextLatch(t.pdos[k], latches[k])])
  {
  }

  lemma SyncedAll(t: Tpdo, counters: seq<nat>, latches: seq<bool>)
    requires TpdoOk(t) && SyncedUpTo(t, |t.pdos|, counters, latches)
    ensures t.(syncCounter := counters, syncPending := latches) == Synced(t)
  {
  }

  function SlotFrame(t: Tpdo, i: nat, od: Od): Option<CanFrame>
    requires i < |t.pdos|
  {
    FrameFor(t.pdos[i].cobId, t.pdos[i].mappings, od)
  }

  /** Frames of the due slots among the first `k`, in slot order. */
  function SyncFrames(t: Tpdo, od: Od, k: nat): (fs: seq<CanFrame>)
    requires TpdoOk(t) && k <= |t.pdos|
    ensures |fs| <= k
  {
    if k == 0 then []
    else SyncFrames(t, od, k - 1)
         + if DueOnSync(t, k - 1) && SlotFrame(t, k - 1, od).Some? then [SlotFrame(t, k - 1, od).value] else []
  }

  /** Each due slot that can be built contributes its frame once, at its place in slot order; no other slot contributes. */
  lemma {:induction false} SyncFramesExact(t: Tpdo, od: Od, i: nat, k: nat)
    requires TpdoOk(t) && i < k <= |t.pdos|
    ensures DueOnSync(t, i) && SlotFrame(t, i, od).Some? ==>
              SyncFrames(t, od, i) + [SlotFrame(t, i, od).value] <= SyncFrames(t, od, k)
    ensures !(DueOnSync(t, i) && SlotFrame(t, i, od).Some?) ==>
              SyncFrames(t, od, i) == SyncFrames(t, od, i + 1) <= SyncFrames(t, od, k)
    ensures SyncFrames(t, od, 0) == []
  {
    hide DueOnSync, SlotFrame;
    if i < k - 1 {
      SyncFramesExact(t, od, i, k - 1);
    }
  }

  // ---- Event-driven sends ----

  predicate TimerFires(c: TpdoConfig, elapsed: nat) {
    c.eventTimerMs > 0 && elapsed >= c.eventTimerMs * 1000
  }

  /** Slot `i` has a trigger and its inhibit time has passed. */
  predicate Eligible(t: Tpdo, i: nat, now: U64)
    requires TpdoOk(t) && i < |t.pdos|
  {
    var elapsed := Elapsed(now, t.lastSendUs[i]);
    (t.asyncPending[i] || TimerFires(t.pdos[i], elapsed)) && elapsed >= t.pdos[i].inhibit100us * 100
  }

  /** Slot `i` after latching the dirty set. */
  function DirtyLatched(t: Tpdo, i: nat, dirty: seq<Addr>): (t': Tpdo)
    requires TpdoOk(t) && i < |t.pdos|
    ensures TpdoOk(t') && t'.pdos == t.pdos
  {
    if MapsAny(t.pdos[i], dirty) then t.(asyncPending := t.asyncPending[i := true]) else t
  }

  /** A send the transport accepted: the trigger is satisfied and the inhibit time restarts. */
  function SendAccepted(t: Tpdo, i: nat, now: U64): (t': Tpdo)
    requires TpdoOk(t) && i < |t.pdos|
    ensures TpdoOk(t')
  {
    t.(lastSendUs := t.lastSendUs[i := now], asyncPending := t.asyncPending[i := false])
  }

  /** Polling one slot. */
  function SlotPolled(t: Tpdo, l: Link, i: nat, od: Od, now: U64, dirty: seq<Addr>): (r: (Tpdo, Link))
    requires TpdoOk(t) && i < |t.pdos|
    ensures TpdoOk(r.0) && r.0.pdos == t.pdos
  {
    if !t.pdos[i].enabled || !EventDriven(t.pdos[i]) then (t, l)
    else
      var t1 := DirtyLatched(t, i, dirty);
      if Eligible(t1, i, now) && SlotFrame(t1, i, od).Some? then
        var l1 := Offered(l, EventTpdo(i), SlotFrame(t1, i, od).value, now);
        (if NextVerdict(l).Accepted? then SendAccepted(t1, i, now) else t1, l1)
      else (t1, l)
  }

  /** Polling the first `k` slots in order. */
  function Polled(t: Tpdo, l: Link, k: nat, od: Od, now: U64, dirty: seq<Addr>): (r: (Tpdo, Link))
    requires TpdoOk(t) && k <= |t.pdos|
    ensures TpdoOk(r.0) && r.0.pdos == t.pdos
  {
    if k == 0 then (t, l)
    else
      var (t1, l1) := Polled(t, l, k - 1, od, now, dirty);
      SlotPolled(t1, l1, k - 1, od, now, dirty)
  }

  class Engine {
    var pdos: seq<TpdoConfig>
    var syncCounter: seq<nat>
    var lastSendUs: seq<U64>
    var syncPending: seq<bool>
    var asyncPending: seq<bool>

    ghost function View(): Tpdo
      reads this
    {
      Tpdo(pdos, syncCounter, lastSendUs, syncPending, asyncPending)
    }

    ghost predicate Valid()
      reads this
    {
      TpdoOk(View())
    }

    constructor (pdos: seq<TpdoConfig>)
      ensures Valid() && View() == NewTpdo(pdos)
    {
      this.pdos := pdos;
      syncCounter := seq(|pdos|, _ => 0);
      lastSendUs := seq(|pdos|, _ => 0);
      syncPending := seq(|pdos|, _ => false);
      asyncPending := seq(|pdos|, _ => false);
    }

    /** Re-reads the configuration; runtime state is kept. */
    method Reconfigure(configs: seq<TpdoConfig>)
      requires Valid() && |configs| == |pdos|
      modifies this`pdos
      ensures Valid() && View() == old(View()).(pdos := configs)
    {
      pdos := configs;
    }

    method NotifyChanged(a: Addr)
      requires Valid()
      modifies this
      ensures Valid() && View() == Notified(old(View()), a)
    {
      hide MapsAny;
      ghost var t := View();
      ghost var t' := Notified(t, a);
      for slot := 0 to |pdos|
        invariant Valid() && View() == t.(syncPending := syncPending, asyncPending := asyncPending)
        invariant forall i :: 0 <= i < |pdos| ==> syncPending[i] == if i < slot then t'.syncPending[i] else t.syncPending[i]
        invariant forall i :: 0 <= i < |pdos| ==> asyncPending[i] == if i < slot then t'.asyncPending[i] else t.asyncPending[i]
      {
        if pdos[slot].enabled && MapsAny(pdos[slot], [a]) {
          LatchSlotEvent(slot);
        }
      }
    }

    method LatchSlotEvent(slot: nat)
      requires Valid()
      modifies this
      ensures Valid() && View() == SlotLatched(old(View()), slot)
    {
      if slot >= |pdos| || !pdos[slot].enabled {
        return;
      }
      match pdos[slot].transmissionType {
        case 0 => syncPending := syncPending[slot := true];
        case 254 => asyncPending := asyncPending[slot := true];
        case 255 => asyncPending := asyncPending[slot := true];
        case _ =>
      }
    }

    method LatchSyncEvents(dirty: seq<Addr>)
      requires Valid()
      modifies this
      ensures Valid() && View() == SyncLatched(old(View()), dirty)
    {
      hide MapsAny;
      ghost var t := View();
      ghost var t' := SyncLatched(t, dirty);
      for i := 0 to |pdos|
        invariant View() == t.(syncPending := syncPending) && |syncPending| == |pdos|
        invariant forall j :: 0 <= j < |pdos| ==> syncPending[j] == if j < i then t'.syncPending[j] else t.syncPending[j]
      {
        if pdos[i].enabled && pdos[i].transmissionType == 0 && MapsAny(pdos[i], dirty) {
          syncPending := syncPending[i := true];
        }
      }
    }

    method DiscardEvents()
      requires Valid()
      modifies this
      ensures Valid() && View() == EventsDiscarded(old(View()))
    {
      syncPending := seq(|pdos|, _ => false);
      asyncPending := seq(|pdos|, _ => false);
    }

    method ResetCommunicationState()
      requires Valid()
      modifies this
      ensures Valid() && View() == CommunicationReset(old(View()))
    {
      syncCounter := seq(|pdos|, _ => 0);
      syncPending := seq(|pdos|, _ => false);
      asyncPending := seq(|pdos|, _ => false);
    }

    method OnSync(od: Od) returns (out: seq<CanFrame>)
      requires Valid()
      modifies this
      ensures Valid() && View() == Synced(old(View()))
      ensures out == SyncFrames(old(View()), od, |pdos|)
    {
      hide FrameFor, Due, NextCounter, NextLatch, SyncedUpTo;
      ghost var t := View();
      out := [];
      SyncedNone(t);
      for i := 0 to |pdos|
        invariant View() == t.(syncCounter := syncCounter, syncPending := syncPending)
        invariant SyncedUpTo(t, i, syncCounter, syncPending)
        invariant out == SyncFrames(t, od, i)
      {
        SyncedOneMore(t, i, syncCounter, syncPending);
        var due := SyncSlot(i);
        var frames := FrameIfDue(i, due, od);
        out := out + frames;
      }
      SyncedAll(t, syncCounter, syncPending);
    }

    method FrameIfDue(i: nat, due: bool, od: Od) returns (frames: seq<CanFrame>)
      requires i < |pdos|
      ensures frames == if due && SlotFrame(View(), i, od).Some? then [SlotFrame(View(), i, od).value] else []
    {
      if due {
        var frame := BuildPdoFrame(pdos[i].cobId, pdos[i].mappings, od);
        if frame.Some? {
          return [frame.value];
        }
      }
      frames := [];
    }

    /** One slot on a pulse; the byte counter cannot overflow. */
    method SyncSlot(i: nat) returns (due: bool)
      requires |syncCounter| == |pdos| == |syncPending| && i < |pdos| && syncCounter[i] < 240
      modifies this`syncCounter, this`syncPending
      ensures due == Due(pdos[i], old(syncCounter[i]), old(syncPending[i]))
      ensures syncCounter == old(syncCounter)[i := NextCounter(pdos[i], old(syncCounter[i]))]
      ensures syncPending == old(syncPending)[i := NextLatch(pdos[i], old(syncPending[i]))]
    {
      due := false;
      if !pdos[i].enabled {
        return;
      }
      var tt := pdos[i].transmissionType;
      if tt == 0 {
        due := syncPending[i];
        syncPending := syncPending[i := false];
      } else if tt <= 240 {
        assert syncCounter[i] + 1 <= U8_MAX;
        syncCounter := syncCounter[i := syncCounter[i] + 1];
        if syncCounter[i] >= tt {
          syncCounter := syncCounter[i := 0];
          due := true;
        }
      }
    }

    method PollWith(od: Od, now: U64, dirty: seq<Addr>, transport: CanTransport)
      requires Valid()
      modifies this, transport`tried, transport`hist
      ensures Valid() && (View(), transport.View()) == Polled(old(View()), old(transport.View()), |old(pdos)|, od, now, dirty)
    {
      hide SlotPolled;
      ghost var t, l := View(), transport.View();
      for i := 0 to |pdos|
        invariant Valid() && pdos == t.pdos
        invariant (View(), transport.View()) == Polled(t, l, i, od, now, dirty)
      {
        PollSlot(i, od, now, dirty, transport);
      }
    }

    method PollSlot(i: nat, od: Od, now: U64, dirty: seq<Addr>, transport: CanTransport)
      requires Valid() && i < |pdos|
      modifies this, transport`tried, transport`hist
      ensures Valid() && pdos == old(pdos)
      ensures (View(), transport.View()) == SlotPolled(old(View()), old(transport.View()), i, od, now, dirty)
    {
      hide FrameFor, MapsAny, Elapsed;
      if !pdos[i].enabled || (pdos[i].transmissionType != 254 && pdos[i].transmissionType != 255) {
        return;
      }
      var inhibitUs := pdos[i].inhibit100us * 100;
      var elapsed := Elapsed(now, lastSendUs[i]);
      if MapsAny(pdos[i], dirty) {
        asyncPending := asyncPending[i := true];
      }
      var timerTrigger := pdos[i].eventTimerMs > 0 && elapsed >= pdos[i].eventTimerMs * 1000;
      if (asyncPending[i] || timerTrigger) && elapsed >= inhibitUs {
        var frame := BuildPdoFrame(pdos[i].cobId, pdos[i].mappings, od);
        if frame.Some? {
          var verdict := transport.Transmit(EventTpdo(i), frame.value, now);
          if verdict.Accepted? {
            lastSendUs := lastSendUs[i := now];
            asyncPending := asyncPending[i := false];
          }
        }
      }
    }
  }

  // ---- Every run of the engine ----

  /** What the node may do to the engine. A poll carries the dictionary it samples and the link it sends on. */
  datatype Op =
    | Notify(addr: Addr)
    | LatchSlot(slot: nat)
    | LatchDirty(dirty: seq<Addr>)
    | Discard
    | ResetAll
    | Pulse
    | Poll(od: Od, at: U64, dirty: seq<Addr>, link: Link)
    | Reload(configs: seq<TpdoConfig>)

  function Step(t: Tpdo, op: Op): (t': Tpdo)
    requires TpdoOk(t)
    ensures TpdoOk(t') && |t'.pdos| == |t.pdos|
  {
    match op
    case Notify(a) => Notified(t, a)
    case LatchSlot(i) => SlotLatched(t, i)
    case LatchDirty(dirty) => SyncLatched(t, dirty)
    case Discard => EventsDiscarded(t)
    case ResetAll => CommunicationReset(t)
    case Pulse => Synced(t)
    case Poll(od, at, dirty, link) => Polled(t, link, |t.pdos|, od, at, dirty).0
    case Reload(configs) => if |configs| == |t.pdos| then t.(pdos := configs) else t
  }

  function Run(t: Tpdo, ops: seq<Op>): (t': Tpdo)
    requires TpdoOk(t)
    ensures TpdoOk(t') && |t'.pdos| == |t.pdos|
  {
    if ops == [] then t else Step(Run(t, ops[..|ops| - 1]), ops[|ops| - 1])
  }

  lemma RunPrefix(t: Tpdo, ops: seq<Op>, k: nat)
    requires TpdoOk(t) && k < |ops|
    ensures Run(t, ops[..k + 1]) == Step(Run(t, ops[..k]), ops[k])
  {
    assert ops[..k + 1][..k] == ops[..k];
  }

  lemma RunNothing(t: Tpdo, ops: seq<Op>)
    requires TpdoOk(t)
    ensures Run(t, ops[..0]) == t
  {
  }

  // ---- Event-driven TPDOs: no trigger lost, inhibit time respected ----

  predicate Watches(c: TpdoConfig, changed: seq<Addr>) {
    c.enabled && EventDriven(c) && MapsAny(c, changed)
  }

  /** The operation reports a change to an object that event-driven TPDO `i` maps. */
  predicate Raises(t: Tpdo, op: Op, i: nat)
    requires TpdoOk(t) && i < |t.pdos|
  {
    match op
    case Notify(a) => Watches(t.pdos[i], [a])
    case LatchSlot(j) => j == i && t.pdos[i].enabled && EventDriven(t.pdos[i])
    case Poll(_, _, dirty, _) => Watches(t.pdos[i], dirty)
    case _ => false
  }

  /** The link when a poll reaches slot `i`. */
  function LinkAt(t: Tpdo, op: Op, i: nat): Link
    requires TpdoOk(t) && i <= |t.pdos| && op.Poll?
  {
    Polled(t, op.link, i, op.od, op.at, op.dirty).1
  }

  /** The operation hands a frame of TPDO `i` to the transport, which accepts it. */
  predicate Sends(t: Tpdo, op: Op, i: nat)
    requires TpdoOk(t) && i < |t.pdos|
  {
    op.Poll? && t.pdos[i].enabled && EventDriven(t.pdos[i])
    && (t.asyncPending[i] || MapsAny(t.pdos[i], op.dirty) || TimerFires(t.pdos[i], Elapsed(op.at, t.lastSendUs[i])))
    && Elapsed(op.at, t.lastSendUs[i]) >= t.pdos[i].inhibit100us * 100
    && SlotFrame(t, i, op.od).Some?
    && NextVerdict(LinkAt(t, op, i)).Accepted?
  }

  predicate Drops(op: Op) {
    op.Discard? || op.ResetAll?
  }

  lemma SlotPolledEffect(t: Tpdo, l: Link, j: nat, od: Od, now: U64, dirty: seq<Addr>, i: nat)
    requires TpdoOk(t) && j < |t.pdos| && i < |t.pdos|
    ensures var t' := SlotPolled(t, l, j, od, now, dirty).0;
            t'.pdos == t.pdos && t'.syncCounter == t.syncCounter && t'.syncPending == t.syncPending
            && (i != j ==> t'.asyncPending[i] == t.asyncPending[i] && t'.lastSendUs[i] == t.lastSendUs[i])
  {
    hide FrameFor, MapsAny, Elapsed;
  }

  /** Before a poll reaches slot `i`, that slot is untouched. */
  lemma {:induction false} PolledBefore(t: Tpdo, l: Link, k: nat, od: Od, now: U64, dirty: seq<Addr>, i: nat)
    requires TpdoOk(t) && k <= i < |t.pdos|
    ensures var t' := Polled(t, l, k, od, now, dirty).0;
            t'.pdos == t.pdos && t'.asyncPending[i] == t.asyncPending[i] && t'.lastSendUs[i] == t.lastSendUs[i]
  {
    hide SlotPolled;
    if k > 0 {
      PolledBefore(t, l, k - 1, od, now, dirty, i);
      var (t1, l1) := Polled(t, l, k - 1, od, now, dirty);
      SlotPolledEffect(t1, l1, k - 1, od, now, dirty, i);
    }
  }

  /** A poll up to slot `k` beyond `i` leaves of slot `i` what its own turn left. */
  lemma {:induction false} PolledAfter(t: Tpdo, op: Op, k: nat, i: nat)
    requires TpdoOk(t) && op.Poll? && i < k <= |t.pdos|
    ensures var t' := Polled(t, op.link, k, op.od, op.at, op.dirty).0;
            t'.asyncPending[i] == ((t.asyncPending[i] || Raises(t, op, i)) && !Sends(t, op, i))
            && t'.lastSendUs[i] == if Sends(t, op, i) then op.at else t.lastSendUs[i]
  {
    var (t1, l1) := Polled(t, op.link, k - 1, op.od, op.at, op.dirty);
    if k == i + 1 {
      PolledBefore(t, op.link, i, op.od, op.at, op.dirty, i);
      OwnTurn(t, op, t1, i);
    } else {
      hide SlotPolled, Sends, Raises;
      PolledAfter(t, op, k - 1, i);
      SlotPolledEffect(t1, l1, k - 1, op.od, op.at, op.dirty, i);
    }
  }

  lemma OwnTurn(t: Tpdo, op: Op, t1: Tpdo, i: nat)
    requires TpdoOk(t) && TpdoOk(t1) && op.Poll? && i < |t.pdos|
    requires t1.pdos == t.pdos && t1.asyncPending[i] == t.asyncPending[i] && t1.lastSendUs[i] == t.lastSendUs[i]
    ensures var t' := SlotPolled(t1, LinkAt(t, op, i), i, op.od, op.at, op.dirty).0;
            t'.asyncPending[i] == ((t.asyncPending[i] || Raises(t, op, i)) && !Sends(t, op, i))
            && t'.lastSendUs[i] == if Sends(t, op, i) then op.at else t.lastSendUs[i]
  {
    hide FrameFor, MapsAny, Elapsed, Polled;
  }

  /** Each operation's effect on the latch and the send time of one slot. */
  lemma StepEffect(t: Tpdo, op: Op, i: nat)
    requires TpdoOk(t) && i < |t.pdos|
    ensures var t' := Step(t, op);
            t'.asyncPending[i] == ((t.asyncPending[i] || Raises(t, op, i)) && !Sends(t, op, i) && !Drops(op))
            && t'.lastSendUs[i] == if Sends(t, op, i) then op.at else t.lastSendUs[i]
  {
    hide MapsAny, FrameFor, Elapsed, Polled;
    if op.Poll? {
      PolledAfter(t, op, |t.pdos|, i);
    }
  }

  // ---- Latches along a run ----

  /** A latch set by some raise that no clearing has followed. */
  predicate Owing(raised: seq<bool>, cleared: seq<bool>, n: nat, j: nat)
    requires j < n <= |raised| == |cleared|
  {
    raised[j] && forall k :: j <= k < n ==> !cleared[k]
  }

  /** A latch that each step raises and then clears is set exactly while some raise is still owed. */
  lemma {:induction false} LatchHistory(latch: seq<bool>, raised: seq<bool>, cleared: seq<bool>, n: nat)
    requires n <= |raised| == |cleared| && |latch| == |raised| + 1 && !latch[0]
    requires forall k :: 0 <= k < |raised| ==> latch[k + 1] == ((latch[k] || raised[k]) && !cleared[k])
    ensures latch[n] <==> exists j :: 0 <= j < n && Owing(raised, cleared, n, j)
  {
    if n > 0 {
      var m := n - 1;
      LatchHistory(latch, raised, cleared, m);
      assert latch[m + 1] == ((latch[m] || raised[m]) && !cleared[m]);
      forall j | 0 <= j < m
        ensures Owing(raised, cleared, n, j) <==> Owing(raised, cleared, m, j) && !cleared[m]
      {
      }
      assert Owing(raised, cleared, n, m) <==> raised[m] && !cleared[m];
      if latch[m] && !cleared[m] {
        var j :| 0 <= j < m && Owing(raised, cleared, m, j);
        assert Owing(raised, cleared, n, j);
      }
    }
  }

  predicate RaisesAt(t: Tpdo, ops: seq<Op>, i: nat, k: nat)
    requires TpdoOk(t) && i < |t.pdos| && k < |ops|
  {
    Raises(Run(t, ops[..k]), ops[k], i)
  }

  predicate SendsAt(t: Tpdo, ops: seq<Op>, i: nat, k: nat)
    requires TpdoOk(t) && i < |t.pdos| && k < |ops|
  {
    Sends(Run(t, ops[..k]), ops[k], i)
  }

  /** Operation `j` raised a trigger of slot `i` that nothing has satisfied or dropped since. */
  predicate OwedSince(t: Tpdo, ops: seq<Op>, i: nat, j: nat)
    requires TpdoOk(t) && i < |t.pdos| && j < |ops|
  {
    RaisesAt(t, ops, i, j) && forall k :: j <= k < |ops| ==> !SendsAt(t, ops, i, k) && !Drops(ops[k])
  }

  lemma LatchAt(t: Tpdo, ops: seq<Op>, i: nat, k: nat)
    requires TpdoOk(t) && i < |t.pdos| && k < |ops|
    ensures Run(t, ops[..k + 1]).asyncPending[i]
         == ((Run(t, ops[..k]).asyncPending[i] || RaisesAt(t, ops, i, k)) && !(SendsAt(t, ops, i, k) || Drops(ops[k])))
    ensures Run(t, ops[..k + 1]).syncPending[i]
         == ((Run(t, ops[..k]).syncPending[i] || RaisesAcyclicAt(t, ops, i, k)) && !(AnswersAt(t, ops, i, k) || Drops(ops[k])))
  {
    hide Run, Step, Raises, Sends, RaisesAcyclic, Answers, Drops;
    RunPrefix(t, ops, k);
    StepEffect(Run(t, ops[..k]), ops[k], i);
    AcyclicStep(Run(t, ops[..k]), ops[k], i);
  }

  /**
   No trigger is lost: along every run the latch of an event-driven TPDO is set
   exactly when some reported change has neither been followed by an accepted
   frame nor been dropped by leaving Operational or a reset.
   */
  lemma NoTriggerLost(t: Tpdo, ops: seq<Op>, i: nat)
    requires TpdoOk(t) && i < |t.pdos| && !t.asyncPending[i]
    ensures Run(t, ops).asyncPending[i] <==> exists j :: 0 <= j < |ops| && OwedSince(t, ops, i, j)
  {
    hide Run, RaisesAt, SendsAt, Drops;
    var n := |ops|;
    var latch := seq(n + 1, k requires 0 <= k <= n => Run(t, ops[..k]).asyncPending[i]);
    var raised := seq(n, k requires 0 <= k < n => RaisesAt(t, ops, i, k));
    var cleared := seq(n, k requires 0 <= k < n => SendsAt(t, ops, i, k) || Drops(ops[k]));
    forall k | 0 <= k < n ensures latch[k + 1] == ((latch[k] || raised[k]) && !cleared[k]) {
      LatchAt(t, ops, i, k);
    }
    RunNothing(t, ops);
    LatchHistory(latch, raised, cleared, n);
    forall j | 0 <= j < n ensures OwedSince(t, ops, i, j) <==> Owing(raised, cleared, n, j) {
      if OwedSince(t, ops, i, j) {
        forall k | j <= k < n ensures !cleared[k] {
          assert !SendsAt(t, ops, i, k) && !Drops(ops[k]);
        }
      }
      if Owing(raised, cleared, n, j) {
        forall k | j <= k < n ensures !SendsAt(t, ops, i, k) && !Drops(ops[k]) {
          assert !cleared[k];
        }
      }
    }
    assert ops[..n] == ops;
  }

  // ---- Synchronous acyclic TPDOs: sent on the first pulse after a change ----

  predicate WatchesAcyclic(c: TpdoConfig, changed: seq<Addr>) {
    c.enabled && c.transmissionType == 0 && MapsAny(c, changed)
  }

  /** The operation reports a change to an object that acyclic TPDO `i` maps. */
  predicate RaisesAcyclic(t: Tpdo, op: Op, i: nat)
    requires TpdoOk(t) && i < |t.pdos|
  {
    match op
    case Notify(a) => WatchesAcyclic(t.pdos[i], [a])
    case LatchSlot(j) => j == i && t.pdos[i].enabled && t.pdos[i].transmissionType == 0
    case LatchDirty(dirty) => WatchesAcyclic(t.pdos[i], dirty)
    case _ => false
  }

  /** A pulse that acyclic TPDO `i` answers. */
  predicate Answers(t: Tpdo, op: Op, i: nat)
    requires TpdoOk(t) && i < |t.pdos|
  {
    op.Pulse? && t.pdos[i].enabled && t.pdos[i].transmissionType == 0
  }

  lemma AcyclicStep(t: Tpdo, op: Op, i: nat)
    requires TpdoOk(t) && i < |t.pdos|
    ensures Step(t, op).syncPending[i] == ((t.syncPending[i] || RaisesAcyclic(t, op, i)) && !Answers(t, op, i) && !Drops(op))
  {
    hide Polled, MapsAny;
    if op.Poll? {
      PolledKeepsSync(t, op.link, |t.pdos|, op.od, op.at, op.dirty);
    }
  }

  predicate RaisesAcyclicAt(t: Tpdo, ops: seq<Op>, i: nat, k: nat)
    requires TpdoOk(t) && i < |t.pdos| && k < |ops|
  {
    RaisesAcyclic(Run(t, ops[..k]), ops[k], i)
  }

  predicate AnswersAt(t: Tpdo, ops: seq<Op>, i: nat, k: nat)
    requires TpdoOk(t) && i < |t.pdos| && k < |ops|
  {
    Answers(Run(t, ops[..k]), ops[k], i)
  }

  /** Operation `j` reported a change that no pulse has answered and nothing has dropped since. */
  predicate ChangedSince(t: Tpdo, ops: seq<Op>, i: nat, j: nat)
    requires TpdoOk(t) && i < |t.pdos| && j < |ops|
  {
    RaisesAcyclicAt(t, ops, i, j) && forall k :: j <= k < |ops| ==> !AnswersAt(t, ops, i, k) && !Drops(ops[k])
  }

  /**
   The synchronous counterpart: along every run an enabled acyclic TPDO is due on
   the next pulse exactly when some change to an object it maps was reported
   since the last pulse it answered, discard or reset. So one change is sent on
   one pulse, and a pulse without a change sends nothing.
   */
  lemma AcyclicIsExact(t: Tpdo, ops: seq<Op>, i: nat)
    requires TpdoOk(t) && i < |t.pdos| && !t.syncPending[i]
    ensures Run(t, ops).syncPending[i] <==> exists j :: 0 <= j < |ops| && ChangedSince(t, ops, i, j)
    ensures Run(t, ops).pdos[i].enabled && Run(t, ops).pdos[i].transmissionType == 0 ==>
              (DueOnSync(Run(t, ops), i) <==> exists j :: 0 <= j < |ops| && ChangedSince(t, ops, i, j))
  {
    hide Run, RaisesAcyclicAt, AnswersAt, Drops;
    var n := |ops|;
    var latch := seq(n + 1, k requires 0 <= k <= n => Run(t, ops[..k]).syncPending[i]);
    var raised := seq(n, k requires 0 <= k < n => RaisesAcyclicAt(t, ops, i, k));
    var cleared := seq(n, k requires 0 <= k < n => AnswersAt(t, ops, i, k) || Drops(ops[k]));
    forall k | 0 <= k < n ensures latch[k + 1] == ((latch[k] || raised[k]) && !cleared[k]) {
      LatchAt(t, ops, i, k);
    }
    RunNothing(t, ops);
    LatchHistory(latch, raised, cleared, n);
    forall j | 0 <= j < n ensures ChangedSince(t, ops, i, j) <==> Owing(raised, cleared, n, j) {
      if ChangedSince(t, ops, i, j) {
        forall k | j <= k < n ensures !cleared[k] {
          assert !AnswersAt(t, ops, i, k) && !Drops(ops[k]);
        }
      }
      if Owing(raised, cleared, n, j) {
        forall k | j <= k < n ensures !AnswersAt(t, ops, i, k) && !Drops(ops[k]) {
          assert !cleared[k];
        }
      }
    }
    assert ops[..n] == ops;
  }

  /** Two pulses with no change reported between them: the second sends nothing. */
  lemma OneChangeOnePulse(t: Tpdo, i: nat)
    requires TpdoOk(t) && i < |t.pdos| && t.pdos[i].enabled && t.pdos[i].transmissionType == 0
    ensures !DueOnSync(Step(t, Op.Pulse), i)
  {
    AcyclicStep(t, Op.Pulse, i);
  }

  /** A send carries the frame of the dictionary sampled by that poll, so it covers every change reported before. */
  lemma SendsCurrentImage(t: Tpdo, op: Op, i: nat)
    requires TpdoOk(t) && i < |t.pdos| && Sends(t, op, i)
    ensures LinkAt(t, op, i + 1)
         == LinkAt(t, op, i).(tried := LinkAt(t, op, i).tried + 1,
                              hist := LinkAt(t, op, i).hist
                                      + [Offer(EventTpdo(i), SlotFrame(t, i, op.od).value, Accepted, op.at)])
  {
    hide FrameFor, MapsAny, Elapsed;
    PolledBefore(t, op.link, i, op.od, op.at, op.dirty, i);
  }

  /** An enabled TPDO of type 254 or 255 has a trigger: a change still owed, a change in this poll, or its event timer. */
  predicate Triggered(t: Tpdo, op: Op, i: nat)
    requires TpdoOk(t) && i < |t.pdos| && op.Poll?
  {
    var (c, since) := (t.pdos[i], Elapsed(op.at, t.lastSendUs[i]));
    c.enabled && (c.transmissionType == 254 || c.transmissionType == 255)
    && (t.asyncPending[i] || MapsAny(c, op.dirty) || (c.eventTimerMs != 0 && since >= 1000 * c.eventTimerMs))
    && since >= 100 * c.inhibit100us
  }

  /**
   A poll offers the frame of a slot exactly when the slot has a trigger, its
   inhibit time has passed and the frame can be built; a send is an offer the
   transport accepts.
   */
  lemma PollDuty(t: Tpdo, op: Op, i: nat)
    requires TpdoOk(t) && i < |t.pdos| && op.Poll?
    ensures LinkAt(t, op, i + 1)
         == if Triggered(t, op, i) && SlotFrame(t, i, op.od).Some?
            then Offered(LinkAt(t, op, i), EventTpdo(i), SlotFrame(t, i, op.od).value, op.at) else LinkAt(t, op, i)
    ensures Sends(t, op, i) <==>
              Triggered(t, op, i) && SlotFrame(t, i, op.od).Some? && NextVerdict(LinkAt(t, op, i)).Accepted?
  {
    hide FrameFor, MapsAny, Elapsed;
    PolledBefore(t, op.link, i, op.od, op.at, op.dirty, i);
  }

  lemma {:induction false} LastSendKept(t: Tpdo, ops: seq<Op>, i: nat, j: nat, n: nat)
    requires TpdoOk(t) && i < |t.pdos| && j < n <= |ops|
    requires SendsAt(t, ops, i, j) && forall k :: j < k < n ==> !SendsAt(t, ops, i, k)
    ensures Run(t, ops[..n]).lastSendUs[i] == ops[j].at
  {
    hide Step, Sends, Run, Raises, Drops;
    RunPrefix(t, ops, n - 1);
    StepEffect(Run(t, ops[..n - 1]), ops[n - 1], i);
    if j < n - 1 {
      LastSendKept(t, ops, i, j, n - 1);
      assert !SendsAt(t, ops, i, n - 1);
    }
  }

  /** Consecutive accepted sends of one TPDO are at least the inhibit time in force apart. */
  lemma InhibitTimeRespected(t: Tpdo, ops: seq<Op>, i: nat, j: nat, k: nat)
    requires TpdoOk(t) && i < |t.pdos| && j < k < |ops|
    requires SendsAt(t, ops, i, j) && SendsAt(t, ops, i, k)
    requires forall m :: j < m < k ==> !SendsAt(t, ops, i, m)
    ensures Elapsed(ops[k].at, ops[j].at) >= Run(t, ops[..k]).pdos[i].inhibit100us * 100
  {
    hide Run, Sends;
    LastSendKept(t, ops, i, j, k);
    SendWaitsInhibit(Run(t, ops[..k]), ops[k], i);
  }

  lemma SendWaitsInhibit(t: Tpdo, op: Op, i: nat)
    requires TpdoOk(t) && i < |t.pdos| && Sends(t, op, i)
    ensures Elapsed(op.at, t.lastSendUs[i]) >= t.pdos[i].inhibit100us * 100
  {
    hide Elapsed, FrameFor, Polled;
  }

  // ---- Synchronous cyclic TPDOs: exactly every n-th pulse ----

  function Pulses(ops: seq<Op>): nat {
    if ops == [] then 0 else Pulses(ops[..|ops| - 1]) + if ops[|ops| - 1].Pulse? then 1 else 0
  }

  /** After `k` operations slot `i` is an enabled TPDO of type `n`, and the next one is no reset. */
  predicate SteadyAt(t: Tpdo, ops: seq<Op>, i: nat, n: nat, k: nat)
    requires TpdoOk(t) && i < |t.pdos| && k <= |ops|
  {
    Run(t, ops[..k]).pdos[i].enabled && Run(t, ops[..k]).pdos[i].transmissionType == n
    && (k < |ops| ==> !ops[k].ResetAll?)
  }

  lemma {:induction false} PolledKeepsSync(t: Tpdo, l: Link, k: nat, od: Od, now: U64, dirty: seq<Addr>)
    requires TpdoOk(t) && k <= |t.pdos|
    ensures Polled(t, l, k, od, now, dirty).0.syncCounter == t.syncCounter
    ensures Polled(t, l, k, od, now, dirty).0.syncPending == t.syncPending
  {
    hide SlotPolled;
    if k > 0 {
      PolledKeepsSync(t, l, k - 1, od, now, dirty);
      var (t1, l1) := Polled(t, l, k - 1, od, now, dirty);
      SlotPolledEffect(t1, l1, k - 1, od, now, dirty, k - 1);
    }
  }

  lemma StepCounter(t: Tpdo, op: Op, i: nat)
    requires TpdoOk(t) && i < |t.pdos| && !op.ResetAll?
    ensures Step(t, op).syncCounter[i] == if op.Pulse? then NextCounter(t.pdos[i], t.syncCounter[i]) else t.syncCounter[i]
  {
    hide Polled, MapsAny;
    if op.Poll? {
      PolledKeepsSync(t, op.link, |t.pdos|, op.od, op.at, op.dirty);
    }
  }

  lemma NextMod(p: nat, n: nat)
    requires n > 0
    ensures (p + 1) % n == if p % n + 1 == n then 0 else p % n + 1
  {
    Sync.DivMod(p, n);
    NextRemainder(p, n, p / n, p % n);
  }

  lemma NextRemainder(p: nat, n: nat, q: nat, r: nat)
    requires n > 0 && r < n && p == q * n + r
    ensures (p + 1) % n == if r + 1 == n then 0 else r + 1
  {
    if r + 1 == n {
      Sync.Distribute(q + 1, 1, n);
      Sync.ModUnique(p + 1, n, q + 1, 0);
    } else {
      Sync.ModUnique(p + 1, n, q, r + 1);
    }
  }

  /**
   From a fresh counter, a cyclic TPDO of type `n` is due exactly on every n-th
   pulse, whatever else happens to the engine.
   */
  lemma {:induction false} DivisorIsExact(t: Tpdo, ops: seq<Op>, i: nat, n: nat, k: nat)
    requires TpdoOk(t) && i < |t.pdos| && t.syncCounter[i] == 0 && 1 <= n <= 240 && k <= |ops|
    requires forall j :: 0 <= j <= |ops| ==> SteadyAt(t, ops, i, n, j)
    ensures Run(t, ops[..k]).syncCounter[i] == Pulses(ops[..k]) % n
    ensures DueOnSync(Run(t, ops[..k]), i) <==> (Pulses(ops[..k]) + 1) % n == 0
  {
    assert SteadyAt(t, ops, i, n, k);
    NextMod(Pulses(ops[..k]), n);
    if k > 0 {
      assert SteadyAt(t, ops, i, n, k - 1);
      DivisorIsExact(t, ops, i, n, k - 1);
      RunPrefix(t, ops, k - 1);
      StepCounter(Run(t, ops[..k - 1]), ops[k - 1], i);
      NextMod(Pulses(ops[..k - 1]), n);
      assert ops[..k][..k - 1] == ops[..k - 1];
      hide Step, Run, SteadyAt;
    } else {
      Sync.ModUnique(0, n, 0, 0);
    }
  }
}
