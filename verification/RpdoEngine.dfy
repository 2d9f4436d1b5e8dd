/**
 The RPDO engine: exact COB-ID match, length check, immediate or synchronous
 commit, and deadline monitoring (the RPDO event timer of CiA 301).
 */
module RpdoEngine {
  import opened Types
  import opened PdoBits
  import opened ObjectDictionary
  import opened PdoWire

  datatype RpdoConfig = RpdoConfig(
    odNumber: nat, cobId: nat, transmissionType: nat, deadlineMs: nat, mappings: seq<Mapping>, enabled: bool)

  datatype Rpdo = Rpdo(
    pdos: seq<RpdoConfig>, pending: seq<Option<DataFrame>>, lastRxUs: seq<U64>, armed: seq<bool>, expired: seq<bool>,
    lengthErrors: nat)

  predicate RpdoOk(r: Rpdo) {
    |r.pending| == |r.pdos| && |r.lastRxUs| == |r.pdos| && |r.armed| == |r.pdos| && |r.expired| == |r.pdos|
  }

  function NewRpdo(pdos: seq<RpdoConfig>): Rpdo {
    Rpdo(pdos, seq(|pdos|, _ => None), seq(|pdos|, _ => 0), seq(|pdos|, _ => false), seq(|pdos|, _ => false), 0)
  }

  predicate Synchronous(c: RpdoConfig) {
    c.transmissionType <= 240
  }

  /** Payload length a mapping list implies; none beyond the PDO budget. */
  function PayloadLen(ms: seq<Mapping>): Option<nat> {
    if Total(ms) <= PDO_MAX_PAYLOAD_BITS then Some(BytesForBits(Total(ms))) else None
  }

  predicate Matches(c: RpdoConfig, f: CanFrame) {
    c.enabled && f.id == c.cobId
  }

  /** The first enabled slot on the frame's COB-ID. */
  function SlotOf(pdos: seq<RpdoConfig>, f: CanFrame): (s: Option<nat>)
    ensures s.Some? ==> s.value < |pdos| && Matches(pdos[s.value], f) && forall j :: 0 <= j < s.value ==> !Matches(pdos[j], f)
    ensures s.None? ==> forall j :: 0 <= j < |pdos| ==> !Matches(pdos[j], f)
  {
    FirstFrom(pdos, f, 0)
  }

  function FirstFrom(pdos: seq<RpdoConfig>, f: CanFrame, k: nat): (s: Option<nat>)
    requires k <= |pdos| && forall j :: 0 <= j < k ==> !Matches(pdos[j], f)
    ensures s.Some? ==> s.value < |pdos| && Matches(pdos[s.value], f) && forall j :: 0 <= j < s.value ==> !Matches(pdos[j], f)
    ensures s.None? ==> forall j :: 0 <= j < |pdos| ==> !Matches(pdos[j], f)
    decreases |pdos| - k
  {
    if k == |pdos| then None else if Matches(pdos[k], f) then Some(k) else FirstFrom(pdos, f, k + 1)
  }

  predicate LongEnough(c: RpdoConfig, f: CanFrame) {
    PayloadLen(c.mappings).Some? && |f.data| >= PayloadLen(c.mappings).value
  }

  /** The frame is a length-valid reception of slot `s`. */
  predicate Hears(pdos: seq<RpdoConfig>, f: CanFrame, s: nat) {
    SlotOf(pdos, f) == Some(s) && LongEnough(pdos[s], f)
  }

  // ---- Operations ----

  /** A length-valid reception restarts the slot's deadline. */
  function Stamped(r: Rpdo, s: nat, now: U64): (r': Rpdo)
    requires RpdoOk(r) && s < |r.pdos|
    ensures RpdoOk(r')
  {
    r.(lastRxUs := r.lastRxUs[s := now], armed := r.armed[s := true], expired := r.expired[s := false])
  }

  function Processed(r: Rpdo, f: DataFrame, now: U64, capacity: nat, sink: Sink): (res: (Rpdo, Sink))
    requires RpdoOk(r)
    ensures RpdoOk(res.0) && res.0.pdos == r.pdos
    ensures |sink.events| <= capacity ==> |res.1.events| <= capacity
  {
    match SlotOf(r.pdos, f)
    case None => (r, sink)
    case Some(s) =>
      if !LongEnough(r.pdos[s], f) then (r.(lengthErrors := SatAdd(r.lengthErrors, 1)), sink)
      else
        var r1 := Stamped(r, s, now);
        if Synchronous(r.pdos[s]) then (r1.(pending := r1.pending[s := Some(f)]), sink)
        else (r1, ApplyPayload(r.pdos[s].mappings, f.data, capacity, sink))
  }

  /** Buffered frames of the first `k` slots applied in slot order. */
  function Committed(r: Rpdo, k: nat, capacity: nat, sink: Sink): (s': Sink)
    requires RpdoOk(r) && k <= |r.pdos|
    ensures |sink.events| <= capacity ==> |s'.events| <= capacity
  {
    if k == 0 then sink
    else
      var before := Committed(r, k - 1, capacity, sink);
      match r.pending[k - 1]
      case None => before
      case Some(f) => ApplyPayload(r.pdos[k - 1].mappings, f.data, capacity, before)
  }

  function PendingDiscarded(r: Rpdo): Rpdo {
    r.(pending := seq(|r.pdos|, _ => None))
  }

  function MonitoringReset(r: Rpdo): Rpdo {
    r.(armed := seq(|r.pdos|, _ => false), expired := seq(|r.pdos|, _ => false))
  }

  predicate Monitored(c: RpdoConfig) {
    c.enabled && c.deadlineMs > 0
  }

  /** Slot `s` falls silent for longer than its deadline, unreported so far. */
  predicate NewlyExpired(r: Rpdo, s: nat, now: U64)
    requires RpdoOk(r) && s < |r.pdos|
  {
    Monitored(r.pdos[s]) && r.armed[s] && !r.expired[s] && Elapsed(now, r.lastRxUs[s]) > r.pdos[s].deadlineMs * 1000
  }

  function DeadlinesChecked(r: Rpdo, now: U64): (r': Rpdo)
    requires RpdoOk(r)
    ensures RpdoOk(r')
  {
    r.(expired := seq(|r.pdos|, s requires 0 <= s < |r.pdos| => r.expired[s] || NewlyExpired(r, s, now)))
  }

  /** CANopen number of the PDO in a slot. */
  function NumberOf(c: RpdoConfig, slot: nat): nat {
    if c.odNumber == 0 then slot + 1 else c.odNumber
  }

  predicate Reportable(number: nat) {
    1 <= number <= 512
  }

  /** Numbers of the newly expired slots among the first `k`. */
  function Reports(r: Rpdo, now: U64, k: nat): seq<nat>
    requires RpdoOk(r) && k <= |r.pdos|
  {
    if k == 0 then []
    else
      var n := NumberOf(r.pdos[k - 1], k - 1);
      Reports(r, now, k - 1) + if NewlyExpired(r, k - 1, now) && Reportable(n) then [n] else []
  }

  /** Level query: a monitored slot without fresh data. */
  predicate Stale(r: Rpdo, s: nat)
    requires RpdoOk(r)
  {
    s < |r.pdos| && Monitored(r.pdos[s]) && (!r.armed[s] || r.expired[s])
  }

  class Engine {
    var pdos: seq<RpdoConfig>
    var pending: seq<Option<DataFrame>>
    var lastRxUs: seq<U64>
    var armed: seq<bool>
    var expired: seq<bool>
    var lengthErrors: nat

    ghost function View(): Rpdo
      reads this
    {
      Rpdo(pdos, pending, lastRxUs, armed, expired, lengthErrors)
    }

    ghost predicate Valid()
      reads this
    {
      RpdoOk(View())
    }

    constructor (pdos: seq<RpdoConfig>)
      ensures Valid() && View() == NewRpdo(pdos)
    {
      this.pdos := pdos;
      pending := seq(|pdos|, _ => None);
      lastRxUs := seq(|pdos|, _ => 0);
      armed := seq(|pdos|, _ => false);
      expired := seq(|pdos|, _ => false);
      lengthErrors := 0;
    }

    method Reconfigure(configs: seq<RpdoConfig>)
      requires Valid() && |configs| == |pdos|
      modifies this`pdos
      ensures Valid() && View() == old(View()).(pdos := configs)
    {
      pdos := configs;
    }

    method Position(f: CanFrame) returns (s: Option<nat>)
      ensures s == SlotOf(pdos, f)
    {
      for k := 0 to |pdos|
        invariant forall j :: 0 <= j < k ==> !Matches(pdos[j], f)
      {
        if Matches(pdos[k], f) {
          return Some(k);
        }
      }
      s := None;
    }

    /** Adds up the mapped bits. */
    method MappedPayloadLen(ms: seq<Mapping>) returns (n: Option<nat>)
      ensures n == PayloadLen(ms)
    {
      var totalBits := 0;
      for k := 0 to |ms|
        invariant totalBits == Offset(ms, k)
      {
        OffsetStep(ms, k);
        totalBits := totalBits + ms[k].bits;
      }
      assert ms[..|ms|] == ms;
      n := if totalBits <= PDO_MAX_PAYLOAD_BITS then Some(BytesForBits(totalBits)) else None;
    }

    method Process(f: DataFrame, now: U64, capacity: nat, sink: Sink) returns (ours: bool, sink': Sink)
      requires Valid() && |sink.events| <= capacity
      modifies this
      ensures Valid() && (View(), sink') == Processed(old(View()), f, now, capacity, sink)
      ensures ours == SlotOf(old(pdos), f).Some?
    {
      hide ApplyPayload;
      sink' := sink;
      var found := Position(f);
      if found.None? {
        return false, sink';
      }
      var slot := found.value;
      var len := MappedPayloadLen(pdos[slot].mappings);
      if len.None? || |f.data| < len.value {
        lengthErrors := SatAdd(lengthErrors, 1);
        return true, sink';
      }
      lastRxUs := lastRxUs[slot := now];
      armed := armed[slot := true];
      expired := expired[slot := false];
      if pdos[slot].transmissionType <= 240 {
        pending := pending[slot := Some(f)];
      } else {
        sink' := ApplyMapped(pdos[slot].mappings, f.data, capacity, sink);
      }
      ours := true;
    }

    method OnSync(capacity: nat, sink: Sink) returns (sink': Sink)
      requires Valid() && |sink.events| <= capacity
      modifies this
      ensures Valid() && View() == PendingDiscarded(old(View()))
      ensures sink' == Committed(old(View()), |pdos|, capacity, sink) && |sink'.events| <= capacity
    {
      hide ApplyPayload;
      ghost var r := View();
      sink' := sink;
      for slot := 0 to |pdos|
        invariant View() == r.(pending := pending) && |pending| == |pdos|
        invariant forall j :: 0 <= j < |pdos| ==> pending[j] == if j < slot then None else r.pending[j]
        invariant sink' == Committed(r, slot, capacity, sink) && |sink'.events| <= capacity
      {
        if pending[slot].Some? {
          var f := pending[slot].value;
          sink' := ApplyMapped(pdos[slot].mappings, f.data, capacity, sink');
          pending := pending[slot := None];
        }
      }
    }

    method DiscardPending()
      requires Valid()
      modifies this
      ensures Valid() && View() == PendingDiscarded(old(View()))
    {
      pending := seq(|pdos|, _ => None);
    }

    method CheckDeadlines(now: U64) returns (reports: seq<nat>)
      requires Valid()
      modifies this
      ensures Valid() && View() == DeadlinesChecked(old(View()), now)
      ensures reports == Reports(old(View()), now, |pdos|)
    {
      hide Elapsed;
      ghost var r := View();
      reports := [];
      for slot := 0 to |pdos|
        invariant View() == r.(expired := expired) && |expired| == |pdos|
        invariant forall j :: 0 <= j < |pdos| ==> expired[j] == (r.expired[j] || (j < slot && NewlyExpired(r, j, now)))
        invariant reports == Reports(r, now, slot)
      {
        if pdos[slot].enabled && pdos[slot].deadlineMs != 0 && armed[slot] && !expired[slot]
           && Elapsed(now, lastRxUs[slot]) > pdos[slot].deadlineMs * 1000
        {
          expired := expired[slot := true];
          if Reportable(NumberOf(pdos[slot], slot)) {
            reports := reports + [NumberOf(pdos[slot], slot)];
          }
        }
      }
    }

    method DeadlineExpired(slot: nat) returns (stale: bool)
      requires Valid()
      ensures stale == Stale(View(), slot)
    {
      if slot >= |pdos| {
        return false;
      }
      stale := pdos[slot].enabled && pdos[slot].deadlineMs > 0 && (!armed[slot] || expired[slot]);
    }

    method ResetDeadlineMonitoring()
      requires Valid()
      modifies this
      ensures Valid() && View() == MonitoringReset(old(View()))
    {
      armed := seq(|pdos|, _ => false);
      expired := seq(|pdos|, _ => false);
    }
  }

  // ---- Every run of the engine ----

  /**
   What happens to the engine; `Reload` re-reads its configuration, `Edit` is any
   change other parties make to the dictionary or the event queue.
   */
  datatype Op =
    | Receive(frame: DataFrame, at: U64)
    | SyncPulse
    | Discard
    | Check(at: U64)
    | Forget
    | Edit(sink: Sink)
    | Reload(configs: seq<RpdoConfig>)

  datatype State = State(rpdo: Rpdo, sink: Sink)

  function Step(s: State, capacity: nat, op: Op): (s': State)
    requires RpdoOk(s.rpdo)
    ensures RpdoOk(s'.rpdo) && s'.rpdo.pdos == Reconfigured(s.rpdo.pdos, op)
  {
    match op
    case Receive(f, at) => var (r, sink) := Processed(s.rpdo, f, at, capacity, s.sink); State(r, sink)
    case SyncPulse => State(PendingDiscarded(s.rpdo), Committed(s.rpdo, |s.rpdo.pdos|, capacity, s.sink))
    case Discard => s.(rpdo := PendingDiscarded(s.rpdo))
    case Check(at) => s.(rpdo := DeadlinesChecked(s.rpdo, at))
    case Forget => s.(rpdo := MonitoringReset(s.rpdo))
    case Edit(sink) => s.(sink := sink)
    case Reload(configs) => s.(rpdo := s.rpdo.(pdos := Reconfigured(s.rpdo.pdos, op)))
  }

  function Reconfigured(pdos: seq<RpdoConfig>, op: Op): (r: seq<RpdoConfig>)
    ensures |r| == |pdos|
  {
    if op.Reload? && |op.configs| == |pdos| then op.configs else pdos
  }

  /** The configuration in force after `ops`. */
  function ConfigsAfter(pdos: seq<RpdoConfig>, ops: seq<Op>): (r: seq<RpdoConfig>)
    ensures |r| == |pdos|
  {
    if ops == [] then pdos else Reconfigured(ConfigsAfter(pdos, ops[..|ops| - 1]), ops[|ops| - 1])
  }

  function Run(s: State, capacity: nat, ops: seq<Op>): (s': State)
    requires RpdoOk(s.rpdo)
    ensures RpdoOk(s'.rpdo) && s'.rpdo.pdos == ConfigsAfter(s.rpdo.pdos, ops)
  {
    if ops == [] then s else Step(Run(s, capacity, ops[..|ops| - 1]), capacity, ops[|ops| - 1])
  }

  lemma {:induction false} RunConcat(s: State, capacity: nat, a: seq<Op>, b: seq<Op>)
    requires RpdoOk(s.rpdo)
    ensures Run(s, capacity, a + b) == Run(Run(s, capacity, a), capacity, b)
  {
    hide Step;
    if b == [] {
      assert a + b == a;
    } else {
      var n := |b| - 1;
      RunConcat(s, capacity, a, b[..n]);
      assert (a + b)[..|a + b| - 1] == a + b[..n];
    }
  }

  // ---- The history of commits ----

  /** The latest length-valid frame of slot `s`, received while synchronous, since the last pulse or discard. */
  function Latest(pdos: seq<RpdoConfig>, ops: seq<Op>, s: nat): Option<DataFrame>
    requires s < |pdos|
  {
    if ops == [] then None
    else
      var front := ops[..|ops| - 1];
      var now := ConfigsAfter(pdos, front);
      match ops[|ops| - 1]
      case Receive(f, _) => if Hears(now, f, s) && Synchronous(now[s]) then Some(f) else Latest(pdos, front, s)
      case SyncPulse => None
      case Discard => None
      case _ => Latest(pdos, front, s)
  }

  /** What reaches the dictionary: a frame through the mapping then in force, or a change by another party. */
  datatype Effect = Commit(mappings: seq<Mapping>, frame: DataFrame) | Replaced(sink: Sink)

  /** The commits a pulse makes: latest frames of the first `k` slots, in slot order. */
  function Flushed(pdos: seq<RpdoConfig>, ops: seq<Op>, k: nat): seq<Effect>
    requires k <= |pdos|
  {
    if k == 0 then []
    else Flushed(pdos, ops, k - 1)
         + match Latest(pdos, ops, k - 1)
           case None => []
           case Some(f) => [Commit(ConfigsAfter(pdos, ops)[k - 1].mappings, f)]
  }

  /** Everything that must reach the dictionary along a history of receptions and pulses. */
  function Effects(pdos: seq<RpdoConfig>, ops: seq<Op>): seq<Effect> {
    if ops == [] then []
    else
      var front := ops[..|ops| - 1];
      match ops[|ops| - 1]
      case Receive(f, _) => Effects(pdos, front) + AtOnce(ConfigsAfter(pdos, front), f)
      case SyncPulse => Effects(pdos, front) + Flushed(pdos, front, |pdos|)
      case Edit(sink) => Effects(pdos, front) + [Replaced(sink)]
      case _ => Effects(pdos, front)
  }

  /** A length-valid frame of an event-driven slot takes effect at once. */
  function AtOnce(pdos: seq<RpdoConfig>, f: DataFrame): seq<Effect> {
    match SlotOf(pdos, f)
    case None => []
    case Some(s) => if LongEnough(pdos[s], f) && !Synchronous(pdos[s]) then [Commit(pdos[s].mappings, f)] else []
  }

  function Play(capacity: nat, sink: Sink, effects: seq<Effect>): Sink {
    if effects == [] then sink
    else PlayOne(capacity, Play(capacity, sink, effects[..|effects| - 1]), effects[|effects| - 1])
  }

  function PlayOne(capacity: nat, before: Sink, e: Effect): Sink {
    match e
    case Commit(ms, f) => ApplyPayload(ms, f.data, capacity, before)
    case Replaced(sink) => sink
  }

  lemma PlaySnoc(capacity: nat, sink: Sink, es: seq<Effect>, e: Effect)
    ensures Play(capacity, sink, es + [e]) == PlayOne(capacity, Play(capacity, sink, es), e)
  {
    hide PlayOne;
    assert (es + [e])[..|es|] == es;
  }

  /** A pulse applies exactly the buffered frames, in slot order. */
  lemma {:induction false} PlayFlushed(r: Rpdo, pdos: seq<RpdoConfig>, capacity: nat, sink: Sink, es: seq<Effect>,
                                       ops: seq<Op>, k: nat)
    requires RpdoOk(r) && r.pdos == ConfigsAfter(pdos, ops) && k <= |pdos|
    requires forall s :: 0 <= s < |pdos| ==> r.pending[s] == Latest(pdos, ops, s)
    ensures Play(capacity, sink, es + Flushed(pdos, ops, k)) == Committed(r, k, capacity, Play(capacity, sink, es))
  {
    hide ApplyPayload, Latest, ConfigsAfter;
    if k == 0 {
      assert es + [] == es;
    } else {
      PlayFlushed(r, pdos, capacity, sink, es, ops, k - 1);
      var before := es + Flushed(pdos, ops, k - 1);
      match Latest(pdos, ops, k - 1) {
        case None =>
          assert es + Flushed(pdos, ops, k) == before;
        case Some(f) =>
          var e := Commit(r.pdos[k - 1].mappings, f);
          assert es + Flushed(pdos, ops, k) == before + [e];
          PlaySnoc(capacity, sink, before, e);
      }
    }
  }

  /** A reception changes the dictionary exactly as `AtOnce` says. */
  lemma ReceiveRefines(s: State, capacity: nat, start: Sink, es: seq<Effect>, f: DataFrame, at: U64)
    requires RpdoOk(s.rpdo) && s.sink == Play(capacity, start, es)
    ensures Step(s, capacity, Receive(f, at)).sink == Play(capacity, start, es + AtOnce(s.rpdo.pdos, f))
  {
    hide ApplyPayload, LongEnough, Play;
    assert es + [] == es;
    match SlotOf(s.rpdo.pdos, f) {
      case None =>
      case Some(i) => PlaySnoc(capacity, start, es, Commit(s.rpdo.pdos[i].mappings, f));
    }
  }

  lemma PendingAfterReceive(r: Rpdo, f: DataFrame, at: U64, capacity: nat, sink: Sink, i: nat)
    requires RpdoOk(r) && i < |r.pdos|
    ensures Processed(r, f, at, capacity, sink).0.pending[i]
         == if Hears(r.pdos, f, i) && Synchronous(r.pdos[i]) then Some(f) else r.pending[i]
  {
    hide ApplyPayload, LongEnough;
  }

  lemma PendingIsLatestStep(s: State, capacity: nat, pdos: seq<RpdoConfig>, ops: seq<Op>, op: Op, i: nat)
    requires RpdoOk(s.rpdo) && s.rpdo.pdos == ConfigsAfter(pdos, ops) && i < |pdos|
    requires s.rpdo.pending[i] == Latest(pdos, ops, i)
    ensures Step(s, capacity, op).rpdo.pending[i] == Latest(pdos, ops + [op], i)
  {
    hide Processed, Hears, Committed;
    var all := ops + [op];
    assert all[..|all| - 1] == ops && all[|all| - 1] == op;
    if op.Receive? {
      PendingAfterReceive(s.rpdo, op.frame, op.at, capacity, s.sink, i);
    }
  }

  /** A slot's buffer always holds the latest length-valid frame since the last pulse or discard. */
  lemma {:induction false} PendingIsLatest(s0: State, capacity: nat, ops: seq<Op>, i: nat)
    requires RpdoOk(s0.rpdo) && i < |s0.rpdo.pdos| && s0.rpdo.pending[i].None?
    ensures Run(s0, capacity, ops).rpdo.pending[i] == Latest(s0.rpdo.pdos, ops, i)
  {
    hide Step;
    if ops != [] {
      var front, op := ops[..|ops| - 1], ops[|ops| - 1];
      PendingIsLatest(s0, capacity, front, i);
      PendingIsLatestStep(Run(s0, capacity, front), capacity, s0.rpdo.pdos, front, op, i);
      assert ops == front + [op];
    }
  }

  /**
   The dictionary after any run is exactly what the history of receptions,
   pulses and reconfigurations prescribes: event-driven frames at once; at each
   pulse, in slot order, the latest length-valid frame of every synchronous slot
   since the previous pulse, through the mapping then in force; nothing else.
   */
  lemma {:induction false} CommitsFollowHistory(s0: State, capacity: nat, ops: seq<Op>)
    requires RpdoOk(s0.rpdo) && forall i :: 0 <= i < |s0.rpdo.pdos| ==> s0.rpdo.pending[i].None?
    ensures Run(s0, capacity, ops).sink == Play(capacity, s0.sink, Effects(s0.rpdo.pdos, ops))
  {
    hide Committed, Play, Latest, Processed, AtOnce;
    if ops == [] {
      PlayNothing(capacity, s0.sink);
    } else {
      var front, op := ops[..|ops| - 1], ops[|ops| - 1];
      CommitsFollowHistory(s0, capacity, front);
      var before, es := Run(s0, capacity, front), Effects(s0.rpdo.pdos, front);
      match op {
        case Receive(f, at) =>
          ReceiveRefines(before, capacity, s0.sink, es, f, at);
        case SyncPulse =>
          forall i | 0 <= i < |s0.rpdo.pdos| ensures before.rpdo.pending[i] == Latest(s0.rpdo.pdos, front, i) {
            PendingIsLatest(s0, capacity, front, i);
          }
          PlayFlushed(before.rpdo, s0.rpdo.pdos, capacity, s0.sink, es, front, |s0.rpdo.pdos|);
        case Edit(sink) =>
          PlaySnoc(capacity, s0.sink, es, Replaced(sink));
        case _ =>
      }
    }
  }

  lemma PlayNothing(capacity: nat, sink: Sink)
    ensures Play(capacity, sink, []) == sink
  {
  }

  /** A matching frame that is too short, or whose mapping exceeds a frame, changes the error count alone. */
  lemma ShortFrameOnlyCounts(s: State, capacity: nat, f: DataFrame, at: U64)
    requires RpdoOk(s.rpdo) && SlotOf(s.rpdo.pdos, f).Some?
    requires !LongEnough(s.rpdo.pdos[SlotOf(s.rpdo.pdos, f).value], f)
    ensures Step(s, capacity, Receive(f, at))
         == s.(rpdo := s.rpdo.(lengthErrors := SatAdd(s.rpdo.lengthErrors, 1)))
  {
    hide ApplyPayload;
  }

  /** A length-valid frame reaches every mapping entry: the unpacking loop never stops early. */
  lemma AcceptedFrameIsWhole(c: RpdoConfig, f: DataFrame, capacity: nat, sink: Sink)
    requires LongEnough(c, f)
    ensures Fitting(c.mappings, 8 * |f.data|) == |c.mappings| && Offset(c.mappings, |c.mappings|) <= |Bits(f.data)|
    ensures ApplyPayload(c.mappings, f.data, capacity, sink)
         == Applied(c.mappings, Bits(f.data), |c.mappings|, capacity, sink)
  {
    var ms := c.mappings;
    assert ms[..|ms|] == ms;
  }

  // ---- Deadlines ----

  /** Time of the last length-valid reception of slot `s` since monitoring was last forgotten. */
  function LastHeard(pdos: seq<RpdoConfig>, ops: seq<Op>, s: nat): Option<U64>
    requires s < |pdos|
  {
    if ops == [] then None
    else
      var front := ops[..|ops| - 1];
      match ops[|ops| - 1]
      case Receive(f, at) => if Hears(ConfigsAfter(pdos, front), f, s) then Some(at) else LastHeard(pdos, front, s)
      case Forget => None
      case _ => LastHeard(pdos, front, s)
  }

  predicate Overdue(c: RpdoConfig, heard: Option<U64>, now: U64) {
    Monitored(c) && heard.Some? && Elapsed(now, heard.value) > c.deadlineMs * 1000
  }

  /** Some check since the last reception found the deadline then in force exceeded. */
  predicate Lapsed(pdos: seq<RpdoConfig>, ops: seq<Op>, s: nat)
    requires s < |pdos|
  {
    if ops == [] then false
    else
      var front := ops[..|ops| - 1];
      match ops[|ops| - 1]
      case Receive(f, at) => !Hears(ConfigsAfter(pdos, front), f, s) && Lapsed(pdos, front, s)
      case Forget => false
      case Check(at) => Lapsed(pdos, front, s) || Overdue(ConfigsAfter(pdos, front)[s], LastHeard(pdos, front, s), at)
      case _ => Lapsed(pdos, front, s)
  }

  predicate Tracks(r: Rpdo, s: nat, heard: Option<U64>, lapsed: bool)
    requires RpdoOk(r) && s < |r.pdos|
  {
    r.armed[s] == heard.Some? && (heard.Some? ==> r.lastRxUs[s] == heard.value) && r.expired[s] == lapsed
  }

  lemma MonitorReceive(r: Rpdo, f: DataFrame, at: U64, capacity: nat, sink: Sink, i: nat, heard: Option<U64>, lapsed: bool)
    requires RpdoOk(r) && i < |r.pdos| && Tracks(r, i, heard, lapsed)
    ensures Tracks(Processed(r, f, at, capacity, sink).0, i,
                   if Hears(r.pdos, f, i) then Some(at) else heard, !Hears(r.pdos, f, i) && lapsed)
  {
    hide ApplyPayload, LongEnough;
  }

  lemma MonitorStep(s: State, capacity: nat, pdos: seq<RpdoConfig>, ops: seq<Op>, op: Op, i: nat)
    requires RpdoOk(s.rpdo) && s.rpdo.pdos == ConfigsAfter(pdos, ops) && i < |pdos|
    requires Tracks(s.rpdo, i, LastHeard(pdos, ops, i), Lapsed(pdos, ops, i))
    ensures Tracks(Step(s, capacity, op).rpdo, i, LastHeard(pdos, ops + [op], i), Lapsed(pdos, ops + [op], i))
  {
    hide Hears, Processed, Committed, NewlyExpired, Overdue, ConfigsAfter;
    var heard, lapsed := LastHeard(pdos, ops, i), Lapsed(pdos, ops, i);
    var all := ops + [op];
    assert all[..|all| - 1] == ops && all[|all| - 1] == op;
    match op {
      case Receive(f, at) => MonitorReceive(s.rpdo, f, at, capacity, s.sink, i, heard, lapsed);
      case Check(at) => CheckIsOverdue(s.rpdo, i, heard, lapsed, at);
      case _ =>
    }
  }

  lemma CheckIsOverdue(r: Rpdo, i: nat, heard: Option<U64>, lapsed: bool, now: U64)
    requires RpdoOk(r) && i < |r.pdos| && Tracks(r, i, heard, lapsed)
    ensures r.expired[i] || NewlyExpired(r, i, now) <==> lapsed || Overdue(r.pdos[i], heard, now)
  {
    hide Elapsed;
  }

  lemma {:induction false} MonitorTracks(s0: State, capacity: nat, ops: seq<Op>, i: nat)
    requires RpdoOk(s0.rpdo) && i < |s0.rpdo.pdos| && !s0.rpdo.armed[i] && !s0.rpdo.expired[i]
    ensures Tracks(Run(s0, capacity, ops).rpdo, i, LastHeard(s0.rpdo.pdos, ops, i), Lapsed(s0.rpdo.pdos, ops, i))
  {
    hide Step;
    if ops != [] {
      var front, op := ops[..|ops| - 1], ops[|ops| - 1];
      MonitorTracks(s0, capacity, front, i);
      MonitorStep(Run(s0, capacity, front), capacity, s0.rpdo.pdos, front, op, i);
      assert ops == front + [op];
    }
  }

  /** A check lists exactly the numbers of the newly expired slots. */
  lemma {:induction false} ReportsAreNewlyExpired(r: Rpdo, now: U64, k: nat, number: nat)
    requires RpdoOk(r) && k <= |r.pdos|
    ensures number in Reports(r, now, k) <==>
              Reportable(number) && exists s :: 0 <= s < k && NewlyExpired(r, s, now) && NumberOf(r.pdos[s], s) == number
  {
    hide Elapsed;
    if k > 0 {
      ReportsAreNewlyExpired(r, now, k - 1, number);
    }
  }

  /**
   Edge: after any run a check newly reports a slot exactly when it is
   monitored, has been heard since monitoring was last forgotten, has not lapsed
   since, and has been silent for strictly longer than its deadline.
   */
  lemma DeadlineEdge(s0: State, capacity: nat, ops: seq<Op>, i: nat, now: U64)
    requires RpdoOk(s0.rpdo) && i < |s0.rpdo.pdos| && !s0.rpdo.armed[i] && !s0.rpdo.expired[i]
    ensures NewlyExpired(Run(s0, capacity, ops).rpdo, i, now) <==>
              Overdue(ConfigsAfter(s0.rpdo.pdos, ops)[i], LastHeard(s0.rpdo.pdos, ops, i), now)
              && !Lapsed(s0.rpdo.pdos, ops, i)
  {
    hide Elapsed;
    MonitorTracks(s0, capacity, ops, i);
  }

  /** Level: true exactly while a monitored slot is unheard since the reset, or has lapsed since it was last heard. */
  lemma DeadlineLevel(s0: State, capacity: nat, ops: seq<Op>, i: nat)
    requires RpdoOk(s0.rpdo) && i < |s0.rpdo.pdos| && !s0.rpdo.armed[i] && !s0.rpdo.expired[i]
    ensures Stale(Run(s0, capacity, ops).rpdo, i) <==>
              Monitored(ConfigsAfter(s0.rpdo.pdos, ops)[i])
              && (LastHeard(s0.rpdo.pdos, ops, i).None? || Lapsed(s0.rpdo.pdos, ops, i))
  {
    hide Elapsed;
    MonitorTracks(s0, capacity, ops, i);
  }

  /** Operation `k` of a run newly reports slot `i`. */
  predicate ReportAt(s0: State, capacity: nat, ops: seq<Op>, i: nat, k: nat)
    requires RpdoOk(s0.rpdo) && i < |s0.rpdo.pdos| && k < |ops|
  {
    ops[k].Check? && NewlyExpired(Run(s0, capacity, ops[..k]).rpdo, i, ops[k].at)
  }

  predicate HeardAt(pdos: seq<RpdoConfig>, ops: seq<Op>, i: nat, k: nat)
    requires k < |ops|
  {
    ops[k].Receive? && Hears(ConfigsAfter(pdos, ops[..k]), ops[k].frame, i)
  }

  predicate Silenced(r: Rpdo, i: nat)
    requires RpdoOk(r) && i < |r.pdos|
  {
    r.expired[i] || !r.armed[i]
  }

  /** Only a length-valid reception ends the silence of a slot; a report begins it. */
  lemma SilenceKept(s: State, capacity: nat, op: Op, i: nat)
    requires RpdoOk(s.rpdo) && i < |s.rpdo.pdos|
    requires (Silenced(s.rpdo, i) && !(op.Receive? && Hears(s.rpdo.pdos, op.frame, i)))
             || (op.Check? && NewlyExpired(s.rpdo, i, op.at))
    ensures Silenced(Step(s, capacity, op).rpdo, i)
  {
    hide ApplyPayload, LongEnough, Committed, Elapsed;
  }

  lemma {:induction false} SilentAfterReport(s0: State, capacity: nat, ops: seq<Op>, i: nat, j: nat, k: nat)
    requires RpdoOk(s0.rpdo) && i < |s0.rpdo.pdos| && j < k <= |ops|
    requires ReportAt(s0, capacity, ops, i, j) && forall m :: j < m < k ==> !HeardAt(s0.rpdo.pdos, ops, i, m)
    ensures Silenced(Run(s0, capacity, ops[..k]).rpdo, i)
  {
    hide Step, Silenced, NewlyExpired, Hears, ConfigsAfter;
    assert ops[..k][..k - 1] == ops[..k - 1];
    if k > j + 1 {
      SilentAfterReport(s0, capacity, ops, i, j, k - 1);
      assert !HeardAt(s0.rpdo.pdos, ops, i, k - 1);
    }
    SilenceKept(Run(s0, capacity, ops[..k - 1]), capacity, ops[k - 1], i);
  }

  /** Between two reports of one RPDO there is a length-valid reception of it. */
  lemma ReceptionBetweenReports(s0: State, capacity: nat, ops: seq<Op>, i: nat, j: nat, k: nat)
    requires RpdoOk(s0.rpdo) && i < |s0.rpdo.pdos| && j < k < |ops|
    requires ReportAt(s0, capacity, ops, i, j) && ReportAt(s0, capacity, ops, i, k)
    ensures exists m :: j < m < k && HeardAt(s0.rpdo.pdos, ops, i, m)
  {
    if forall m :: j < m < k ==> !HeardAt(s0.rpdo.pdos, ops, i, m) {
      SilentAfterReport(s0, capacity, ops, i, j, k);
    }
  }
}
