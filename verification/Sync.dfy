/**
 The SYNC object (section 7.2.5 of CiA 301): consumer, producer, and the
 synchronous transmission window of object 0x1007.
 */
module Sync {
  import opened Types

  // ---- COB-ID SYNC (0x1005) ----

  const SYNC_COB_ID_DEFAULT: bv32 := 0x080
  const SYNC_GEN: bv32 := 0x4000_0000
  const SYNC_FRAME_29BIT: bv32 := 0x2000_0000
  const SYNC_COB_ID_RESERVED: bv32 := 0x9FFF_F800

  datatype SyncCobId = SyncCobId(cobId: bv32, produce: bool)

  predicate IsSupported(raw: bv32) {
    raw & (SYNC_FRAME_29BIT | SYNC_COB_ID_RESERVED) == 0 && raw & 0x7FF != 0
  }

  function FromRaw(raw: bv32): Option<SyncCobId> {
    if IsSupported(raw) then Some(SyncCobId(raw & 0x7FF, raw & SYNC_GEN != 0)) else None
  }

  function ToRaw(s: SyncCobId): bv32 {
    s.cobId | if s.produce then SYNC_GEN else 0
  }

  /** Decoding accepts exactly the encodings of nonzero 11-bit COB-IDs, and inverts them. */
  lemma SyncCobIdRoundTrip(raw: bv32, s: SyncCobId)
    ensures FromRaw(raw).Some? ==> ToRaw(FromRaw(raw).value) == raw
    ensures FromRaw(ToRaw(s)) == Some(s) <==> s.cobId <= 0x7FF && s.cobId != 0
  {
  }

  predicate ValidOverflow(v: nat) {
    v == 0 || 2 <= v <= 240
  }

  // ---- Consumer ----

  /** `cobId` 0 means no usable SYNC object. */
  datatype Consumer = Consumer(cobId: nat, counter: nat)

  function Retarget(c: Consumer, cobId: nat): Consumer {
    if c.cobId == cobId then c else Consumer(cobId, 0)
  }

  /** A frame seen by the consumer; `Some` is the counter of a SYNC pulse. */
  function Consumed(c: Consumer, f: CanFrame): (Consumer, Option<nat>) {
    if c.cobId == 0 || f.id != c.cobId || |f.data| > 1 then (c, None)
    else
      var n := if |f.data| == 1 then f.data[0] as nat else (c.counter + 1) % 0x100;
      (c.(counter := n), Some(n))
  }

  // ---- Window (0x1007) ----

  datatype Window = Window(lengthUs: nat, openedAtUs: U64, active: bool)

  function Opened(w: Window, now: U64): Window {
    w.(openedAtUs := now, active := true)
  }

  function Closed(w: Window): Window {
    w.(openedAtUs := 0, active := false)
  }

  predicate Allows(w: Window, now: U64) {
    w.active && (w.lengthUs == 0 || Elapsed(now, w.openedAtUs) <= w.lengthUs)
  }

  // ---- Producer ----

  /** Disabled while `cobId` or `intervalUs` is 0. */
  datatype Producer = Producer(cobId: nat, intervalUs: nat, overflow: nat, lastSentUs: U64, armed: bool, counter: nat)

  function NewProducer(): Producer {
    Producer(0, 0, 0, 0, false, 0)
  }

  predicate Enabled(p: Producer) {
    p.cobId != 0 && p.intervalUs != 0
  }

  function Configured(p: Producer, cobId: nat, intervalUs: nat, overflow: nat): Producer {
    if p.cobId == cobId && p.intervalUs == intervalUs && p.overflow == overflow then p
    else Producer(cobId, intervalUs, overflow, p.lastSentUs, false, 0)
  }

  function Restarted(p: Producer): Producer {
    p.(armed := false, lastSentUs := 0, counter := 0)
  }

  function PeekCounter(p: Producer): nat {
    if p.counter >= p.overflow then 1 else p.counter + 1
  }

  function PulseFrame(p: Producer): CanFrame {
    CanFrame(p.cobId, if p.overflow >= 2 then [(PeekCounter(p) % 0x100) as bv8] else [])
  }

  /** The pulse due at `now`; the cycle does not advance. */
  function Polled(p: Producer, now: U64): (Producer, Option<CanFrame>) {
    if !Enabled(p) then (p, None)
    else if !p.armed then (p.(armed := true, lastSentUs := now), None)
    else if Elapsed(now, p.lastSentUs) < p.intervalUs then (p, None)
    else (p, Some(PulseFrame(p)))
  }

  /** The cycle advances once the transport accepted the pulse. */
  function Confirmed(p: Producer, now: U64): Producer {
    p.(lastSentUs := now, counter := if p.overflow >= 2 then PeekCounter(p) else p.counter)
  }

  class SyncProducer {
    var cobId: nat
    var intervalUs: nat
    var overflow: nat
    var lastSentUs: U64
    var armed: bool
    var counter: nat

    ghost function View(): Producer
      reads this
    {
      Producer(cobId, intervalUs, overflow, lastSentUs, armed, counter)
    }

    constructor ()
      ensures View() == NewProducer()
    {
      cobId, intervalUs, overflow, lastSentUs, armed, counter := 0, 0, 0, 0, false, 0;
    }

    method Configure(cobId: nat, intervalUs: nat, overflow: nat)
      modifies this
      ensures View() == Configured(old(View()), cobId, intervalUs, overflow)
    {
      if this.cobId == cobId && this.intervalUs == intervalUs && this.overflow == overflow {
        return;
      }
      this.cobId, this.intervalUs, this.overflow := cobId, intervalUs, overflow;
      armed, counter := false, 0;
    }

    method Reset()
      modifies this
      ensures View() == Restarted(old(View()))
    {
      armed, lastSentUs, counter := false, 0, 0;
    }

    method Poll(now: U64) returns (f: Option<CanFrame>)
      modifies this
      ensures (View(), f) == Polled(old(View()), now)
    {
      f := None;
      if cobId == 0 || intervalUs == 0 {
        return;
      }
      if !armed {
        armed, lastSentUs := true, now;
        return;
      }
      if Elapsed(now, lastSentUs) < intervalUs {
        return;
      }
      if overflow >= 2 {
        var next := if counter >= overflow then 1 else counter + 1;
        f := Some(CanFrame(cobId, [(next % 0x100) as bv8]));
      } else {
        f := Some(CanFrame(cobId, []));
      }
    }

    method ConfirmSent(now: U64)
      modifies this
      ensures View() == Confirmed(old(View()), now)
    {
      lastSentUs := now;
      if overflow >= 2 {
        counter := if counter >= overflow then 1 else counter + 1;
      }
    }
  }

  class SyncConsumer {
    var cobId: nat
    var counter: nat

    ghost function View(): Consumer
      reads this
    {
      Consumer(cobId, counter)
    }

    constructor ()
      ensures View() == Consumer(SYNC_COB_ID_DEFAULT as nat, 0)
    {
      cobId, counter := SYNC_COB_ID_DEFAULT as nat, 0;
    }

    method SetCobId(id: nat)
      modifies this
      ensures View() == Retarget(old(View()), id)
    {
      if cobId != id {
        cobId, counter := id, 0;
      }
    }

    method Reset()
      modifies this
      ensures View() == old(View()).(counter := 0)
    {
      counter := 0;
    }

    method Process(f: CanFrame) returns (pulse: Option<nat>)
      modifies this
      ensures (View(), pulse) == Consumed(old(View()), f)
    {
      if cobId == 0 || f.id != cobId || |f.data| > 1 {
        return None;
      }
      counter := if |f.data| == 1 then f.data[0] as nat else (counter + 1) % 0x100;
      pulse := Some(counter);
    }
  }

  class SyncWindow {
    var lengthUs: nat
    var openedAtUs: U64
    var active: bool

    ghost function View(): Window
      reads this
    {
      Window(lengthUs, openedAtUs, active)
    }

    constructor ()
      ensures View() == Window(0, 0, false)
    {
      lengthUs, openedAtUs, active := 0, 0, false;
    }

    method Configure(length: nat)
      modifies this
      ensures View() == old(View()).(lengthUs := length)
    {
      lengthUs := length;
    }

    method Open(now: U64)
      modifies this
      ensures View() == Opened(old(View()), now)
    {
      openedAtUs, active := now, true;
    }

    method Reset()
      modifies this
      ensures View() == Closed(old(View()))
    {
      openedAtUs, active := 0, false;
    }

    method AllowsTransmit(now: U64) returns (ok: bool)
      ensures ok == Allows(View(), now)
    {
      ok := active && (lengthUs == 0 || Elapsed(now, openedAtUs) <= lengthUs);
    }
  }

  // ---- Every run of a consumer ----

  function ConsumedAll(c: Consumer, fs: seq<CanFrame>): Consumer {
    if fs == [] then c else Consumed(ConsumedAll(c, fs[..|fs| - 1]), fs[|fs| - 1]).0
  }

  predicate IsPulse(c: Consumer, f: CanFrame) {
    c.cobId != 0 && f.id == c.cobId && |f.data| <= 1
  }

  /** Pulses since the last one that carried a counter. */
  function PlainPulses(c: Consumer, fs: seq<CanFrame>): nat {
    if fs == [] then 0
    else
      var f := fs[|fs| - 1];
      if IsPulse(c, f) && |f.data| == 1 then 0
      else PlainPulses(c, fs[..|fs| - 1]) + if IsPulse(c, f) then 1 else 0
  }

  /** The counter last received, or the initial one. */
  function LastCounter(c: Consumer, fs: seq<CanFrame>): nat {
    if fs == [] then c.counter
    else
      var f := fs[|fs| - 1];
      if IsPulse(c, f) && |f.data| == 1 then f.data[0] as nat else LastCounter(c, fs[..|fs| - 1])
  }

  /** Over every run the consumer's count is the last received counter plus the plain pulses since, modulo 256. */
  lemma {:induction false} ConsumerCounts(c: Consumer, fs: seq<CanFrame>)
    requires c.counter < 0x100
    ensures ConsumedAll(c, fs).cobId == c.cobId
    ensures ConsumedAll(c, fs).counter == (LastCounter(c, fs) + PlainPulses(c, fs)) % 0x100
  {
    if fs != [] {
      var front, f := fs[..|fs| - 1], fs[|fs| - 1];
      ConsumerCounts(c, front);
      if IsPulse(c, f) && |f.data| == 0 {
        NextCount(LastCounter(c, front) + PlainPulses(c, front));
      } else if IsPulse(c, f) {
        assert f.data[0] as nat < 0x100;
      }
    }
  }

  lemma NextCount(n: nat)
    ensures (n % 0x100 + 1) % 0x100 == (n + 1) % 0x100
  {
  }

  // ---- Every run of a producer between configuration changes and resets ----

  /** One processing cycle: the time, whether the transport would accept a frame, whether 0x1005 etc. are re-read. */
  datatype Cycle = Cycle(at: U64, accepts: bool, reread: bool)

  datatype Sent = Sent(frame: CanFrame, at: U64)

  /** A producer with the pulses accepted so far. */
  datatype Station = Station(producer: Producer, pulses: seq<Sent>)

  function StepStation(s: Station, c: Cycle): Station {
    var p0 := if c.reread then Configured(s.producer, s.producer.cobId, s.producer.intervalUs, s.producer.overflow)
              else s.producer;
    var (p, offer) := Polled(p0, c.at);
    if offer.Some? && c.accepts
    then Station(Confirmed(p, c.at), s.pulses + [Sent(offer.value, c.at)])
    else s.(producer := p)
  }

  function RunStation(s: Station, cs: seq<Cycle>): Station {
    if cs == [] then s else StepStation(RunStation(s, cs[..|cs| - 1]), cs[|cs| - 1])
  }

  /** What pulse number `k` (from 0) carries. */
  function NumberedPulse(cobId: nat, overflow: nat, k: nat): CanFrame {
    CanFrame(cobId, if overflow >= 2 then [((k % overflow + 1) % 0x100) as bv8] else [])
  }

  /** Accepted pulses are numbered from 1 modulo the overflow value and a full period apart. */
  predicate PulsesInOrder(p: Producer, pulses: seq<Sent>) {
    (forall k :: 0 <= k < |pulses| ==> pulses[k].frame == NumberedPulse(p.cobId, p.overflow, k))
    && forall k :: 0 < k < |pulses| ==> Elapsed(pulses[k].at, pulses[k - 1].at) >= p.intervalUs
  }

  predicate StationOk(start: Producer, s: Station) {
    var p := s.producer;
    p.cobId == start.cobId && p.intervalUs == start.intervalUs && p.overflow == start.overflow
    && PulsesInOrder(p, s.pulses)
    && (p.overflow >= 2 ==> p.counter == if s.pulses == [] then 0 else (|s.pulses| - 1) % p.overflow + 1)
    && (s.pulses != [] ==> p.armed && p.lastSentUs == s.pulses[|s.pulses| - 1].at)
  }

  lemma CounterAdvances(n: nat, overflow: nat)
    requires overflow >= 2
    ensures n > 0 ==> ((n - 1) % overflow + 1 >= overflow <==> n % overflow == 0)
    ensures n > 0 && (n - 1) % overflow + 1 < overflow ==> n % overflow == (n - 1) % overflow + 1
  {
    if n > 0 {
      var q, r := (n - 1) / overflow, (n - 1) % overflow;
      DivMod(n - 1, overflow);
      if r + 1 < overflow {
        ModUnique(n, overflow, q, r + 1);
      } else {
        Distribute(q + 1, 1, overflow);
        ModUnique(n, overflow, q + 1, 0);
      }
    }
  }

  lemma AtLeastOnce(k: int, d: nat)
    requires k >= 1
    ensures k * d >= d
  {
  }

  lemma Distribute(a: int, b: int, d: int)
    ensures (a - b) * d == a * d - b * d
  {
  }

  lemma ModUnique(n: nat, d: nat, q: nat, r: nat)
    requires d > 0 && r < d && n == q * d + r
    ensures n % d == r
  {
    var q', r' := n / d, n % d;
    DivMod(n, d);
    Distribute(q, q', d);
    Distribute(q', q, d);
    if q > q' {
      AtLeastOnce(q - q', d);
    } else if q' > q {
      AtLeastOnce(q' - q, d);
    }
  }

  lemma DivMod(n: nat, d: nat)
    requires d > 0
    ensures n == (n / d) * d + n % d && 0 <= n % d < d
  {
  }

  /** The pulse on offer always carries the number after the last accepted one, however often it was refused. */
  lemma OfferIsNext(start: Producer, s: Station, now: U64)
    requires StationOk(start, s) && ValidOverflow(start.overflow)
    ensures Polled(s.producer, now).1.Some? ==>
              Polled(s.producer, now).1.value == NumberedPulse(start.cobId, start.overflow, |s.pulses|)
  {
    if start.overflow >= 2 {
      NextCounter(s.producer, |s.pulses|);
    }
  }

  lemma NextCounter(p: Producer, n: nat)
    requires p.overflow >= 2 && p.counter == if n == 0 then 0 else (n - 1) % p.overflow + 1
    ensures PeekCounter(p) == n % p.overflow + 1
  {
    CounterAdvances(n, p.overflow);
    if n == 0 {
      ModUnique(0, p.overflow, 0, 0);
    }
  }

  lemma StepKeepsStation(start: Producer, s: Station, c: Cycle)
    requires StationOk(start, s) && ValidOverflow(start.overflow)
    ensures StationOk(start, StepStation(s, c))
  {
    hide Elapsed;
    OfferIsNext(start, s, c.at);
    if start.overflow >= 2 {
      NextCounter(s.producer, |s.pulses|);
    }
  }

  /**
   Between configuration changes and resets: whatever the clock and whichever
   offers the transport refuses, the k-th accepted pulse carries
   `(k - 1) mod overflow + 1` (nothing without a counter), consecutive accepted
   pulses are at least one period apart, and re-reading an unchanged
   configuration disturbs neither.
   */
  lemma {:induction false} PulsesAreNumberedAndSpaced(start: Producer, cs: seq<Cycle>)
    requires ValidOverflow(start.overflow) && start.counter == 0 && !start.armed
    ensures StationOk(start, RunStation(Station(start, []), cs))
  {
    if cs != [] {
      PulsesAreNumberedAndSpaced(start, cs[..|cs| - 1]);
      StepKeepsStation(start, RunStation(Station(start, []), cs[..|cs| - 1]), cs[|cs| - 1]);
    }
  }

  /** When the period in progress began: at the last accepted pulse, or at the first cycle, which only arms. */
  function PeriodStart(s: Station, cs: seq<Cycle>): U64
    requires cs != []
  {
    if s.pulses == [] then cs[0].at else s.pulses[|s.pulses| - 1].at
  }

  lemma {:induction false} ArmedSinceStart(start: Producer, cs: seq<Cycle>)
    requires !start.armed
    ensures var s := RunStation(Station(start, []), cs);
            s.producer.cobId == start.cobId && s.producer.intervalUs == start.intervalUs
            && s.producer.overflow == start.overflow
            && (s.producer.armed <==> Enabled(start) && cs != [])
            && (s.producer.armed ==> s.producer.lastSentUs == PeriodStart(s, cs))
            && (!s.producer.armed ==> s.pulses == [])
  {
    if cs != [] {
      ArmedSinceStart(start, cs[..|cs| - 1]);
    }
  }

  /**
   A pulse is on offer exactly when it is due: production is enabled, a first
   cycle has armed it, and a full period has passed since the last accepted
   pulse (since arming, before the first).
   */
  lemma PulseDueExactly(start: Producer, cs: seq<Cycle>, now: U64)
    requires !start.armed
    ensures var s := RunStation(Station(start, []), cs);
            Polled(s.producer, now).1.Some? <==>
              Enabled(start) && cs != [] && Elapsed(now, PeriodStart(s, cs)) >= start.intervalUs
  {
    hide Elapsed, RunStation;
    ArmedSinceStart(start, cs);
  }

  /** A spacing measured on the wrapping clock also holds of true time. */
  lemma SpacingIsTrue(earlier: nat, later: nat, spacing: nat)
    requires earlier <= later && Elapsed(Reading(later), Reading(earlier)) >= spacing
    ensures later - earlier >= spacing
  {
    ElapsedOfReadings(earlier, later);
  }
}
