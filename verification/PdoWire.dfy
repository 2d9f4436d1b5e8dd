/**
 The PDO wire format of the node: building a transmit frame from the object
 dictionary and applying a received frame to it.

 The specification is a bit string: the fields of a mapping list laid end to
 end. The methods keep a running bit offset into eight-byte buffers.
 */
module PdoWire {
  import opened Types
  import opened PdoBits
  import opened ObjectDictionary

  const PDO_MAX_PAYLOAD_BITS: nat := 64

  /** One mapping entry: which object occupies how many bits. */
  datatype Mapping = Mapping(index: nat, sub: nat, bits: nat)

  function AddrOf(m: Mapping): Addr {
    Addr(m.index, m.sub)
  }

  /** Static data types map no object: zero bits out, skipped bits in. */
  predicate IsDummy(m: Mapping) {
    1 <= m.index <= 7
  }

  function Total(ms: seq<Mapping>): nat {
    if ms == [] then 0 else Total(ms[..|ms| - 1]) + ms[|ms| - 1].bits
  }

  /** Bit offset of entry `i`. */
  function Offset(ms: seq<Mapping>, i: nat): nat
    requires i <= |ms|
  {
    Total(ms[..i])
  }

  function BytesForBits(bits: nat): nat {
    (bits + 7) / 8
  }

  lemma OffsetStep(ms: seq<Mapping>, i: nat)
    requires i < |ms|
    ensures Offset(ms, i + 1) == Offset(ms, i) + ms[i].bits
  {
    assert ms[..i + 1][..i] == ms[..i];
  }

  lemma {:induction false} OffsetMonotone(ms: seq<Mapping>, i: nat, j: nat)
    requires i <= j <= |ms|
    ensures Offset(ms, i) <= Offset(ms, j)
  {
    if i < j {
      OffsetMonotone(ms, i, j - 1);
      OffsetStep(ms, j - 1);
    }
  }

  lemma {:induction false} SameBitsSameOffsets(ms: seq<Mapping>, ms': seq<Mapping>, i: nat)
    requires |ms| == |ms'| && i <= |ms|
    requires forall j :: 0 <= j < |ms| ==> ms[j].bits == ms'[j].bits
    ensures Offset(ms, i) == Offset(ms', i)
  {
    if i > 0 {
      SameBitsSameOffsets(ms, ms', i - 1);
      OffsetStep(ms, i - 1);
      OffsetStep(ms', i - 1);
    }
  }

  // ---- Transmit ----

  /** The bits a mapping entry contributes to a transmit frame, if the object can supply them. */
  function Field(od: Od, m: Mapping): (r: Option<seq<bool>>)
    ensures r.Some? ==> |r.value| == m.bits
  {
    if IsDummy(m) then Some(Zeros(m.bits))
    else match Read(od, AddrOf(m), 8)
      case Ok(v) => if 8 * |v| >= m.bits then Some(Bits(v)[..m.bits]) else None
      case Err(_) => None
  }

  predicate Buildable(ms: seq<Mapping>, od: Od) {
    Total(ms) <= PDO_MAX_PAYLOAD_BITS && forall i :: 0 <= i < |ms| ==> Field(od, ms[i]).Some?
  }

  /** Bit strings laid end to end. */
  function Laid(parts: seq<seq<bool>>): seq<bool> {
    if parts == [] then [] else Laid(parts[..|parts| - 1]) + parts[|parts| - 1]
  }

  /** One part per mapping entry, each of the mapped width. */
  predicate Shaped(ms: seq<Mapping>, parts: seq<seq<bool>>) {
    |parts| <= |ms| && forall i :: 0 <= i < |parts| ==> |parts[i]| == ms[i].bits
  }

  lemma LaidSnoc(parts: seq<seq<bool>>, part: seq<bool>)
    ensures Laid(parts + [part]) == Laid(parts) + part
  {
    assert (parts + [part])[..|parts|] == parts;
  }

  lemma {:induction false} LaidLength(ms: seq<Mapping>, parts: seq<seq<bool>>)
    requires Shaped(ms, parts)
    ensures |Laid(parts)| == Offset(ms, |parts|)
  {
    if parts != [] {
      var n := |parts| - 1;
      LaidLength(ms, parts[..n]);
      OffsetStep(ms, n);
    }
  }

  function FieldParts(ms: seq<Mapping>, od: Od): (parts: seq<seq<bool>>)
    requires forall i :: 0 <= i < |ms| ==> Field(od, ms[i]).Some?
    ensures |parts| == |ms| && Shaped(ms, parts)
  {
    seq(|ms|, i requires 0 <= i < |ms| => Field(od, ms[i]).value)
  }

  function PadToByte(b: seq<bool>): (r: seq<bool>)
    ensures |r| == 8 * BytesForBits(|b|)
  {
    b + Zeros(8 * BytesForBits(|b|) - |b|)
  }

  /** The frame of a transmit PDO, or `None` when no frame exists. */
  function FrameFor(cobId: nat, ms: seq<Mapping>, od: Od): Option<CanFrame> {
    if Buildable(ms, od) then NewFrame(cobId, FromBits(PadToByte(Laid(FieldParts(ms, od))))) else None
  }

  /** A frame exists exactly when every object can supply its bits and they fit. */
  lemma FrameForExists(cobId: nat, ms: seq<Mapping>, od: Od)
    ensures FrameFor(cobId, ms, od).Some? <==> cobId <= MAX_COB_ID && Buildable(ms, od)
    ensures FrameFor(cobId, ms, od).Some? ==>
              FrameFor(cobId, ms, od).value.id == cobId
              && |FrameFor(cobId, ms, od).value.data| == BytesForBits(Total(ms)) <= 8
  {
    if Buildable(ms, od) {
      LaidLength(ms, FieldParts(ms, od));
      assert ms[..|ms|] == ms;
    }
  }

  lemma PackStep(bits: seq<bool>, off: nat, part: seq<bool>)
    requires |bits| == off && off + |part| <= 64
    ensures Splice(bits + Zeros(64 - off), off, part) == bits + part + Zeros(64 - off - |part|)
  {
  }

  lemma TooLong(ms: seq<Mapping>, k: nat)
    requires k < |ms| && Offset(ms, k + 1) > PDO_MAX_PAYLOAD_BITS
    ensures Total(ms) > PDO_MAX_PAYLOAD_BITS
  {
    OffsetMonotone(ms, k + 1, |ms|);
    assert ms[..|ms|] == ms;
  }

  lemma LowBits(v: seq<bv8>, padded: seq<bv8>, n: nat)
    requires v <= padded && n <= 8 * |v|
    ensures Bits(padded)[..n] == Bits(v)[..n]
  {
    hide Bits;
    BitsOfSlice(padded, 0, |v|);
    assert padded[0..|v|] == v;
  }

  /** Copies the low `bits` bits of an object into the payload at the running offset. */
  method PackObject(value: seq<bv8>, bits: nat, data: array<bv8>, bitOffset: nat, ghost laid: seq<bool>)
    requires |value| <= 8 && bits <= 8 * |value|
    requires data.Length == 8 && |laid| == bitOffset && bitOffset + bits <= 64
    requires Bits(data[..]) == laid + Zeros(64 - bitOffset)
    modifies data
    ensures Bits(data[..]) == laid + Bits(value)[..bits] + Zeros(64 - bitOffset - bits)
  {
    hide Bits, Splice;
    var objectData := new bv8[8](i requires 0 <= i < 8 => if i < |value| then value[i] else 0);
    assert value <= objectData[..];
    LowBits(value, objectData[..], bits);
    CopyPdoBits(objectData[..], 0, data, bitOffset, bits);
    PackStep(laid, bitOffset, Bits(value)[..bits]);
  }

  /** Packs one mapping entry at the running offset; false when the object cannot supply it. */
  method PackEntry(od: Od, m: Mapping, data: array<bv8>, bitOffset: nat, ghost laid: seq<bool>) returns (ok: bool)
    requires data.Length == 8 && |laid| == bitOffset && bitOffset + m.bits <= 64
    requires Bits(data[..]) == laid + Zeros(64 - bitOffset)
    modifies data
    ensures ok <==> Field(od, m).Some?
    ensures ok ==> Bits(data[..]) == laid + Field(od, m).value + Zeros(64 - bitOffset - m.bits)
  {
    hide Bits, Splice;
    if IsDummy(m) {
      assert Zeros(64 - bitOffset) == Zeros(m.bits) + Zeros(64 - bitOffset - m.bits);
      return true;
    }
    var value := Read(od, AddrOf(m), 8);
    if value.Err? || 8 * |value.value| < m.bits {
      return false;
    }
    PackObject(value.value, m.bits, data, bitOffset, laid);
    ok := true;
  }

  /**
   Builds a transmit PDO: walks the mapping list with a running bit offset
   into a zeroed eight-byte payload.
   */
  method BuildPdoFrame(cobId: nat, ms: seq<Mapping>, od: Od) returns (frame: Option<CanFrame>)
    ensures frame == FrameFor(cobId, ms, od)
  {
    hide Bits, Field;
    var data := new bv8[8](_ => 0);
    var bitOffset := 0;
    ghost var parts := [];
    BitsOfZeros(data[..]);
    for k := 0 to |ms|
      invariant bitOffset == Offset(ms, k) == |Laid(parts)| <= 64
      invariant |parts| == k && forall i :: 0 <= i < k ==> Field(od, ms[i]) == Some(parts[i])
      invariant Bits(data[..]) == Laid(parts) + Zeros(64 - bitOffset)
    {
      var m := ms[k];
      var endBit := bitOffset + m.bits;
      OffsetStep(ms, k);
      if endBit > 64 {
        TooLong(ms, k);
        return None;
      }
      var ok := PackEntry(od, m, data, bitOffset, Laid(parts));
      if !ok {
        assert Field(od, ms[k]).None?;
        return None;
      }
      LaidSnoc(parts, Field(od, m).value);
      parts := parts + [Field(od, m).value];
      bitOffset := endBit;
    }
    assert ms[..|ms|] == ms && parts == FieldParts(ms, od);
    var totalBytes := (bitOffset + 7) / 8;
    PayloadBytes(data[..], Laid(parts), totalBytes);
    frame := NewFrame(cobId, data[..totalBytes]);
  }

  lemma PayloadBytes(data: seq<bv8>, bits: seq<bool>, n: nat)
    requires |bits| <= 64 && n == BytesForBits(|bits|)
    requires |data| == 8 && Bits(data) == bits + Zeros(64 - |bits|)
    ensures data[..n] == FromBits(PadToByte(bits))
  {
    hide Bits, FromBits;
    BitsOfSlice(data, 0, n);
    assert Bits(data)[0..8 * n] == PadToByte(bits);
    FromBitsOfBits(data[..n]);
  }

  // ---- Receive ----

  datatype EventSource = FromSdo | FromRpdo | FromDeadline

  datatype OdEvent = OdEvent(addr: Addr, source: EventSource)

  /** Newest `capacity` elements of a queue that just grew. */
  function Newest<T>(q: seq<T>, capacity: nat): (r: seq<T>)
    ensures |r| <= capacity
  {
    if |q| <= capacity then q else q[|q| - capacity..]
  }

  /** A bounded queue holds the newest of everything that was pushed, and the rest is counted as dropped. */
  predicate Conserved<E(==)>(events: seq<E>, dropped: nat, all: seq<E>, before: nat, capacity: nat) {
    events == Newest(all, capacity) && dropped == SatAdd(before, |all| - |Newest(all, capacity)|)
  }

  lemma NothingPushed<E>(events: seq<E>, dropped: nat, capacity: nat)
    requires |events| <= capacity && dropped <= U32_MAX
    ensures Conserved(events, dropped, events, dropped, capacity)
  {
  }

  lemma OneMoreEvent<E>(events: seq<E>, dropped: nat, all: seq<E>, before: nat, capacity: nat, e: E)
    requires Conserved(events, dropped, all, before, capacity) && before <= U32_MAX
    ensures Conserved(Newest(events + [e], capacity), if |events| >= capacity then SatAdd(dropped, 1) else dropped,
                      all + [e], before, capacity)
  {
    assert Newest(Newest(all, capacity) + [e], capacity) == Newest(all + [e], capacity);
  }

  /** Where received data lands: the dictionary, the bounded event queue, the overflow count. */
  datatype Sink = Sink(od: Od, events: seq<OdEvent>, dropped: nat)

  /** Does the object have a fixed size that holds `bits` bits? */
  predicate Holds(t: Option<DataType>, bits: nat) {
    t.Some? && Size(t.value).Some? && Size(t.value).value >= BytesForBits(bits)
  }

  /** Bytes written for a field: the object's own size when it holds the field. */
  function Width(t: Option<DataType>, bits: nat): (n: nat)
    ensures bits <= 8 * n
  {
    if Holds(t, bits) then Size(t.value).value else BytesForBits(bits)
  }

  /** A received field widened to the object: sign-extended for signed integers, zero-extended otherwise. */
  function WidenedBits(t: Option<DataType>, field: seq<bool>): (r: seq<bool>)
    ensures |r| == 8 * Width(t, |field|)
  {
    var zeroed := field + Zeros(8 * Width(t, |field|) - |field|);
    if Holds(t, |field|) && Signed(t.value) then SignExtended(zeroed, |field|) else zeroed
  }

  function Widened(t: Option<DataType>, field: seq<bool>): seq<bv8> {
    FromBits(WidenedBits(t, field))
  }

  function TypeAt(od: Od, a: Addr): Option<DataType> {
    if a in od then Some(od[a].dtype) else None
  }

  /** Effect of one mapping entry receiving `field`. */
  function Received(m: Mapping, field: seq<bool>, capacity: nat, s: Sink): (s': Sink)
    ensures |s.events| <= capacity ==> |s'.events| <= capacity
  {
    if IsDummy(m) then s
    else match Write(s.od, AddrOf(m), Widened(TypeAt(s.od, AddrOf(m)), field))
      case Err(_) => s
      case Ok(od') =>
        Sink(od',
             Newest(s.events + [OdEvent(AddrOf(m), FromRpdo)], capacity),
             if |s.events| >= capacity then SatAdd(s.dropped, 1) else s.dropped)
  }

  /** The bits of a payload that belong to entry `i` (empty when it does not reach that far). */
  function FieldAt(ms: seq<Mapping>, bits: seq<bool>, i: nat): seq<bool>
    requires i < |ms|
  {
    if Offset(ms, i) + ms[i].bits <= |bits| then bits[Offset(ms, i)..Offset(ms, i) + ms[i].bits] else []
  }

  /** Effect of applying the first `k` entries of `ms` to received bits. */
  function Applied(ms: seq<Mapping>, bits: seq<bool>, k: nat, capacity: nat, s: Sink): (s': Sink)
    requires k <= |ms| && Offset(ms, k) <= |bits| <= 64
    ensures |s.events| <= capacity ==> |s'.events| <= capacity
  {
    if k == 0 then s
    else
      OffsetStep(ms, k - 1);
      Received(ms[k - 1], FieldAt(ms, bits, k - 1), capacity, Applied(ms, bits, k - 1, capacity, s))
  }

  /** How many leading entries of `ms` fit in `n` bits. */
  function Fitting(ms: seq<Mapping>, n: nat): (k: nat)
    ensures k <= |ms| && Offset(ms, k) <= n
    ensures forall j :: k < j <= |ms| ==> Offset(ms, j) > n
  {
    if Offset(ms, |ms|) <= n then |ms| else FittingBelow(ms, n, |ms|)
  }

  function FittingBelow(ms: seq<Mapping>, n: nat, hi: nat): (k: nat)
    requires hi <= |ms| && forall j :: hi <= j <= |ms| ==> Offset(ms, j) > n
    ensures k < hi && Offset(ms, k) <= n
    ensures forall j :: k < j <= |ms| ==> Offset(ms, j) > n
    decreases hi
  {
    assert Offset(ms, 0) == 0;
    if Offset(ms, hi - 1) <= n then hi - 1 else FittingBelow(ms, n, hi - 1)
  }

  /** Effect of a whole received payload; entries past its end are left alone. */
  function ApplyPayload(ms: seq<Mapping>, data: seq<bv8>, capacity: nat, s: Sink): (s': Sink)
    requires |data| <= 8
    ensures |s.events| <= capacity ==> |s'.events| <= capacity
  {
    Applied(ms, Bits(data), Fitting(ms, 8 * |data|), capacity, s)
  }

  /** The dictionary after a payload is applied to `od`. */
  function PayloadOd(ms: seq<Mapping>, data: seq<bv8>, od: Od): Od
    requires |data| <= 8
  {
    ApplyPayload(ms, data, 0, Sink(od, [], 0)).od
  }

  lemma {:induction false} AppliedOd(ms: seq<Mapping>, bits: seq<bool>, k: nat, capacity: nat, s: Sink)
    requires k <= |ms| && Offset(ms, k) <= |bits| <= 64
    ensures Applied(ms, bits, k, capacity, s).od == Applied(ms, bits, k, 0, Sink(s.od, [], 0)).od
  {
    hide FieldAt, Widened;
    if k > 0 {
      OffsetStep(ms, k - 1);
      AppliedOd(ms, bits, k - 1, capacity, s);
    }
  }

  /** What a payload does to the dictionary does not depend on the event queue. */
  lemma PayloadOdIs(ms: seq<Mapping>, data: seq<bv8>, capacity: nat, s: Sink)
    requires |data| <= 8
    ensures ApplyPayload(ms, data, capacity, s).od == PayloadOd(ms, data, s.od)
  {
    AppliedOd(ms, Bits(data), Fitting(ms, 8 * |data|), capacity, s);
  }

  lemma FittingIs(ms: seq<Mapping>, n: nat, k: nat)
    requires k < |ms| && Offset(ms, k) <= n < Offset(ms, k + 1)
    ensures Fitting(ms, n) == k
  {
    var f := Fitting(ms, n);
    if f > k {
      OffsetMonotone(ms, k + 1, f);
    }
  }

  /** Widens the field at the front of `buffer` in place; returns the width to write. */
  method WidenInPlace(t: Option<DataType>, ghost field: seq<bool>, bits: nat, buffer: array<bv8>) returns (n: nat)
    requires buffer.Length == 8 && |field| == bits <= 64
    requires Bits(buffer[..]) == field + Zeros(64 - |field|)
    modifies buffer
    ensures n <= 8 && buffer[..n] == Widened(t, field)
  {
    hide Bits, FromBits;
    n := Width(t, bits);
    ZeroExtendedFront(buffer[..], field, n);
    assert buffer[..][..n] == buffer[..n];
    if Holds(t, bits) && Signed(t.value) {
      SignExtendPdoBits(buffer, n, bits);
    }
    assert Bits(buffer[..n]) == WidenedBits(t, field);
    FromBitsOfBits(buffer[..n]);
  }

  lemma ZeroExtendedFront(buffer: seq<bv8>, field: seq<bool>, n: nat)
    requires |buffer| == 8 && |field| <= 8 * n <= 64
    requires Bits(buffer) == field + Zeros(64 - |field|)
    ensures Bits(buffer[..n]) == field + Zeros(8 * n - |field|)
  {
    hide Bits;
    BitsOfSlice(buffer, 0, n);
    assert Bits(buffer)[0..8 * n] == field + Zeros(8 * n - |field|);
  }

  /** Unpacks the field at `bitOffset` and writes it to its object. */
  method ReceiveEntry(m: Mapping, data: seq<bv8>, bitOffset: nat, capacity: nat, s: Sink) returns (s': Sink)
    requires |data| <= 8 && bitOffset + m.bits <= 8 * |data| && |s.events| <= capacity && !IsDummy(m)
    ensures s' == Received(m, Bits(data)[bitOffset..bitOffset + m.bits], capacity, s)
  {
    hide Bits, WidenedBits, FromBits;
    ghost var field := Bits(data)[bitOffset..bitOffset + m.bits];
    var objectData := new bv8[8](_ => 0);
    BitsOfZeros(objectData[..]);
    CopyPdoBits(data, bitOffset, objectData, 0, m.bits);
    assert Bits(objectData[..]) == field + Zeros(64 - |field|);
    var n := WidenInPlace(TypeAt(s.od, AddrOf(m)), field, m.bits, objectData);
    s' := Deliver(m, objectData[..n], capacity, s);
  }

  /**
   Unpacks a received payload along a mapping list, one dictionary write and
   one event per entry, independent of each other.
   */
  method ApplyMapped(ms: seq<Mapping>, data: seq<bv8>, capacity: nat, s: Sink) returns (s': Sink)
    requires |data| <= 8 && |s.events| <= capacity
    ensures s' == ApplyPayload(ms, data, capacity, s)
  {
    hide Bits, Received;
    var bitOffset := 0;
    s' := s;
    for k := 0 to |ms|
      invariant bitOffset == Offset(ms, k) <= 8 * |data|
      invariant s' == Applied(ms, Bits(data), k, capacity, s) && |s'.events| <= capacity
    {
      var m := ms[k];
      var endBit := bitOffset + m.bits;
      OffsetStep(ms, k);
      if endBit > 8 * |data| || BytesForBits(m.bits) > 8 {
        FittingIs(ms, 8 * |data|, k);
        return;
      }
      if IsDummy(m) {
        DummyIgnored(m, FieldAt(ms, Bits(data), k), capacity, s');
      } else {
        s' := ReceiveEntry(m, data, bitOffset, capacity, s');
      }
      bitOffset := endBit;
    }
  }

  lemma DummyIgnored(m: Mapping, field: seq<bool>, capacity: nat, s: Sink)
    requires IsDummy(m)
    ensures Received(m, field, capacity, s) == s
  {
  }

  method Deliver(m: Mapping, bytes: seq<bv8>, capacity: nat, s: Sink) returns (s': Sink)
    requires |s.events| <= capacity
    ensures s' == match Write(s.od, AddrOf(m), bytes)
                  case Err(_) => s
                  case Ok(od') => Sink(od', Newest(s.events + [OdEvent(AddrOf(m), FromRpdo)], capacity),
                                       if |s.events| >= capacity then SatAdd(s.dropped, 1) else s.dropped)
  {
    s' := s;
    var w := Write(s.od, AddrOf(m), bytes);
    if w.Ok? {
      var events, dropped := s.events, s.dropped;
      if |events| >= capacity {
        events := if events == [] then events else events[1..];
        dropped := SatAdd(dropped, 1);
      }
      if |events| < capacity {
        events := events + [OdEvent(AddrOf(m), FromRpdo)];
      }
      s' := Sink(w.value, events, dropped);
    }
  }
}
