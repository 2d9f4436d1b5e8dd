/**
 What a PDO means: a frame built by one node and applied by another carries
 the low bits of every mapped object, in order, and nothing else.
 */
module PdoMeaning {
  import opened Types
  import opened PdoBits
  import opened ObjectDictionary
  import opened PdoWire

  // ---- The frame ----

  /** Part `i` of a payload laid along a mapping list sits at that entry's offset. */
  lemma {:induction false} LaidField(ms: seq<Mapping>, parts: seq<seq<bool>>, i: nat)
    requires Shaped(ms, parts) && i < |parts|
    ensures Offset(ms, i) + ms[i].bits <= |Laid(parts)|
    ensures FieldAt(ms, Laid(parts), i) == parts[i]
  {
    var n := |parts| - 1;
    var front, part := Laid(parts[..n]), parts[n];
    LaidLength(ms, parts[..n]);
    if i < n {
      LaidField(ms, parts[..n], i);
      FieldAtPrefix(ms, front, part, i);
    } else {
      assert (front + part)[|front|..|front| + |part|] == part;
    }
  }

  lemma FieldAtPrefix(ms: seq<Mapping>, front: seq<bool>, rest: seq<bool>, i: nat)
    requires i < |ms| && Offset(ms, i) + ms[i].bits <= |front|
    ensures FieldAt(ms, front + rest, i) == FieldAt(ms, front, i)
  {
  }

  /** A payload: bytes whose field at each mapping entry is the given part. */
  predicate Carries(ms: seq<Mapping>, data: seq<bv8>, parts: seq<seq<bool>>) {
    |data| <= 8 && Total(ms) <= 8 * |data| && |parts| == |ms| && Shaped(ms, parts)
    && forall i :: 0 <= i < |ms| ==> FieldAt(ms, Bits(data), i) == parts[i]
  }

  lemma PaddedCarries(ms: seq<Mapping>, parts: seq<seq<bool>>)
    requires |parts| == |ms| && Shaped(ms, parts) && Total(ms) <= 64
    ensures |Laid(parts)| == Total(ms)
    ensures Carries(ms, FromBits(PadToByte(Laid(parts))), parts)
  {
    hide Bits, FromBits, FieldAt;
    var laid := Laid(parts);
    LaidLength(ms, parts);
    assert ms[..|ms|] == ms;
    BitsOfFromBits(PadToByte(laid));
    forall i | 0 <= i < |ms|
      ensures FieldAt(ms, PadToByte(laid), i) == parts[i]
    {
      LaidField(ms, parts, i);
      FieldAtPrefix(ms, laid, Zeros(8 * BytesForBits(|laid|) - |laid|), i);
    }
  }

  /** Every field of a built frame sits at its mapping offset. */
  lemma FrameCarriesFields(cobId: nat, ms: seq<Mapping>, od: Od)
    requires FrameFor(cobId, ms, od).Some?
    ensures Carries(ms, FrameFor(cobId, ms, od).value.data, FieldParts(ms, od))
  {
    PaddedCarries(ms, FieldParts(ms, od));
  }

  // ---- The receiver ----

  /** A mapping entry that reaches its object: the object exists, is writable and is wide enough. */
  predicate Lands(od: Od, m: Mapping) {
    !IsDummy(m) && AddrOf(m) in od && Writable(od[AddrOf(m)])
    && match Size(od[AddrOf(m)].dtype)
       case Some(n) => n >= BytesForBits(m.bits)
       case None => BytesForBits(m.bits) <= od[AddrOf(m)].capacity
  }

  /** Entry `i` is the last of the first `k` that reaches its object. */
  predicate LastLanding(od: Od, ms: seq<Mapping>, k: nat, i: nat)
    requires k <= |ms|
  {
    i < k && Lands(od, ms[i])
    && forall j :: i < j < k && Lands(od, ms[j]) ==> AddrOf(ms[j]) != AddrOf(ms[i])
  }

  predicate Untouched(od: Od, ms: seq<Mapping>, k: nat, a: Addr)
    requires k <= |ms|
  {
    forall j :: 0 <= j < k && Lands(od, ms[j]) ==> AddrOf(ms[j]) != a
  }

  /** The value an object of type `t` holds after receiving `field`. */
  function ValueOf(t: DataType, field: seq<bool>): seq<bv8> {
    Stored(t, Widened(Some(t), field))
  }

  lemma LandsIsShape(od: Od, od': Od, m: Mapping)
    requires SameShape(od, od')
    ensures Lands(od, m) == Lands(od', m)
    ensures TypeAt(od, AddrOf(m)) == TypeAt(od', AddrOf(m))
  {
  }

  lemma ReceivedEffect(m: Mapping, field: seq<bool>, capacity: nat, s: Sink)
    requires |field| == m.bits
    ensures var s' := Received(m, field, capacity, s);
            SameShape(s.od, s'.od) && (!Lands(s.od, m) ==> s' == s)
            && (Lands(s.od, m) ==>
                  s'.od == s.od[AddrOf(m) := s.od[AddrOf(m)].(value := ValueOf(s.od[AddrOf(m)].dtype, field))]
                  && s'.events == Newest(s.events + [OdEvent(AddrOf(m), FromRpdo)], capacity)
                  && s'.dropped == if |s.events| >= capacity then SatAdd(s.dropped, 1) else s.dropped)
  {
    hide Bits, FromBits;
    var a := AddrOf(m);
    var bytes := Widened(TypeAt(s.od, a), field);
    assert |bytes| == Width(TypeAt(s.od, a), m.bits);
    WriteEffect(s.od, a, bytes);
  }

  lemma {:induction false} AppliedShape(ms: seq<Mapping>, bits: seq<bool>, k: nat, capacity: nat, s: Sink)
    requires k <= |ms| && Offset(ms, k) <= |bits| <= 64
    ensures SameShape(s.od, Applied(ms, bits, k, capacity, s).od)
  {
    hide Received;
    if k > 0 {
      OffsetStep(ms, k - 1);
      AppliedShape(ms, bits, k - 1, capacity, s);
      ReceivedEffect(ms[k - 1], FieldAt(ms, bits, k - 1), capacity,
                     Applied(ms, bits, k - 1, capacity, s));
    }
  }

  /** After `k` entries, an object holds the field of the last entry that reached it, and keeps its value if none did. */
  lemma {:induction false} AppliedValue(ms: seq<Mapping>, bits: seq<bool>, k: nat, capacity: nat, s: Sink, a: Addr)
    requires k <= |ms| && Offset(ms, k) <= |bits| <= 64 && a in s.od
    ensures a in Applied(ms, bits, k, capacity, s).od
    ensures Untouched(s.od, ms, k, a) ==> Applied(ms, bits, k, capacity, s).od[a] == s.od[a]
    ensures forall i :: 0 <= i < k && LastLanding(s.od, ms, k, i) && AddrOf(ms[i]) == a ==>
              Applied(ms, bits, k, capacity, s).od[a].value == ValueOf(s.od[a].dtype, FieldAt(ms, bits, i))
  {
    hide Received, ValueOf, Lands;
    if k > 0 {
      var m := ms[k - 1];
      OffsetStep(ms, k - 1);
      AppliedValue(ms, bits, k - 1, capacity, s, a);
      AppliedShape(ms, bits, k - 1, capacity, s);
      var mid := Applied(ms, bits, k - 1, capacity, s);
      ReceivedEffect(m, FieldAt(ms, bits, k - 1), capacity, mid);
      LandsIsShape(s.od, mid.od, m);
      forall i | 0 <= i < k && LastLanding(s.od, ms, k, i) && AddrOf(ms[i]) == a
        ensures Applied(ms, bits, k, capacity, s).od[a].value == ValueOf(s.od[a].dtype, FieldAt(ms, bits, i))
      {
        if i < k - 1 {
          assert LastLanding(s.od, ms, k - 1, i);
          assert !(Lands(s.od, m) && AddrOf(m) == a);
        }
      }
    }
  }

  /**
   Applying a payload: each reached object takes its part, sign- or
   zero-extended to the object; every other object keeps its value, and no
   object changes type.
   */
  lemma PayloadMeaning(ms: seq<Mapping>, data: seq<bv8>, parts: seq<seq<bool>>, capacity: nat, s: Sink)
    requires Carries(ms, data, parts)
    ensures var s' := ApplyPayload(ms, data, capacity, s);
            SameShape(s.od, s'.od)
            && (forall i :: 0 <= i < |ms| && LastLanding(s.od, ms, |ms|, i) ==>
                  s'.od[AddrOf(ms[i])].value == ValueOf(s.od[AddrOf(ms[i])].dtype, parts[i]))
            && (forall a <- s.od :: Untouched(s.od, ms, |ms|, a) ==> s'.od[a] == s.od[a])
  {
    hide Bits, ValueOf;
    assert ms[..|ms|] == ms;
    AppliedShape(ms, Bits(data), |ms|, capacity, s);
    forall a | a in s.od
      ensures var s' := ApplyPayload(ms, data, capacity, s);
              (Untouched(s.od, ms, |ms|, a) ==> s'.od[a] == s.od[a])
              && forall i :: 0 <= i < |ms| && LastLanding(s.od, ms, |ms|, i) && AddrOf(ms[i]) == a ==>
                   s'.od[a].value == ValueOf(s.od[a].dtype, parts[i])
    {
      AppliedValue(ms, Bits(data), |ms|, capacity, s, a);
    }
  }

  /**
   Packing preserves meaning. For any two mapping lists of equal widths, a
   frame built from the first and applied along the second leaves in each
   reached object the sender's bits, extended to the object; an entry the
   sender leaves dummy delivers zeros; nothing else changes.
   */
  lemma TransferPreservesMeaning(cobId: nat, tx: seq<Mapping>, txOd: Od, rx: seq<Mapping>, capacity: nat, s: Sink)
    requires FrameFor(cobId, tx, txOd).Some?
    requires |tx| == |rx| && forall i :: 0 <= i < |tx| ==> tx[i].bits == rx[i].bits
    ensures |FrameFor(cobId, tx, txOd).value.data| <= 8
    ensures var s' := ApplyPayload(rx, FrameFor(cobId, tx, txOd).value.data, capacity, s);
            SameShape(s.od, s'.od)
            && (forall i :: 0 <= i < |rx| && LastLanding(s.od, rx, |rx|, i) ==>
                  s'.od[AddrOf(rx[i])].value
                  == ValueOf(s.od[AddrOf(rx[i])].dtype, Field(txOd, tx[i]).value))
            && (forall a <- s.od :: Untouched(s.od, rx, |rx|, a) ==> s'.od[a] == s.od[a])
  {
    hide Bits, ValueOf, ApplyPayload, LastLanding, Untouched;
    var data, parts := FrameFor(cobId, tx, txOd).value.data, FieldParts(tx, txOd);
    FrameCarriesFields(cobId, tx, txOd);
    SameWidthsCarry(tx, rx, data, parts);
    PayloadMeaning(rx, data, parts, capacity, s);
  }

  /** A payload reads the same along any mapping list of the same widths. */
  lemma SameWidthsCarry(tx: seq<Mapping>, rx: seq<Mapping>, data: seq<bv8>, parts: seq<seq<bool>>)
    requires |tx| == |rx| && (forall i :: 0 <= i < |tx| ==> tx[i].bits == rx[i].bits) && Carries(tx, data, parts)
    ensures Carries(rx, data, parts)
  {
    hide Bits;
    SameBitsSameOffsets(tx, rx, |tx|);
    assert tx[..|tx|] == tx && rx[..|rx|] == rx;
    forall i | 0 <= i < |rx|
      ensures FieldAt(rx, Bits(data), i) == parts[i]
    {
      SameBitsSameOffsets(tx, rx, i);
      assert FieldAt(rx, Bits(data), i) == FieldAt(tx, Bits(data), i);
    }
  }

  // ---- When the value survives ----

  /** Every bit from `bits` on repeats the sign (signed) or is zero. */
  predicate FitsIn(t: DataType, value: seq<bool>, bits: nat)
    requires bits <= |value|
  {
    forall k :: bits <= k < |value| ==> value[k] == (Signed(t) && bits > 0 && value[bits - 1])
  }

  lemma WidenedLowBits(t: DataType, value: seq<bool>, bits: nat)
    requires Size(t).Some? && |value| == 8 * Size(t).value && bits <= |value|
    ensures WidenedBits(Some(t), value[..bits]) == value <==> FitsIn(t, value, bits)
    ensures bits == |value| ==> FitsIn(t, value, bits)
  {
    var w := WidenedBits(Some(t), value[..bits]);
    assert |w| == |value|;
    assert w[..bits] == value[..bits];
    assert forall k :: bits <= k < |value| ==> w[k] == (Signed(t) && bits > 0 && value[bits - 1]);
    if FitsIn(t, value, bits) {
      forall k | 0 <= k < |value| ensures w[k] == value[k] {
        if k < bits {
          assert w[..bits][k] == value[..bits][k];
        }
      }
    }
  }

  lemma BooleanBits(v: seq<bv8>)
    requires |v| == 1 && (v[0] == 0 || v[0] == 1)
    ensures forall k :: 1 <= k < 8 ==> !Bits(v)[k]
  {
    if v[0] == 1 {
      assert forall k :: 1 <= k < 8 ==> 1 & Mask(k) == 0;
    }
  }

  /** A canonical boolean cut to any width is still canonical, so storing it changes nothing. */
  lemma BooleanCut(v: seq<bv8>, bits: nat)
    requires |v| == 1 && (v[0] == 0 || v[0] == 1) && bits <= 8
    ensures ValueOf(Boolean, Bits(v)[..bits]) == Widened(Some(Boolean), Bits(v)[..bits])
  {
    BooleanBits(v);
    var w := WidenedBits(Some(Boolean), Bits(v)[..bits]);
    if bits == 0 {
      BitsOfZeros([0]);
      assert w == Bits([0]);
      FromBitsOfBits([0]);
    } else {
      assert w == Bits(v);
      FromBitsOfBits(v);
    }
  }

  /**
   An object survives a mapping of `bits` bits exactly when its value fits in
   them; in particular every full-width mapping reproduces it.
   */
  lemma SurvivesIffFits(e: Entry, bits: nat)
    requires Size(e.dtype).Some? && EntryOk(e) && bits <= 8 * |e.value|
    ensures ValueOf(e.dtype, Bits(e.value)[..bits]) == e.value <==> FitsIn(e.dtype, Bits(e.value), bits)
    ensures bits == 8 * |e.value| ==> ValueOf(e.dtype, Bits(e.value)[..bits]) == e.value
  {
    hide Bits, FromBits, WidenedBits, FitsIn;
    var w := WidenedBits(Some(e.dtype), Bits(e.value)[..bits]);
    WidenedLowBits(e.dtype, Bits(e.value), bits);
    BitsOfFromBits(w);
    FromBitsOfBits(e.value);
    assert Widened(Some(e.dtype), Bits(e.value)[..bits]) == e.value <==> w == Bits(e.value);
    if e.dtype.Boolean? {
      BooleanCut(e.value, bits);
    }
  }

  /** The mapped value of entry `i` fits in its mapped width. */
  predicate MappedValueFits(od: Od, m: Mapping)
    requires AddrOf(m) in od
  {
    m.bits <= 8 * |od[AddrOf(m)].value| && FitsIn(od[AddrOf(m)].dtype, Bits(od[AddrOf(m)].value), m.bits)
  }

  lemma LoopbackObject(cobId: nat, ms: seq<Mapping>, capacity: nat, s: Sink, i: nat)
    requires WellFormed(s.od) && FrameFor(cobId, ms, s.od).Some?
    requires i < |ms| && LastLanding(s.od, ms, |ms|, i) && Size(s.od[AddrOf(ms[i])].dtype).Some?
    ensures |FrameFor(cobId, ms, s.od).value.data| <= 8
    ensures var od' := ApplyPayload(ms, FrameFor(cobId, ms, s.od).value.data, capacity, s).od;
            AddrOf(ms[i]) in od'
            && (od'[AddrOf(ms[i])] == s.od[AddrOf(ms[i])] <==> MappedValueFits(s.od, ms[i]))
  {
    hide Bits, ValueOf;
    TransferPreservesMeaning(cobId, ms, s.od, ms, capacity, s);
    assert Field(s.od, ms[i]).Some?;
    SurvivesIffFits(s.od[AddrOf(ms[i])], ms[i].bits);
  }

  /**
   A frame applied back to the dictionary it was built from leaves it unchanged
   exactly when every mapped value fits in its mapped width (only the last
   entry that reaches an object counts).
   */
  lemma LoopbackIsIdentity(cobId: nat, ms: seq<Mapping>, capacity: nat, s: Sink)
    requires WellFormed(s.od) && FrameFor(cobId, ms, s.od).Some?
    requires forall i :: 0 <= i < |ms| && Lands(s.od, ms[i]) ==> Size(s.od[AddrOf(ms[i])].dtype).Some?
    ensures |FrameFor(cobId, ms, s.od).value.data| <= 8
    ensures ApplyPayload(ms, FrameFor(cobId, ms, s.od).value.data, capacity, s).od == s.od <==>
              forall i :: 0 <= i < |ms| && LastLanding(s.od, ms, |ms|, i) ==> MappedValueFits(s.od, ms[i])
  {
    TransferPreservesMeaning(cobId, ms, s.od, ms, capacity, s);
    var od' := ApplyPayload(ms, FrameFor(cobId, ms, s.od).value.data, capacity, s).od;
    forall i | 0 <= i < |ms| && LastLanding(s.od, ms, |ms|, i)
      ensures AddrOf(ms[i]) in od'
      ensures od'[AddrOf(ms[i])] == s.od[AddrOf(ms[i])] <==> MappedValueFits(s.od, ms[i])
    {
      LoopbackObject(cobId, ms, capacity, s, i);
    }
    if forall i :: 0 <= i < |ms| && LastLanding(s.od, ms, |ms|, i) ==> MappedValueFits(s.od, ms[i]) {
      forall a | a in s.od
        ensures od'[a] == s.od[a]
      {
        LastExists(s.od, ms, |ms|, a);
      }
    }
  }

  lemma {:induction false} LastExists(od: Od, ms: seq<Mapping>, k: nat, a: Addr)
    requires k <= |ms|
    ensures Untouched(od, ms, k, a) || exists i :: 0 <= i < k && LastLanding(od, ms, k, i) && AddrOf(ms[i]) == a
  {
    hide Lands;
    if k > 0 {
      if Lands(od, ms[k - 1]) && AddrOf(ms[k - 1]) == a {
        assert LastLanding(od, ms, k, k - 1);
      } else {
        hide LastLanding, Untouched;
        LastExists(od, ms, k - 1, a);
        StillUntouched(od, ms, k, a);
        if !Untouched(od, ms, k - 1, a) {
          var i :| 0 <= i < k - 1 && LastLanding(od, ms, k - 1, i) && AddrOf(ms[i]) == a;
          StillLast(od, ms, k, i);
        }
      }
    }
  }

  lemma StillUntouched(od: Od, ms: seq<Mapping>, k: nat, a: Addr)
    requires 0 < k <= |ms| && !(Lands(od, ms[k - 1]) && AddrOf(ms[k - 1]) == a)
    ensures Untouched(od, ms, k - 1, a) ==> Untouched(od, ms, k, a)
  {
    hide Lands;
  }

  lemma StillLast(od: Od, ms: seq<Mapping>, k: nat, i: nat)
    requires 0 < k <= |ms| && LastLanding(od, ms, k - 1, i) && !(Lands(od, ms[k - 1]) && AddrOf(ms[k - 1]) == AddrOf(ms[i]))
    ensures LastLanding(od, ms, k, i)
  {
    hide Lands;
  }

  // ---- Events ----

  /** One event per entry that reaches its object, in mapping order. */
  function LandingEvents(od: Od, ms: seq<Mapping>, k: nat): seq<OdEvent>
    requires k <= |ms|
  {
    if k == 0 then []
    else LandingEvents(od, ms, k - 1) + if Lands(od, ms[k - 1]) then [OdEvent(AddrOf(ms[k - 1]), FromRpdo)] else []
  }

  lemma ReceivedEvents(m: Mapping, field: seq<bool>, capacity: nat, s: Sink, all: seq<OdEvent>, dropped: nat)
    requires |field| == m.bits && dropped <= U32_MAX && Conserved(s.events, s.dropped, all, dropped, capacity)
    ensures var s' := Received(m, field, capacity, s);
            Conserved(s'.events, s'.dropped, all + if Lands(s.od, m) then [OdEvent(AddrOf(m), FromRpdo)] else [],
                      dropped, capacity)
  {
    hide Received, ValueOf;
    ReceivedEffect(m, field, capacity, s);
    if Lands(s.od, m) {
      OneMoreEvent(s.events, s.dropped, all, dropped, capacity, OdEvent(AddrOf(m), FromRpdo));
    } else {
      assert all + [] == all;
    }
  }

  /** The queue keeps the newest events and the overflow count accounts for every other one. */
  lemma {:induction false} EventsAreConserved(ms: seq<Mapping>, bits: seq<bool>, k: nat, capacity: nat, s: Sink)
    requires k <= |ms| && Offset(ms, k) <= |bits| <= 64 && |s.events| <= capacity && s.dropped <= U32_MAX
    ensures var s' := Applied(ms, bits, k, capacity, s);
            Conserved(s'.events, s'.dropped, s.events + LandingEvents(s.od, ms, k), s.dropped, capacity)
  {
    hide Received;
    if k == 0 {
      assert s.events + [] == s.events;
    } else {
      OffsetStep(ms, k - 1);
      EventsAreConserved(ms, bits, k - 1, capacity, s);
      AppliedShape(ms, bits, k - 1, capacity, s);
      var mid := Applied(ms, bits, k - 1, capacity, s);
      LandsIsShape(s.od, mid.od, ms[k - 1]);
      var all := s.events + LandingEvents(s.od, ms, k - 1);
      ReceivedEvents(ms[k - 1], FieldAt(ms, bits, k - 1), capacity, mid, all, s.dropped);
      assert s.events + LandingEvents(s.od, ms, k)
          == all + if Lands(s.od, ms[k - 1]) then [OdEvent(AddrOf(ms[k - 1]), FromRpdo)] else [];
    }
  }
}
