/**
 The master-side PDO codec generated from an EDS: a second implementation of
 the wire layout, with its own running offsets and its own widening.

 A payload field is kept as the little-endian bytes of its Rust value
 (`to_le_bytes`); a 24-bit integer occupies four of them.
 */
module PdoCodec {
  import opened Types
  import opened PdoBits
  import opened ObjectDictionary
  import opened PdoWire
  import opened PdoMeaning

  /** An entry of the flattened dictionary: its field name, address and type. */
  datatype FlatEntry = FlatEntry(name: string, addr: Addr, dtype: DataType)

  datatype MappedField = MappedField(name: string, dtype: DataType, bitOffset: nat, bitLength: nat)

  datatype LayoutError = UnknownAddress | UnsupportedType | TooWide | DuplicateField

  datatype Layout = Fields(fields: seq<MappedField>) | Rejected(error: LayoutError)

  /** Types the codec supports. */
  predicate Supported(t: DataType) {
    Size(t).Some? && !t.I64? && !t.U64Type?
  }

  /** Object width in bits; a boolean counts as a whole byte. */
  function WireBits(t: DataType): nat
    requires Supported(t)
  {
    8 * Size(t).value
  }

  /** Bytes of the Rust value of a supported type. */
  function ReprSize(t: DataType): nat
    requires Supported(t)
  {
    if t.I24? || t.U24? then 4 else Size(t).value
  }

  /** Index of the first entry at an address. */
  function Find(flat: seq<FlatEntry>, a: Addr): (r: Option<nat>)
    ensures r.Some? ==> r.value < |flat| && flat[r.value].addr == a && forall j :: 0 <= j < r.value ==> flat[j].addr != a
    ensures r.None? ==> forall j :: 0 <= j < |flat| ==> flat[j].addr != a
  {
    if flat == [] then None
    else match Find(flat[..|flat| - 1], a)
      case Some(i) => Some(i)
      case None => if flat[|flat| - 1].addr == a then Some(|flat| - 1) else None
  }

  /** What the codec demands of one mapping entry on its own. */
  predicate EntryAccepted(flat: seq<FlatEntry>, m: Mapping) {
    Find(flat, AddrOf(m)).Some?
    && Supported(flat[Find(flat, AddrOf(m)).value].dtype)
    && m.bits <= WireBits(flat[Find(flat, AddrOf(m)).value].dtype)
  }

  function EntryFor(flat: seq<FlatEntry>, m: Mapping): FlatEntry
    requires EntryAccepted(flat, m)
  {
    flat[Find(flat, AddrOf(m)).value]
  }

  /** The field of entry `i`, at the engine's offset. */
  function FieldFor(ms: seq<Mapping>, flat: seq<FlatEntry>, i: nat): MappedField
    requires i < |ms| && EntryAccepted(flat, ms[i])
  {
    MappedField(EntryFor(flat, ms[i]).name, EntryFor(flat, ms[i]).dtype, Offset(ms, i), ms[i].bits)
  }

  predicate NameTaken(fields: seq<MappedField>, name: string) {
    exists j :: 0 <= j < |fields| && fields[j].name == name
  }

  /** Every real entry is accepted and no two share a field name. */
  predicate Layable(ms: seq<Mapping>, flat: seq<FlatEntry>) {
    (forall i :: 0 <= i < |ms| && !IsDummy(ms[i]) ==> EntryAccepted(flat, ms[i]))
    && forall i, j :: 0 <= i < j < |ms| && !IsDummy(ms[i]) && !IsDummy(ms[j]) ==>
         EntryFor(flat, ms[i]).name != EntryFor(flat, ms[j]).name
  }

  /** The layout of the first `k` entries. */
  function LayoutOf(ms: seq<Mapping>, flat: seq<FlatEntry>, k: nat): seq<MappedField>
    requires k <= |ms| && forall i :: 0 <= i < k && !IsDummy(ms[i]) ==> EntryAccepted(flat, ms[i])
  {
    if k == 0 then []
    else LayoutOf(ms, flat, k - 1) + if IsDummy(ms[k - 1]) then [] else [FieldFor(ms, flat, k - 1)]
  }

  lemma {:induction false} NameTakenBy(ms: seq<Mapping>, flat: seq<FlatEntry>, k: nat, name: string)
    requires k <= |ms| && forall i :: 0 <= i < k && !IsDummy(ms[i]) ==> EntryAccepted(flat, ms[i])
    ensures NameTaken(LayoutOf(ms, flat, k), name) <==>
              exists i :: 0 <= i < k && !IsDummy(ms[i]) && EntryFor(flat, ms[i]).name == name
  {
    if k > 0 {
      NameTakenBy(ms, flat, k - 1, name);
      var before, after := LayoutOf(ms, flat, k - 1), LayoutOf(ms, flat, k);
      assert forall j :: 0 <= j < |before| ==> after[j] == before[j];
      if !IsDummy(ms[k - 1]) {
        assert after[|before|] == FieldFor(ms, flat, k - 1);
      }
    }
  }

  /**
   Lays out a mapping list with a running offset. It succeeds exactly on the
   layable lists, and then its offsets are the engine's.
   */
  method MappedFields(ms: seq<Mapping>, flat: seq<FlatEntry>) returns (r: Layout)
    ensures r.Fields? <==> Layable(ms, flat)
    ensures r.Fields? ==> r.fields == LayoutOf(ms, flat, |ms|)
  {
    var fields := [];
    var bitOffset := 0;
    for k := 0 to |ms|
      invariant bitOffset == Offset(ms, k)
      invariant forall i :: 0 <= i < k && !IsDummy(ms[i]) ==> EntryAccepted(flat, ms[i])
      invariant forall i, j :: 0 <= i < j < k && !IsDummy(ms[i]) && !IsDummy(ms[j]) ==>
                  EntryFor(flat, ms[i]).name != EntryFor(flat, ms[j]).name
      invariant fields == LayoutOf(ms, flat, k)
    {
      var m := ms[k];
      OffsetStep(ms, k);
      if !IsDummy(m) {
        var found := Find(flat, AddrOf(m));
        if found.None? {
          return Rejected(UnknownAddress);
        }
        var entry := flat[found.value];
        if !Supported(entry.dtype) {
          return Rejected(UnsupportedType);
        }
        if m.bits > WireBits(entry.dtype) {
          return Rejected(TooWide);
        }
        NameTakenBy(ms, flat, k, entry.name);
        if NameTaken(fields, entry.name) {
          return Rejected(DuplicateField);
        }
        fields := fields + [MappedField(entry.name, entry.dtype, bitOffset, m.bits)];
      }
      bitOffset := bitOffset + m.bits;
    }
    r := Fields(fields);
  }

  // ---- Encoding ----

  /** A value of the right width for every field. */
  predicate PayloadOk(fields: seq<MappedField>, payload: map<string, seq<bv8>>) {
    forall f <- fields :: f.name in payload && Supported(f.dtype) && |payload[f.name]| == ReprSize(f.dtype)
                          && f.bitLength <= WireBits(f.dtype) && f.bitOffset + f.bitLength <= 64
  }

  /** The 64 payload bits after encoding each field at its offset. */
  function EncodedBits(fields: seq<MappedField>, payload: map<string, seq<bv8>>): (r: seq<bool>)
    requires PayloadOk(fields, payload)
    ensures |r| == 64
  {
    if fields == [] then Zeros(64)
    else
      var f := fields[|fields| - 1];
      Splice(EncodedBits(fields[..|fields| - 1], payload), f.bitOffset, Bits(payload[f.name])[..f.bitLength])
  }

  /** Encodes a payload into eight bytes, field by field. */
  method EncodeFields(fields: seq<MappedField>, payload: map<string, seq<bv8>>) returns (data: seq<bv8>)
    requires PayloadOk(fields, payload)
    ensures |data| == 8 && Bits(data) == EncodedBits(fields, payload)
  {
    hide Bits, Splice;
    var buffer := new bv8[8](_ => 0);
    BitsOfZeros(buffer[..]);
    for j := 0 to |fields|
      invariant Bits(buffer[..]) == EncodedBits(fields[..j], payload)
    {
      assert fields[j] in fields && fields[..j + 1][..j] == fields[..j];
      CopyPdoBits(payload[fields[j].name], 0, buffer, fields[j].bitOffset, fields[j].bitLength);
    }
    assert fields[..|fields|] == fields;
    data := buffer[..];
  }

  /** The part each mapping entry contributes: the low bits of its field, zeros for a dummy. */
  function PayloadParts(ms: seq<Mapping>, flat: seq<FlatEntry>, payload: map<string, seq<bv8>>): (parts: seq<seq<bool>>)
    requires Layable(ms, flat) && PayloadOk(LayoutOf(ms, flat, |ms|), payload)
    ensures |parts| == |ms|
  {
    seq(|ms|, i requires 0 <= i < |ms| => PayloadPart(ms, flat, payload, i))
  }

  function PayloadPart(ms: seq<Mapping>, flat: seq<FlatEntry>, payload: map<string, seq<bv8>>, i: nat): (part: seq<bool>)
    requires Layable(ms, flat) && PayloadOk(LayoutOf(ms, flat, |ms|), payload) && i < |ms|
    ensures |part| == ms[i].bits
  {
    if IsDummy(ms[i]) then Zeros(ms[i].bits)
    else
      LayoutHas(ms, flat, |ms|, i);
      Bits(payload[EntryFor(flat, ms[i]).name])[..ms[i].bits]
  }

  lemma {:induction false} LayoutHas(ms: seq<Mapping>, flat: seq<FlatEntry>, k: nat, i: nat)
    requires i < k <= |ms| && forall j :: 0 <= j < k && !IsDummy(ms[j]) ==> EntryAccepted(flat, ms[j])
    ensures !IsDummy(ms[i]) ==> FieldFor(ms, flat, i) in LayoutOf(ms, flat, k)
  {
    if i < k - 1 {
      LayoutHas(ms, flat, k - 1, i);
    }
  }

  lemma {:induction false} LayoutPrefix(ms: seq<Mapping>, flat: seq<FlatEntry>, k: nat)
    requires k <= |ms| && forall j :: 0 <= j < |ms| && !IsDummy(ms[j]) ==> EntryAccepted(flat, ms[j])
    ensures LayoutOf(ms, flat, k) <= LayoutOf(ms, flat, |ms|)
    decreases |ms| - k
  {
    if k < |ms| {
      LayoutPrefix(ms, flat, k + 1);
      assert LayoutOf(ms, flat, k) <= LayoutOf(ms, flat, k + 1);
    }
  }

  /** The bits encoded for the first `k` entries are their parts laid end to end, zeros after. */
  ghost predicate EncodedSoFar(ms: seq<Mapping>, flat: seq<FlatEntry>, payload: map<string, seq<bv8>>, parts: seq<seq<bool>>, k: nat)
    requires k <= |ms| && Layable(ms, flat)
  {
    PayloadOk(LayoutOf(ms, flat, k), payload) && k <= |parts| && Offset(ms, k) <= 64
    && |Laid(parts[..k])| == Offset(ms, k)
    && EncodedBits(LayoutOf(ms, flat, k), payload) == Laid(parts[..k]) + Zeros(64 - Offset(ms, k))
  }

  lemma LayoutPayloadOk(ms: seq<Mapping>, flat: seq<FlatEntry>, payload: map<string, seq<bv8>>, k: nat)
    requires Layable(ms, flat) && PayloadOk(LayoutOf(ms, flat, |ms|), payload) && k <= |ms|
    ensures PayloadOk(LayoutOf(ms, flat, k), payload)
  {
    LayoutPrefix(ms, flat, k);
  }

  lemma EncodedNothing(ms: seq<Mapping>, flat: seq<FlatEntry>, payload: map<string, seq<bv8>>, parts: seq<seq<bool>>)
    requires Layable(ms, flat)
    ensures EncodedSoFar(ms, flat, payload, parts, 0)
  {
    assert parts[..0] == [] && Laid([]) + Zeros(64) == Zeros(64);
  }

  lemma EncodedDummy(ms: seq<Mapping>, flat: seq<FlatEntry>, payload: map<string, seq<bv8>>, parts: seq<seq<bool>>, k: nat)
    requires Layable(ms, flat) && k < |ms| && IsDummy(ms[k])
    requires EncodedSoFar(ms, flat, payload, parts, k) && k < |parts|
    requires parts[k] == Zeros(ms[k].bits) && Offset(ms, k + 1) <= 64
    ensures EncodedSoFar(ms, flat, payload, parts, k + 1)
  {
    hide EncodedBits;
    OffsetStep(ms, k);
    assert parts[..k + 1] == parts[..k] + [parts[k]];
    LaidSnoc(parts[..k], parts[k]);
    assert Zeros(64 - Offset(ms, k)) == parts[k] + Zeros(64 - Offset(ms, k + 1));
    assert LayoutOf(ms, flat, k + 1) == LayoutOf(ms, flat, k);
  }

  lemma EncodedReal(ms: seq<Mapping>, flat: seq<FlatEntry>, payload: map<string, seq<bv8>>, parts: seq<seq<bool>>, k: nat, f: MappedField)
    requires Layable(ms, flat) && k < |ms| && !IsDummy(ms[k]) && f == FieldFor(ms, flat, k)
    requires PayloadOk(LayoutOf(ms, flat, k + 1), payload)
    requires EncodedSoFar(ms, flat, payload, parts, k) && k < |parts|
    requires f.name in payload && f.bitLength <= 8 * |payload[f.name]| && Offset(ms, k + 1) <= 64
    requires parts[k] == Bits(payload[f.name])[..f.bitLength]
    ensures EncodedSoFar(ms, flat, payload, parts, k + 1)
  {
    hide Bits, EncodedBits;
    OffsetStep(ms, k);
    assert parts[..k + 1] == parts[..k] + [parts[k]];
    LaidSnoc(parts[..k], parts[k]);
    assert LayoutOf(ms, flat, k + 1) == LayoutOf(ms, flat, k) + [f];
    EncodedSnoc(LayoutOf(ms, flat, k), f, payload, Laid(parts[..k]));
  }

  lemma {:induction false} EncodedIsLaid(ms: seq<Mapping>, flat: seq<FlatEntry>, payload: map<string, seq<bv8>>, k: nat)
    requires Layable(ms, flat) && PayloadOk(LayoutOf(ms, flat, |ms|), payload)
    requires k <= |ms| && Total(ms) <= 64
    ensures EncodedSoFar(ms, flat, payload, PayloadParts(ms, flat, payload), k)
  {
    hide Bits, EncodedBits, EncodedSoFar, LayoutOf;
    var parts := PayloadParts(ms, flat, payload);
    OffsetMonotone(ms, k, |ms|);
    assert ms[..|ms|] == ms;
    if k == 0 {
      EncodedNothing(ms, flat, payload, parts);
    } else {
      EncodedIsLaid(ms, flat, payload, k - 1);
      LayoutPayloadOk(ms, flat, payload, k);
      LayoutHas(ms, flat, |ms|, k - 1);
      assert parts[k - 1] == PayloadPart(ms, flat, payload, k - 1);
      if IsDummy(ms[k - 1]) {
        EncodedDummy(ms, flat, payload, parts, k - 1);
      } else {
        EncodedReal(ms, flat, payload, parts, k - 1, FieldFor(ms, flat, k - 1));
      }
    }
  }

  lemma EncodedSnoc(fields: seq<MappedField>, f: MappedField, payload: map<string, seq<bv8>>, laid: seq<bool>)
    requires PayloadOk(fields, payload) && PayloadOk(fields + [f], payload)
    requires |laid| == f.bitOffset <= 64 && EncodedBits(fields, payload) == laid + Zeros(64 - |laid|)
    ensures f.name in payload && f.bitOffset + f.bitLength <= 64 && f.bitLength <= 8 * |payload[f.name]|
    ensures EncodedBits(fields + [f], payload)
         == laid + Bits(payload[f.name])[..f.bitLength] + Zeros(64 - f.bitOffset - f.bitLength)
  {
    hide Bits, Splice;
    var all := fields + [f];
    assert f in all && all[..|all| - 1] == fields && all[|all| - 1] == f;
    PackStep(laid, f.bitOffset, Bits(payload[f.name])[..f.bitLength]);
  }

  /** The bytes of an encoded payload: its parts laid end to end, padded to whole bytes. */
  function EncodedPayload(ms: seq<Mapping>, flat: seq<FlatEntry>, payload: map<string, seq<bv8>>): seq<bv8>
    requires Layable(ms, flat) && PayloadOk(LayoutOf(ms, flat, |ms|), payload)
  {
    FromBits(PadToByte(Laid(PayloadParts(ms, flat, payload))))
  }

  /** The generated RPDO encoder. */
  method EncodePdo(ms: seq<Mapping>, flat: seq<FlatEntry>, fields: seq<MappedField>, payload: map<string, seq<bv8>>)
      returns (data: seq<bv8>)
    requires Total(ms) <= 64 && Layable(ms, flat) && fields == LayoutOf(ms, flat, |ms|) && PayloadOk(fields, payload)
    ensures data == EncodedPayload(ms, flat, payload)
  {
    var buffer := EncodeFields(fields, payload);
    var parts := PayloadParts(ms, flat, payload);
    EncodedIsLaid(ms, flat, payload, |ms|);
    assert parts[..|ms|] == parts && ms[..|ms|] == ms;
    PayloadBytes(buffer, Laid(parts), BytesForBits(Total(ms)));
    data := buffer[..BytesForBits(Total(ms))];
  }

  /**
   One wire format, master to node: a dictionary that holds the payload builds
   byte for byte the frame the master encodes.
   */
  lemma EncoderAgreesWithEngine(cobId: nat, ms: seq<Mapping>, flat: seq<FlatEntry>, payload: map<string, seq<bv8>>, od: Od)
    requires Layable(ms, flat) && PayloadOk(LayoutOf(ms, flat, |ms|), payload) && FrameFor(cobId, ms, od).Some?
    requires forall i :: 0 <= i < |ms| ==> Field(od, ms[i]) == Some(PayloadPart(ms, flat, payload, i))
    ensures FrameFor(cobId, ms, od).value == CanFrame(cobId, EncodedPayload(ms, flat, payload))
  {
    assert FieldParts(ms, od) == PayloadParts(ms, flat, payload);
  }

  /**
   A master-encoded RPDO, once applied, leaves in every reached object the low
   bits of its payload field, extended to the object, and nothing else changes.
   */
  lemma MasterToNode(ms: seq<Mapping>, flat: seq<FlatEntry>, payload: map<string, seq<bv8>>, capacity: nat, s: Sink)
    requires Total(ms) <= 64 && Layable(ms, flat) && PayloadOk(LayoutOf(ms, flat, |ms|), payload)
    ensures |EncodedPayload(ms, flat, payload)| <= 8
    ensures var s' := ApplyPayload(ms, EncodedPayload(ms, flat, payload), capacity, s);
            SameShape(s.od, s'.od)
            && (forall i :: 0 <= i < |ms| && LastLanding(s.od, ms, |ms|, i) ==>
                  s'.od[AddrOf(ms[i])].value
                  == ValueOf(s.od[AddrOf(ms[i])].dtype, PayloadPart(ms, flat, payload, i)))
            && (forall a <- s.od :: Untouched(s.od, ms, |ms|, a) ==> s'.od[a] == s.od[a])
  {
    var parts := PayloadParts(ms, flat, payload);
    PaddedCarries(ms, parts);
    PayloadMeaning(ms, EncodedPayload(ms, flat, payload), parts, capacity, s);
  }

  // ---- Decoding ----

  /** The Rust value of an object's bytes: a 24-bit integer is widened to 32 bits. */
  function ReprBits(t: DataType, wire: seq<bool>): (r: seq<bool>)
    requires Supported(t) && |wire| == 8 * Size(t).value
    ensures |r| == 8 * ReprSize(t)
  {
    if t.U24? then wire + Zeros(8)
    else if t.I24? then wire + (if wire[23] then Ones(8) else Zeros(8))
    else wire
  }

  function Repr(t: DataType, value: seq<bv8>): (r: seq<bv8>)
    requires Supported(t) && |value| == Size(t).value
    ensures |r| == ReprSize(t)
  {
    FromBits(ReprBits(t, Bits(value)))
  }

  /** The Rust value a receiver holds for a field of type `t`. */
  function FieldValue(t: DataType, field: seq<bool>): seq<bv8>
    requires Supported(t) && |field| <= WireBits(t)
  {
    Repr(t, ValueOf(t, field))
  }

  lemma PlainRepr(t: DataType, value: seq<bv8>)
    requires Supported(t) && |value| == Size(t).value && !t.I24? && !t.U24?
    ensures Repr(t, value) == value
  {
    FromBitsOfBits(value);
  }

  lemma NotBooleanValue(t: DataType, field: seq<bool>)
    requires Supported(t) && |field| <= WireBits(t) && !t.Boolean?
    ensures |ValueOf(t, field)| == Size(t).value && Bits(ValueOf(t, field)) == WidenedBits(Some(t), field)
  {
    BitsOfFromBits(WidenedBits(Some(t), field));
  }

  lemma I24Extension(field: seq<bool>)
    requires |field| <= 24
    ensures var r := ReprBits(I24, WidenedBits(Some(I24), field));
            SignExtended(field + Zeros(32 - |field|), |field|) == r
            && (r[23] ==> forall k :: 24 <= k < 32 ==> r[k])
  {
  }

  /** The field lies within the payload. */
  predicate InPayload(f: MappedField, data: seq<bv8>) {
    Supported(f.dtype) && f.bitLength <= WireBits(f.dtype) && f.bitOffset + f.bitLength <= 8 * |data|
  }

  /** What decoding a field yields. */
  function Decoded(f: MappedField, data: seq<bv8>): seq<bv8>
    requires InPayload(f, data)
  {
    FieldValue(f.dtype, Bits(data)[f.bitOffset..f.bitOffset + f.bitLength])
  }

  /** The generated decoder of one field, widening in place. */
  method DecodeField(f: MappedField, data: seq<bv8>) returns (value: seq<bv8>)
    requires InPayload(f, data)
    ensures value == Decoded(f, data)
  {
    hide Bits, FieldValue;
    var size := ReprSize(f.dtype);
    var objectData := new bv8[size](_ => 0);
    ghost var field := Bits(data)[f.bitOffset..f.bitOffset + f.bitLength];
    BitsOfZeros(objectData[..]);
    CopyPdoBits(data, f.bitOffset, objectData, 0, f.bitLength);
    assert Bits(objectData[..]) == field + Zeros(8 * size - |field|);
    assert Decoded(f, data) == FieldValue(f.dtype, field);
    if f.dtype.Boolean? {
      BooleanDecoded(objectData[..], field);
      value := if objectData[..][0] != 0 then [1] else [0];
    } else {
      WidenNumber(f.dtype, f.bitLength, objectData, field);
      value := objectData[..];
    }
  }

  method WidenNumber(t: DataType, bits: nat, objectData: array<bv8>, ghost field: seq<bool>)
    requires Supported(t) && !t.Boolean? && |field| == bits <= WireBits(t) && objectData.Length == ReprSize(t)
    requires Bits(objectData[..]) == field + Zeros(8 * ReprSize(t) - |field|)
    modifies objectData
    ensures objectData[..] == FieldValue(t, field)
  {
    if t.I24? {
      SignExtendI24(objectData, bits, field);
    } else if Signed(t) {
      assert objectData[..ReprSize(t)] == objectData[..];
      SignExtendPdoBits(objectData, ReprSize(t), bits);
      assert objectData[..ReprSize(t)] == objectData[..];
    }
    DecodedBits(t, objectData[..], field);
  }

  lemma BooleanDecoded(objectData: seq<bv8>, field: seq<bool>)
    requires |field| <= 8 && |objectData| == 1 && Bits(objectData) == field + Zeros(8 - |field|)
    ensures FieldValue(Boolean, field) == if objectData[0] != 0 then [1] else [0]
  {
    FromBitsOfBits(objectData);
    assert WidenedBits(Some(Boolean), field) == Bits(objectData);
    PlainRepr(Boolean, ValueOf(Boolean, field));
  }

  method SignExtendI24(objectData: array<bv8>, bits: nat, ghost field: seq<bool>)
    requires objectData.Length == 4 && |field| == bits <= 24
    requires Bits(objectData[..]) == field + Zeros(32 - |field|)
    modifies objectData
    ensures Bits(objectData[..]) == ReprBits(I24, WidenedBits(Some(I24), field))
  {
    assert objectData[..4] == objectData[..];
    SignExtendPdoBits(objectData, 4, if bits < 24 then bits else 24);
    assert objectData[..4] == objectData[..];
    I24Extension(field);
    ghost var extended := objectData[..];
    if objectData[2] & 0x80 != 0 {
      TopByteSet(extended);
      objectData[3] := 0xFF;
      assert objectData[..] == extended;
    }
  }

  lemma TopByteSet(v: seq<bv8>)
    requires |v| == 4 && v[2] & 0x80 != 0
    requires Bits(v)[23] ==> forall k :: 24 <= k < 32 ==> Bits(v)[k]
    ensures v[3] == 0xFF
  {
    assert Bits(v)[23] == BitAt(v, 23) == Bit(v[2], 7);
    forall k: nat | k < 8
      ensures Bit(v[3], k) == Bit(0xFF, k)
    {
      assert Bits(v)[24 + k] == Bit(v[3], k);
      FullByte(k);
    }
    ByteByBits(v[3], 0xFF);
  }

  lemma FullByte(k: nat)
    requires k < 8
    ensures Bit(0xFF, k)
  {
  }

  lemma DecodedBits(t: DataType, objectData: seq<bv8>, field: seq<bool>)
    requires Supported(t) && !t.Boolean? && |field| <= WireBits(t) && |objectData| == ReprSize(t)
    requires Bits(objectData) == if t.I24? then ReprBits(I24, WidenedBits(Some(I24), field))
                                 else if Signed(t) then SignExtended(field + Zeros(8 * ReprSize(t) - |field|), |field|)
                                 else field + Zeros(8 * ReprSize(t) - |field|)
    ensures objectData == FieldValue(t, field)
  {
    NotBooleanValue(t, field);
    assert Bits(objectData) == ReprBits(t, WidenedBits(Some(t), field));
    FromBitsOfBits(objectData);
  }

  /**
   One wire format, node to master: decoding a node-built TPDO yields, for
   every mapped object, its value cut to the mapped width; the exact value
   whenever it fits, in particular for every full-width mapping.
   */
  lemma NodeToMaster(cobId: nat, ms: seq<Mapping>, flat: seq<FlatEntry>, od: Od, i: nat)
    requires FrameFor(cobId, ms, od).Some? && Layable(ms, flat) && WellFormed(od)
    requires i < |ms| && !IsDummy(ms[i])
    requires AddrOf(ms[i]) in od ==> od[AddrOf(ms[i])].dtype == EntryFor(flat, ms[i]).dtype
    ensures AddrOf(ms[i]) in od && ms[i].bits <= 8 * |od[AddrOf(ms[i])].value|
    ensures InPayload(FieldFor(ms, flat, i), FrameFor(cobId, ms, od).value.data)
    ensures var e, got := od[AddrOf(ms[i])], Decoded(FieldFor(ms, flat, i), FrameFor(cobId, ms, od).value.data);
            got == FieldValue(e.dtype, Bits(e.value)[..ms[i].bits])
            && (MappedValueFits(od, ms[i]) ==> got == Repr(e.dtype, e.value))
            && (ms[i].bits == 8 * |e.value| ==> got == Repr(e.dtype, e.value))
  {
    hide Bits, ValueOf, Repr, FitsIn;
    var data := FrameFor(cobId, ms, od).value.data;
    FrameFieldAt(cobId, ms, od, i);
    assert Field(od, ms[i]).Some?;
    var e := od[AddrOf(ms[i])];
    assert Field(od, ms[i]).value == Bits(e.value)[..ms[i].bits];
    var f := FieldFor(ms, flat, i);
    assert f.dtype == e.dtype && Bits(data)[f.bitOffset..f.bitOffset + f.bitLength] == Bits(e.value)[..ms[i].bits];
    SurvivesIffFits(e, ms[i].bits);
  }

  lemma FrameFieldAt(cobId: nat, ms: seq<Mapping>, od: Od, i: nat)
    requires FrameFor(cobId, ms, od).Some? && i < |ms|
    ensures var data := FrameFor(cobId, ms, od).value.data;
            Offset(ms, i) + ms[i].bits <= 8 * |data| && FieldAt(ms, Bits(data), i) == Field(od, ms[i]).value
  {
    FrameCarriesFields(cobId, ms, od);
    OffsetStep(ms, i);
    OffsetMonotone(ms, i + 1, |ms|);
    assert ms[..|ms|] == ms;
    assert FieldParts(ms, od)[i] == Field(od, ms[i]).value;
  }
}
