/**
 The generated write arms of a mutable PDO mapping record (CiA 301 dynamic
 mapping): subindex 0 is the count, subindices 1 to 64 are mapping entries
 that may change only while the count is zero.
 */
module MappingRecords {
  import opened Types
  import opened ObjectDictionary
  import opened PdoWire

  const PDO_MAX_MAPPINGS: nat := 64

  /** A mapping descriptor `0xIIIISSLL`. */
  function Decode(d: nat): Mapping {
    Mapping(d / 0x1_0000, (d / 0x100) % 0x100, d % 0x100)
  }

  function Encode(m: Mapping): nat {
    m.index * 0x1_0000 + m.sub * 0x100 + m.bits
  }

  lemma DescriptorRoundTrip(d: nat, m: Mapping)
    ensures d <= U32_MAX ==> Encode(Decode(d)) == d
    ensures m.index <= 0xFFFF && m.sub <= 0xFF && m.bits <= 0xFF ==> Encode(m) <= U32_MAX && Decode(Encode(m)) == m
  {
    if m.index <= 0xFFFF && m.sub <= 0xFF && m.bits <= 0xFF {
      var d := Encode(m);
      assert d / 0x100 == m.index * 0x100 + m.sub;
    }
  }

  /** A record's stored state: the active count and all 64 entry slots. */
  datatype Record = Record(count: nat, entries: seq<nat>)

  /** An object a PDO of this direction may map; static data types always pass. */
  predicate Eligible(od: Od, m: Mapping, receive: bool) {
    IsDummy(m)
    || (AddrOf(m) in od && od[AddrOf(m)].mappable
        && if receive then Writable(od[AddrOf(m)]) else !od[AddrOf(m)].access.Wo?)
  }

  function DecodeAll(ds: seq<nat>): (ms: seq<Mapping>)
    ensures |ms| == |ds| && forall i :: 0 <= i < |ds| ==> ms[i] == Decode(ds[i])
  {
    seq(|ds|, i requires 0 <= i < |ds| => Decode(ds[i]))
  }

  lemma DecodeAllSnoc(ds: seq<nat>, d: nat)
    ensures Total(DecodeAll(ds + [d])) == Total(DecodeAll(ds)) + d % 0x100
  {
    assert DecodeAll(ds + [d])[..|ds|] == DecodeAll(ds);
  }

  /** The first `n` entries may be activated. */
  predicate Activatable(r: Record, n: nat, od: Od, receive: bool)
    requires n <= |r.entries|
  {
    (forall j :: 0 <= j < n ==> Eligible(od, Decode(r.entries[j]), receive))
    && Total(DecodeAll(r.entries[..n])) <= PDO_MAX_PAYLOAD_BITS
  }

  /** The mapping list the node loads: the active entries in order. */
  function Active(r: Record): seq<Mapping>
    requires r.count <= |r.entries|
  {
    DecodeAll(r.entries[..r.count])
  }

  /** A record is well formed: 64 slots, and the active entries are activatable. */
  predicate RecordOk(r: Record, od: Od, receive: bool) {
    |r.entries| == PDO_MAX_MAPPINGS && r.count <= PDO_MAX_MAPPINGS && Activatable(r, r.count, od, receive)
  }

  /** Write arm of subindex 0. */
  function CountWritten(r: Record, od: Od, receive: bool, data: seq<bv8>): Result<Record>
    requires |r.entries| == PDO_MAX_MAPPINGS
  {
    if |data| != 1 then Err(DataTypeMismatch)
    else if data[0] as nat > PDO_MAX_MAPPINGS then Err(ValueRange)
    else if exists j :: 0 <= j < data[0] as nat && !Eligible(od, Decode(r.entries[j]), receive) then Err(CannotBeMapped)
    else if Total(DecodeAll(r.entries[..data[0] as nat])) > PDO_MAX_PAYLOAD_BITS then Err(ValueRange)
    else Ok(r.(count := data[0] as nat))
  }

  /** Write arm of subindex `sub` (1 to 64). */
  function EntryWritten(r: Record, sub: nat, data: seq<bv8>): Result<Record>
    requires |r.entries| == PDO_MAX_MAPPINGS && 1 <= sub <= PDO_MAX_MAPPINGS
  {
    if r.count != 0 then Err(ReadOnly)
    else if |data| != 4 then Err(DataTypeMismatch)
    else if FromLe(data) % 0x100 > PDO_MAX_PAYLOAD_BITS then Err(ValueRange)
    else Ok(r.(entries := r.entries[sub - 1 := FromLe(data)]))
  }

  /** The stored record, with its entry slots as a fixed array. */
  class MappingRecord {
    var count: nat
    const slots: array<nat>
    const receive: bool

    ghost predicate Valid()
      reads this, slots
    {
      slots.Length == PDO_MAX_MAPPINGS && count <= PDO_MAX_MAPPINGS
    }

    ghost function View(): Record
      reads this, slots
    {
      Record(count, slots[..])
    }

    /** A record with no active entries. */
    constructor (receive: bool)
      ensures Valid() && fresh(slots) && this.receive == receive && count == 0
    {
      this.receive := receive;
      slots := new nat[PDO_MAX_MAPPINGS](_ => 0);
      count := 0;
    }

    /** Checks entry after entry while summing their bits. */
    method Validate(od: Od, n: nat) returns (total: Result<nat>)
      requires Valid() && n <= PDO_MAX_MAPPINGS
      ensures total.Err? <==> exists j :: 0 <= j < n && !Eligible(od, Decode(slots[j]), receive)
      ensures total.Err? ==> total.error == CannotBeMapped
      ensures total.Ok? ==> total.value == Total(DecodeAll(slots[..n]))
    {
      var totalBits, j := 0, 0;
      while j < n
        invariant 0 <= j <= n
        invariant forall i :: 0 <= i < j ==> Eligible(od, Decode(slots[i]), receive)
        invariant totalBits == Total(DecodeAll(slots[..j]))
      {
        if !Eligible(od, Decode(slots[j]), receive) {
          return Err(CannotBeMapped);
        }
        DecodeAllSnoc(slots[..j], slots[j]);
        assert slots[..j + 1] == slots[..j] + [slots[j]];
        totalBits := totalBits + slots[j] % 0x100;
        j := j + 1;
      }
      total := Ok(totalBits);
    }

    method WriteCount(od: Od, data: seq<bv8>) returns (r: Result<()>)
      requires Valid()
      modifies this`count
      ensures Valid()
      ensures match CountWritten(old(View()), od, receive, data)
              case Ok(rec) => r.Ok? && View() == rec
              case Err(e) => r == Err(e) && View() == old(View())
    {
      if |data| != 1 {
        return Err(DataTypeMismatch);
      }
      var n := data[0] as nat;
      if n > PDO_MAX_MAPPINGS {
        return Err(ValueRange);
      }
      var total := Validate(od, n);
      assert slots[..][..n] == slots[..n];
      if total.Err? {
        return Err(total.error);
      }
      if total.value > PDO_MAX_PAYLOAD_BITS {
        return Err(ValueRange);
      }
      count := n;
      r := Ok(());
    }

    /** The mapping list the node loads from the record. */
    method Load() returns (ms: seq<Mapping>)
      requires Valid()
      ensures ms == Active(View())
    {
      ms := [];
      for j := 0 to count
        invariant ms == DecodeAll(slots[..j])
      {
        ms := ms + [Decode(slots[j])];
      }
      assert slots[..][..count] == slots[..count];
    }

    method WriteEntry(sub: nat, data: seq<bv8>) returns (r: Result<()>)
      requires Valid() && 1 <= sub <= PDO_MAX_MAPPINGS
      modifies slots
      ensures Valid()
      ensures match EntryWritten(old(View()), sub, data)
              case Ok(rec) => r.Ok? && View() == rec
              case Err(e) => r == Err(e) && View() == old(View())
    {
      if count != 0 {
        return Err(ReadOnly);
      }
      if |data| != 4 {
        return Err(DataTypeMismatch);
      }
      var mapping := FromLe(data);
      if mapping % 0x100 > PDO_MAX_PAYLOAD_BITS {
        return Err(ValueRange);
      }
      slots[sub - 1] := mapping;
      r := Ok(());
    }
  }

  // ---- Every sequence of writes ----

  /** A write reaching the dictionary: to the record, or to any other object. */
  datatype WriteOp = ToCount(data: seq<bv8>) | ToEntry(sub: nat, data: seq<bv8>) | ToObject(addr: Addr, data: seq<bv8>)

  datatype Store = Store(rec: Record, od: Od)

  function StepStore(s: Store, receive: bool, op: WriteOp): Store
    requires |s.rec.entries| == PDO_MAX_MAPPINGS
  {
    match op
    case ToCount(data) =>
      (match CountWritten(s.rec, s.od, receive, data) case Ok(rec) => s.(rec := rec) case Err(_) => s)
    case ToEntry(sub, data) =>
      if 1 <= sub <= PDO_MAX_MAPPINGS
      then match EntryWritten(s.rec, sub, data) case Ok(rec) => s.(rec := rec) case Err(_) => s
      else s
    case ToObject(a, data) =>
      match Write(s.od, a, data) case Ok(od') => s.(od := od') case Err(_) => s
  }

  function RunStore(s: Store, receive: bool, ops: seq<WriteOp>): (s': Store)
    requires |s.rec.entries| == PDO_MAX_MAPPINGS
    ensures |s'.rec.entries| == PDO_MAX_MAPPINGS
  {
    if ops == [] then s else StepStore(RunStore(s, receive, ops[..|ops| - 1]), receive, ops[|ops| - 1])
  }

  lemma EligibleIsShape(od: Od, od': Od, m: Mapping, receive: bool)
    requires SameShape(od, od')
    ensures Eligible(od, m, receive) == Eligible(od', m, receive)
  {
  }

  /** Activation succeeds exactly on a one-byte count of at most 64 whose entries are eligible and fit. */
  lemma ActivationExact(r: Record, od: Od, receive: bool, data: seq<bv8>)
    requires |r.entries| == PDO_MAX_MAPPINGS
    ensures CountWritten(r, od, receive, data).Ok? <==>
              |data| == 1 && data[0] as nat <= PDO_MAX_MAPPINGS && Activatable(r, data[0] as nat, od, receive)
  {
  }

  lemma StepKeepsRecord(s: Store, receive: bool, op: WriteOp)
    requires RecordOk(s.rec, s.od, receive)
    ensures RecordOk(StepStore(s, receive, op).rec, StepStore(s, receive, op).od, receive)
    ensures s.rec.count != 0 ==> StepStore(s, receive, op).rec.entries == s.rec.entries
  {
    var s' := StepStore(s, receive, op);
    match op {
      case ToCount(data) =>
        ActivationExact(s.rec, s.od, receive, data);
      case ToEntry(_, _) =>
        assert s'.rec.count == s.rec.count && (s.rec.count != 0 ==> s' == s);
        assert s.rec.count == 0 ==> s'.rec.entries[..0] == s.rec.entries[..0];
      case ToObject(a, data) =>
        WriteEffect(s.od, a, data);
        forall j | 0 <= j < s.rec.count
          ensures Eligible(s'.od, Decode(s.rec.entries[j]), receive)
        {
          assert SameShape(s.od, s'.od);
          EligibleIsShape(s.od, s'.od, Decode(s.rec.entries[j]), receive);
        }
    }
  }

  /**
   The remapping protocol keeps its invariant under every sequence of writes:
   the active entries are all eligible and fit one frame.
   */
  lemma {:induction false} RunKeepsRecord(s: Store, receive: bool, ops: seq<WriteOp>)
    requires RecordOk(s.rec, s.od, receive)
    ensures var s' := RunStore(s, receive, ops); RecordOk(s'.rec, s'.od, receive)
  {
    if ops != [] {
      RunKeepsRecord(s, receive, ops[..|ops| - 1]);
      StepKeepsRecord(RunStore(s, receive, ops[..|ops| - 1]), receive, ops[|ops| - 1]);
    }
  }

  /** While the count stays nonzero along a run, no entry slot changes. */
  lemma {:induction false} EntriesFrozen(s: Store, receive: bool, ops: seq<WriteOp>)
    requires RecordOk(s.rec, s.od, receive)
    requires forall n :: 0 <= n < |ops| ==> RunStore(s, receive, ops[..n]).rec.count != 0
    ensures RunStore(s, receive, ops).rec.entries == s.rec.entries
  {
    if ops != [] {
      var front := ops[..|ops| - 1];
      assert forall n :: 0 <= n < |front| ==> front[..n] == ops[..n];
      EntriesFrozen(s, receive, front);
      RunKeepsRecord(s, receive, front);
      StepKeepsRecord(RunStore(s, receive, front), receive, ops[|ops| - 1]);
    }
  }

  /**
   The unlock protocol guards the entries, not the count: a nonzero count may be
   rewritten to any other activatable count without passing through zero.
   */
  lemma CountMayChangeWhileActive(s: Store, receive: bool, n: bv8)
    requires RecordOk(s.rec, s.od, receive) && (n as nat) <= s.rec.count
    ensures StepStore(s, receive, ToCount([n])).rec == s.rec.(count := n as nat)
  {
    var k := n as nat;
    var all := DecodeAll(s.rec.entries[..s.rec.count]);
    OffsetMonotone(all, k, |all|);
    assert all[..|all|] == all && all[..k] == DecodeAll(s.rec.entries[..k]);
    ActivationExact(s.rec, s.od, receive, [n]);
  }

  /**
   What the node relies on after loading a record, transmit or receive: the
   payload length is defined and every mapped object exists with the access its
   direction needs.
   */
  lemma LoadedMappingFits(r: Record, od: Od, receive: bool)
    requires RecordOk(r, od, receive)
    ensures Total(Active(r)) <= PDO_MAX_PAYLOAD_BITS && |Active(r)| <= PDO_MAX_MAPPINGS
    ensures forall i :: 0 <= i < |Active(r)| && !IsDummy(Active(r)[i]) ==>
              AddrOf(Active(r)[i]) in od
              && (receive ==> Writable(od[AddrOf(Active(r)[i])])) && (!receive ==> !od[AddrOf(Active(r)[i])].access.Wo?)
  {
    var ms := Active(r);
    forall i | 0 <= i < |ms| && !IsDummy(ms[i])
      ensures AddrOf(ms[i]) in od
              && (receive ==> Writable(od[AddrOf(ms[i])])) && (!receive ==> !od[AddrOf(ms[i])].access.Wo?)
    {
      assert Eligible(od, Decode(r.entries[i]), receive);
    }
  }

  /**
   Building a transmit frame from a loaded record can fail only on an object
   narrower than its mapping (or longer than a frame), never on the frame
   length, on access or on a missing object.
   */
  lemma LoadedMappingWorks(r: Record, od: Od, cobId: nat)
    requires RecordOk(r, od, false) && cobId <= MAX_COB_ID
    ensures forall i :: 0 <= i < |Active(r)| && !IsDummy(Active(r)[i]) ==> AddrOf(Active(r)[i]) in od
    ensures FrameFor(cobId, Active(r), od).Some? <==>
              forall i :: 0 <= i < |Active(r)| && !IsDummy(Active(r)[i]) ==>
                Active(r)[i].bits <= 8 * |od[AddrOf(Active(r)[i])].value| <= 64
  {
    var ms := Active(r);
    LoadedMappingFits(r, od, false);
    FrameForExists(cobId, ms, od);
    forall i | 0 <= i < |ms|
      ensures Field(od, ms[i]).Some? <==> IsDummy(ms[i]) || ms[i].bits <= 8 * |od[AddrOf(ms[i])].value| <= 64
    {
      assert !IsDummy(ms[i]) ==> AddrOf(ms[i]) in od;
    }
  }
}
