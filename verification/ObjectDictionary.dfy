/**
 The object dictionary as the generated read and write arms treat it: a map
 from (index, subindex) to typed little-endian bytes.
 */
module ObjectDictionary {
  import opened Types

  datatype DataType =
    | Boolean | I8 | I16 | I24 | I32 | I64 | U8 | U16 | U24 | U32 | U64Type | Real32 | Real64
    | VisibleString | OctetString | Domain

  /** Size in bytes of a fixed-size type. */
  function Size(t: DataType): (r: Option<nat>)
    ensures r.Some? ==> 1 <= r.value <= 8
  {
    match t
    case Boolean => Some(1)
    case U8 => Some(1)
    case I8 => Some(1)
    case U16 => Some(2)
    case I16 => Some(2)
    case U24 => Some(3)
    case I24 => Some(3)
    case U32 => Some(4)
    case I32 => Some(4)
    case Real32 => Some(4)
    case U64Type => Some(8)
    case I64 => Some(8)
    case Real64 => Some(8)
    case _ => None
  }

  predicate Signed(t: DataType) {
    t.I8? || t.I16? || t.I24? || t.I32? || t.I64?
  }

  datatype Access = Ro | Wo | Rw | Const

  datatype Addr = Addr(index: nat, sub: nat)

  /** One object: its metadata, the capacity of a variable-length object, its bytes. */
  datatype Entry = Entry(dtype: DataType, access: Access, mappable: bool, capacity: nat, value: seq<bv8>)

  type Od = map<Addr, Entry>

  datatype OdError = NotFound | ReadOnly | WriteOnly | DataTypeMismatch | ValueTooLong | ValueRange | CannotBeMapped

  datatype Result<+T> = Ok(value: T) | Err(error: OdError)

  predicate Writable(e: Entry) {
    e.access.Wo? || e.access.Rw?
  }

  /** The bytes an object stores for a write of `data`: a boolean keeps only zero or one. */
  function Stored(t: DataType, data: seq<bv8>): seq<bv8> {
    if t.Boolean? && |data| == 1 && data[0] != 0 then [1] else data
  }

  predicate EntryOk(e: Entry) {
    match Size(e.dtype)
    case Some(n) => |e.value| == n && (e.dtype.Boolean? ==> e.value[0] == 0 || e.value[0] == 1)
    case None => |e.value| <= e.capacity
  }

  predicate WellFormed(od: Od) {
    forall a <- od :: EntryOk(od[a])
  }

  /** Generated read arm into a buffer of `room` bytes. */
  function Read(od: Od, a: Addr, room: nat): Result<seq<bv8>> {
    if a !in od then Err(NotFound)
    else if od[a].access.Wo? then Err(WriteOnly)
    else if |od[a].value| > room then Err(ValueTooLong)
    else Ok(od[a].value)
  }

  /** Generated write arm. */
  function Write(od: Od, a: Addr, data: seq<bv8>): Result<Od> {
    if a !in od then Err(NotFound)
    else if !Writable(od[a]) then Err(ReadOnly)
    else match Size(od[a].dtype)
      case Some(n) =>
        if |data| != n then Err(DataTypeMismatch)
        else Ok(od[a := od[a].(value := Stored(od[a].dtype, data))])
      case None =>
        if |data| > od[a].capacity then Err(ValueTooLong)
        else Ok(od[a := od[a].(value := data)])
  }

  /** Same objects with the same metadata; values may differ. */
  predicate SameShape(od: Od, od': Od) {
    od.Keys == od'.Keys && forall a <- od :: od'[a] == od[a].(value := od'[a].value)
  }

  /** A write succeeds exactly on a writable object of matching width, and then changes that object alone. */
  lemma WriteEffect(od: Od, a: Addr, data: seq<bv8>)
    ensures Write(od, a, data).Ok? <==>
              a in od && Writable(od[a])
              && match Size(od[a].dtype) case Some(n) => |data| == n case None => |data| <= od[a].capacity
    ensures Write(od, a, data).Ok? ==>
              var od' := Write(od, a, data).value;
              SameShape(od, od') && od'[a].value == Stored(od[a].dtype, data)
              && (forall b <- od :: b != a ==> od'[b] == od[b])
              && (WellFormed(od) ==> WellFormed(od'))
  {
  }
}
