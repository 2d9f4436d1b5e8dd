/**
 Dispatch of received TPDOs in the generated master client: COB-ID
 resolution, the compile-time and run-time collision checks, and `decode`.
 */
module PdoDispatch {
  import opened Types

  datatype CobIdSpec = Absolute(raw: nat) | NodeRelative(raw: nat)

  datatype Direction = Tpdo | Rpdo

  /** A PDO declaration with a non-empty mapping; `cobId` as written in the EDS. */
  datatype PdoDef = PdoDef(direction: Direction, number: nat, cobId: Option<CobIdSpec>, payloadBytes: nat)

  const FLAG_DISABLED: nat := 0x8000_0000
  const FLAGS_BASE: nat := 0x4000_0000
  const FLAG_29BIT: nat := 0x2000_0000

  /** `raw & 0x3fff_ffff`: drops the valid and RTR flags. */
  function MaskFlags(s: CobIdSpec): CobIdSpec {
    s.(raw := s.raw % FLAGS_BASE)
  }

  /** The declared COB-ID without flags, or the predefined one of PDO 1 to 4. */
  function EffectiveSpec(p: PdoDef): Option<CobIdSpec> {
    match p.cobId
    case Some(s) => Some(MaskFlags(s))
    case None =>
      if 1 <= p.number <= 4
      then Some(NodeRelative(0x100 * p.number + if p.direction.Tpdo? then 0x80 else 0x100))
      else None
  }

  predicate Disabled(p: PdoDef) {
    p.cobId.Some? && (p.cobId.value.raw / FLAG_DISABLED) % 2 == 1
  }

  /** The COB-ID expression of a PDO exists: 11 bits for every node id. */
  predicate Expressible(p: PdoDef) {
    match EffectiveSpec(p)
    case None => false
    case Some(Absolute(raw)) => (raw / FLAG_29BIT) % 2 == 0 && raw <= MAX_COB_ID
    case Some(NodeRelative(raw)) => (raw / FLAG_29BIT) % 2 == 0 && raw + 127 <= MAX_COB_ID
  }

  /** The COB-ID a PDO has on the node with id `node`. */
  function Resolve(p: PdoDef, node: nat): (id: nat)
    requires Expressible(p) && 1 <= node <= 127
    ensures id <= MAX_COB_ID
  {
    match EffectiveSpec(p).value
    case Absolute(raw) => raw
    case NodeRelative(raw) => raw + node
  }

  /** Can an absolute and a node-relative COB-ID meet for some node id? */
  predicate NodeIdDependentCollision(p: PdoDef, q: PdoDef) {
    match (EffectiveSpec(p), EffectiveSpec(q))
    case (Some(Absolute(id)), Some(NodeRelative(base))) => id >= base && 1 <= id - base <= 127
    case (Some(NodeRelative(base)), Some(Absolute(id))) => id >= base && 1 <= id - base <= 127
    case _ => false
  }

  /** The active TPDOs of an accepted client, in declaration order. */
  function ActiveTpdos(pdos: seq<PdoDef>): (r: seq<PdoDef>)
    ensures forall p :: p in r <==> p in pdos && p.direction.Tpdo? && !Disabled(p)
  {
    if pdos == [] then []
    else ActiveTpdos(pdos[..|pdos| - 1])
         + if pdos[|pdos| - 1].direction.Tpdo? && !Disabled(pdos[|pdos| - 1]) then [pdos[|pdos| - 1]] else []
  }

  predicate Clash(p: PdoDef, q: PdoDef) {
    EffectiveSpec(p) == EffectiveSpec(q)
  }

  /** A client is generated: every COB-ID expressible, no two active PDOs with one specification. */
  predicate Generated(pdos: seq<PdoDef>) {
    (forall p <- pdos :: Expressible(p))
    && forall i, j :: 0 <= i < j < |pdos| && !Disabled(pdos[i]) && !Disabled(pdos[j]) ==> !Clash(pdos[i], pdos[j])
  }

  /** Dispatchable TPDOs: expressible, with pairwise different specifications. */
  predicate Dispatchable(ts: seq<PdoDef>) {
    (forall p <- ts :: Expressible(p)) && forall i, j :: 0 <= i < j < |ts| ==> !Clash(ts[i], ts[j])
  }

  lemma {:induction false} ActiveAreDispatchable(pdos: seq<PdoDef>)
    requires Generated(pdos)
    ensures Dispatchable(ActiveTpdos(pdos))
  {
    if pdos != [] {
      var n := |pdos| - 1;
      var front := pdos[..n];
      ActiveAreDispatchable(front);
      var before, ts := ActiveTpdos(front), ActiveTpdos(pdos);
      forall i | 0 <= i < |before| && !Disabled(pdos[n])
        ensures !Clash(before[i], pdos[n])
      {
        assert before[i] in before;
        var k :| 0 <= k < |front| && front[k] == before[i];
        assert pdos[k] == before[i] && !Disabled(pdos[k]);
        assert !Clash(pdos[k], pdos[n]);
      }
      if ts != before {
        assert ts == before + [pdos[n]] && !Disabled(pdos[n]);
      }
    }
  }

  datatype Dispatch =
    | NotForUs
    | ToTpdo(index: nat)
    | TooShort(index: nat)
    | AmbiguousCobId(id: nat)

  /** Two active TPDOs share the frame's identifier on this node. */
  predicate Ambiguous(ts: seq<PdoDef>, node: nat, id: nat)
    requires 1 <= node <= 127 && forall p <- ts :: Expressible(p)
  {
    exists i, j :: 0 <= i < j < |ts| && Resolve(ts[i], node) == id && Resolve(ts[j], node) == id
  }

  /** A pair the compile-time analysis lets through collides on a node exactly when the run-time check is emitted for it and fires. */
  lemma CollisionAnalysis(p: PdoDef, q: PdoDef, node: nat)
    requires Expressible(p) && Expressible(q) && 1 <= node <= 127 && !Clash(p, q)
    ensures Resolve(p, node) == Resolve(q, node) ==> NodeIdDependentCollision(p, q)
    ensures NodeIdDependentCollision(p, q) <==> exists n :: 1 <= n <= 127 && Resolve(p, n) == Resolve(q, n)
  {
    if NodeIdDependentCollision(p, q) {
      var a, b := EffectiveSpec(p).value, EffectiveSpec(q).value;
      var n := if a.Absolute? then a.raw - b.raw else b.raw - a.raw;
      assert 1 <= n <= 127 && Resolve(p, n) == Resolve(q, n);
    }
  }

  /** A PDO declared without a COB-ID. */
  predicate Predefined(p: PdoDef) {
    p.cobId.None? && 1 <= p.number <= 4
  }

  /**
   The predefined connection set of CiA 301: TPDO 1 to 4 on 0x180, 0x280, 0x380
   and 0x480 plus the node id, RPDO 1 to 4 on 0x200, 0x300, 0x400 and 0x500 plus
   the node id; so no two of them, on any nodes, share a COB-ID.
   */
  lemma PredefinedConnectionSet(p: PdoDef, node: nat)
    requires Predefined(p) && 1 <= node <= 127
    ensures Expressible(p) && !Disabled(p)
    ensures Resolve(p, node) == node + if p.direction.Tpdo?
                                       then (if p.number == 1 then 0x180 else if p.number == 2 then 0x280
                                             else if p.number == 3 then 0x380 else 0x480)
                                       else (if p.number == 1 then 0x200 else if p.number == 2 then 0x300
                                             else if p.number == 3 then 0x400 else 0x500)
  {
  }

  lemma PredefinedAreDistinct(p: PdoDef, node: nat, q: PdoDef, other: nat)
    requires Predefined(p) && Predefined(q) && 1 <= node <= 127 && 1 <= other <= 127
    ensures Expressible(p) && Expressible(q)
    ensures Resolve(p, node) == Resolve(q, other) <==> p.direction == q.direction && p.number == q.number && node == other
  {
    PredefinedConnectionSet(p, node);
    PredefinedConnectionSet(q, other);
  }

  /** The generated `decode`: the emitted ambiguity checks, then the dispatch arms in order. */
  method Decode(ts: seq<PdoDef>, node: nat, frame: CanFrame) returns (r: Dispatch)
    requires 1 <= node <= 127 && Dispatchable(ts)
    ensures r.AmbiguousCobId? <==> Ambiguous(ts, node, frame.id)
    ensures r.AmbiguousCobId? ==> r.id == frame.id
    ensures r.NotForUs? <==> forall i :: 0 <= i < |ts| ==> Resolve(ts[i], node) != frame.id
    ensures r.ToTpdo? || r.TooShort? ==>
              r.index < |ts| && Resolve(ts[r.index], node) == frame.id
              && (forall j :: 0 <= j < |ts| && j != r.index ==> Resolve(ts[j], node) != frame.id)
              && (r.ToTpdo? <==> |frame.data| >= ts[r.index].payloadBytes)
    ensures forall i :: 0 <= i < |ts| && ts[i].direction.Tpdo? && Predefined(ts[i])
                        && frame.id == 0x80 + 0x100 * ts[i].number + node ==>
              r == AmbiguousCobId(frame.id) || r == ToTpdo(i) || r == TooShort(i)
  {
    forall i | 0 <= i < |ts| && Predefined(ts[i])
      ensures ts[i].direction.Tpdo? ==> Resolve(ts[i], node) == 0x80 + 0x100 * ts[i].number + node
    {
      PredefinedConnectionSet(ts[i], node);
    }
    for i := 0 to |ts|
      invariant forall k, l :: 0 <= k < i && k < l < |ts| ==>
                  !(Resolve(ts[k], node) == frame.id && Resolve(ts[l], node) == frame.id)
    {
      for j := i + 1 to |ts|
        invariant forall l :: i < l < j ==> !(Resolve(ts[i], node) == frame.id && Resolve(ts[l], node) == frame.id)
      {
        if NodeIdDependentCollision(ts[i], ts[j]) {
          if frame.id == Resolve(ts[i], node) && frame.id == Resolve(ts[j], node) {
            return AmbiguousCobId(frame.id);
          }
        } else {
          CollisionAnalysis(ts[i], ts[j], node);
        }
      }
    }
    for i := 0 to |ts|
      invariant forall k :: 0 <= k < i ==> Resolve(ts[k], node) != frame.id
    {
      if frame.id == Resolve(ts[i], node) {
        return if |frame.data| < ts[i].payloadBytes then TooShort(i) else ToTpdo(i);
      }
    }
    r := NotForUs;
  }

  /**
   The compile-time analysis is exact: an accepted client can only be ambiguous
   between an absolute and a node-relative COB-ID, and then on one node id.
   */
  lemma AmbiguityIsMixed(pdos: seq<PdoDef>, node: nat, id: nat) returns (i: nat, j: nat)
    requires Generated(pdos) && 1 <= node <= 127 && Ambiguous(ActiveTpdos(pdos), node, id)
    ensures i < |ActiveTpdos(pdos)| && j < |ActiveTpdos(pdos)| && node <= id
    ensures EffectiveSpec(ActiveTpdos(pdos)[i]) == Some(Absolute(id))
    ensures EffectiveSpec(ActiveTpdos(pdos)[j]) == Some(NodeRelative(id - node))
  {
    hide EffectiveSpec, Resolve, Expressible, ActiveTpdos;
    var ts := ActiveTpdos(pdos);
    ActiveAreDispatchable(pdos);
    i, j :| 0 <= i < j < |ts| && Resolve(ts[i], node) == id && Resolve(ts[j], node) == id;
    assert !Clash(ts[i], ts[j]) && ts[i] in ts && ts[j] in ts;
    MixedPair(ts[i], ts[j], node, id);
    if EffectiveSpec(ts[i]) != Some(Absolute(id)) {
      i, j := j, i;
    }
  }

  lemma MixedPair(p: PdoDef, q: PdoDef, node: nat, id: nat)
    requires Expressible(p) && Expressible(q) && 1 <= node <= 127 && !Clash(p, q)
    requires Resolve(p, node) == id == Resolve(q, node)
    ensures node <= id
    ensures (EffectiveSpec(p) == Some(Absolute(id)) && EffectiveSpec(q) == Some(NodeRelative(id - node)))
         || (EffectiveSpec(q) == Some(Absolute(id)) && EffectiveSpec(p) == Some(NodeRelative(id - node)))
  {
    CollisionAnalysis(p, q, node);
  }
}
