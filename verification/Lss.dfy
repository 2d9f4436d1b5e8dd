/**
 The LSS slave (CiA 305): mode switching, selective switching by identity,
 node-id configuration and identity inquiry.
 */
module Lss {
  import opened Types

  const REQUEST_COB: nat := 0x7E5
  const RESPONSE_COB: nat := 0x7E4

  datatype Identity = Identity(vendor: nat, product: nat, revision: nat, serial: nat)

  datatype Mode = Waiting | Configuration

  datatype Event = NodeIdConfigured(id: nat) | StoreConfiguration

  datatype Slave = Slave(identity: Identity, nodeId: nat, mode: Mode, selectiveStep: nat, pending: Option<Event>)

  function InitialSlave(identity: Identity, nodeId: nat): Slave {
    Slave(identity, nodeId, Waiting, 0, None)
  }

  /** A selective switching request: which part of the identity (0 to 3) and its value. */
  datatype Request = Request(part: nat, value: nat)

  predicate Addressed(f: CanFrame) {
    f.id == REQUEST_COB && |f.data| >= 8
  }

  function AsRequest(f: CanFrame): Option<Request> {
    if !Addressed(f) then None
    else if f.data[0] == 0x40 then Some(Request(0, FromLe(f.data[1..5])))
    else if f.data[0] == 0x41 then Some(Request(1, FromLe(f.data[1..5])))
    else if f.data[0] == 0x42 then Some(Request(2, FromLe(f.data[1..5])))
    else if f.data[0] == 0x43 then Some(Request(3, FromLe(f.data[1..5])))
    else None
  }

  /** The four requests that select a slave, in order. */
  function Target(id: Identity): (r: seq<Request>)
    ensures |r| == 4 && forall k :: 0 <= k < 4 ==> r[k].part == k
  {
    [Request(0, id.vendor), Request(1, id.product), Request(2, id.revision), Request(3, id.serial)]
  }

  /** A response: eight bytes on the response COB-ID. */
  function Response(head: seq<bv8>): CanFrame
    requires |head| <= 8
  {
    CanFrame(RESPONSE_COB, head + seq(8 - |head|, _ => 0))
  }

  const SELECTED: CanFrame := Response([0x44])

  /** Effect of one selective request in Waiting mode. */
  function Select(s: Slave, q: Request): (Slave, Option<CanFrame>)
    requires q.part < 4
  {
    var step := if q.part == 0 then 0 else s.selectiveStep;
    if step != q.part || q.value != Target(s.identity)[q.part].value then (s.(selectiveStep := 0), None)
    else if q.part < 3 then (s.(selectiveStep := q.part + 1), None)
    else (s.(selectiveStep := 0, mode := Configuration), Some(SELECTED))
  }

  /** Effect of a service available only in Configuration mode. */
  function Configure(s: Slave, data: seq<bv8>): (Slave, Option<CanFrame>)
    requires |data| >= 8
  {
    var cs := data[0];
    if cs == 0x11 then
      var id := data[1] as nat;
      if 1 <= id <= 127 || id == 0xFF
      then (s.(nodeId := id, pending := Some(NodeIdConfigured(id))), Some(Response([cs, 0])))
      else (s, Some(Response([cs, 1])))
    else if cs == 0x17 then (s.(pending := Some(StoreConfiguration)), Some(Response([cs, 0])))
    else if cs == 0x5A then (s, Some(Response([cs] + ToLe4(s.identity.vendor))))
    else if cs == 0x5B then (s, Some(Response([cs] + ToLe4(s.identity.product))))
    else if cs == 0x5C then (s, Some(Response([cs] + ToLe4(s.identity.revision))))
    else if cs == 0x5D then (s, Some(Response([cs] + ToLe4(s.identity.serial))))
    else if cs == 0x5E then (s, Some(Response([cs, (s.nodeId % 0x100) as bv8])))
    else (s, None)
  }

  /** Effect of one received frame and the response to it. */
  function Step(s: Slave, f: CanFrame): (Slave, Option<CanFrame>) {
    if !Addressed(f) then (s, None)
    else if f.data[0] == 0x04 then
      if f.data[1] == 0 then (s.(mode := Waiting, selectiveStep := 0), None)
      else if f.data[1] == 1 then (s.(mode := Configuration), None)
      else (s, None)
    else if AsRequest(f).Some? then
      if s.mode.Waiting? then Select(s, AsRequest(f).value) else (s, None)
    else if s.mode.Configuration? then Configure(s, f.data)
    else (s, None)
  }

  class LssSlave {
    const identity: Identity
    var nodeId: nat
    var mode: Mode
    var selectiveStep: nat
    var pending: Option<Event>

    ghost function View(): Slave
      reads this
    {
      Slave(identity, nodeId, mode, selectiveStep, pending)
    }

    constructor (identity: Identity, nodeId: nat)
      ensures View() == InitialSlave(identity, nodeId)
    {
      this.identity := identity;
      this.nodeId := nodeId;
      mode, selectiveStep, pending := Waiting, 0, None;
    }

    method TakeEvent() returns (e: Option<Event>)
      modifies this`pending
      ensures e == old(pending) && View() == old(View()).(pending := None)
    {
      e := pending;
      pending := None;
    }

    method Process(f: CanFrame) returns (response: Option<CanFrame>)
      modifies this
      ensures (View(), response) == Step(old(View()), f)
    {
      response := None;
      if f.id != REQUEST_COB || |f.data| < 8 {
        return;
      }
      var cmd := f.data[0];
      if cmd == 0x04 {
        if f.data[1] == 0 {
          mode := Waiting;
          selectiveStep := 0;
        } else if f.data[1] == 1 {
          mode := Configuration;
        }
      } else if 0x40 <= cmd <= 0x43 {
        if mode.Waiting? {
          response := ProcessSelective(f);
        }
      } else if mode.Configuration? {
        response := ProcessConfiguration(f);
      }
    }

    method ProcessSelective(f: CanFrame) returns (response: Option<CanFrame>)
      requires Addressed(f) && 0x40 <= f.data[0] <= 0x43
      modifies this
      ensures AsRequest(f).Some? && (View(), response) == Select(old(View()), AsRequest(f).value)
    {
      response := None;
      var value := FromLe(f.data[1..5]);
      var step, expected := 3, identity.serial;
      if f.data[0] == 0x40 {
        step, expected := 0, identity.vendor;
      } else if f.data[0] == 0x41 {
        step, expected := 1, identity.product;
      } else if f.data[0] == 0x42 {
        step, expected := 2, identity.revision;
      }
      if step == 0 {
        selectiveStep := 0;
      }
      if selectiveStep != step || value != expected {
        selectiveStep := 0;
      } else if step < 3 {
        selectiveStep := step + 1;
      } else {
        selectiveStep := 0;
        mode := Configuration;
        response := Some(SELECTED);
      }
    }

    method ProcessConfiguration(f: CanFrame) returns (response: Option<CanFrame>)
      requires Addressed(f)
      modifies this
      ensures (View(), response) == Configure(old(View()), f.data)
    {
      response := None;
      var cs := f.data[0];
      match cs {
        case 0x11 =>
          var id := f.data[1] as nat;
          if 1 <= id <= 127 || id == 0xFF {
            nodeId := id;
            pending := Some(NodeIdConfigured(id));
            response := Some(Response([cs, 0]));
          } else {
            response := Some(Response([cs, 1]));
          }
        case 0x17 =>
          pending := Some(StoreConfiguration);
          response := Some(Response([cs, 0]));
        case 0x5A => response := Some(Response([cs] + ToLe4(identity.vendor)));
        case 0x5B => response := Some(Response([cs] + ToLe4(identity.product)));
        case 0x5C => response := Some(Response([cs] + ToLe4(identity.revision)));
        case 0x5D => response := Some(Response([cs] + ToLe4(identity.serial)));
        case 0x5E => response := Some(Response([cs, (nodeId % 0x100) as bv8]));
        case _ =>
      }
    }
  }

  // ---- Configuration services ----

  /** The part of the identity an inquiry service asks for. */
  function Inquired(id: Identity, cs: bv8): Option<nat> {
    if cs == 0x5A then Some(id.vendor)
    else if cs == 0x5B then Some(id.product)
    else if cs == 0x5C then Some(id.revision)
    else if cs == 0x5D then Some(id.serial)
    else None
  }

  /** A master that reads an inquiry response gets the part of the identity it asked for, and the slave is unchanged. */
  lemma InquiryAnswers(s: Slave, f: CanFrame)
    requires s.mode.Configuration? && Addressed(f) && Inquired(s.identity, f.data[0]).Some?
    requires Inquired(s.identity, f.data[0]).value <= U32_MAX
    ensures Step(s, f).0 == s && Step(s, f).1.Some?
    ensures var r := Step(s, f).1.value;
            r.id == RESPONSE_COB && |r.data| == 8 && r.data[0] == f.data[0]
            && FromLe(r.data[1..5]) == Inquired(s.identity, f.data[0]).value
  {
    var value := Inquired(s.identity, f.data[0]).value;
    var r := Step(s, f).1.value;
    assert r == Response([f.data[0]] + ToLe4(value));
    assert r.data[1..5] == ToLe4(value);
    LeRoundTrip(value);
  }

  /**
   Node-id configuration: an id of 1 to 127 or 255 becomes the slave's and is
   announced to the application; any other is refused with error 1 and leaves
   the slave unchanged.
   */
  lemma NodeIdConfiguration(s: Slave, f: CanFrame)
    requires s.mode.Configuration? && Addressed(f) && f.data[0] == 0x11
    ensures var id := f.data[1] as nat;
            Step(s, f).0 == if 1 <= id <= 127 || id == 255 then s.(nodeId := id, pending := Some(NodeIdConfigured(id))) else s
    ensures Step(s, f).1.Some?
    ensures var r, id := Step(s, f).1.value, f.data[1] as nat;
            r.id == RESPONSE_COB && |r.data| == 8 && r.data[0] == 0x11
            && r.data[1] == if 1 <= id <= 127 || id == 255 then 0 else 1
  {
  }

  /** The node-id inquiry returns the id in force and changes nothing. */
  lemma NodeIdInquiry(s: Slave, f: CanFrame)
    requires s.mode.Configuration? && Addressed(f) && f.data[0] == 0x5E && s.nodeId <= U8_MAX
    ensures Step(s, f).0 == s && Step(s, f).1.Some?
    ensures var r := Step(s, f).1.value; r.id == RESPONSE_COB && |r.data| == 8 && r.data[1] as nat == s.nodeId
  {
    ByteRoundTrip(s.nodeId);
  }

  /** Store configuration is acknowledged and announced to the application, and changes nothing else. */
  lemma StoreIsAnnounced(s: Slave, f: CanFrame)
    requires s.mode.Configuration? && Addressed(f) && f.data[0] == 0x17
    ensures Step(s, f).0 == s.(pending := Some(StoreConfiguration)) && Step(s, f).1.Some?
    ensures var r := Step(s, f).1.value; r.id == RESPONSE_COB && |r.data| == 8 && r.data[0] == 0x17 && r.data[1] == 0
  {
  }

  /**
   Global mode switching: whatever mode the slave is in, 0 leads to Waiting with
   selection starting over and 1 to Configuration; any other mode is ignored;
   there is no answer and nothing else changes.
   */
  lemma GlobalSwitch(s: Slave, f: CanFrame)
    requires Addressed(f) && f.data[0] == 0x04
    ensures Step(s, f).1.None?
    ensures f.data[1] == 0 ==> Step(s, f).0 == s.(mode := Waiting, selectiveStep := 0)
    ensures f.data[1] == 1 ==> Step(s, f).0 == s.(mode := Configuration)
    ensures f.data[1] > 1 ==> Step(s, f).0 == s
  {
  }

  /** Outside Configuration mode no configuration service is answered or obeyed. */
  lemma WaitingIgnoresConfiguration(s: Slave, f: CanFrame)
    requires s.mode.Waiting? && Addressed(f) && f.data[0] != 0x04 && AsRequest(f).None?
    ensures Step(s, f) == (s, None)
  {
  }

  // ---- Every run ----

  function Run(s: Slave, fs: seq<CanFrame>): Slave {
    if fs == [] then s else Step(Run(s, fs[..|fs| - 1]), fs[|fs| - 1]).0
  }

  /** The selective requests received since the slave last entered Waiting mode. */
  function Since(s: Slave, fs: seq<CanFrame>): seq<Request> {
    if fs == [] then []
    else
      var front, f := fs[..|fs| - 1], fs[|fs| - 1];
      if Addressed(f) && f.data[0] == 0x04 && f.data[1] == 0 then []
      else if AsRequest(f).Some? && Run(s, front).mode.Waiting? then Since(s, front) + [AsRequest(f).value]
      else Since(s, front)
  }

  /** The last `k` requests are the first `k` of the target. */
  predicate EndsWith(id: Identity, h: seq<Request>, k: nat)
    requires k <= 4
  {
    k == 0 || (h != [] && h[|h| - 1] == Target(id)[k - 1] && EndsWith(id, h[..|h| - 1], k - 1))
  }

  /** Length of the longest proper target prefix the request history ends with. */
  function Progress(id: Identity, h: seq<Request>): nat {
    if EndsWith(id, h, 3) then 3 else if EndsWith(id, h, 2) then 2 else if EndsWith(id, h, 1) then 1 else 0
  }

  lemma EndsWithSnoc(id: Identity, h: seq<Request>, q: Request, k: nat)
    requires 1 <= k <= 4
    ensures EndsWith(id, h + [q], k) <==> q == Target(id)[k - 1] && EndsWith(id, h, k - 1)
  {
    assert (h + [q])[..|h|] == h;
  }

  /** Request parts differ, so at most one prefix can end the history. */
  lemma ProgressOfSnoc(id: Identity, h: seq<Request>, q: Request)
    requires q.part < 4
    ensures Progress(id, h + [q])
         == if q.part < 3 && q == Target(id)[q.part] && EndsWith(id, h, q.part) then q.part + 1 else 0
  {
    EndsWithSnoc(id, h, q, 1);
    EndsWithSnoc(id, h, q, 2);
    EndsWithSnoc(id, h, q, 3);
  }

  /** The progress is the only nonzero prefix the history ends with. */
  lemma ProgressUnique(id: Identity, h: seq<Request>, k: nat)
    requires 1 <= k <= 3
    ensures EndsWith(id, h, k) <==> Progress(id, h) == k
  {
    if h != [] {
      var t := Target(id);
      assert t[0].part == 0 && t[1].part == 1 && t[2].part == 2;
    }
  }

  /** One request moves the step to the progress of the longer history, or completes the target. */
  lemma SelectTracksProgress(s: Slave, h: seq<Request>, q: Request)
    requires q.part < 4 && s.mode.Waiting? && s.selectiveStep == Progress(s.identity, h)
    ensures var (s', response) := Select(s, q);
            (response.Some? <==> EndsWith(s.identity, h + [q], 4))
            && (response.Some? ==> response.value == SELECTED && s'.mode.Configuration?)
            && (response.None? ==> s'.mode.Waiting? && s'.selectiveStep == Progress(s.identity, h + [q]))
  {
    ProgressOfSnoc(s.identity, h, q);
    EndsWithSnoc(s.identity, h, q, 4);
    if q.part > 0 {
      ProgressUnique(s.identity, h, q.part);
    }
  }

  /** In Waiting mode the step is always the progress of the requests since entering it. */
  lemma {:induction false} StepIsProgress(s: Slave, fs: seq<CanFrame>)
    requires s.selectiveStep == 0
    ensures Run(s, fs).identity == s.identity
    ensures Run(s, fs).mode.Waiting? ==> Run(s, fs).selectiveStep == Progress(s.identity, Since(s, fs))
  {
    if fs != [] {
      var front, f := fs[..|fs| - 1], fs[|fs| - 1];
      StepIsProgress(s, front);
      if AsRequest(f).Some? && Run(s, front).mode.Waiting? {
        SelectTracksProgress(Run(s, front), Since(s, front), AsRequest(f).value);
      }
    }
  }

  /**
   Selection is exact. After any run, a frame is answered with the selection
   response exactly when the slave is Waiting and the requests since it entered
   Waiting, this one included, end with vendor, product, revision and serial in
   order, all matching its identity; exactly then it enters Configuration
   selectively.
   */
  lemma SelectionIsExact(s: Slave, fs: seq<CanFrame>, f: CanFrame)
    requires s.selectiveStep == 0
    ensures var before, (after, response) := Run(s, fs), Step(Run(s, fs), f);
            var selected := before.mode.Waiting? && AsRequest(f).Some?
                            && EndsWith(s.identity, Since(s, fs) + [AsRequest(f).value], 4);
            (response == Some(SELECTED) <==> selected)
            && (selected <==> before.mode.Waiting? && after.mode.Configuration? && AsRequest(f).Some?)
  {
    StepIsProgress(s, fs);
    var before := Run(s, fs);
    if before.mode.Waiting? && AsRequest(f).Some? {
      SelectTracksProgress(before, Since(s, fs), AsRequest(f).value);
    } else if before.mode.Configuration? && Addressed(f) {
      NoOtherAnswerLooksSelected(before, f);
    }
  }

  lemma NoOtherAnswerLooksSelected(s: Slave, f: CanFrame)
    requires s.mode.Configuration? && Addressed(f)
    ensures Step(s, f).1 != Some(SELECTED)
  {
    assert SELECTED.data[0] == 0x44;
    var r := Step(s, f).1;
    if r.Some? {
      assert r.value.data[0] == f.data[0];
    }
  }
}
