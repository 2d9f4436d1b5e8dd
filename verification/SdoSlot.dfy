/**
 One SDO channel of the node: the bounded slot between an SDO server and the
 transport. The server is an abstract source of replies; all that is known of
 it is that without a transfer in progress it neither times out nor produces
 block segments, and that an abort ends its transfer.
 */
module SdoSlot {
  import opened Types
  import opened ObjectDictionary
  import opened Transport
  import opened History

  type Payload = d: seq<bv8> | |d| == 8 witness [0, 0, 0, 0, 0, 0, 0, 0]

  /** A download that reached the dictionary. */
  datatype Commit = Commit(addr: Addr, data: seq<bv8>)

  datatype Reply = Reply(response: Option<Payload>, busy: bool, commit: Option<Commit>)

  /** `script` decides every answer; `idle` means no transfer is in progress. */
  datatype Server = Server(script: nat -> Reply, calls: nat, idle: bool)

  function Answered(s: Server, clientAbort: bool): (Server, Reply) {
    if clientAbort then (s.(idle := true), Reply(None, false, None))
    else
      var r := s.script(s.calls);
      (s.(calls := s.calls + 1, idle := !r.busy), r)
  }

  /** `check_timeout`: a timed-out transfer ends with an abort message. */
  function TimedOut(s: Server): (Server, Option<Payload>) {
    if s.idle then (s, None)
    else
      var r := s.script(s.calls);
      (s.(calls := s.calls + 1, idle := r.response.Some?), r.response)
  }

  /** `poll_block_upload`: the next segment of a block upload. */
  function Segment(s: Server): (Server, Option<Payload>) {
    if s.idle then (s, None)
    else
      var r := s.script(s.calls);
      (s.(calls := s.calls + 1), r.response)
  }

  datatype Channel = Channel(rxCob: nat, txCob: nat, slot: Option<Held>, refused: bool, server: Server)

  // ---- Operations, with the channel's number `c` in the history ----

  /** Gives up an undelivered response. */
  function Dropped(ch: Channel, l: Link, c: nat, reason: GapReason): (Channel, Link) {
    (ch.(slot := None), if ch.slot.Some? then Noted(l, SdoGap(c, reason)) else l)
  }

  function Filled(ch: Channel, l: Link, c: nat, data: Payload, now: U64): (Channel, Link) {
    match NewFrame(ch.txCob, data)
    case Some(f) => (ch.(slot := Some(Held(f, now))), Noted(l, SdoQueued(c, f, now)))
    case None => (ch.(slot := None), l)
  }

  predicate Stale(ch: Channel, now: U64) {
    ch.slot.Some? && Elapsed(now, ch.slot.value.since) >= SDO_TIMEOUT_US
  }

  function BeganPoll(ch: Channel, l: Link, c: nat, now: U64): (Channel, Link) {
    var ch0 := ch.(refused := false);
    if Stale(ch, now) then
      var (ch1, l1) := Dropped(ch0, l, c, Expired(now));
      (ch1.(server := ch.server.(idle := true)), l1)
    else
      var (server, abort) := TimedOut(ch.server);
      var ch1 := ch0.(server := server);
      match abort
      case None => (ch1, l)
      case Some(data) =>
        var (ch2, l2) := Dropped(ch1, l, c, TimeoutAbort);
        Filled(ch2, l2, c, data, now)
  }

  function Tried(ch: Channel, l: Link, c: nat, now: U64): (Channel, Link) {
    if ch.refused || ch.slot.None? then (ch, l)
    else (if NextVerdict(l).Accepted? then ch.(slot := None) else ch.(refused := true),
          Offered(l, SdoResponse(c), ch.slot.value.frame, now))
  }

  /** Up to `k` block segments, none beyond a refused one. */
  function Drawn(ch: Channel, l: Link, c: nat, now: U64, k: nat): (Channel, Link)
    decreases k
  {
    if k == 0 || ch.slot.Some? then (ch, l)
    else
      var (server, segment) := Segment(ch.server);
      var ch1, l1 := ch.(server := server), Noted(l, SdoDrawn(c));
      match segment
      case None => (ch1, l1)
      case Some(data) =>
        var (ch2, l2) := Filled(ch1, l1, c, data, now);
        var (ch3, l3) := Tried(ch2, l2, c, now);
        Drawn(ch3, l3, c, now, k - 1)
  }

  const MAX_SEGMENTS: nat := 127

  function Serviced(ch: Channel, l: Link, c: nat, now: U64): (Channel, Link) {
    var (ch1, l1) := Tried(ch, l, c, now);
    Drawn(ch1, l1, c, now, MAX_SEGMENTS)
  }

  /** The server sees a request; its response is queued and offered at once. */
  function Consulted(ch: Channel, l: Link, c: nat, clientAbort: bool, now: U64): (Channel, Link, Option<Commit>) {
    var (server, reply) := Answered(ch.server, clientAbort);
    var ch1, l1 := ch.(server := server), Noted(l, SdoAsked(c));
    match reply.response
    case None => (ch1, l1, reply.commit)
    case Some(data) =>
      var (ch2, l2) := Filled(ch1, l1, c, data, now);
      var (ch3, l3) := Tried(ch2, l2, c, now);
      (ch3, l3, reply.commit)
  }

  /** A request frame: ignored while a response is undelivered, unless it is a client abort. */
  function Requested(ch: Channel, l: Link, c: nat, clientAbort: bool, now: U64): (Channel, Link, Option<Commit>) {
    if clientAbort then
      var (ch1, l1) := Dropped(ch, l, c, ClientAbort);
      Consulted(ch1, l1, c, true, now)
    else if ch.slot.Some? then (ch, l, None)
    else Consulted(ch, l, c, false, now)
  }

  /** Stop and reset: the transfer and the slot are gone. */
  function Cancelled(ch: Channel, l: Link, c: nat): (Channel, Link) {
    var (ch1, l1) := Dropped(ch, l, c, StopOrReset);
    (ch1.(refused := false, server := ch.server.(idle := true)), l1)
  }

  // ---- The same, in place ----

  method Fill(ch: Channel, ghost c: nat, data: Payload, now: U64, ghost transport: CanTransport) returns (ch': Channel)
    modifies transport`hist
    ensures (ch', transport.View()) == Filled(ch, old(transport.View()), c, data, now)
  {
    var f := NewFrame(ch.txCob, data);
    match f {
      case Some(frame) =>
        transport.Note(SdoQueued(c, frame, now));
        ch' := ch.(slot := Some(Held(frame, now)));
      case None =>
        ch' := ch.(slot := None);
    }
  }

  method Drop(ch: Channel, ghost c: nat, ghost reason: GapReason, ghost transport: CanTransport) returns (ch': Channel)
    modifies transport`hist
    ensures (ch', transport.View()) == Dropped(ch, old(transport.View()), c, reason)
  {
    ghost var held := ch.slot.Some?;
    if held {
      transport.Note(SdoGap(c, reason));
    }
    ch' := ch.(slot := None);
  }

  method BeginPoll(ch: Channel, ghost c: nat, now: U64, ghost transport: CanTransport) returns (ch': Channel)
    modifies transport`hist
    ensures (ch', transport.View()) == BeganPoll(ch, old(transport.View()), c, now)
  {
    ch' := ch.(refused := false);
    if ch.slot.Some? && Elapsed(now, ch.slot.value.since) >= SDO_TIMEOUT_US {
      ch' := Drop(ch', c, Expired(now), transport);
      ch' := ch'.(server := ch.server.(idle := true));
    } else {
      var (server, abort) := TimedOut(ch.server);
      ch' := ch'.(server := server);
      if abort.Some? {
        ch' := Drop(ch', c, TimeoutAbort, transport);
        ch' := Fill(ch', c, abort.value, now, transport);
      }
    }
  }

  method TrySend(ch: Channel, ghost c: nat, now: U64, transport: CanTransport) returns (ch': Channel)
    modifies transport`tried, transport`hist
    ensures (ch', transport.View()) == Tried(ch, old(transport.View()), c, now)
  {
    ch' := ch;
    if ch.refused || ch.slot.None? {
      return;
    }
    var verdict := transport.Transmit(SdoResponse(c), ch.slot.value.frame, now);
    ch' := if verdict.Accepted? then ch.(slot := None) else ch.(refused := true);
  }

  method Service(ch: Channel, ghost c: nat, now: U64, transport: CanTransport) returns (ch': Channel)
    modifies transport`tried, transport`hist
    ensures (ch', transport.View()) == Serviced(ch, old(transport.View()), c, now)
  {
    ch' := TrySend(ch, c, now, transport);
    ghost var goal := Drawn(ch', transport.View(), c, now, MAX_SEGMENTS);
    var k := 0;
    while k < MAX_SEGMENTS && ch'.slot.None?
      invariant 0 <= k <= MAX_SEGMENTS
      invariant Drawn(ch', transport.View(), c, now, MAX_SEGMENTS - k) == goal
    {
      var (server, segment) := Segment(ch'.server);
      ch' := ch'.(server := server);
      transport.Note(SdoDrawn(c));
      if segment.None? {
        return;
      }
      ch' := Fill(ch', c, segment.value, now, transport);
      ch' := TrySend(ch', c, now, transport);
      k := k + 1;
    }
  }

  method Request(ch: Channel, ghost c: nat, clientAbort: bool, now: U64, transport: CanTransport)
    returns (ch': Channel, commit: Option<Commit>)
    modifies transport`tried, transport`hist
    ensures (ch', transport.View(), commit) == Requested(ch, old(transport.View()), c, clientAbort, now)
  {
    ch' := ch;
    if clientAbort {
      ch' := Drop(ch, c, ClientAbort, transport);
    } else if ch.slot.Some? {
      return ch, None;
    }
    transport.Note(SdoAsked(c));
    var (server, reply) := Answered(ch'.server, clientAbort);
    ch' := ch'.(server := server);
    commit := reply.commit;
    if reply.response.Some? {
      ch' := Fill(ch', c, reply.response.value, now, transport);
      ch' := TrySend(ch', c, now, transport);
    }
  }

  // ---- Every operation keeps to the law ----

  /** Nothing waiting and nothing under way. */
  predicate Silent(ch: Channel) {
    ch.slot.None? && ch.server.idle
  }

  /** The slot is what the history says; the history is lawful and not inside a pulse. */
  predicate Tracks(ch: Channel, h: seq<Obs>, c: nat) {
    Lawful(h) && Free(AccountOf(h)) && ch.slot == Outstanding(h, c)
  }

  /** Activity only where SDO is available. */
  predicate Allowed(ch: Channel, h: seq<Obs>) {
    Silent(ch) || Talking(StateOf(h))
  }

  predicate Fresh(ch: Channel, now: U64) {
    !Stale(ch, now)
  }

  /** What every operation guarantees, at call time `now`. */
  ghost predicate Kept(l: Link, r: (Channel, Link), c: nat, now: U64) {
    Tracks(r.0, r.1.hist, c) && Beside(l.hist, r.1.hist, c) && Fresh(r.0, now)
  }

  lemma {:induction false} BesideTransitive(h: seq<Obs>, h': seq<Obs>, h'': seq<Obs>, c: nat)
    requires Beside(h, h', c) && Beside(h', h'', c)
    ensures Beside(h, h'', c)
  {
    hide AccountOf;
  }

  lemma FilledKeeps(ch: Channel, l: Link, c: nat, data: Payload, now: U64)
    requires Tracks(ch, l.hist, c) && ch.slot.None?
    ensures Kept(l, Filled(ch, l, c, data, now), c, now)
    ensures Filled(ch, l, c, data, now).0.server == ch.server
  {
    hide AccountOf, Lawful;
    match NewFrame(ch.txCob, data) {
      case Some(f) => SdoSnoc(l.hist, SdoQueued(c, f, now), c);
      case None =>
    }
  }

  lemma DroppedKeeps(ch: Channel, l: Link, c: nat, reason: GapReason)
    requires Tracks(ch, l.hist, c) && (ch.slot.Some? ==> LegalGap(AccountOf(l.hist), c, reason))
    ensures var (ch', l') := Dropped(ch, l, c, reason); Tracks(ch', l'.hist, c) && Beside(l.hist, l'.hist, c)
  {
    hide AccountOf, Lawful, LegalGap;
    if ch.slot.Some? {
      SdoSnoc(l.hist, SdoGap(c, reason), c);
    }
  }

  lemma TriedKeeps(ch: Channel, l: Link, c: nat, now: U64)
    requires Tracks(ch, l.hist, c) && Fresh(ch, now) && Allowed(ch, l.hist)
    ensures Kept(l, Tried(ch, l, c, now), c, now)
    ensures Tried(ch, l, c, now).0.server == ch.server
  {
    hide AccountOf, Lawful, Elapsed;
    if !ch.refused && ch.slot.Some? {
      SdoSnoc(l.hist, Offer(SdoResponse(c), ch.slot.value.frame, NextVerdict(l), now), c);
    }
  }

  lemma BeganPollKeeps(ch: Channel, l: Link, c: nat, now: U64)
    requires Tracks(ch, l.hist, c) && Allowed(ch, l.hist)
    ensures Kept(l, BeganPoll(ch, l, c, now), c, now)
    ensures Silent(ch) ==> Silent(BeganPoll(ch, l, c, now).0)
  {
    hide AccountOf, Lawful, Elapsed;
    var ch0 := ch.(refused := false);
    if Stale(ch, now) {
      DroppedKeeps(ch0, l, c, Expired(now));
    } else {
      var (server, abort) := TimedOut(ch.server);
      if abort.Some? {
        var ch1 := ch0.(server := server);
        DroppedKeeps(ch1, l, c, TimeoutAbort);
        var (ch2, l2) := Dropped(ch1, l, c, TimeoutAbort);
        FilledKeeps(ch2, l2, c, abort.value, now);
        hide Beside;
        BesideTransitive(l.hist, l2.hist, BeganPoll(ch, l, c, now).1.hist, c);
      }
    }
  }

  /** A server output queued and offered. */
  lemma ProducedKeeps(ch: Channel, l: Link, c: nat, data: Payload, now: U64)
    requires Tracks(ch, l.hist, c) && ch.slot.None? && Talking(StateOf(l.hist))
    ensures var (ch1, l1) := Filled(ch, l, c, data, now);
            Kept(l, Tried(ch1, l1, c, now), c, now) && Tried(ch1, l1, c, now).0.server == ch.server
  {
    hide AccountOf, Lawful, Elapsed, Filled, Tried;
    FilledKeeps(ch, l, c, data, now);
    var (ch1, l1) := Filled(ch, l, c, data, now);
    TriedKeeps(ch1, l1, c, now);
    BesideTransitive(l.hist, l1.hist, Tried(ch1, l1, c, now).1.hist, c);
  }

  lemma {:induction false} DrawnKeeps(ch: Channel, l: Link, c: nat, now: U64, k: nat)
    requires Tracks(ch, l.hist, c) && Fresh(ch, now) && Allowed(ch, l.hist)
    ensures Kept(l, Drawn(ch, l, c, now, k), c, now)
    ensures Silent(ch) ==> Silent(Drawn(ch, l, c, now, k).0)
    decreases k
  {
    hide AccountOf, Lawful, Elapsed, Filled, Tried;
    if k > 0 && ch.slot.None? {
      var (server, segment) := Segment(ch.server);
      var ch1, l1 := ch.(server := server), Noted(l, SdoDrawn(c));
      SdoSnoc(l.hist, SdoDrawn(c), c);
      if segment.Some? {
        ProducedKeeps(ch1, l1, c, segment.value, now);
        var (ch2, l2) := Filled(ch1, l1, c, segment.value, now);
        var (ch3, l3) := Tried(ch2, l2, c, now);
        DrawnKeeps(ch3, l3, c, now, k - 1);
        hide Beside;
        BesideTransitive(l.hist, l1.hist, l3.hist, c);
        BesideTransitive(l.hist, l3.hist, Drawn(ch3, l3, c, now, k - 1).1.hist, c);
      }
    }
  }

  lemma ServicedKeeps(ch: Channel, l: Link, c: nat, now: U64)
    requires Tracks(ch, l.hist, c) && Fresh(ch, now) && Allowed(ch, l.hist)
    ensures Kept(l, Serviced(ch, l, c, now), c, now)
    ensures Silent(ch) ==> Silent(Serviced(ch, l, c, now).0)
  {
    hide AccountOf, Lawful, Elapsed, Drawn;
    TriedKeeps(ch, l, c, now);
    var (ch1, l1) := Tried(ch, l, c, now);
    DrawnKeeps(ch1, l1, c, now, MAX_SEGMENTS);
    BesideTransitive(l.hist, l1.hist, Drawn(ch1, l1, c, now, MAX_SEGMENTS).1.hist, c);
  }

  lemma ConsultedKeeps(ch: Channel, l: Link, c: nat, clientAbort: bool, now: U64)
    requires Tracks(ch, l.hist, c) && ch.slot.None? && Talking(StateOf(l.hist))
    ensures var (ch', l', _) := Consulted(ch, l, c, clientAbort, now); Kept(l, (ch', l'), c, now)
  {
    hide AccountOf, Lawful, Elapsed, Filled, Tried;
    var (server, reply) := Answered(ch.server, clientAbort);
    var ch1, l1 := ch.(server := server), Noted(l, SdoAsked(c));
    SdoSnoc(l.hist, SdoAsked(c), c);
    if reply.response.Some? {
      ProducedKeeps(ch1, l1, c, reply.response.value, now);
      var (ch2, l2) := Filled(ch1, l1, c, reply.response.value, now);
      var (ch3, l3) := Tried(ch2, l2, c, now);
      hide Beside;
      BesideTransitive(l.hist, l1.hist, l3.hist, c);
    }
  }

  lemma RequestedKeeps(ch: Channel, l: Link, c: nat, clientAbort: bool, now: U64)
    requires Tracks(ch, l.hist, c) && Fresh(ch, now) && Talking(StateOf(l.hist))
    ensures var (ch', l', _) := Requested(ch, l, c, clientAbort, now); Kept(l, (ch', l'), c, now)
  {
    hide AccountOf, Lawful, Elapsed, Consulted;
    if clientAbort {
      DroppedKeeps(ch, l, c, ClientAbort);
      var (ch1, l1) := Dropped(ch, l, c, ClientAbort);
      ConsultedKeeps(ch1, l1, c, true, now);
      BesideTransitive(l.hist, l1.hist, Consulted(ch1, l1, c, true, now).1.hist, c);
    } else if ch.slot.None? {
      ConsultedKeeps(ch, l, c, false, now);
    }
  }

  lemma CancelledKeeps(ch: Channel, l: Link, c: nat)
    requires Tracks(ch, l.hist, c) && !Talking(StateOf(l.hist))
    ensures var (ch', l') := Cancelled(ch, l, c);
            Tracks(ch', l'.hist, c) && Beside(l.hist, l'.hist, c) && Silent(ch')
  {
    hide AccountOf, Lawful;
    DroppedKeeps(ch, l, c, StopOrReset);
  }

  // ---- What every operation owes ----

  /** A response as the frame that carries it. */
  function FrameOf(ch: Channel, data: Payload): CanFrame {
    CanFrame(ch.txCob, data)
  }

  /** The last observation is an offer of `f` on this channel. */
  predicate JustOffered(l: Link, c: nat, f: CanFrame, v: Verdict, now: U64) {
    l.hist != [] && l.hist[|l.hist| - 1] == Offer(SdoResponse(c), f, v, now)
  }

  /**
   A request while a response is undelivered is ignored unless it is a client
   abort. Any other request is put to the server exactly once and its commit is
   passed on; the answer is offered at once (unless the transport already refused
   this channel in this call) and stays in the slot only if it is not accepted.
   */
  lemma RequestDuty(ch: Channel, l: Link, c: nat, clientAbort: bool, now: U64)
    requires ch.txCob <= MAX_COB_ID
    ensures ch.slot.Some? && !clientAbort ==> Requested(ch, l, c, clientAbort, now) == (ch, l, None)
    ensures ch.slot.None? || clientAbort ==>
              var (ch', l', commit) := Requested(ch, l, c, clientAbort, now);
              var (server, reply) := Answered(ch.server, clientAbort);
              ch'.server == server && commit == reply.commit
              && (reply.response.None? ==> ch'.slot.None? && l'.tried == l.tried)
              && (reply.response.Some? ==>
                    var f := FrameOf(ch, reply.response.value);
                    if ch.refused then ch'.slot == Some(Held(f, now)) && l'.tried == l.tried
                    else JustOffered(l', c, f, NextVerdict(l), now)
                         && ch'.slot == if NextVerdict(l).Accepted? then None else Some(Held(f, now)))
  {
  }

  /**
   Starting a poll: a response past its timeout is given up and the transfer
   ended; otherwise a timed-out transfer replaces the response by its abort
   message; otherwise the response stays. Refusals of the previous call are
   forgotten.
   */
  lemma BeginDuty(ch: Channel, l: Link, c: nat, now: U64)
    requires ch.txCob <= MAX_COB_ID
    ensures var ch', abort := BeganPoll(ch, l, c, now).0, TimedOut(ch.server).1;
            !ch'.refused
            && (Stale(ch, now) ==> ch'.slot.None? && ch'.server.idle)
            && (!Stale(ch, now) ==>
                  ch'.server == TimedOut(ch.server).0
                  && ch'.slot == if abort.Some? then Some(Held(FrameOf(ch, abort.value), now)) else ch.slot)
  {
    hide Elapsed;
  }

  /** Cancelling empties the slot, ends the transfer and forgets refusals. */
  lemma CancelDuty(ch: Channel, l: Link, c: nat)
    ensures Cancelled(ch, l, c).0 == ch.(slot := None, refused := false, server := ch.server.(idle := true))
  {
  }

  /** The block segments the server has ready, at most `k`. */
  function SegmentsOf(s: Server, k: nat): (segs: seq<Payload>)
    ensures |segs| <= k
    decreases k
  {
    if k == 0 then []
    else
      var (s1, segment) := Segment(s);
      if segment.None? then [] else [segment.value] + SegmentsOf(s1, k - 1)
  }

  /** The `j`-th of the frames offered since `l`, with two notes before each offer. */
  predicate OfferedSegment(l: Link, l': Link, c: nat, j: nat, f: CanFrame, now: U64) {
    |l.hist| + 3 * j + 2 < |l'.hist|
    && l'.hist[|l.hist| + 3 * j + 2] == Offer(SdoResponse(c), f, VerdictAt(l, j), now)
  }

  /** The first `m` segments were offered in order, all but possibly the last accepted. */
  ghost predicate SegmentsSent(ch: Channel, l: Link, r: (Channel, Link), c: nat, segs: seq<Payload>, m: nat, now: U64)
    requires m <= |segs|
  {
    l.hist <= r.1.hist
    && (forall j :: 0 <= j < m ==> OfferedSegment(l, r.1, c, j, FrameOf(ch, segs[j]), now))
    && (forall j :: 0 <= j < m - 1 ==> VerdictAt(l, j).Accepted?)
    && (m < |segs| ==> m > 0 && !VerdictAt(l, m - 1).Accepted?)
    && r.0.slot == if m > 0 && !VerdictAt(l, m - 1).Accepted? then Some(Held(FrameOf(ch, segs[m - 1]), now)) else None
  }

  /** One segment produced and offered. */
  lemma OneSegment(ch: Channel, l: Link, c: nat, data: Payload, now: U64)
    requires ch.slot.None? && !ch.refused && ch.txCob <= MAX_COB_ID
    ensures var l1 := Noted(l, SdoDrawn(c));
            var (ch2, l2) := Filled(ch, l1, c, data, now);
            var (ch3, l3) := Tried(ch2, l2, c, now);
            ch3 == ch.(slot := if NextVerdict(l).Accepted? then None else Some(Held(FrameOf(ch, data), now)),
                       refused := !NextVerdict(l).Accepted?)
            && l3 == l.(tried := l.tried + 1,
                        hist := l.hist + [SdoDrawn(c), SdoQueued(c, FrameOf(ch, data), now),
                                          Offer(SdoResponse(c), FrameOf(ch, data), NextVerdict(l), now)])
  {
  }

  lemma SegmentsShift(ch: Channel, l: Link, l1: Link, r: (Channel, Link), c: nat, segs: seq<Payload>, m: nat, now: U64)
    requires segs != [] && m <= |segs| - 1 && VerdictAt(l, 0).Accepted? && l1.oracle == l.oracle && l1.tried == l.tried + 1
    requires |l1.hist| == |l.hist| + 3 && l.hist <= l1.hist
    requires l1.hist[|l.hist| + 2] == Offer(SdoResponse(c), FrameOf(ch, segs[0]), VerdictAt(l, 0), now)
    requires SegmentsSent(ch, l1, r, c, segs[1..], m, now)
    ensures SegmentsSent(ch, l, r, c, segs, m + 1, now)
  {
    forall j | 0 <= j < m + 1 ensures OfferedSegment(l, r.1, c, j, FrameOf(ch, segs[j]), now) {
      if j > 0 {
        assert OfferedSegment(l1, r.1, c, j - 1, FrameOf(ch, segs[1..][j - 1]), now);
      }
    }
    forall j | 0 <= j < m ensures VerdictAt(l, j).Accepted? {
      if j > 0 {
        assert VerdictAt(l1, j - 1).Accepted?;
      }
    }
  }

  /**
   Block segments: with an empty slot the server's ready segments are offered in
   order until one is refused, which then waits in the slot; nothing is skipped.
   */
  lemma {:induction false} DrawDuty(ch: Channel, l: Link, c: nat, now: U64, k: nat) returns (m: nat)
    requires ch.slot.None? && !ch.refused && ch.txCob <= MAX_COB_ID
    ensures m <= |SegmentsOf(ch.server, k)|
    ensures SegmentsSent(ch, l, Drawn(ch, l, c, now, k), c, SegmentsOf(ch.server, k), m, now)
    decreases k
  {
    hide Filled, Tried, SegmentsSent, NewFrame;
    m := 0;
    var segment := Segment(ch.server).1;
    if k == 0 || segment.None? {
      NoSegments(ch, l, Drawn(ch, l, c, now, k), c, now);
    } else {
      var server, segs := Segment(ch.server).0, SegmentsOf(ch.server, k);
      OneSegment(ch.(server := server), l, c, segment.value, now);
      var (ch2, l2) := Filled(ch.(server := server), Noted(l, SdoDrawn(c)), c, segment.value, now);
      var (ch3, l3) := Tried(ch2, l2, c, now);
      assert segs == [segment.value] + SegmentsOf(server, k - 1);
      assert segs[1..] == SegmentsOf(server, k - 1);
      if NextVerdict(l).Accepted? {
        var rest := DrawDuty(ch3, l3, c, now, k - 1);
        m := rest + 1;
        SameFrames(ch3, ch, l3, Drawn(ch3, l3, c, now, k - 1), c, segs[1..], rest, now);
        SegmentsShift(ch, l, l3, Drawn(ch3, l3, c, now, k - 1), c, segs, rest, now);
      } else {
        m := 1;
        FirstRefused(ch, l, ch3, l3, c, segs, now);
      }
    }
  }

  lemma SameFrames(ch1: Channel, ch: Channel, l: Link, r: (Channel, Link), c: nat, segs: seq<Payload>, m: nat, now: U64)
    requires m <= |segs| && ch1.txCob == ch.txCob && SegmentsSent(ch1, l, r, c, segs, m, now)
    ensures SegmentsSent(ch, l, r, c, segs, m, now)
  {
    forall j | 0 <= j < m ensures OfferedSegment(l, r.1, c, j, FrameOf(ch, segs[j]), now) {
      assert OfferedSegment(l, r.1, c, j, FrameOf(ch1, segs[j]), now);
    }
  }

  lemma FirstRefused(ch: Channel, l: Link, ch3: Channel, l3: Link, c: nat, segs: seq<Payload>, now: U64)
    requires segs != [] && !NextVerdict(l).Accepted?
    requires ch3.slot == Some(Held(FrameOf(ch, segs[0]), now))
    requires l.hist <= l3.hist && |l3.hist| == |l.hist| + 3
    requires l3.hist[|l.hist| + 2] == Offer(SdoResponse(c), FrameOf(ch, segs[0]), NextVerdict(l), now)
    ensures SegmentsSent(ch, l, (ch3, l3), c, segs, 1, now)
  {
  }

  lemma NoSegments(ch: Channel, l: Link, r: (Channel, Link), c: nat, now: U64)
    requires r.0.slot.None? && l.hist <= r.1.hist
    ensures SegmentsSent(ch, l, r, c, [], 0, now)
  {
  }

  /**
   Servicing a channel: an undelivered response is offered first (unless already
   refused in this call); only once it is gone are block segments drawn, up to
   127; and whatever is left in the slot was refused in this call.
   */
  lemma ServiceDuty(ch: Channel, l: Link, c: nat, now: U64) returns (m: nat)
    requires ch.txCob <= MAX_COB_ID
    ensures var (ch', l') := Serviced(ch, l, c, now);
            (ch'.slot.Some? && !ch.refused ==> l'.tried > l.tried)
            && (ch.refused ==> l'.tried == l.tried) && (ch.refused && ch.slot.Some? ==> (ch', l') == (ch, l))
            && (ch.slot.Some? && !ch.refused ==>
                  l.hist + [Offer(SdoResponse(c), ch.slot.value.frame, NextVerdict(l), now)] <= l'.hist)
    ensures !ch.refused && (ch.slot.Some? ==> NextVerdict(l).Accepted?) ==>
              m <= |SegmentsOf(ch.server, MAX_SEGMENTS)|
              && SegmentsSent(ch, Tried(ch, l, c, now).1, Serviced(ch, l, c, now), c,
                              SegmentsOf(ch.server, MAX_SEGMENTS), m, now)
  {
    hide SegmentsSent;
    m := 0;
    var (ch1, l1) := Tried(ch, l, c, now);
    if ch1.slot.None? {
      DrawnTries(ch1, l1, c, now, MAX_SEGMENTS);
    }
    if ch1.slot.None? && !ch.refused {
      m := DrawDuty(ch1, l1, c, now, MAX_SEGMENTS);
      SameFrames(ch1, ch, l1, Drawn(ch1, l1, c, now, MAX_SEGMENTS), c, SegmentsOf(ch.server, MAX_SEGMENTS), m, now);
      SentExtends(ch, l1, Drawn(ch1, l1, c, now, MAX_SEGMENTS), c, SegmentsOf(ch.server, MAX_SEGMENTS), m, now);
    }
  }

  lemma SentExtends(ch: Channel, l: Link, r: (Channel, Link), c: nat, segs: seq<Payload>, m: nat, now: U64)
    requires m <= |segs| && SegmentsSent(ch, l, r, c, segs, m, now)
    ensures l.hist <= r.1.hist
  {
  }

  lemma {:induction false} DrawnTries(ch: Channel, l: Link, c: nat, now: U64, k: nat)
    requires ch.slot.None?
    ensures if ch.refused then Drawn(ch, l, c, now, k).1.tried == l.tried else Drawn(ch, l, c, now, k).1.tried >= l.tried
    ensures Drawn(ch, l, c, now, k).0.slot.Some? && !ch.refused ==> Drawn(ch, l, c, now, k).1.tried > l.tried
    decreases k
  {
    if k > 0 {
      var (server, segment) := Segment(ch.server);
      if segment.Some? {
        var (ch2, l2) := Filled(ch.(server := server), Noted(l, SdoDrawn(c)), c, segment.value, now);
        var (ch3, l3) := Tried(ch2, l2, c, now);
        if ch3.slot.None? {
          DrawnTries(ch3, l3, c, now, k - 1);
        }
      }
    }
  }
}
