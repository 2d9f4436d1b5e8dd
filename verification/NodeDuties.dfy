/**
 What each periodic service owes: which frames it offers, when, in which order,
 and what it keeps when the transport refuses one.
 */
module NodeDuties {
  import opened Types
  import opened ObjectDictionary
  import opened PdoWire
  import opened Transport
  import opened Nmt
  import opened NodeModel
  import H = Heartbeat
  import History
  import Lss
  import R = RpdoEngine
  import Slot = SdoSlot
  import S = Sync
  import T = TpdoEngine

  /** The `k`-th observation since `l` is this offer. */
  predicate OfferedAs(l: Link, l': Link, k: nat, service: Service, f: CanFrame, now: U64) {
    |l.hist| + k < |l'.hist| && l'.hist[|l.hist| + k] == Offer(service, f, VerdictAt(l, k), now)
  }

  // ---- Boot-up ----

  /**
   Boot-up: an unbooted node offers one boot-up frame; unless it has to wait, it
   ends booted in Pre-Operational, or in Operational if it starts by itself, and
   the call goes on. While it waits nothing but the heartbeat phase changes.
   */
  lemma BootDuty(w: World, now: U64)
    ensures var (w', up) := BootTried(w, now);
            (up <==> w'.n.booted) && (w.n.booted ==> w' == w)
            && (!w.n.booted ==> OfferedAs(w.l, w'.l, 0, BootUp, CanFrame(0x700 + w.n.id, [0x00]), now)
                                && (up <==> !NextVerdict(w.l).WouldBlock?))
            && (!w.n.booted && up ==> w'.n.nmt == if w.n.autoStart then Operational else PreOperational)
            && (!w.n.booted ==> w'.n.heartbeat == w.n.heartbeat.(lastSentUs := now))
            && (!up ==> w'.n == w.n.(heartbeat := w.n.heartbeat.(lastSentUs := now)) && |w'.l.hist| == |w.l.hist| + 1)
  {
  }

  // ---- Heartbeat ----

  /**
   A heartbeat is offered exactly when the node is booted, the interval is not
   zero and has passed since the last one; it carries the current state; and
   only an accepted one restarts the interval.
   */
  lemma HeartbeatDuty(w: World, now: U64)
    ensures var (w', p) := (HeartbeatSent(w, now), w.n.heartbeat);
            if w.n.booted && p.intervalUs != 0 && Elapsed(now, p.lastSentUs) >= p.intervalUs
            then w'.l == Offered(w.l, HeartbeatTx, CanFrame(0x700 + p.nodeId, [HeartbeatByte(w.n.nmt)]), now)
                 && w'.n == w.n.(heartbeat := p.(lastSentUs := if NextVerdict(w.l).Accepted? then now else p.lastSentUs))
            else w' == w
  {
    hide Elapsed;
  }

  // ---- SYNC production ----

  /**
   A due SYNC pulse is the first thing the production step offers; the node
   takes part in it exactly when the transport accepts it; without a due pulse
   the step sends nothing.
   */
  lemma ProduceDuty(w: World, now: U64)
    requires WellShaped(w.n)
    ensures var (w', due) := (SyncProduced(w, now), S.Polled(w.n.producer, now).1);
            if !w.n.booted || w.n.nmt.Stopped? || due.None? then w'.l == w.l && w'.n == w.n.(producer := w'.n.producer)
            else OfferedAs(w.l, w'.l, 0, SyncPulse, due.value, now)
                 && (NextVerdict(w.l).Accepted? ==>
                       w' == SyncHandled(World(w.n.(producer := S.Confirmed(w.n.producer, now)),
                                               Offered(w.l, SyncPulse, due.value, now)), now))
                 && (!NextVerdict(w.l).Accepted? ==> w' == w.(l := Offered(w.l, SyncPulse, due.value, now)))
  {
    hide SyncHandled, S.Confirmed, Elapsed, S.PulseFrame;
    if w.n.booted && !w.n.nmt.Stopped? && S.Polled(w.n.producer, now).1.Some? {
      HistoryGrows(World(w.n.(producer := S.Confirmed(w.n.producer, now)),
                         Offered(w.l, SyncPulse, S.Polled(w.n.producer, now).1.value, now)), now);
    }
  }

  /** A pulse only adds to the history. */
  lemma HistoryGrows(w: World, now: U64)
    requires WellShaped(w.n)
    ensures w.l.hist <= SyncHandled(w, now).l.hist
  {
    hide T.SyncFrames, R.Committed, DueSources, S.Opened;
    if w.n.nmt.Operational? {
      CommitsGrow(w.n.rpdo, w.l, |w.n.rpdo.pdos|);
      var w1 := PulseCommitted(w, now);
      var w2 := PulseSampled(w1, now);
      var fs := T.SyncFrames(w1.n.tpdo, w1.n.sink.od, |w1.n.tpdo.pdos|);
      OffersExact(w2.l, SyncTpdo(w2.n.window.lengthUs), fs, |fs|, now);
    }
  }

  lemma {:induction false} CommitsGrow(r: R.Rpdo, l: Link, k: nat)
    requires R.RpdoOk(r) && k <= |r.pdos|
    ensures l.hist <= CommitsNoted(r, l, k).hist
  {
    if k > 0 {
      CommitsGrow(r, l, k - 1);
    }
  }

  // ---- Synchronous TPDOs that were refused ----

  /** The frames refused among the first `k`, in order. */
  function Refused(fs: seq<CanFrame>, l: Link, k: nat): seq<CanFrame>
    requires k <= |fs|
  {
    if k == 0 then []
    else Refused(fs, l, k - 1) + if VerdictAt(l, k - 1).Accepted? then [] else [fs[k - 1]]
  }

  /** Offering frames in order: each once, with the verdicts in turn, and the refused ones are what is kept. */
  lemma {:induction false} OffersExact(l: Link, service: Service, fs: seq<CanFrame>, k: nat, now: U64)
    requires k <= |fs|
    ensures var (l', refused) := OfferedFirst(l, service, fs, k, now);
            l'.oracle == l.oracle && l'.tried == l.tried + k && l.hist <= l'.hist && |l'.hist| == |l.hist| + k
            && (forall j :: 0 <= j < k ==> OfferedAs(l, l', j, service, fs[j], now))
            && refused == Refused(fs, l, k)
  {
    if k > 0 {
      OffersExact(l, service, fs, k - 1, now);
    }
  }

  lemma {:induction false} RefusedCount(fs: seq<CanFrame>, l: Link, k: nat, f: CanFrame)
    requires k <= |fs|
    ensures f in Refused(fs, l, k) <==> exists j :: 0 <= j < k && fs[j] == f && !VerdictAt(l, j).Accepted?
  {
    if k > 0 {
      RefusedCount(fs, l, k - 1, f);
    }
  }

  /**
   Retrying: outside Operational or past the window everything retained is
   dropped unsent; at the time of the last attempt nothing happens; otherwise
   every retained frame is offered once more, in order, and exactly the refused
   ones are retained.
   */
  lemma RetryDuty(w: World, now: U64)
    ensures var (w', fs) := (Retried(w, now), w.n.retained);
            if !w.n.nmt.Operational? || !w.n.window.active
               || (w.n.window.lengthUs != 0 && Elapsed(now, w.n.window.openedAtUs) > w.n.window.lengthUs)
            then w'.n.retained == [] && w'.l == w.l
            else if fs == [] || w.n.lastAttempt == Some(now) then w' == w
            else |w'.l.hist| == |w.l.hist| + |fs|
                 && (forall j :: 0 <= j < |fs| ==> OfferedAs(w.l, w'.l, j, SyncTpdo(w.n.window.lengthUs), fs[j], now))
                 && w'.n.retained == Refused(fs, w.l, |fs|)
  {
    hide Elapsed, OfferedFirst;
    OffersExact(w.l, SyncTpdo(w.n.window.lengthUs), w.n.retained, |w.n.retained|, now);
  }

  /** A frame refused at some instant is not offered again at that instant, by a pulse or by a retry. */
  lemma NoSecondAttempt(w: World, now: U64)
    requires WellShaped(w.n)
    ensures w.n.nmt.Operational? ==> Retried(SyncHandled(w, now), now) == SyncHandled(w, now)
    ensures Retried(Retried(w, now), now) == Retried(w, now)
  {
    hide OfferedFirst, T.SyncFrames, CommitsNoted, R.Committed, DueSources;
  }

  // ---- Emergencies ----

  /** One offer later everything is one place earlier. */
  lemma NextOffer(l: Link, first: CanFrame, l': Link, j: nat, f: CanFrame, now: U64)
    ensures VerdictAt(l, j + 1) == VerdictAt(Offered(l, Emergency, first, now), j)
    ensures OfferedAs(Offered(l, Emergency, first, now), l', j, Emergency, f, now) ==>
              OfferedAs(l, l', j + 1, Emergency, f, now)
  {
  }

  lemma FirstOffer(l: Link, first: CanFrame, l': Link, now: U64)
    requires Offered(l, Emergency, first, now).hist <= l'.hist
    ensures VerdictAt(l, 0) == NextVerdict(l) && OfferedAs(l, l', 0, Emergency, first, now)
  {
    assert l'.hist[|l.hist|] == Offered(l, Emergency, first, now).hist[|l.hist|];
  }

  /** The first `k` emergencies were offered and accepted, and either none is left or the next one was refused. */
  predicate SentInOrder(l: Link, l': Link, q: seq<CanFrame>, k: nat, now: U64)
    requires k <= |q|
  {
    (forall j :: 0 <= j < k ==> OfferedAs(l, l', j, Emergency, q[j], now) && VerdictAt(l, j).Accepted?)
    && (k < |q| ==> OfferedAs(l, l', k, Emergency, q[k], now) && !VerdictAt(l, k).Accepted?)
    && l.hist <= l'.hist && |l'.hist| == |l.hist| + if k < |q| then k + 1 else k
  }

  lemma SentOneMore(l: Link, l': Link, q: seq<CanFrame>, m: nat, now: U64)
    requires q != [] && m <= |q| - 1 && NextVerdict(l).Accepted?
    requires SentInOrder(Offered(l, Emergency, q[0], now), l', q[1..], m, now)
    ensures SentInOrder(l, l', q, m + 1, now)
  {
    hide OfferedAs, VerdictAt;
    var l1 := Offered(l, Emergency, q[0], now);
    FirstOffer(l, q[0], l', now);
    forall j | 0 <= j < m + 1 ensures OfferedAs(l, l', j, Emergency, q[j], now) && VerdictAt(l, j).Accepted? {
      if j > 0 {
        NextOffer(l, q[0], l', j - 1, q[j], now);
        assert OfferedAs(l1, l', j - 1, Emergency, q[1..][j - 1], now) && VerdictAt(l1, j - 1).Accepted?;
      }
    }
    if m + 1 < |q| {
      NextOffer(l, q[0], l', m, q[m + 1], now);
    }
  }

  /**
   Emergencies leave in order: the first `k` are offered and accepted, and either
   the queue is then empty or the next one was just offered and refused and stays
   first.
   */
  lemma {:induction false} EmergenciesInOrder(w: World, now: U64) returns (k: nat)
    ensures k <= |w.n.emergencies| && EmergenciesDrained(w, now).n == w.n.(emergencies := w.n.emergencies[k..])
    ensures SentInOrder(w.l, EmergenciesDrained(w, now).l, w.n.emergencies, k, now)
    decreases |w.n.emergencies|
  {
    var q := w.n.emergencies;
    if q == [] || !NextVerdict(w.l).Accepted? {
      k := 0;
    } else {
      hide SentInOrder;
      var w1 := World(w.n.(emergencies := q[1..]), Offered(w.l, Emergency, q[0], now));
      var m := EmergenciesInOrder(w1, now);
      k := m + 1;
      SentOneMore(w.l, EmergenciesDrained(w1, now).l, q, m, now);
    }
  }

  /** Emergencies are sent only by a booted node in Pre-Operational or Operational; elsewhere they wait. */
  lemma EmergencyDuty(w: World, now: U64)
    ensures EmergenciesSent(w, now) == if w.n.booted && (w.n.nmt.PreOperational? || w.n.nmt.Operational?)
                                       then EmergenciesDrained(w, now) else w
  {
    hide EmergenciesDrained;
  }

  /** A queued emergency is the newest; a full queue gives up its oldest. */
  lemma QueueDuty(n: Node, f: CanFrame)
    requires |n.emergencies| <= EMCY_QUEUE
    ensures var q := EmergencyQueued(n, f).emergencies;
            |q| <= EMCY_QUEUE && q[|q| - 1] == f
            && q[..|q| - 1] == if |n.emergencies| < EMCY_QUEUE then n.emergencies else n.emergencies[1..]
  {
  }

  // ---- Events for the application ----

  function DeadlineEvents(numbers: seq<nat>): (es: seq<OdEvent>)
    requires forall i :: 0 <= i < |numbers| ==> numbers[i] >= 1
    ensures |es| == |numbers|
  {
    seq(|numbers|, i requires 0 <= i < |numbers| => OdEvent(Addr(0x1400 + numbers[i] - 1, 0), FromDeadline))
  }

  /** Each reported deadline becomes an event on the RPDO's record, in order. */
  lemma {:induction false} DeadlineEventsConserved(s: Sink, numbers: seq<nat>, capacity: nat)
    requires |s.events| <= capacity && forall i :: 0 <= i < |numbers| ==> numbers[i] >= 1
    requires s.dropped <= U32_MAX
    ensures var s' := DeadlinesPushed(s, numbers, capacity);
            s'.od == s.od && Conserved(s'.events, s'.dropped, s.events + DeadlineEvents(numbers), s.dropped, capacity)
  {
    hide Conserved, Newest, SatAdd;
    NothingPushed(s.events, s.dropped, capacity);
    if numbers != [] {
      var n := |numbers| - 1;
      DeadlineEventsConserved(s, numbers[..n], capacity);
      var s1 := DeadlinesPushed(s, numbers[..n], capacity);
      var all, e := s.events + DeadlineEvents(numbers[..n]), DeadlineEvent(numbers[n]);
      assert s.events + DeadlineEvents(numbers) == all + [e];
      OneMoreEvent(s1.events, s1.dropped, all, s.dropped, capacity, e);
    } else {
      assert s.events + DeadlineEvents([]) == s.events;
    }
  }

  /** Heartbeat events reach the application's queue in order; the oldest give way and are counted. */
  lemma {:induction false} HeartbeatEventsConserved(n: Node, notes: seq<HeartbeatNote>)
    requires |n.hbEvents| <= HB_EVENT_QUEUE && n.sink.dropped <= U32_MAX
    ensures var n' := HeartbeatNoted(n, notes);
            Conserved(n'.hbEvents, n'.sink.dropped, n.hbEvents + notes, n.sink.dropped, HB_EVENT_QUEUE)
  {
    hide Conserved, Newest, SatAdd;
    NothingPushed(n.hbEvents, n.sink.dropped, HB_EVENT_QUEUE);
    if notes != [] {
      var k := |notes| - 1;
      HeartbeatEventsConserved(n, notes[..k]);
      var n1, all := HeartbeatNoted(n, notes[..k]), n.hbEvents + notes[..k];
      assert n.hbEvents + notes == all + [notes[k]];
      OneMoreEvent(n1.hbEvents, n1.sink.dropped, all, n.sink.dropped, HB_EVENT_QUEUE, notes[k]);
    } else {
      assert n.hbEvents + notes == n.hbEvents;
    }
  }

  /** A heartbeat of a monitored node pushes exactly the events it gives rise to; a byte that is no state pushes none. */
  lemma HeartbeatHeard(n: Node, s: nat, byte: bv8, now: U64)
    requires s < |n.monitors| && n.monitors[s].Some? && |n.hbEvents| <= HB_EVENT_QUEUE && n.sink.dropped <= U32_MAX
    ensures var (n', m, state) := (HeartbeatReceived(n, s, byte, now), n.monitors[s].value, FromHeartbeatByte(byte));
            var es := if state.Some? then H.FrameEvents(m.state, state.value) else [];
            Conserved(n'.hbEvents, n'.sink.dropped, n.hbEvents + Tagged(m.nodeId, es), n.sink.dropped, HB_EVENT_QUEUE)
  {
    hide Conserved, HeartbeatNoted, FromHeartbeatByte, H.FrameEvents, Tagged;
    var m := n.monitors[s].value;
    var (m', es) := H.Received(m, m.nodeId, byte, now);
    HeartbeatEventsConserved(n.(monitors := n.monitors[s := Some(m')]), Tagged(m.nodeId, es));
  }

  /** The events of a timeout check over the first `k` monitors, in slot order. */
  function TimeoutNotes(ms: seq<Option<H.Monitor>>, now: U64, k: nat): seq<HeartbeatNote>
    requires k <= |ms|
  {
    if k == 0 then []
    else TimeoutNotes(ms, now, k - 1)
         + if ms[k - 1].Some? && H.Overdue(ms[k - 1].value, now) then [HeartbeatNote(ms[k - 1].value.nodeId, H.TimedOut)] else []
  }

  /** Notes pushed in two goes are pushed in one. */
  lemma {:induction false} NotesAppend(n: Node, a: seq<HeartbeatNote>, n1: Node, b: seq<HeartbeatNote>)
    requires n1.hbEvents == HeartbeatNoted(n, a).hbEvents && n1.sink == HeartbeatNoted(n, a).sink
    ensures HeartbeatNoted(n1, b).hbEvents == HeartbeatNoted(n, a + b).hbEvents
    ensures HeartbeatNoted(n1, b).sink == HeartbeatNoted(n, a + b).sink
  {
    if b == [] {
      assert a + b == a;
    } else {
      var k := |b| - 1;
      NotesAppend(n, a, n1, b[..k]);
      assert (a + b)[..|a + b| - 1] == a + b[..k] && (a + b)[|a + b| - 1] == b[k];
    }
  }

  lemma CheckedNotes(m: H.Monitor, now: U64)
    ensures Tagged(H.Checked(m, now).0.nodeId, H.Checked(m, now).1)
         == if H.Overdue(m, now) then [HeartbeatNote(m.nodeId, H.TimedOut)] else []
  {
  }

  /** A timeout check reports exactly the monitors that are overdue, in slot order. */
  lemma {:induction false} TimeoutDuty(n: Node, now: U64, k: nat)
    requires k <= |n.monitors|
    ensures var n' := MonitorsChecked(n, now, k);
            (forall i :: k <= i < |n.monitors| ==> n'.monitors[i] == n.monitors[i])
            && n'.hbEvents == HeartbeatNoted(n, TimeoutNotes(n.monitors, now, k)).hbEvents
            && n'.sink == HeartbeatNoted(n, TimeoutNotes(n.monitors, now, k)).sink
  {
    hide H.Overdue, H.Checked, HeartbeatNoted, Tagged;
    if k == 0 {
      NothingNoted(n);
    } else {
      TimeoutDuty(n, now, k - 1);
      var n1, notes := MonitorsChecked(n, now, k - 1), TimeoutNotes(n.monitors, now, k - 1);
      if n.monitors[k - 1].Some? {
        var (m, es) := H.Checked(n.monitors[k - 1].value, now);
        var n2 := n1.(monitors := n1.monitors[k - 1 := Some(m)]);
        CheckedNotes(n.monitors[k - 1].value, now);
        NotedKeepsMonitors(n2, Tagged(m.nodeId, es));
        NotesAppend(n, notes, n2, Tagged(m.nodeId, es));
      } else {
        assert notes + [] == notes;
      }
    }
  }

  lemma NothingNoted(n: Node)
    ensures HeartbeatNoted(n, []) == n
  {
  }

  // ---- SDO ----

  lemma {:induction false} NotYetReached(chs: seq<Slot.Channel>, l: Link, now: U64, k: nat, c: nat)
    requires k <= c < |chs|
    ensures ChannelsServiced(chs, l, now, k).0[c] == chs[c] == PollsBegun(chs, l, now, k).0[c]
  {
    hide Slot.Serviced, Slot.BeganPoll;
    if k > 0 {
      NotYetReached(chs, l, now, k - 1, c);
    }
  }

  /** Each call starts a poll on, and services, every channel once, in order, on the link the previous one left. */
  lemma {:induction false} EveryChannelServed(chs: seq<Slot.Channel>, l: Link, now: U64, k: nat, c: nat)
    requires c < k <= |chs|
    ensures ChannelsServiced(chs, l, now, k).0[c] == Slot.Serviced(chs[c], ChannelsServiced(chs, l, now, c).1, c, now).0
    ensures ChannelsServiced(chs, l, now, c + 1).1 == Slot.Serviced(chs[c], ChannelsServiced(chs, l, now, c).1, c, now).1
    ensures PollsBegun(chs, l, now, k).0[c] == Slot.BeganPoll(chs[c], PollsBegun(chs, l, now, c).1, c, now).0
  {
    hide Slot.Serviced, Slot.BeganPoll;
    if c == k - 1 {
      NotYetReached(chs, l, now, c, c);
    } else {
      EveryChannelServed(chs, l, now, k - 1, c);
    }
  }

  /** The link on which a call services channel `c`. */
  function ServiceLink(w: World, now: U64, c: nat): Link
    requires c <= |w.n.channels|
  {
    ChannelsServiced(w.n.channels, w.l, now, c).1
  }

  /** Servicing SDO leaves every channel, and the link, as the channels' own service leaves them. */
  lemma ServiceReachesEveryChannel(w: World, now: U64, c: nat)
    requires c < |w.n.channels|
    ensures var w' := SdoServiced(w, now);
            |w'.n.channels| == |w.n.channels| && w'.n == w.n.(channels := w'.n.channels)
            && w'.n.channels[c] == Slot.Serviced(w.n.channels[c], ServiceLink(w, now, c), c, now).0
            && ServiceLink(w, now, c + 1) == Slot.Serviced(w.n.channels[c], ServiceLink(w, now, c), c, now).1
            && ServiceLink(w, now, 0) == w.l && ServiceLink(w, now, |w.n.channels|) == w'.l
  {
    hide Slot.Serviced, Slot.BeganPoll;
    EveryChannelServed(w.n.channels, w.l, now, |w.n.channels|, c);
  }

  /** The start of a call starts a poll on every channel and latches the dirty set. */
  lemma BeginReachesEveryChannel(w: World, now: U64, c: nat)
    requires WellShaped(w.n) && c < |w.n.channels|
    ensures var w' := CallBegun(w, now);
            |w'.n.channels| == |w.n.channels|
            && w'.n.channels[c] == Slot.BeganPoll(w.n.channels[c], PollsBegun(w.n.channels, w.l, now, c).1, c, now).0
            && w'.n == w.n.(channels := w'.n.channels, tpdo := w'.n.tpdo)
  {
    hide Slot.Serviced, Slot.BeganPoll, T.SyncLatched;
    EveryChannelServed(w.n.channels, w.l, now, |w.n.channels|, c);
  }

  /**
   An SDO request frame of eight bytes reaches its channel in Pre-Operational
   and Operational; any other is ignored. What it commits touches no channel and
   sends nothing.
   */
  lemma SdoRequestDuty(w: World, c: nat, f: CanFrame, now: U64)
    requires c < |w.n.channels|
    ensures !(w.n.nmt.PreOperational? || w.n.nmt.Operational?) || |f.data| != 8 ==> SdoReceived(w, c, f, now) == w
    ensures (w.n.nmt.PreOperational? || w.n.nmt.Operational?) && |f.data| == 8 ==>
              var (ch, l, _) := Slot.Requested(w.n.channels[c], w.l, c, f.data[0] == 0x80, now);
              var w' := SdoReceived(w, c, f, now);
              w'.n.channels == w.n.channels[c := ch] && l.hist <= w'.l.hist && w'.l.tried == l.tried
  {
    hide Slot.Requested, Write, PdosReloaded, HeartbeatReloaded, SyncReloaded, EventPushed;
    if History.Talking(w.n.nmt) && |f.data| == 8 {
      var (ch, l, commit) := Slot.Requested(w.n.channels[c], w.l, c, f.data[0] == 0x80, now);
      if commit.Some? {
        CommitKeepsChannels(World(w.n.(channels := w.n.channels[c := ch]), l), commit.value);
      }
    }
  }

  lemma CommitKeepsChannels(w: World, c: Slot.Commit)
    ensures var w' := CommitApplied(w, c);
            w'.n.channels == w.n.channels && w.l.hist <= w'.l.hist && w'.l.tried == w.l.tried
  {
    hide Write, LoadedSync, LoadedMonitor, LoadedTpdos, LoadedRpdos, ReadNat, S.Configured, S.Retarget, Newest;
  }

  // ---- LSS ----

  /** An LSS frame is answered exactly as the slave answers it, and changes nothing else. */
  lemma LssDuty(w: World, f: CanFrame, now: U64)
    ensures var (w', (slave, response)) := (LssReceived(w, f, now), Lss.Step(w.n.lss, f));
            w'.n == w.n.(lss := slave)
            && w'.l == if response.Some? then Offered(w.l, LssResponse, response.value, now) else w.l
  {
    hide Lss.Step;
  }
}
