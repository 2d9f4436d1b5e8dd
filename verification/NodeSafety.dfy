/**
 Safety over every run of a node: whatever frames arrive, whatever the
 transport refuses and whatever the application does, the history stays lawful,
 the node is where its history says, and nothing crosses the Operational boundary.
 */
module NodeSafety {
  import opened Types
  import opened ObjectDictionary
  import opened PdoWire
  import opened Transport
  import opened Nmt
  import opened History
  import opened NodeModel
  import Lss
  import H = Heartbeat
  import R = RpdoEngine
  import Slot = SdoSlot
  import S = Sync
  import T = TpdoEngine

  // ---- The invariant ----

  predicate NothingBuffered(r: R.Rpdo) {
    (forall s :: 0 <= s < |r.pending| ==> r.pending[s].None?) && (forall s :: 0 <= s < |r.armed| ==> !r.armed[s])
  }

  /** No buffered RPDO, no armed deadline, no retained synchronous TPDO, a closed window. */
  predicate Quiet(n: Node) {
    n.retained == [] && !n.window.active && NothingBuffered(n.rpdo)
  }

  predicate AllSilent(chs: seq<Slot.Channel>) {
    forall c :: 0 <= c < |chs| ==> Slot.Silent(chs[c])
  }

  /** What the NMT state alone implies at every step boundary. */
  predicate Calm(n: Node) {
    (n.booted <==> !n.nmt.Initializing?)
    && (!n.nmt.Operational? ==> Quiet(n))
    && (!Talking(n.nmt) ==> AllSilent(n.channels))
  }

  /** Retained frames were sampled by the last pulse and not yet accepted; the window was opened by it. */
  predicate RetainedOk(n: Node, a: Account) {
    n.retained != [] ==>
      a.pulse.Some? && n.window.active && n.window.openedAtUs == a.pulse.value.at
      && multiset(n.retained) + a.sent <= multiset(a.pulse.value.frames)
  }

  /** The frames buffered in the slots from `k` on. */
  function BufferFrom(pending: seq<Option<DataFrame>>, k: nat): map<nat, DataFrame> {
    map s: nat | k <= s < |pending| && pending[s].Some? :: pending[s].value
  }

  predicate SlotsOk(chs: seq<Slot.Channel>, a: Account) {
    forall c :: 0 <= c < |chs| ==> chs[c].slot == HeldAt(a, c)
  }

  /** The producer is where the pulses accepted since the last restart leave it. */
  predicate CycleOk(p: S.Producer, cycle: S.Producer, beats: seq<S.Sent>) {
    S.ValidOverflow(cycle.overflow) && S.StationOk(cycle, S.Station(p, beats))
  }

  /** The node is as its history accounts for it, and not inside a pulse. */
  predicate Matches(n: Node, a: Account) {
    a.state == n.nmt && Free(a) && a.dict == n.sink.od && a.buffered == BufferFrom(n.rpdo.pending, 0)
    && RetainedOk(n, a) && SlotsOk(n.channels, a) && CycleOk(n.producer, a.cycle, a.beats)
  }

  predicate Base(w: World) {
    WellShaped(w.n) && Lawful(w.l.hist) && Matches(w.n, AccountOf(w.l.hist))
  }

  predicate Safe(w: World) {
    Base(w) && Calm(w.n)
  }

  /** No response has outlived the timeout at call time `now`. */
  predicate AllFresh(chs: seq<Slot.Channel>, now: U64) {
    forall c :: 0 <= c < |chs| ==> Slot.Fresh(chs[c], now)
  }

  lemma BaseShaped(w: World)
    requires Base(w)
    ensures WellShaped(w.n) && StateOf(w.l.hist) == w.n.nmt && Lawful(w.l.hist) && Free(AccountOf(w.l.hist))
    ensures AccountOf(w.l.hist).dict == w.n.sink.od
  {
    hide AccountOf, Lawful, RetainedOk, SlotsOk, CycleOk, BufferFrom;
  }

  // ---- Changes that leave the history alone ----

  /** The parts of a node the invariant speaks about. */
  ghost predicate SameCore(n: Node, n': Node) {
    n'.booted == n.booted && n'.nmt == n.nmt && n'.retained == n.retained && n'.channels == n.channels
    && n'.window.active == n.window.active && n'.window.openedAtUs == n.window.openedAtUs
    && n'.rpdo.pending == n.rpdo.pending && n'.rpdo.armed == n.rpdo.armed && |n'.tpdo.pdos| == |n.tpdo.pdos|
    && n'.sink.od == n.sink.od && n'.producer == n.producer
  }

  lemma NodeOnly(w: World, n': Node)
    requires Safe(w) && WellShaped(n') && SameCore(w.n, n')
    ensures Safe(w.(n := n'))
  {
    hide AccountOf, Lawful, BufferFrom, CycleOk;
  }

  // ---- One more observation ----

  /** The invariant after an observation, from the account alone. */
  lemma Observed(w: World, o: Obs, w': World)
    requires Base(w) && Legal(AccountOf(w.l.hist), o) && w'.l.hist == w.l.hist + [o]
    requires WellShaped(w'.n) && Matches(w'.n, After(AccountOf(w.l.hist), o))
    ensures Base(w') && AccountOf(w'.l.hist) == After(AccountOf(w.l.hist), o)
  {
    hide AccountOf, Lawful, Legal, After, Matches;
    Snoc(w.l.hist, o);
  }

  predicate Neutral(service: Service) {
    !service.SyncTpdo? && !service.SyncPulse? && !service.SdoResponse?
  }

  lemma NeutralOffer(w: World, service: Service, f: CanFrame, now: U64)
    requires Safe(w) && Neutral(service) && LegalOffer(AccountOf(w.l.hist), service, f, now)
    ensures Safe(w.(l := Offered(w.l, service, f, now)))
    ensures AccountOf(Offered(w.l, service, f, now).hist)
         == AccountOf(w.l.hist).(bootUp := BootsUp(Offer(service, f, NextVerdict(w.l), now)))
  {
    hide AccountOf, Lawful, BufferFrom, CycleOk, LegalOffer, Calm;
    Observed(w, Offer(service, f, NextVerdict(w.l), now), w.(l := Offered(w.l, service, f, now)));
  }

  lemma EmptyBuffer(pending: seq<Option<DataFrame>>, k: nat)
    requires (forall s :: 0 <= s < |pending| ==> pending[s].None?) || k >= |pending|
    ensures BufferFrom(pending, k) == map[]
  {
  }

  /** Entering a state with nothing left over from the previous period. */
  lemma EnterBase(w: World, n': Node, s: NmtState)
    requires Base(w) && WellShaped(n') && Quiet(n') && LegalEntry(AccountOf(w.l.hist), s)
    requires n'.channels == w.n.channels && n'.sink.od == w.n.sink.od && n'.producer == w.n.producer
    ensures Base(EnteredState(w.(n := n'), s))
  {
    hide AccountOf, Lawful, BufferFrom, CycleOk, LegalEntry;
    EmptyBuffer(n'.rpdo.pending, 0);
    Observed(w, Entered(s), EnteredState(w.(n := n'), s));
  }

  // ---- SDO channels ----

  lemma ChannelStep(w: World, c: nat, ch: Slot.Channel, l: Link)
    requires Base(w) && c < |w.n.channels| && Slot.Tracks(ch, l.hist, c) && Beside(w.l.hist, l.hist, c)
    ensures Base(World(w.n.(channels := w.n.channels[c := ch]), l))
  {
    hide AccountOf, Lawful, BufferFrom;
  }

  lemma {:induction false} CancelBase(w: World, k: nat)
    requires Base(w) && k <= |w.n.channels| && !Talking(w.n.nmt)
    ensures var (chs, l) := ChannelsCancelled(w.n.channels, w.l, k);
            Base(World(w.n.(channels := chs), l)) && forall c :: 0 <= c < k ==> Slot.Silent(chs[c])
  {
    hide Lawful, AccountOf, RetainedOk, BufferFrom, CycleOk, Beside, Slot.Cancelled;
    if k > 0 {
      CancelBase(w, k - 1);
      var (chs1, l1) := ChannelsCancelled(w.n.channels, w.l, k - 1);
      Slot.CancelledKeeps(chs1[k - 1], l1, k - 1);
      var (ch, l2) := Slot.Cancelled(chs1[k - 1], l1, k - 1);
      ChannelStep(World(w.n.(channels := chs1), l1), k - 1, ch, l2);
    }
  }

  /** All channels are cancelled in a state without SDO. */
  lemma CancelAllBase(w: World)
    requires Base(w) && !Talking(w.n.nmt)
    ensures Base(CancelledAll(w)) && AllSilent(CancelledAll(w).n.channels)
    ensures CancelledAll(w).n == w.n.(channels := CancelledAll(w).n.channels)
  {
    hide Base, ChannelsCancelled;
    CancelBase(w, |w.n.channels|);
  }

  // ---- Resets and state changes ----

  lemma LoadedIsValid(od: Od)
    ensures LoadedSync(od).Some? ==> S.ValidOverflow(LoadedSync(od).value.overflow)
  {
    hide ReadNat;
  }

  lemma ClearedIsQuiet(n: Node, kind: ResetType)
    requires WellShaped(n) && S.ValidOverflow(n.producer.overflow)
    ensures var n' := CommunicationCleared(n, kind);
            WellShaped(n') && Quiet(n') && n'.nmt == n.nmt && n'.channels == n.channels && !n'.booted
            && n'.sink == n.sink && n'.producer.counter == 0 && S.ValidOverflow(n'.producer.overflow)
  {
    LoadedIsValid(n.sink.od);
    hide LoadedSync, LoadedMonitor, LoadedTpdos, LoadedRpdos, ReadNat, S.ValidOverflow;
  }

  lemma ValidNow(w: World)
    requires Base(w)
    ensures S.ValidOverflow(w.n.producer.overflow)
  {
    hide AccountOf, Lawful, BufferFrom, RetainedOk, SlotsOk;
  }

  /** A restarted producer begins a new cycle. */
  lemma RestartBase(w: World, p: S.Producer)
    requires Base(w) && p.counter == 0 && S.ValidOverflow(p.overflow)
    requires w.n.nmt.Initializing? || Restart(p) != Restart(w.n.producer)
    ensures Base(World(w.n.(producer := p), Noted(w.l, Restart(p))))
  {
    hide AccountOf, Lawful, BufferFrom;
    Observed(w, Restart(p), World(w.n.(producer := p), Noted(w.l, Restart(p))));
  }

  lemma ResetOk(w: World, kind: ResetType)
    requires Safe(w)
    ensures Safe(WorldReset(w, kind))
    ensures AllSilent(WorldReset(w, kind).n.channels)
  {
    hide Base, CommunicationCleared, CancelledAll;
    BaseShaped(w);
    ValidNow(w);
    var n1 := CommunicationCleared(w.n, kind);
    ClearedIsQuiet(w.n, kind);
    var kept := n1.(producer := w.n.producer);
    EnterBase(w, kept, Initializing);
    var w1 := EnteredState(w.(n := kept), Initializing);
    RestartBase(w1, n1.producer);
    CancelAllBase(World(w1.n.(producer := n1.producer), Noted(w1.l, Restart(n1.producer))));
  }

  lemma LeftIsQuiet(n: Node)
    requires WellShaped(n)
    ensures var n' := LeftOperational(n);
            WellShaped(n') && Quiet(n') && n'.nmt == n.nmt && n'.channels == n.channels && n'.booted == n.booted
            && n'.sink == n.sink && n'.producer == n.producer
  {
  }

  lemma SwitchOk(w: World, s: NmtState)
    requires Safe(w) && !w.n.nmt.Initializing? && !s.Initializing? && s != w.n.nmt
    ensures Safe(Switched(w, s))
    ensures Talking(s) ==> Switched(w, s).n.channels == w.n.channels
    ensures !Talking(s) ==> AllSilent(Switched(w, s).n.channels)
  {
    hide Base, CancelledAll, LeftOperational;
    BaseShaped(w);
    if s.Operational? {
      EnterBase(w, w.n, s);
    } else {
      LeftIsQuiet(w.n);
      EnterBase(w, LeftOperational(w.n), s);
      if s.Stopped? {
        CancelAllBase(EnteredState(w.(n := LeftOperational(w.n)), s));
      }
    }
  }

  lemma NmtOk(w: World, f: CanFrame, now: U64)
    requires Safe(w) && AllFresh(w.n.channels, now)
    ensures Safe(NmtReceived(w, f)) && AllFresh(NmtReceived(w, f).n.channels, now)
  {
    hide Base, Switched, WorldReset, CommandFromByte, Calm;
    if |f.data| == 2 && CommandFromByte(f.data[0]).Some? {
      var (s, t) := Commanded(w.n.nmt, CommandFromByte(f.data[0]).value, f.data[1] as nat, w.n.id);
      match t {
        case NoTransition =>
        case StateChanged => SwitchOk(w, s);
        case ResetApplication => ResetOk(w, ResetApp);
        case ResetComm => ResetOk(w, ResetCom);
      }
    }
  }

  /** Boot-up: only a frame accepted or failed for good leads out of Initializing. */
  lemma BootOk(w: World, now: U64)
    requires Safe(w)
    ensures Safe(BootTried(w, now).0)
    ensures BootTried(w, now).1 ==> BootTried(w, now).0.n.booted
  {
    hide Base, AccountOf;
    if !w.n.booted {
      BaseShaped(w);
      var f := H.HeartbeatFrame(w.n.id, Initializing);
      NeutralOffer(w, BootUp, f, now);
      var w1 := w.(l := Offered(w.l, BootUp, f, now));
      var n1 := w1.n.(heartbeat := w1.n.heartbeat.(lastSentUs := now));
      NodeOnly(w1, n1);
      if !NextVerdict(w.l).WouldBlock? {
        BootEnters(World(n1, w1.l));
      }
    }
  }

  lemma BootEnters(w: World)
    requires Safe(w) && w.n.nmt.Initializing? && AccountOf(w.l.hist).bootUp
    ensures var w1 := EnteredState(w.(n := w.n.(booted := true)), PreOperational);
            Safe(w1) && Safe(EnteredState(w1, Operational))
  {
    hide Base, AccountOf;
    BaseShaped(w);
    var n1 := w.n.(booted := true);
    EnterBase(w, n1, PreOperational);
    var w1 := EnteredState(w.(n := n1), PreOperational);
    BaseShaped(w1);
    EnterBase(w1, w1.n, Operational);
  }

  // ---- Pulses ----

  /** The account of the middle of a pulse differs only in what the commits touch. */
  ghost predicate CommittedUpTo(w: World, l: Link, k: nat)
    requires WellShaped(w.n) && k <= |w.n.rpdo.pdos|
  {
    var a, a' := AccountOf(w.l.hist), AccountOf(l.hist);
    Lawful(l.hist)
    && a'.(bootUp := a.bootUp, buffered := a.buffered, committing := a.committing, dict := a.dict) == a
    && a'.buffered == BufferFrom(w.n.rpdo.pending, k)
    && (a'.committing.Some? ==> a'.committing.value < k)
    && a'.dict == R.Committed(w.n.rpdo, k, w.n.capacity, w.n.sink).od
  }

  lemma BufferStep(pending: seq<Option<DataFrame>>, k: nat)
    requires k < |pending|
    ensures BufferFrom(pending, k + 1) == if pending[k].Some? then BufferFrom(pending, k) - {k} else BufferFrom(pending, k)
    ensures pending[k].Some? ==> k in BufferFrom(pending, k) && BufferFrom(pending, k)[k] == pending[k].value
  {
  }

  lemma CommitStep(w: World, l: Link, k: nat)
    requires Base(w) && w.n.nmt.Operational? && k < |w.n.rpdo.pdos| && CommittedUpTo(w, l, k)
    requires w.n.rpdo.pending[k].Some?
    ensures CommittedUpTo(w, Noted(l, RpdoCommitted(k, w.n.rpdo.pending[k].value, w.n.rpdo.pdos[k].mappings)), k + 1)
  {
    hide AccountOf, Lawful, BufferFrom, CycleOk, SlotsOk, RetainedOk, ApplyPayload, PayloadOd;
    var r := w.n.rpdo;
    var f := r.pending[k].value;
    Snoc(l.hist, RpdoCommitted(k, f, r.pdos[k].mappings));
    BufferStep(r.pending, k);
    PayloadOdIs(r.pdos[k].mappings, f.data, w.n.capacity, R.Committed(r, k, w.n.capacity, w.n.sink));
  }

  /** Before a pulse every buffered frame is committed, in slot order. */
  lemma {:induction false} CommitsNotedOk(w: World, k: nat)
    requires Base(w) && w.n.nmt.Operational? && k <= |w.n.rpdo.pdos|
    ensures CommittedUpTo(w, CommitsNoted(w.n.rpdo, w.l, k), k)
  {
    hide AccountOf, Lawful, BufferFrom, CycleOk, SlotsOk, RetainedOk, ApplyPayload;
    if k > 0 {
      CommitsNotedOk(w, k - 1);
      var l1 := CommitsNoted(w.n.rpdo, w.l, k - 1);
      if w.n.rpdo.pending[k - 1].Some? {
        CommitStep(w, l1, k - 1);
      } else {
        BufferStep(w.n.rpdo.pending, k - 1);
      }
    }
  }

  /** A pulse in the middle: all buffered frames committed, the image taken, nothing offered yet. */
  ghost predicate JustSampled(w: World, w': World, now: U64, frames: seq<CanFrame>) {
    var a, a' := AccountOf(w.l.hist), AccountOf(w'.l.hist);
    Lawful(w'.l.hist) && a'.state.Operational? && a'.committing.None?
    && a'.pulse == Some(Sample(now, frames)) && a'.offered == 0 && a'.sent == multiset{}
    && a'.dict == w'.n.sink.od && a'.buffered == BufferFrom(w'.n.rpdo.pending, 0)
    && a'.cycle == a.cycle && a'.beats == a.beats && a'.held == a.held
  }

  lemma PulseSampledOk(w: World, now: U64)
    requires Base(w) && w.n.nmt.Operational?
    ensures var w1 := PulseCommitted(w, now);
            JustSampled(w, PulseSampled(w1, now), now, T.SyncFrames(w1.n.tpdo, w1.n.sink.od, |w1.n.tpdo.pdos|))
  {
    hide AccountOf, Lawful, BufferFrom, CycleOk, SlotsOk, RetainedOk, CommitsNoted, R.Committed, DueSources, T.SyncFrames, Sampled;
    CommitsNotedOk(w, |w.n.rpdo.pdos|);
    var w1 := PulseCommitted(w, now);
    EmptyBuffer(w.n.rpdo.pending, |w.n.rpdo.pdos|);
    EmptyBuffer(w1.n.rpdo.pending, 0);
    Snoc(w1.l.hist, Pulse(now, w1.n.sink.od, DueSources(w1.n.tpdo, |w1.n.tpdo.pdos|)));
    FramesAreSampled(w1.n.tpdo, w1.n.sink.od, |w1.n.tpdo.pdos|);
  }

  lemma SampledSnoc(due: seq<Source>, c: Source, od: Od)
    ensures Sampled(due + [c], od)
         == Sampled(due, od) + match FrameFor(c.cobId, c.mappings, od) case Some(f) => [f] case None => []
  {
    hide FrameFor;
    assert (due + [c])[..|due|] == due;
  }

  /** The frames a pulse sends are those of its due TPDOs, sampled from the dictionary. */
  lemma {:induction false} FramesAreSampled(t: T.Tpdo, od: Od, k: nat)
    requires T.TpdoOk(t) && k <= |t.pdos|
    ensures T.SyncFrames(t, od, k) == Sampled(DueSources(t, k), od)
  {
    hide FrameFor, Sampled, T.DueOnSync;
    if k == 0 {
      NothingSampled(od);
    } else {
      FramesAreSampled(t, od, k - 1);
      var due, c := DueSources(t, k - 1), Source(t.pdos[k - 1].cobId, t.pdos[k - 1].mappings);
      SampledSnoc(due, c, od);
      if !T.DueOnSync(t, k - 1) {
        assert DueSources(t, k) == due;
      }
    }
  }

  lemma NothingSampled(od: Od)
    ensures Sampled([], od) == []
  {
  }

  /** Frames of the last pulse may be offered: copies remain, inside the window, in order right after the pulse. */
  ghost predicate MayOffer(a: Account, windowUs: nat, fs: seq<CanFrame>, now: U64) {
    a.state.Operational? && a.pulse.Some? && a.committing.None?
    && (windowUs == 0 || Elapsed(now, a.pulse.value.at) <= windowUs)
    && multiset(fs) + a.sent <= multiset(a.pulse.value.frames)
    && (Delivering(a) ==> a.offered == 0 && fs == a.pulse.value.frames && now == a.pulse.value.at)
  }

  /** The account after `k` of the frames `fs` were offered and `refused` among them refused. */
  ghost predicate OfferedUpTo(a: Account, l: Link, fs: seq<CanFrame>, k: nat, refused: seq<CanFrame>)
    requires k <= |fs| && a.pulse.Some?
  {
    var a' := AccountOf(l.hist);
    Lawful(l.hist) && a'.(bootUp := a.bootUp, offered := a.offered, sent := a.sent) == a
    && a'.offered == a.offered + k
    && multiset(refused) + multiset(fs[k..]) + a'.sent <= multiset(a.pulse.value.frames)
  }

  lemma OfferStep(a: Account, l: Link, windowUs: nat, fs: seq<CanFrame>, k: nat, refused: seq<CanFrame>, now: U64)
    requires k < |fs| && MayOffer(a, windowUs, fs, now) && OfferedUpTo(a, l, fs, k, refused)
    ensures OfferedUpTo(a, Offered(l, SyncTpdo(windowUs), fs[k], now), fs, k + 1,
                        if NextVerdict(l).Accepted? then refused else refused + [fs[k]])
  {
    hide AccountOf, Lawful, Elapsed;
    var f, a' := fs[k], AccountOf(l.hist);
    var all := multiset(a.pulse.value.frames);
    assert fs[k..] == [f] + fs[k + 1..];
    assert multiset(fs[k..]) == multiset{f} + multiset(fs[k + 1..]);
    assert (multiset(refused) + multiset(fs[k..]) + a'.sent)[f] <= all[f];
    Snoc(l.hist, Offer(SyncTpdo(windowUs), f, NextVerdict(l), now));
    assert multiset(refused + [f]) == multiset(refused) + multiset{f};
  }

  lemma NothingOffered(l: Link, fs: seq<CanFrame>)
    requires Lawful(l.hist) && AccountOf(l.hist).pulse.Some?
    requires multiset(fs) + AccountOf(l.hist).sent <= multiset(AccountOf(l.hist).pulse.value.frames)
    ensures OfferedUpTo(AccountOf(l.hist), l, fs, 0, [])
  {
    hide AccountOf, Lawful;
    assert fs[0..] == fs;
  }

  /** Each offered frame either counts as sent or is retained; none is duplicated. */
  lemma {:induction false} OfferedFirstOk(l: Link, windowUs: nat, fs: seq<CanFrame>, k: nat, now: U64)
    requires k <= |fs| && Lawful(l.hist) && MayOffer(AccountOf(l.hist), windowUs, fs, now)
    ensures var (l', refused) := OfferedFirst(l, SyncTpdo(windowUs), fs, k, now);
            OfferedUpTo(AccountOf(l.hist), l', fs, k, refused)
  {
    hide AccountOf, Lawful, Elapsed, OfferedUpTo;
    if k == 0 {
      NothingOffered(l, fs);
    } else {
      OfferedFirstOk(l, windowUs, fs, k - 1, now);
      var (l1, refused) := OfferedFirst(l, SyncTpdo(windowUs), fs, k - 1, now);
      OfferStep(AccountOf(l.hist), l1, windowUs, fs, k - 1, refused, now);
    }
  }

  /** Offering the frames of the last pulse ends that pulse and retains what was refused. */
  lemma SyncTpdosOfferedOk(w: World, fs: seq<CanFrame>, now: U64)
    requires WellShaped(w.n) && Lawful(w.l.hist) && |fs| <= |w.n.tpdo.pdos|
    requires var a := AccountOf(w.l.hist);
             MayOffer(a, w.n.window.lengthUs, fs, now) && w.n.window.active && w.n.window.openedAtUs == a.pulse.value.at
             && a.state == w.n.nmt && a.dict == w.n.sink.od && a.buffered == BufferFrom(w.n.rpdo.pending, 0)
             && SlotsOk(w.n.channels, a) && CycleOk(w.n.producer, a.cycle, a.beats)
    ensures Base(SyncTpdosOffered(w, fs, now))
  {
    hide AccountOf, Lawful, Elapsed, OfferedFirst, BufferFrom;
    OfferedFirstOk(w.l, w.n.window.lengthUs, fs, |fs|, now);
    var (l', refused) := OfferedFirst(w.l, SyncTpdo(w.n.window.lengthUs), fs, |fs|, now);
    assert fs[|fs|..] == [];
    var a' := AccountOf(l'.hist);
    assert multiset(refused) + multiset(fs[|fs|..]) + a'.sent == multiset(refused) + a'.sent;
  }

  /** A pulse keeps the invariant: it commits, then samples, then offers exactly what it sampled. */
  lemma SyncHandledOk(w: World, now: U64)
    requires Safe(w)
    ensures Safe(SyncHandled(w, now)) && SyncHandled(w, now).n.channels == w.n.channels
    ensures SyncHandled(w, now).n.producer == w.n.producer
  {
    hide AccountOf, Lawful, BufferFrom, CycleOk, SyncTpdosOffered, PulseCommitted, PulseSampled, T.SyncFrames;
    if w.n.nmt.Operational? {
      PulseSampledOk(w, now);
      var w1 := PulseCommitted(w, now);
      var w2 := PulseSampled(w1, now);
      PulseFields(w, now);
      var fs := T.SyncFrames(w1.n.tpdo, w1.n.sink.od, |w1.n.tpdo.pdos|);
      assert multiset(fs) + multiset{} == multiset(fs);
      SyncTpdosOfferedOk(w2, fs, now);
      OfferedFields(w2, fs, now);
    }
  }

  lemma PulseFields(w: World, now: U64)
    requires WellShaped(w.n)
    ensures var n1, n2 := PulseCommitted(w, now).n, PulseSampled(PulseCommitted(w, now), now).n;
            n2.nmt == w.n.nmt && n2.booted == w.n.booted && n2.channels == w.n.channels && |n2.tpdo.pdos| == |n1.tpdo.pdos|
            && n2.window == S.Opened(w.n.window, now) && S.Allows(n2.window, now) && n2.producer == w.n.producer
            && n2.sink == n1.sink
  {
  }

  lemma OfferedFields(w: World, fs: seq<CanFrame>, now: U64)
    ensures var n' := SyncTpdosOffered(w, fs, now).n;
            n' == w.n.(retained := n'.retained, lastAttempt := n'.lastAttempt)
  {
  }

  lemma SyncReceivedOk(w: World, f: CanFrame, now: U64)
    requires Safe(w)
    ensures Safe(SyncReceived(w, f, now)) && SyncReceived(w, f, now).n.channels == w.n.channels
  {
    hide Base, Calm, SyncHandled, S.Consumed;
    BaseShaped(w);
    var n1 := w.n.(consumer := S.Consumed(w.n.consumer, f).0);
    NodeOnly(w, n1);
    SyncHandledOk(w.(n := n1), now);
  }

  /** Producing a pulse offers the next number in time; an accepted one advances the cycle. */
  lemma SyncProducedOk(w: World, now: U64)
    requires Safe(w)
    ensures Safe(SyncProduced(w, now)) && SyncProduced(w, now).n.channels == w.n.channels
  {
    hide Base, SyncHandled, S.Polled, S.Confirmed, AccountOf;
    BaseShaped(w);
    var (producer, pulse) := S.Polled(w.n.producer, now);
    if w.n.booted && !w.n.nmt.Stopped? {
      ProducerPolledOk(w, now);
      if pulse.Some? {
        PulseOfferedOk(w, now);
        var n2 := w.n.(producer := if NextVerdict(w.l).Accepted? then S.Confirmed(producer, now) else producer);
        SyncHandledOk(World(n2, Offered(w.l, SyncPulse, pulse.value, now)), now);
      }
    }
  }

  /** Polling the producer at most starts its period. */
  lemma ProducerPolledOk(w: World, now: U64)
    requires Safe(w)
    ensures S.Polled(w.n.producer, now).1.None? ==> Safe(w.(n := w.n.(producer := S.Polled(w.n.producer, now).0)))
    ensures S.Polled(w.n.producer, now).1.Some? ==> S.Polled(w.n.producer, now).0 == w.n.producer
  {
    hide AccountOf, Lawful, BufferFrom, SlotsOk, Elapsed;
    var a := AccountOf(w.l.hist);
    S.StepKeepsStation(a.cycle, S.Station(w.n.producer, a.beats), S.Cycle(now, false, false));
  }

  lemma PulseOfferedOk(w: World, now: U64)
    requires Safe(w) && !w.n.nmt.Initializing? && !w.n.nmt.Stopped? && S.Polled(w.n.producer, now).1.Some?
    ensures var (producer, pulse) := S.Polled(w.n.producer, now);
            Safe(World(w.n.(producer := if NextVerdict(w.l).Accepted? then S.Confirmed(producer, now) else producer),
                       Offered(w.l, SyncPulse, pulse.value, now)))
  {
    hide AccountOf, Lawful, BufferFrom, Elapsed, S.NumberedPulse;
    var (producer, pulse) := S.Polled(w.n.producer, now);
    var v, a := NextVerdict(w.l), AccountOf(w.l.hist);
    var station := S.Station(w.n.producer, a.beats);
    S.OfferIsNext(a.cycle, station, now);
    S.StepKeepsStation(a.cycle, station, S.Cycle(now, v.Accepted?, false));
    var n' := w.n.(producer := if v.Accepted? then S.Confirmed(producer, now) else producer);
    Observed(w, Offer(SyncPulse, pulse.value, v, now), World(n', Offered(w.l, SyncPulse, pulse.value, now)));
  }

  lemma RetriedOk(w: World, now: U64)
    requires Safe(w)
    ensures Safe(Retried(w, now)) && Retried(w, now).n.channels == w.n.channels
  {
    hide AccountOf, Lawful, BufferFrom, CycleOk, Elapsed, SyncTpdosOffered;
    if w.n.retained != [] && w.n.nmt.Operational? && S.Allows(w.n.window, now) && w.n.lastAttempt != Some(now) {
      SyncTpdosOfferedOk(w, w.n.retained, now);
      OfferedFields(w, w.n.retained, now);
    }
  }

  // ---- Other received frames ----

  lemma ReceptionCases(r: R.Rpdo, f: DataFrame, now: U64, capacity: nat, sink: Sink)
    requires R.RpdoOk(r)
    ensures var (r', sink') := R.Processed(r, f, now, capacity, sink);
            match R.SlotOf(r.pdos, f)
            case None => r' == r && sink' == sink
            case Some(s) =>
              if !R.LongEnough(r.pdos[s], f) then r'.pending == r.pending && r'.armed == r.armed && sink' == sink
              else if R.Synchronous(r.pdos[s]) then r'.pending == r.pending[s := Some(f)] && sink' == sink
              else r'.pending == r.pending && sink'.od == PayloadOd(r.pdos[s].mappings, f.data, sink.od)
  {
    hide ApplyPayload, PayloadOd, R.LongEnough;
    if R.SlotOf(r.pdos, f).Some? {
      PayloadOdIs(r.pdos[R.SlotOf(r.pdos, f).value].mappings, f.data, capacity, sink);
    }
  }

  lemma BufferAdd(pending: seq<Option<DataFrame>>, s: nat, f: DataFrame)
    requires s < |pending|
    ensures BufferFrom(pending[s := Some(f)], 0) == BufferFrom(pending, 0)[s := f]
  {
  }

  lemma RpdoReceivedOk(w: World, f: DataFrame, now: U64)
    requires Safe(w)
    ensures Safe(RpdoReceived(w, f, now)) && RpdoReceived(w, f, now).n.channels == w.n.channels
  {
    hide AccountOf, Lawful, BufferFrom, CycleOk, R.Processed, R.LongEnough, PayloadOd;
    if w.n.nmt.Operational? {
      var r := w.n.rpdo;
      ReceptionCases(r, f, now, w.n.capacity, w.n.sink);
      var w', slot := RpdoReceived(w, f, now), R.SlotOf(r.pdos, f);
      if slot.Some? && R.LongEnough(r.pdos[slot.value], f) {
        var s := slot.value;
        if R.Synchronous(r.pdos[s]) {
          BufferAdd(r.pending, s, f);
          Observed(w, RpdoBuffered(s, f), w');
        } else {
          Observed(w, RpdoApplied(f, r.pdos[s].mappings), w');
        }
      }
    }
  }

  lemma PdosKeepCore(n: Node)
    requires WellShaped(n)
    ensures WellShaped(PdosReloaded(n)) && SameCore(n, PdosReloaded(n))
  {
    hide LoadedTpdos, LoadedRpdos;
  }

  lemma HeartbeatKeepsCore(n: Node, preserve: bool)
    requires WellShaped(n)
    ensures WellShaped(HeartbeatReloaded(n, preserve)) && SameCore(n, HeartbeatReloaded(n, preserve))
  {
    hide LoadedMonitor, ReadNat;
  }

  lemma SyncKeepsCore(n: Node)
    requires WellShaped(n)
    ensures WellShaped(SyncReloaded(n)) && SameCore(n, SyncReloaded(n).(producer := n.producer))
  {
    hide LoadedSync, S.Configured, S.Retarget;
  }

  lemma DownloadedOk(w: World, c: Slot.Commit)
    requires Safe(w) && Talking(w.n.nmt) && Write(w.n.sink.od, c.addr, c.data).Ok?
    ensures var od := Write(w.n.sink.od, c.addr, c.data).value;
            Safe(World(w.n.(sink := EventPushed(w.n.sink.(od := od), OdEvent(c.addr, FromSdo), w.n.capacity)),
                       Noted(w.l, Downloaded(c.addr, c.data))))
  {
    hide AccountOf, Lawful, BufferFrom, CycleOk, Write, Newest;
    var od := Write(w.n.sink.od, c.addr, c.data).value;
    var n1 := w.n.(sink := EventPushed(w.n.sink.(od := od), OdEvent(c.addr, FromSdo), w.n.capacity));
    Observed(w, Downloaded(c.addr, c.data), World(n1, Noted(w.l, Downloaded(c.addr, c.data))));
  }

  /** Re-reading SYNC settings either changes nothing or restarts the cycle. */
  lemma SyncReloadedOk(w: World)
    requires Safe(w)
    ensures Safe(World(SyncReloaded(w.n), CycleNoted(w.l, w.n.producer, SyncReloaded(w.n).producer)))
  {
    hide Base, LoadedSync, S.Retarget, S.ValidOverflow;
    BaseShaped(w);
    LoadedIsValid(w.n.sink.od);
    SyncKeepsCore(w.n);
    var n' := SyncReloaded(w.n);
    NodeOnly(w, n'.(producer := w.n.producer));
    if n'.producer != w.n.producer {
      RestartBase(w.(n := n'.(producer := w.n.producer)), n'.producer);
    } else {
      assert n'.(producer := w.n.producer) == n';
    }
  }

  lemma CommitAppliedOk(w: World, c: Slot.Commit)
    requires Safe(w) && Talking(w.n.nmt)
    ensures Safe(CommitApplied(w, c)) && CommitApplied(w, c).n.channels == w.n.channels
  {
    hide Base, Calm, Write, PdosReloaded, HeartbeatReloaded, SyncReloaded, EventPushed, CycleNoted;
    if Write(w.n.sink.od, c.addr, c.data).Ok? {
      BaseShaped(w);
      DownloadedOk(w, c);
      var od := Write(w.n.sink.od, c.addr, c.data).value;
      var n1 := w.n.(sink := EventPushed(w.n.sink.(od := od), OdEvent(c.addr, FromSdo), w.n.capacity));
      var w1 := World(n1, Noted(w.l, Downloaded(c.addr, c.data)));
      BaseShaped(w1);
      PdosKeepCore(n1);
      NodeOnly(w1, PdosReloaded(n1));
      HeartbeatKeepsCore(n1, true);
      NodeOnly(w1, HeartbeatReloaded(n1, true));
      SyncKeepsCore(n1);
      SyncReloadedOk(w1);
    }
  }

  lemma SdoReceivedOk(w: World, c: nat, f: CanFrame, now: U64)
    requires Safe(w) && c < |w.n.channels| && AllFresh(w.n.channels, now)
    ensures Safe(SdoReceived(w, c, f, now)) && AllFresh(SdoReceived(w, c, f, now).n.channels, now)
  {
    hide Lawful, AccountOf, RetainedOk, BufferFrom, CycleOk, Slot.Requested, CommitApplied, Slot.Stale;
    if Talking(w.n.nmt) && |f.data| == 8 {
      Slot.RequestedKeeps(w.n.channels[c], w.l, c, f.data[0] == 0x80, now);
      var (ch, l, commit) := Slot.Requested(w.n.channels[c], w.l, c, f.data[0] == 0x80, now);
      ChannelStep(w, c, ch, l);
      var w1 := World(w.n.(channels := w.n.channels[c := ch]), l);
      assert Safe(w1);
      if commit.Some? {
        CommitAppliedOk(w1, commit.value);
      }
    }
  }

  lemma LssReceivedOk(w: World, f: CanFrame, now: U64)
    requires Safe(w)
    ensures Safe(LssReceived(w, f, now)) && LssReceived(w, f, now).n.channels == w.n.channels
  {
    hide Base, Calm, Lss.Step;
    BaseShaped(w);
    var (slave, response) := Lss.Step(w.n.lss, f);
    NodeOnly(w, w.n.(lss := slave));
    if response.Some? {
      NeutralOffer(w.(n := w.n.(lss := slave)), LssResponse, response.value, now);
    }
  }

  lemma HeartbeatReceivedOk(w: World, s: nat, byte: bv8, now: U64)
    requires Safe(w) && s < |w.n.monitors| && w.n.monitors[s].Some?
    ensures Safe(w.(n := HeartbeatReceived(w.n, s, byte, now))) && HeartbeatReceived(w.n, s, byte, now).channels == w.n.channels
  {
    hide Base, Calm, H.Received;
    BaseShaped(w);
    var m := w.n.monitors[s].value;
    var (m', es) := H.Received(m, m.nodeId, byte, now);
    NotedKeepsMonitors(w.n.(monitors := w.n.monitors[s := Some(m')]), Tagged(m.nodeId, es));
    hide HeartbeatNoted;
    NodeOnly(w, HeartbeatReceived(w.n, s, byte, now));
  }

  /** Every dispatched frame keeps the invariant. */
  lemma DispatchOk(w: World, f: DataFrame, now: U64)
    requires Safe(w) && AllFresh(w.n.channels, now)
    ensures Safe(Dispatched(w, f, now)) && AllFresh(Dispatched(w, f, now).n.channels, now)
  {
    hide Base, Calm, AllFresh, SdoReceived, SyncReceived, NmtReceived, LssReceived, HeartbeatReceived, RpdoReceived;
    BaseShaped(w);
    var extra := ExtraChannel(w.n.channels, f.id, 1);
    if extra.Some? {
      SdoReceivedOk(w, extra.value, f, now);
    } else if w.n.consumer.cobId != 0 && w.n.consumer.cobId == f.id {
      SyncReceivedOk(w, f, now);
    } else if f.id == 0 {
      NmtOk(w, f, now);
    } else if f.id == w.n.channels[0].rxCob {
      SdoReceivedOk(w, 0, f, now);
    } else if f.id == Lss.REQUEST_COB {
      LssReceivedOk(w, f, now);
    } else {
      var m := if |f.data| == 1 then MonitorOf(w.n.monitors, f.id, 0) else None;
      if m.Some? {
        HeartbeatReceivedOk(w, m.value, f.data[0], now);
      } else {
        RpdoReceivedOk(w, f, now);
      }
    }
  }

  // ---- The parts of one call ----

  lemma {:induction false} PollsBegunOk(w: World, now: U64, k: nat)
    requires Safe(w) && k <= |w.n.channels|
    ensures var (chs, l) := PollsBegun(w.n.channels, w.l, now, k);
            Safe(World(w.n.(channels := chs), l)) && forall c :: 0 <= c < k ==> Slot.Fresh(chs[c], now)
  {
    hide Lawful, AccountOf, RetainedOk, BufferFrom, CycleOk, Beside, Slot.BeganPoll,
         Slot.Fresh;
    if k > 0 {
      PollsBegunOk(w, now, k - 1);
      var (chs1, l1) := PollsBegun(w.n.channels, w.l, now, k - 1);
      var w1 := World(w.n.(channels := chs1), l1);
      Slot.BeganPollKeeps(chs1[k - 1], l1, k - 1, now);
      var (ch, l2) := Slot.BeganPoll(chs1[k - 1], l1, k - 1, now);
      ChannelStep(w1, k - 1, ch, l2);
    }
  }

  lemma CallBegunOk(w: World, now: U64)
    requires Safe(w)
    ensures Safe(CallBegun(w, now)) && AllFresh(CallBegun(w, now).n.channels, now)
  {
    hide Base, Calm, PollsBegun, T.SyncLatched;
    BaseShaped(w);
    PollsBegunOk(w, now, |w.n.channels|);
    var (chs, l) := PollsBegun(w.n.channels, w.l, now, |w.n.channels|);
    var w1 := World(w.n.(channels := chs), l);
    BaseShaped(w1);
    NodeOnly(w1, w1.n.(tpdo := T.SyncLatched(w.n.tpdo, w.n.dirty)));
  }

  lemma {:induction false} ServicedOk(w: World, now: U64, k: nat)
    requires Safe(w) && k <= |w.n.channels| && AllFresh(w.n.channels, now)
    ensures var (chs, l) := ChannelsServiced(w.n.channels, w.l, now, k);
            Safe(World(w.n.(channels := chs), l)) && AllFresh(chs, now)
  {
    hide Lawful, AccountOf, RetainedOk, BufferFrom, CycleOk, Beside, Slot.Serviced,
         Slot.Fresh;
    if k > 0 {
      ServicedOk(w, now, k - 1);
      var (chs1, l1) := ChannelsServiced(w.n.channels, w.l, now, k - 1);
      var w1 := World(w.n.(channels := chs1), l1);
      Slot.ServicedKeeps(chs1[k - 1], l1, k - 1, now);
      var (ch, l2) := Slot.Serviced(chs1[k - 1], l1, k - 1, now);
      ChannelStep(w1, k - 1, ch, l2);
    }
  }

  lemma SdoServicedOk(w: World, now: U64)
    requires Safe(w) && AllFresh(w.n.channels, now)
    ensures Safe(SdoServiced(w, now))
  {
    hide Safe, ChannelsServiced;
    ServicedOk(w, now, |w.n.channels|);
  }

  lemma {:induction false} DeadlinesKeepOd(s: Sink, numbers: seq<nat>, capacity: nat)
    requires forall i :: 0 <= i < |numbers| ==> numbers[i] >= 1
    ensures DeadlinesPushed(s, numbers, capacity).od == s.od
  {
    if numbers != [] {
      DeadlinesKeepOd(s, numbers[..|numbers| - 1], capacity);
    }
  }

  /** Outside Operational there is nothing left to discard. */
  lemma LeftAgain(w: World)
    requires Safe(w) && !w.n.nmt.Operational?
    ensures Safe(w.(n := LeftOperational(w.n)))
  {
    hide AccountOf, Lawful, BufferFrom, CycleOk;
    LeftIsQuiet(w.n);
    EmptyBuffer(w.n.rpdo.pending, 0);
    EmptyBuffer(LeftOperational(w.n).rpdo.pending, 0);
  }

  /** Outside Operational everything pending is discarded once more; inside, only flags change. */
  lemma DeadlinesOk(w: World, now: U64)
    requires Safe(w)
    ensures WellShaped(w.n) && Safe(w.(n := DeadlinesPolled(w.n, now)))
  {
    BaseShaped(w);
    if w.n.nmt.Operational? {
      hide Base, Calm, R.Reports, DeadlinesPushed, R.NewlyExpired;
      ReportsPositive(w.n.rpdo, now, |w.n.rpdo.pdos|);
      DeadlinesKeepOd(w.n.sink, R.Reports(w.n.rpdo, now, |w.n.rpdo.pdos|), w.n.capacity);
      NodeOnly(w, DeadlinesPolled(w.n, now));
    } else {
      LeftIsQuiet(w.n);
      LeftAgain(w);
    }
  }

  lemma HeartbeatSentOk(w: World, now: U64)
    requires Safe(w)
    ensures Safe(HeartbeatSent(w, now))
  {
    hide Base, Elapsed, AccountOf;
    BaseShaped(w);
    var due := H.Due(w.n.heartbeat, now, w.n.nmt);
    if w.n.booted && due.Some? {
      NeutralOffer(w, HeartbeatTx, due.value, now);
      NodeOnly(w.(l := Offered(w.l, HeartbeatTx, due.value, now)), w.n.(heartbeat := w.n.heartbeat.(lastSentUs := now)));
    }
  }

  lemma {:induction false} MonitorsCheckedCore(n: Node, now: U64, k: nat)
    requires k <= |n.monitors|
    ensures var n' := MonitorsChecked(n, now, k);
            n' == n.(monitors := n'.monitors, hbEvents := n'.hbEvents, sink := n'.sink)
            && n'.sink == n.sink.(dropped := n'.sink.dropped)
  {
    hide H.Checked;
    if k > 0 {
      MonitorsCheckedCore(n, now, k - 1);
      var n1 := MonitorsChecked(n, now, k - 1);
      if n1.monitors[k - 1].Some? {
        var (m, es) := H.Checked(n1.monitors[k - 1].value, now);
        NotedKeepsMonitors(n1.(monitors := n1.monitors[k - 1 := Some(m)]), Tagged(m.nodeId, es));
      }
    }
  }

  lemma MonitorsOk(w: World, now: U64)
    requires Safe(w)
    ensures Safe(w.(n := MonitorsChecked(w.n, now, |w.n.monitors|)))
  {
    hide Base, Calm, MonitorsChecked;
    BaseShaped(w);
    MonitorsCheckedCore(w.n, now, |w.n.monitors|);
    NodeOnly(w, MonitorsChecked(w.n, now, |w.n.monitors|));
  }

  lemma {:induction false} EmergenciesOk(w: World, now: U64)
    requires Safe(w) && Talking(w.n.nmt)
    ensures Safe(EmergenciesDrained(w, now))
    decreases |w.n.emergencies|
  {
    hide Base, Calm;
    BaseShaped(w);
    if w.n.emergencies != [] {
      NeutralOffer(w, Emergency, w.n.emergencies[0], now);
      var l1 := Offered(w.l, Emergency, w.n.emergencies[0], now);
      if NextVerdict(w.l).Accepted? {
        var n1 := w.n.(emergencies := w.n.emergencies[1..]);
        NodeOnly(w.(l := l1), n1);
        EmergenciesOk(World(n1, l1), now);
      }
    }
  }

  lemma SlotPolledOk(w: World, i: nat, now: U64)
    requires Safe(w) && w.n.nmt.Operational? && i < |w.n.tpdo.pdos|
    ensures var (t, l) := T.SlotPolled(w.n.tpdo, w.l, i, w.n.sink.od, now, w.n.dirty);
            Safe(World(w.n.(tpdo := t), l)) && |t.pdos| == |w.n.tpdo.pdos|
  {
    hide Base, Calm, T.Eligible, T.DirtyLatched, T.SendAccepted;
    BaseShaped(w);
    var (t, l) := T.SlotPolled(w.n.tpdo, w.l, i, w.n.sink.od, now, w.n.dirty);
    NodeOnly(w, w.n.(tpdo := t));
    if l != w.l {
      var t1 := T.DirtyLatched(w.n.tpdo, i, w.n.dirty);
      NeutralOffer(w.(n := w.n.(tpdo := t)), EventTpdo(i), T.SlotFrame(t1, i, w.n.sink.od).value, now);
    }
  }

  lemma {:induction false} PolledOk(w: World, k: nat, now: U64)
    requires Safe(w) && w.n.nmt.Operational? && T.TpdoOk(w.n.tpdo) && k <= |w.n.tpdo.pdos|
    ensures var (t, l) := T.Polled(w.n.tpdo, w.l, k, w.n.sink.od, now, w.n.dirty);
            Safe(World(w.n.(tpdo := t), l)) && |t.pdos| == |w.n.tpdo.pdos|
  {
    hide Base, Calm, T.SlotPolled;
    if k > 0 {
      PolledOk(w, k - 1, now);
      var (t1, l1) := T.Polled(w.n.tpdo, w.l, k - 1, w.n.sink.od, now, w.n.dirty);
      SlotPolledOk(World(w.n.(tpdo := t1), l1), k - 1, now);
    }
  }

  lemma TpdosPolledOk(w: World, now: U64)
    requires Safe(w)
    ensures WellShaped(w.n) && Safe(TpdosPolled(w, now))
  {
    hide Base, Calm, T.Polled;
    BaseShaped(w);
    if w.n.nmt.Operational? {
      PolledOk(w, |w.n.tpdo.pdos|, now);
      var (t, l) := T.Polled(w.n.tpdo, w.l, |w.n.tpdo.pdos|, w.n.sink.od, now, w.n.dirty);
      var w1 := World(w.n.(tpdo := t), l);
      BaseShaped(w1);
      NodeOnly(w1, w1.n.(dirty := []));
    } else {
      NodeOnly(w, w.n.(dirty := []));
    }
  }
}
