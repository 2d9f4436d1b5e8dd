/**
 What an observer can read off a node's history, and the law a history must
 obey: which service may offer which frame when, what a commit, a pulse or a
 synchronous TPDO must stem from, how SYNC pulses are numbered and spaced, and
 how the SDO response slots behave.
 */
module History {
  import opened Types
  import opened ObjectDictionary
  import opened PdoWire
  import opened Transport
  import opened Nmt
  import S = Sync

  const SDO_TIMEOUT_US: nat := 5_000_000

  // ---- The account an observer keeps ----

  /** A response waiting in an SDO slot. */
  datatype Held = Held(frame: CanFrame, since: U64)

  /** A pulse: its time and the frames it sampled. */
  datatype Sample = Sample(at: U64, frames: seq<CanFrame>)

  /**
   Everything the law depends on. `bootUp`: the last observation was a boot-up
   frame accepted or failed for good. `dict`: the dictionary as the observed
   changes leave it. `buffered`: synchronous RPDO frames not yet committed, by
   slot. `committing`: the last slot of a commit block still open. `pulse`: the
   last pulse of this NMT period, `offered` and `sent` what followed it. `beats`:
   the SYNC pulses accepted since `cycle` was last restarted. `held`: the SDO
   responses outstanding.
   */
  datatype Account = Account(
    state: NmtState, bootUp: bool,
    dict: Od, buffered: map<nat, DataFrame>, committing: Option<nat>,
    pulse: Option<Sample>, offered: nat, sent: multiset<CanFrame>,
    cycle: S.Producer, beats: seq<S.Sent>,
    held: map<nat, Held>)

  function Blank(): Account {
    Account(Initializing, false, map[], map[], None, None, 0, multiset{}, S.NewProducer(), [], map[])
  }

  /** The frames of the due TPDOs, sampled from one dictionary image. */
  function Sampled(due: seq<Source>, image: Od): seq<CanFrame> {
    if due == [] then []
    else
      var c := due[|due| - 1];
      Sampled(due[..|due| - 1], image)
      + match FrameFor(c.cobId, c.mappings, image) case Some(f) => [f] case None => []
  }

  predicate BootsUp(o: Obs) {
    o.Offer? && o.service.BootUp? && !o.verdict.WouldBlock?
  }

  function AfterOffer(a: Account, service: Service, f: CanFrame, v: Verdict, at: U64): Account {
    match service
    case SyncTpdo(_) => a.(offered := a.offered + 1, sent := if v.Accepted? then a.sent + multiset{f} else a.sent)
    case SyncPulse => if v.Accepted? then a.(beats := a.beats + [S.Sent(f, at)]) else a
    case SdoResponse(c) => if v.Accepted? then a.(held := a.held - {c}) else a
    case _ => a
  }

  /** The account after one more observation. */
  function After(before: Account, o: Obs): Account {
    var a := before.(bootUp := BootsUp(o));
    match o
    case Offer(service, f, v, at) => AfterOffer(a, service, f, v, at)
    case Entered(s) =>
      a.(state := s, buffered := map[], committing := None, pulse := None, offered := 0, sent := multiset{})
    case Edited(od) => a.(dict := od)
    case Downloaded(addr, data) => (match Write(a.dict, addr, data) case Ok(od) => a.(dict := od) case Err(_) => a)
    case RpdoApplied(f, ms) => a.(dict := PayloadOd(ms, f.data, a.dict))
    case RpdoBuffered(s, f) => a.(buffered := a.buffered[s := f])
    case RpdoCommitted(s, f, ms) =>
      a.(buffered := a.buffered - {s}, committing := Some(s), dict := PayloadOd(ms, f.data, a.dict))
    case Pulse(at, image, due) =>
      a.(committing := None, pulse := Some(Sample(at, Sampled(due, image))), offered := 0, sent := multiset{})
    case CycleRestarted(cob, interval, overflow) => a.(cycle := S.Producer(cob, interval, overflow, 0, false, 0), beats := [])
    case SdoQueued(c, f, at) => a.(held := a.held[c := Held(f, at)])
    case SdoGap(c, _) => a.(held := a.held - {c})
    case _ => a
  }

  function AccountOf(h: seq<Obs>): Account {
    if h == [] then Blank() else After(AccountOf(h[..|h| - 1]), h[|h| - 1])
  }

  /** The NMT state the history ends in. */
  function StateOf(h: seq<Obs>): NmtState {
    AccountOf(h).state
  }

  function HeldAt(a: Account, c: nat): Option<Held> {
    if c in a.held then Some(a.held[c]) else None
  }

  /** The response of channel `c` produced but neither delivered nor given up. */
  function Outstanding(h: seq<Obs>, c: nat): Option<Held> {
    HeldAt(AccountOf(h), c)
  }

  // ---- The law ----

  /** SDO and emergencies are available. */
  predicate Talking(s: NmtState) {
    s.PreOperational? || s.Operational?
  }

  /** The last pulse has sampled frames that were not offered yet. */
  predicate Delivering(a: Account) {
    a.pulse.Some? && a.offered < |a.pulse.value.frames|
  }

  /** Not in the middle of a pulse. */
  predicate Free(a: Account) {
    a.committing.None? && !Delivering(a)
  }

  /** Out of Initializing leads only a boot-up frame that was accepted or failed for good. */
  predicate LegalEntry(a: Account, s: NmtState) {
    s.Initializing? || if a.state.Initializing? then s.PreOperational? && a.bootUp else s != a.state
  }

  /**
   A synchronous TPDO frame may be offered: sampled at the last pulse, not yet
   accepted, inside the window; right after the pulse, the sampled frames in order.
   */
  predicate LegalSyncTpdo(a: Account, windowUs: nat, f: CanFrame, at: U64) {
    a.state.Operational? && a.pulse.Some? && a.committing.None?
    && a.sent[f] < multiset(a.pulse.value.frames)[f]
    && (windowUs == 0 || Elapsed(at, a.pulse.value.at) <= windowUs)
    && (Delivering(a) ==> f == a.pulse.value.frames[a.offered] && at == a.pulse.value.at)
  }

  /** A SYNC pulse carries the next number and keeps the period. */
  predicate LegalSyncPulse(a: Account, f: CanFrame, at: U64) {
    !a.state.Initializing? && !a.state.Stopped?
    && f == S.NumberedPulse(a.cycle.cobId, a.cycle.overflow, |a.beats|)
    && (a.beats != [] ==> Elapsed(at, a.beats[|a.beats| - 1].at) >= a.cycle.intervalUs)
  }

  predicate LegalOffer(a: Account, service: Service, f: CanFrame, at: U64) {
    match service
    case SyncTpdo(windowUs) => LegalSyncTpdo(a, windowUs, f, at)
    case BootUp => Free(a) && a.state.Initializing? && f.data == [HeartbeatByte(Initializing)]
    case LssResponse => Free(a)
    case SyncPulse => Free(a) && LegalSyncPulse(a, f, at)
    case HeartbeatTx => Free(a) && !a.state.Initializing? && f.data == [HeartbeatByte(a.state)]
    case Emergency => Free(a) && Talking(a.state)
    case EventTpdo(_) => Free(a) && a.state.Operational?
    case SdoResponse(c) =>
      Free(a) && Talking(a.state) && HeldAt(a, c).Some? && HeldAt(a, c).value.frame == f
      && Elapsed(at, HeldAt(a, c).value.since) < SDO_TIMEOUT_US
  }

  predicate LegalGap(a: Account, c: nat, reason: GapReason) {
    HeldAt(a, c).Some?
    && match reason
       case Expired(at) => Elapsed(at, HeldAt(a, c).value.since) >= SDO_TIMEOUT_US
       case TimeoutAbort => true
       case ClientAbort => Talking(a.state)
       case StopOrReset => !Talking(a.state)
  }

  /** `o` may follow a history with account `a`. */
  predicate Legal(a: Account, o: Obs) {
    match o
    case Offer(service, f, _, at) => LegalOffer(a, service, f, at)
    case RpdoCommitted(s, f, _) =>
      a.state.Operational? && !Delivering(a) && s in a.buffered && a.buffered[s] == f
      && (a.committing.Some? ==> a.committing.value < s)
    case Pulse(_, image, _) => a.state.Operational? && !Delivering(a) && a.buffered == map[] && image == a.dict
    case Entered(s) => Free(a) && LegalEntry(a, s)
    case Edited(_) => Free(a)
    case Downloaded(addr, data) => Free(a) && Talking(a.state) && Write(a.dict, addr, data).Ok?
    case RpdoApplied(_, _) => Free(a) && a.state.Operational?
    case RpdoBuffered(_, _) => Free(a) && a.state.Operational?
    case CycleRestarted(cob, interval, overflow) =>
      Free(a) && S.ValidOverflow(overflow)
      && (a.state.Initializing? || cob != a.cycle.cobId || interval != a.cycle.intervalUs || overflow != a.cycle.overflow)
    case SdoAsked(c) => Free(a) && Talking(a.state) && HeldAt(a, c).None?
    case SdoDrawn(c) => Free(a) && HeldAt(a, c).None?
    case SdoQueued(c, _, _) => Free(a) && HeldAt(a, c).None?
    case SdoGap(c, reason) => Free(a) && LegalGap(a, c, reason)
  }

  predicate Lawful(h: seq<Obs>) {
    h == [] || (Lawful(h[..|h| - 1]) && Legal(AccountOf(h[..|h| - 1]), h[|h| - 1]))
  }

  /** One more observation. */
  lemma Snoc(h: seq<Obs>, o: Obs)
    ensures AccountOf(h + [o]) == After(AccountOf(h), o)
    ensures Lawful(h + [o]) <==> Lawful(h) && Legal(AccountOf(h), o)
  {
    hide Legal, After;
    assert (h + [o])[..|h|] == h;
  }

  lemma Unsnoc(h: seq<Obs>)
    requires h != []
    ensures AccountOf(h) == After(AccountOf(h[..|h| - 1]), h[|h| - 1])
    ensures Lawful(h) ==> Lawful(h[..|h| - 1]) && Legal(AccountOf(h[..|h| - 1]), h[|h| - 1])
  {
    hide Legal, After;
  }

  /** What one observation does to each part of the account. */
  lemma AfterParts(a: Account, o: Obs)
    ensures After(a, o).state == if o.Entered? then o.state else a.state
    ensures After(a, o).bootUp == BootsUp(o)
    ensures After(a, o).committing
         == if o.RpdoCommitted? then Some(o.slot) else if o.Entered? || o.Pulse? then None else a.committing
    ensures o.RpdoCommitted? ==> After(a, o).dict == PayloadOd(o.mappings, o.received.data, a.dict)
  {
    hide Sampled, PayloadOd, Write;
  }

  /** What one observation does to the buffered RPDO frames. */
  lemma AfterBuffer(a: Account, o: Obs)
    ensures After(a, o).buffered
         == if o.Entered? then map[] else if o.RpdoBuffered? then a.buffered[o.slot := o.received]
            else if o.RpdoCommitted? then a.buffered - {o.slot} else a.buffered
  {
    hide Sampled, PayloadOd, Write;
  }

  /** What one observation does to the last pulse and what follows it. */
  lemma AfterPulse(a: Account, o: Obs)
    ensures After(a, o).pulse
         == if o.Entered? then None else if o.Pulse? then Some(Sample(o.at, FramesOf(o))) else a.pulse
    ensures o.Entered? || o.Pulse? ==> After(a, o).offered == 0 && After(a, o).sent == multiset{}
    ensures !o.Entered? && !o.Pulse? ==>
              if o.Offer? && o.service.SyncTpdo?
              then After(a, o).offered == a.offered + 1
                   && After(a, o).sent == if o.verdict.Accepted? then a.sent + multiset{o.frame} else a.sent
              else After(a, o).offered == a.offered && After(a, o).sent == a.sent
  {
    hide Sampled, PayloadOd, Write;
  }

  /** What one observation does to the SYNC cycle. */
  lemma AfterBeat(a: Account, o: Obs)
    ensures After(a, o).cycle
         == if o.CycleRestarted? then S.Producer(o.cobId, o.intervalUs, o.overflow, 0, false, 0) else a.cycle
    ensures After(a, o).beats
         == if o.CycleRestarted? then []
            else if o.Offer? && o.service.SyncPulse? && o.verdict.Accepted? then a.beats + [S.Sent(o.frame, o.at)] else a.beats
  {
    hide Sampled, PayloadOd, Write;
  }

  /** Inside a pulse nothing else may happen. */
  lemma LegalInPulse(a: Account, o: Obs)
    requires Legal(a, o)
    ensures Delivering(a) ==> o.Offer? && o.service.SyncTpdo? && o.frame == a.pulse.value.frames[a.offered] && o.at == a.pulse.value.at
    ensures a.committing.Some? ==> o.RpdoCommitted? || o.Pulse?
    ensures o.Offer? && o.service.SyncTpdo? ==> a.pulse.Some? && a.sent[o.frame] < multiset(a.pulse.value.frames)[o.frame]
    ensures o.Offer? && o.service.SyncPulse? ==> LegalSyncPulse(a, o.frame, o.at)
    ensures o.Entered? ==> LegalEntry(a, o.state)
  {
    hide LegalSyncPulse, LegalEntry, LegalGap, Write, Elapsed;
  }

  lemma {:induction false} LegalAt(h: seq<Obs>, j: nat)
    requires Lawful(h) && j < |h|
    ensures Lawful(h[..j]) && Legal(AccountOf(h[..j]), h[j]) && AccountOf(h[..j + 1]) == After(AccountOf(h[..j]), h[j])
  {
    hide Legal, After;
    if j < |h| - 1 {
      LegalAt(h[..|h| - 1], j);
      assert h[..|h| - 1][..j] == h[..j] && h[..|h| - 1][..j + 1] == h[..j + 1];
    } else {
      assert h[..j + 1] == h;
    }
  }

  // ---- The boot gate ----

  predicate BootedAt(h: seq<Obs>, i: nat)
    requires i < |h|
  {
    BootsUp(h[i]) && forall k :: i < k < |h| ==> h[k] != Entered(Initializing)
  }

  lemma {:induction false} OutOfInitializing(h: seq<Obs>)
    requires Lawful(h) && !StateOf(h).Initializing?
    ensures exists i :: 0 <= i < |h| && BootedAt(h, i)
  {
    hide AccountOf, Lawful, After, Legal;
    var n := |h| - 1;
    if h == [] {
      NothingYet();
      return;
    }
    Unsnoc(h);
    var front := h[..n];
    AfterParts(AccountOf(front), h[n]);
    LegalInPulse(AccountOf(front), h[n]);
    if h[n].Entered? && StateOf(front).Initializing? {
      NothingYet();
      Unsnoc(front);
      AfterParts(AccountOf(front[..n - 1]), front[n - 1]);
      assert BootedAt(h, n - 1);
    } else {
      OutOfInitializing(front);
      var i :| 0 <= i < |front| && BootedAt(front, i);
      assert BootedAt(h, i);
    }
  }

  lemma NothingYet()
    ensures AccountOf([]) == Blank()
  {
  }

  /** Services that must wait for the boot-up frame. */
  predicate Gated(s: Service) {
    !s.BootUp? && !s.LssResponse?
  }

  /**
   Boot gate: any SDO, SYNC, heartbeat, emergency or PDO frame comes after a
   boot-up frame that was accepted or failed for good, with no reset between.
   */
  lemma BootGate(h: seq<Obs>, j: nat)
    requires Lawful(h) && j < |h| && h[j].Offer? && Gated(h[j].service)
    ensures exists i :: 0 <= i < j && BootedAt(h[..j], i)
  {
    hide AccountOf, Elapsed, S.NumberedPulse;
    LegalAt(h, j);
    OutOfInitializing(h[..j]);
  }

  // ---- Synchronous RPDOs and pulses ----

  /** The frame buffered in slot `s` at `i` is still the one to commit: nothing replaced, committed or discarded it. */
  predicate StillBuffered(h: seq<Obs>, s: nat, f: DataFrame, i: nat)
    requires i < |h|
  {
    h[i] == RpdoBuffered(s, f)
    && forall k :: i < k < |h| ==>
         !h[k].Entered? && !(h[k].RpdoBuffered? && h[k].slot == s) && !(h[k].RpdoCommitted? && h[k].slot == s)
  }

  lemma {:induction false} BufferedOccurs(h: seq<Obs>, s: nat)
    requires s in AccountOf(h).buffered
    ensures exists i :: 0 <= i < |h| && StillBuffered(h, s, AccountOf(h).buffered[s], i)
  {
    hide AccountOf, After;
    NothingYet();
    Unsnoc(h);
    var n := |h| - 1;
    var front, f := h[..n], AccountOf(h).buffered[s];
    AfterBuffer(AccountOf(front), h[n]);
    if h[n].RpdoBuffered? && h[n].slot == s {
      assert StillBuffered(h, s, f, n);
    } else {
      BufferedOccurs(front, s);
      var i :| 0 <= i < n && StillBuffered(front, s, f, i);
      assert StillBuffered(h, s, f, i);
    }
  }

  /**
   Each synchronous RPDO write is of the latest frame buffered in its slot, in
   the same uninterrupted Operational period, and each such frame is written
   only once.
   */
  lemma CommitsStemFromPeriod(h: seq<Obs>, j: nat)
    requires Lawful(h) && j < |h| && h[j].RpdoCommitted?
    ensures StateOf(h[..j]).Operational?
    ensures exists i :: 0 <= i < j && StillBuffered(h[..j], h[j].slot, h[j].received, i)
  {
    hide AccountOf, After, Legal;
    LegalAt(h, j);
    LegalCommit(AccountOf(h[..j]), h[j]);
    BufferedOccurs(h[..j], h[j].slot);
  }

  /** The dictionary after a sequence of commits. */
  function DictAfter(od: Od, commits: seq<Obs>): Od
    requires forall k :: 0 <= k < |commits| ==> commits[k].RpdoCommitted?
  {
    if commits == [] then od
    else
      var o := commits[|commits| - 1];
      PayloadOd(o.mappings, o.received.data, DictAfter(od, commits[..|commits| - 1]))
  }

  lemma LegalCommit(a: Account, o: Obs)
    requires Legal(a, o)
    ensures o.RpdoCommitted? ==>
              a.state.Operational? && o.slot in a.buffered && a.buffered[o.slot] == o.received && (a.committing.Some? ==> a.committing.value < o.slot)
  {
    hide Delivering;
  }

  /** Where the commits at the end of a history begin. */
  function BlockStart(h: seq<Obs>): (i: nat)
    ensures i <= |h| && (i > 0 ==> !h[i - 1].RpdoCommitted?)
    ensures forall k :: i <= k < |h| ==> h[k].RpdoCommitted?
  {
    if h == [] || !h[|h| - 1].RpdoCommitted? then |h| else BlockStart(h[..|h| - 1])
  }

  lemma {:induction false} BlockDict(h: seq<Obs>)
    ensures AccountOf(h).dict == DictAfter(AccountOf(h[..BlockStart(h)]).dict, h[BlockStart(h)..])
  {
    hide AccountOf, After, PayloadOd;
    var i := BlockStart(h);
    if i == |h| {
      assert h[..i] == h && h[i..] == [];
    } else {
      var n := |h| - 1;
      BlockDict(h[..n]);
      Unsnoc(h);
      AfterParts(AccountOf(h[..n]), h[n]);
      assert h[..n][..i] == h[..i] && h[i..][..n - i] == h[..n][i..];
    }
  }

  /** The commits at the end of a history take their frames out of the buffer, slot after slot. */
  predicate BlockTaken(before: map<nat, DataFrame>, after: map<nat, DataFrame>, commits: seq<Obs>)
    requires forall k :: 0 <= k < |commits| ==> commits[k].RpdoCommitted?
  {
    (forall s :: s in after ==> s in before && after[s] == before[s])
    && (forall k :: 0 <= k < |commits| ==> commits[k].slot in before && before[commits[k].slot] == commits[k].received)
    && (forall k, l :: 0 <= k < l < |commits| ==> commits[k].slot < commits[l].slot)
    && forall s :: s in before && s !in after ==> exists k :: 0 <= k < |commits| && commits[k].slot == s
  }

  lemma TakeOne(before: map<nat, DataFrame>, after: map<nat, DataFrame>, commits: seq<Obs>, o: Obs)
    requires forall k :: 0 <= k < |commits| ==> commits[k].RpdoCommitted?
    requires BlockTaken(before, after, commits) && o.RpdoCommitted? && o.slot in after && after[o.slot] == o.received
    requires commits != [] ==> commits[|commits| - 1].slot < o.slot
    ensures BlockTaken(before, after - {o.slot}, commits + [o])
  {
    var all := commits + [o];
    TakenInOrder(commits, o);
    forall s | s in before && s !in after - {o.slot} ensures exists k :: 0 <= k < |all| && all[k].slot == s {
      if s == o.slot {
        assert all[|commits|].slot == s;
      } else {
        var k :| 0 <= k < |commits| && commits[k].slot == s;
        assert all[k].slot == s;
      }
    }
  }

  lemma TakenInOrder(commits: seq<Obs>, o: Obs)
    requires (forall k :: 0 <= k < |commits| ==> commits[k].RpdoCommitted?) && o.RpdoCommitted?
    requires forall k, l :: 0 <= k < l < |commits| ==> commits[k].slot < commits[l].slot
    requires commits != [] ==> commits[|commits| - 1].slot < o.slot
    ensures var all := commits + [o];
            (forall k :: 0 <= k < |all| ==> all[k].RpdoCommitted?)
            && forall k, l :: 0 <= k < l < |all| ==> all[k].slot < all[l].slot
  {
    var n := |commits|;
    forall k | 0 <= k < n ensures commits[k].slot < o.slot {
      if k < n - 1 {
        assert commits[k].slot < commits[n - 1].slot;
      }
    }
  }

  lemma {:induction false} BlockAtEnd(h: seq<Obs>)
    requires Lawful(h)
    ensures AccountOf(h).committing == if BlockStart(h) == |h| then None else Some(h[|h| - 1].slot)
    ensures BlockTaken(AccountOf(h[..BlockStart(h)]).buffered, AccountOf(h).buffered, h[BlockStart(h)..])
  {
    hide AccountOf, After, Legal, Lawful, PayloadOd, BlockTaken;
    NothingYet();
    var i, n := BlockStart(h), |h| - 1;
    if h == [] {
      assert h[..i] == h && h[i..] == [];
      NothingTaken(AccountOf(h).buffered);
      return;
    }
    var front, o := h[..n], h[n];
    Unsnoc(h);
    AfterParts(AccountOf(front), o);
    AfterBuffer(AccountOf(front), o);
    LegalInPulse(AccountOf(front), o);
    BlockAtEnd(front);
    if !o.RpdoCommitted? {
      assert h[..i] == h && h[i..] == [];
      NothingTaken(AccountOf(h).buffered);
    } else {
      LegalCommit(AccountOf(front), o);
      assert front[..i] == h[..i] && h[i..] == front[i..] + [o];
      TakeOne(AccountOf(h[..i]).buffered, AccountOf(front).buffered, front[i..], o);
    }
  }

  lemma NothingTaken(buffered: map<nat, DataFrame>)
    ensures BlockTaken(buffered, buffered, [])
  {
  }

  /**
   A pulse samples after it commits. Right before each pulse stand the commits of
   exactly the frames then buffered, in slot order, and the image the pulse
   samples is the dictionary before them with each of their payloads applied in
   turn.
   */
  lemma PulseSamplesAfterCommits(h: seq<Obs>, j: nat)
    requires Lawful(h) && j < |h| && h[j].Pulse?
    ensures var i := BlockStart(h[..j]);
            h[j].image == DictAfter(AccountOf(h[..i]).dict, h[i..j])
            && BlockTaken(AccountOf(h[..i]).buffered, map[], h[i..j])
    ensures StateOf(h[..j]).Operational? && AccountOf(h[..j + 1]).dict == h[j].image
  {
    hide AccountOf, DictAfter, BlockTaken, BlockStart, Sampled, After, Legal;
    LegalAt(h, j);
    LegalPulse(AccountOf(h[..j]), h[j]);
    BlockAtEnd(h[..j]);
    BlockDict(h[..j]);
    var i := BlockStart(h[..j]);
    assert h[..j][..i] == h[..i] && h[..j][i..] == h[i..j];
  }

  lemma LegalPulse(a: Account, o: Obs)
    requires Legal(a, o) && o.Pulse?
    ensures a.state.Operational? && a.buffered == map[] && o.image == a.dict && After(a, o).dict == a.dict
  {
    hide Sampled;
  }

  /** A commit after a pulse is of a frame buffered after that pulse. */
  lemma PulseLeavesNothingBuffered(h: seq<Obs>, p: nat, j: nat)
    requires Lawful(h) && p < j < |h| && h[p].Pulse? && h[j].RpdoCommitted?
    ensures exists i :: p < i < j && h[i] == RpdoBuffered(h[j].slot, h[j].received)
  {
    hide AccountOf, After, Legal;
    CommitsStemFromPeriod(h, j);
    var s, f := h[j].slot, h[j].received;
    var i :| 0 <= i < j && StillBuffered(h[..j], s, f, i);
    if i < p {
      BufferStays(h, s, f, i, p, j);
      LegalAt(h, p);
      LegalPulse(AccountOf(h[..p]), h[p]);
    }
    assert h[i] == RpdoBuffered(s, f) && i != p;
  }

  lemma {:induction false} BufferStays(h: seq<Obs>, s: nat, f: DataFrame, i: nat, p: nat, j: nat)
    requires Lawful(h) && i < p <= j <= |h| && StillBuffered(h[..j], s, f, i)
    ensures s in AccountOf(h[..p]).buffered
  {
    hide AccountOf, After, Legal;
    LegalAt(h, p - 1);
    AfterBuffer(AccountOf(h[..p - 1]), h[p - 1]);
    if p > i + 1 {
      BufferStays(h, s, f, i, p - 1, j);
      assert h[..j][p - 1] == h[p - 1];
    } else {
      assert h[..j][i] == h[i];
    }
  }

  // ---- What a pulse sends ----

  /** The pulse at `i` is the latest, and no state was entered since. */
  predicate LatestPulse(h: seq<Obs>, i: nat)
    requires i < |h|
  {
    h[i].Pulse? && forall k :: i < k < |h| ==> !h[k].Pulse? && !h[k].Entered?
  }

  function FramesOf(o: Obs): seq<CanFrame>
    requires o.Pulse?
  {
    Sampled(o.due, o.image)
  }

  /** The `k`-th observation after the pulse at `i` offers the `k`-th frame it sampled, at the same time. */
  predicate OffersInTurn(h: seq<Obs>, i: nat, k: nat)
    requires i < |h| && h[i].Pulse? && k < |FramesOf(h[i])|
  {
    i + 1 + k < |h| && h[i + 1 + k].Offer? && h[i + 1 + k].service.SyncTpdo?
    && h[i + 1 + k].frame == FramesOf(h[i])[k] && h[i + 1 + k].at == h[i].at
  }

  lemma {:induction false} LastPulseIsLatest(h: seq<Obs>) returns (i: nat)
    requires AccountOf(h).pulse.Some?
    ensures i < |h| && LatestPulse(h, i) && AccountOf(h).pulse.value == Sample(h[i].at, FramesOf(h[i]))
  {
    hide AccountOf, After, FramesOf;
    NothingYet();
    Unsnoc(h);
    var n := |h| - 1;
    AfterPulse(AccountOf(h[..n]), h[n]);
    if h[n].Pulse? {
      i := n;
    } else {
      i := LastPulseIsLatest(h[..n]);
      assert h[..n][i] == h[i];
    }
  }

  /**
   Every frame a pulse sampled is offered right after it, in slot order and at
   the time of the pulse, before anything else is observed; so in a history that
   does not end inside a pulse all of them were offered.
   */
  lemma PulseOffersEverything(h: seq<Obs>, i: nat, k: nat)
    requires Lawful(h) && i < |h| && h[i].Pulse? && k < |FramesOf(h[i])|
    requires i + 1 + k < |h| || Free(AccountOf(h))
    ensures OffersInTurn(h, i, k)
  {
    hide AccountOf, Lawful, FramesOf;
    if i + 1 + k < |h| {
      DuringPulse(h, i, k + 1);
    } else {
      assert h[..|h|] == h;
      DuringPulse(h, i, |h| - i - 1);
    }
  }

  /** While a pulse has frames left, they are all that is observed. */
  lemma {:induction false} DuringPulse(h: seq<Obs>, i: nat, m: nat)
    requires Lawful(h) && i < |h| && h[i].Pulse? && m <= |FramesOf(h[i])| && i + 1 + m <= |h|
    ensures AccountOf(h[..i + 1 + m]).pulse == Some(Sample(h[i].at, FramesOf(h[i]))) && AccountOf(h[..i + 1 + m]).offered == m
    ensures forall k :: 0 <= k < m ==> OffersInTurn(h, i, k)
  {
    hide AccountOf, After, Legal, Lawful, FramesOf;
    LegalAt(h, i + m);
    var a := AccountOf(h[..i + m]);
    AfterPulse(a, h[i + m]);
    if m > 0 {
      DuringPulse(h, i, m - 1);
      LegalInPulse(a, h[i + m]);
    }
  }

  lemma {:induction false} SampledFromImage(due: seq<Source>, image: Od, f: CanFrame)
    requires f in Sampled(due, image)
    ensures exists c :: c in due && FrameFor(c.cobId, c.mappings, image) == Some(f)
  {
    hide FrameFor;
    var n := |due| - 1;
    if f in Sampled(due[..n], image) {
      SampledFromImage(due[..n], image, f);
      var c :| c in due[..n] && FrameFor(c.cobId, c.mappings, image) == Some(f);
      assert c in due;
    } else {
      assert due[n] in due;
    }
  }

  /** No synchronous TPDO is accepted more often than the last pulse sampled it. */
  lemma {:induction false} SentWithinSampled(h: seq<Obs>)
    requires Lawful(h) && AccountOf(h).pulse.Some?
    ensures AccountOf(h).sent <= multiset(AccountOf(h).pulse.value.frames)
  {
    hide AccountOf, After, Legal, Lawful, FramesOf;
    NothingYet();
    Unsnoc(h);
    var n := |h| - 1;
    AfterPulse(AccountOf(h[..n]), h[n]);
    LegalInPulse(AccountOf(h[..n]), h[n]);
    if !h[n].Pulse? {
      SentWithinSampled(h[..n]);
    }
  }

  /** Frame `j` was sampled by pulse `i`, is inside its window, and is no duplicate of what that pulse sampled. */
  ghost predicate Answers(h: seq<Obs>, i: nat, j: nat)
    requires i < j < |h| && h[i].Pulse? && h[j].Offer? && h[j].service.SyncTpdo?
  {
    (h[j].service.windowUs == 0 || Elapsed(h[j].at, h[i].at) <= h[j].service.windowUs)
    && (exists c :: c in h[i].due && FrameFor(c.cobId, c.mappings, h[i].image) == Some(h[j].frame))
    && AccountOf(h[..j + 1]).sent <= multiset(FramesOf(h[i]))
  }

  /**
   Each accepted synchronous TPDO was sampled from the dictionary image of the
   most recent pulse, in the same Operational period, inside the nonzero window,
   and no frame is accepted more often than that pulse sampled it.
   */
  lemma SyncTpdosStemFromPulse(h: seq<Obs>, j: nat)
    requires Lawful(h) && j < |h| && h[j].Offer? && h[j].service.SyncTpdo? && h[j].verdict.Accepted?
    ensures StateOf(h[..j]).Operational?
    ensures exists i :: 0 <= i < j && LatestPulse(h[..j], i) && Answers(h, i, j)
  {
    hide FrameFor, Sampled, Lawful, AccountOf, Elapsed, After, Legal;
    var before, upto := h[..j], h[..j + 1];
    LegalAt(h, j);
    LegalAnswer(AccountOf(before), h[j]);
    AfterPulse(AccountOf(before), h[j]);
    Prefix(h, j);
    SentWithinSampled(upto);
    var i := LastPulseIsLatest(before);
    assert h[j].frame in multiset(FramesOf(h[i]));
    SampledFromImage(h[i].due, h[i].image, h[j].frame);
    assert before[i] == h[i];
    assert Answers(h, i, j);
  }

  lemma LegalAnswer(a: Account, o: Obs)
    requires Legal(a, o) && o.Offer? && o.service.SyncTpdo?
    ensures LegalSyncTpdo(a, o.service.windowUs, o.frame, o.at)
  {
    hide LegalSyncTpdo;
  }

  lemma Prefix(h: seq<Obs>, j: nat)
    requires Lawful(h) && j < |h|
    ensures Lawful(h[..j + 1])
  {
    hide Legal;
    if j + 1 < |h| {
      LegalAt(h, j + 1);
    } else {
      assert h[..j + 1] == h;
    }
  }

  // ---- SYNC production ----

  /**
   In every lawful history the SYNC pulses accepted since the producer's cycle
   was last restarted are numbered from 1 modulo the overflow value, in order,
   and consecutive ones are at least one period apart.
   */
  lemma {:induction false} BeatsInOrder(h: seq<Obs>)
    requires Lawful(h)
    ensures S.PulsesInOrder(AccountOf(h).cycle, AccountOf(h).beats)
  {
    hide AccountOf, After, Legal, Lawful, FramesOf, Elapsed, S.NumberedPulse;
    NothingYet();
    if h != [] {
      var n := |h| - 1;
      Unsnoc(h);
      AfterBeat(AccountOf(h[..n]), h[n]);
      LegalInPulse(AccountOf(h[..n]), h[n]);
      BeatsInOrder(h[..n]);
    }
  }

  // ---- SDO ledger ----

  predicate Delivers(o: Obs, c: nat) {
    o.Offer? && o.service == SdoResponse(c) && o.verdict.Accepted?
  }

  /** What one observation does to the slot of channel `c`. */
  function SlotAfter(held: Option<Held>, o: Obs, c: nat): Option<Held> {
    if o.SdoQueued? && o.channel == c then Some(Held(o.frame, o.at))
    else if Delivers(o, c) || (o.SdoGap? && o.channel == c) then None
    else held
  }

  datatype Fate = Open | Delivered(at: U64) | GivenUp(reason: GapReason)

  /** A response the server produced on a channel, and what became of it. */
  datatype Answer = Answer(frame: CanFrame, since: U64, fate: Fate)

  function WithFate(answers: seq<Answer>, fate: Fate): seq<Answer> {
    if answers == [] then [] else answers[|answers| - 1 := answers[|answers| - 1].(fate := fate)]
  }

  function LedgerAfter(before: seq<Answer>, o: Obs, c: nat): seq<Answer> {
    if o.SdoQueued? && o.channel == c then before + [Answer(o.frame, o.at, Open)]
    else if Delivers(o, c) then WithFate(before, Delivered(o.at))
    else if o.SdoGap? && o.channel == c then WithFate(before, GivenUp(o.reason))
    else before
  }

  /** Everything the server of channel `c` produced, in order, with its fate. */
  function Ledger(h: seq<Obs>, c: nat): seq<Answer> {
    if h == [] then [] else LedgerAfter(Ledger(h[..|h| - 1], c), h[|h| - 1], c)
  }

  /** Frames accepted by the transport on channel `c`, in order. */
  function AcceptedOn(h: seq<Obs>, c: nat): seq<CanFrame> {
    if h == [] then []
    else AcceptedOn(h[..|h| - 1], c) + if Delivers(h[|h| - 1], c) then [h[|h| - 1].frame] else []
  }

  function DeliveredFrames(answers: seq<Answer>): seq<CanFrame> {
    if answers == [] then []
    else
      var a := answers[|answers| - 1];
      DeliveredFrames(answers[..|answers| - 1]) + if a.fate.Delivered? then [a.frame] else []
  }

  /** A settled answer: delivered in time, or given up after the timeout if it expired. */
  predicate Settled(a: Answer) {
    match a.fate
    case Open => false
    case Delivered(at) => Elapsed(at, a.since) < SDO_TIMEOUT_US
    case GivenUp(reason) => reason.Expired? ==> Elapsed(reason.at, a.since) >= SDO_TIMEOUT_US
  }

  /** All answers but possibly the newest are settled; the newest is open exactly while it is outstanding. */
  predicate LedgerOk(answers: seq<Answer>, outstanding: Option<Held>) {
    (forall i :: 0 <= i < |answers| - 1 ==> Settled(answers[i]))
    && match outstanding
       case Some(held) => answers != [] && answers[|answers| - 1] == Answer(held.frame, held.since, Open)
       case None => answers != [] ==> Settled(answers[|answers| - 1])
  }

  lemma DeliveredSnoc(answers: seq<Answer>, a: Answer)
    ensures DeliveredFrames(answers + [a]) == DeliveredFrames(answers) + if a.fate.Delivered? then [a.frame] else []
  {
    assert (answers + [a])[..|answers|] == answers;
  }

  lemma SettleNewest(answers: seq<Answer>, held: Held, fate: Fate)
    requires LedgerOk(answers, Some(held)) && Settled(Answer(held.frame, held.since, fate))
    ensures LedgerOk(WithFate(answers, fate), None)
    ensures DeliveredFrames(WithFate(answers, fate))
         == DeliveredFrames(answers) + if fate.Delivered? then [held.frame] else []
  {
    hide Elapsed;
    var n := |answers| - 1;
    var settled := Answer(held.frame, held.since, fate);
    assert answers == answers[..n] + [answers[n]];
    assert WithFate(answers, fate) == answers[..n] + [settled];
    DeliveredSnoc(answers[..n], answers[n]);
    DeliveredSnoc(answers[..n], settled);
  }

  /** The law on SDO observations, in terms of the slot alone. */
  predicate LegalForSlot(held: Option<Held>, o: Obs, c: nat) {
    (o.SdoQueued? && o.channel == c ==> held.None?)
    && (Delivers(o, c) ==> held.Some? && held.value.frame == o.frame && Elapsed(o.at, held.value.since) < SDO_TIMEOUT_US)
    && (o.SdoGap? && o.channel == c ==>
          held.Some? && (o.reason.Expired? ==> Elapsed(o.reason.at, held.value.since) >= SDO_TIMEOUT_US))
  }

  lemma LegalImpliesSlot(a: Account, o: Obs, c: nat)
    requires Legal(a, o)
    ensures LegalForSlot(HeldAt(a, c), o, c) && HeldAt(After(a, o), c) == SlotAfter(HeldAt(a, c), o, c)
  {
    hide Elapsed, LegalSyncTpdo, LegalSyncPulse, Sampled, PayloadOd, Write;
  }

  lemma LedgerStep(before: seq<Answer>, held: Option<Held>, o: Obs, c: nat)
    requires LedgerOk(before, held) && LegalForSlot(held, o, c)
    ensures LedgerOk(LedgerAfter(before, o, c), SlotAfter(held, o, c))
    ensures DeliveredFrames(LedgerAfter(before, o, c))
         == DeliveredFrames(before) + if Delivers(o, c) then [o.frame] else []
  {
    hide Elapsed, DeliveredFrames;
    if o.SdoQueued? && o.channel == c {
      DeliveredSnoc(before, Answer(o.frame, o.at, Open));
    } else if Delivers(o, c) {
      SettleNewest(before, held.value, Delivered(o.at));
    } else if o.SdoGap? && o.channel == c {
      SettleNewest(before, held.value, GivenUp(o.reason));
    }
  }

  /**
   The SDO slot over every lawful history: on each channel the accepted frames
   are exactly the delivered answers of its server, each once and in production
   order, less than the timeout after being produced; every other answer but the
   newest was given up for one of the listed reasons.
   */
  lemma {:induction false} SdoAnswersAccounted(h: seq<Obs>, c: nat)
    requires Lawful(h)
    ensures LedgerOk(Ledger(h, c), Outstanding(h, c))
    ensures AcceptedOn(h, c) == DeliveredFrames(Ledger(h, c))
  {
    hide Legal, LedgerAfter, SlotAfter, DeliveredFrames, After;
    if h != [] {
      var front, o := h[..|h| - 1], h[|h| - 1];
      SdoAnswersAccounted(front, c);
      LegalImpliesSlot(AccountOf(front), o, c);
      LedgerStep(Ledger(front, c), Outstanding(front, c), o, c);
    } else {
      NothingDelivered();
    }
  }

  lemma NothingDelivered()
    ensures DeliveredFrames([]) == []
  {
  }

  /** While a response is undelivered its server is neither asked nor drained; a client abort gives it up first. */
  lemma ServerWaitsForSlot(h: seq<Obs>, j: nat)
    requires Lawful(h) && j < |h| && (h[j].SdoAsked? || h[j].SdoDrawn? || h[j].SdoQueued?)
    ensures Outstanding(h[..j], h[j].channel).None?
  {
    hide AccountOf, After;
    LegalAt(h, j);
  }

  // ---- Extending a history on one SDO channel ----

  /** Histories whose accounts differ at most in the SDO slot of channel `c`. */
  ghost predicate Beside(h: seq<Obs>, h': seq<Obs>, c: nat) {
    var a, a' := AccountOf(h), AccountOf(h');
    a'.(held := a.held, bootUp := a.bootUp) == a && forall d: nat :: d != c ==> HeldAt(a', d) == HeldAt(a, d)
  }

  predicate AboutSdo(o: Obs, c: nat) {
    match o
    case Offer(service, _, _, _) => service == SdoResponse(c)
    case SdoAsked(d) => d == c
    case SdoDrawn(d) => d == c
    case SdoQueued(d, _, _) => d == c
    case SdoGap(d, _) => d == c
    case _ => false
  }

  lemma SdoSnoc(h: seq<Obs>, o: Obs, c: nat)
    requires AboutSdo(o, c) && Lawful(h) && Legal(AccountOf(h), o)
    ensures Beside(h, h + [o], c) && Lawful(h + [o]) && Free(AccountOf(h + [o]))
    ensures Outstanding(h + [o], c) == SlotAfter(Outstanding(h, c), o, c)
  {
    hide Lawful, AccountOf, Sampled, PayloadOd, Write;
    Snoc(h, o);
  }
}
