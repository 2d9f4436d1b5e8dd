/**
 The shared bus: publishers fan frames out to bounded subscription queues, and
 receiving tasks wait on them. Publishers, tasks and other callers interleave
 between any two critical sections.
 */
module Bus {
  import opened Types
  import W = WakerProtocol

  datatype Policy = DropOldest | DropNewest

  /** A queue after a push attempt, and what the overflow policy gave up. */
  function Pushed<T>(queue: seq<T>, capacity: nat, policy: Policy, x: T): (r: (seq<T>, seq<T>))
    requires |queue| <= capacity && capacity > 0
    ensures r.1 != [] <==> |queue| == capacity
    ensures |r.1| <= 1 && |r.0| + |r.1| == |queue| + 1 && |r.0| <= capacity
    ensures multiset(r.0) + multiset(r.1) == multiset(queue) + multiset{x}
  {
    assert queue != [] ==> queue == queue[..1] + queue[1..];
    if |queue| < capacity then (queue + [x], [])
    else match policy
      case DropOldest => (queue[1..] + [x], queue[..1])
      case DropNewest => (queue, [x])
  }

  /** A subscription's shared half: every method is one critical section. */
  class Subscription {
    const capacity: nat
    const policy: Policy
    var queue: seq<CanFrame>
    var wakers: seq<nat>
    var overflow: nat

    ghost predicate Valid()
      reads this
    {
      capacity > 0 && |queue| <= capacity
    }

    constructor (capacity: nat, policy: Policy)
      requires capacity > 0
      ensures Valid() && this.capacity == capacity && this.policy == policy
      ensures queue == [] && wakers == [] && overflow == 0
    {
      this.capacity, this.policy := capacity, policy;
      queue, wakers, overflow := [], [], 0;
    }

    /** Returns the tasks to wake; none when the frame was refused. */
    method Push(f: CanFrame) returns (wake: seq<nat>)
      requires Valid()
      modifies this
      ensures Valid() && queue == Pushed(old(queue), capacity, policy, f).0
      ensures overflow == old(overflow) + |Pushed(old(queue), capacity, policy, f).1|
      ensures overflow != old(overflow) <==> |old(queue)| == capacity
      ensures if |old(queue)| >= capacity && policy.DropNewest? then wake == [] && wakers == old(wakers)
              else wake == old(wakers) && wakers == []
    {
      if |queue| >= capacity {
        overflow := overflow + 1;
        match policy {
          case DropOldest => queue := queue[1..];
          case DropNewest => return [];
        }
      }
      queue := queue + [f];
      wake := wakers;
      wakers := [];
    }

    method TryRecv() returns (f: Option<CanFrame>)
      requires Valid()
      modifies this`queue
      ensures Valid() && (old(queue) == [] <==> f.None?)
      ensures f.Some? ==> [f.value] + queue == old(queue)
      ensures f.None? ==> queue == old(queue)
    {
      if queue == [] {
        return None;
      }
      f := Some(queue[0]);
      queue := queue[1..];
    }

    method Register(task: nat)
      modifies this`wakers
      ensures wakers == W.WithWaker(old(wakers), task)
    {
      if task !in wakers {
        wakers := wakers + [task];
      }
    }

    method TakeOverflowCount() returns (n: nat)
      modifies this`overflow
      ensures n == old(overflow) && overflow == 0
    {
      n := overflow;
      overflow := 0;
    }
  }

  // ---- The bus as interleaved steps ----

  /**
   One subscription. Frames are named by their position in the publish order;
   `since` is that order's length when the subscription was made. `received`,
   `dropped` and `reported` are history.
   */
  datatype Sub = Sub(
    capacity: nat, policy: Policy, filter: CanFrame -> bool, since: nat, live: bool,
    queue: seq<nat>, overflow: nat, received: seq<nat>, dropped: seq<nat>, reported: nat)

  /** `Fanning(n)`: subscribers before `n` have been served. `Pushing(n)`: pushed to `n`, its wakers not yet taken. */
  datatype Publisher = Resting | Fanning(next: nat) | Pushing(next: nat) | Waking

  /** `holder` is the publisher holding the subscriber-list lock; its frame is the last of `order`. */
  datatype State = State(order: seq<CanFrame>, subs: seq<Sub>, pubs: seq<Publisher>, holder: Option<nat>, w: W.State)

  function NewSub(capacity: nat, policy: Policy, filter: CanFrame -> bool, since: nat): Sub {
    Sub(capacity, policy, filter, since, true, [], 0, [], [], 0)
  }

  function SubPushed(s: Sub, n: nat): Sub
    requires |s.queue| <= s.capacity && s.capacity > 0
  {
    var (queue, lost) := Pushed(s.queue, s.capacity, s.policy, n);
    s.(queue := queue, dropped := s.dropped + lost, overflow := s.overflow + |lost|)
  }

  function SubPopped(s: Sub): Sub
    requires s.queue != []
  {
    s.(queue := s.queue[1..], received := s.received + [s.queue[0]])
  }

  /** Publications among `lo..hi` that a filter accepts, in publish order. */
  function Accepted(order: seq<CanFrame>, filter: CanFrame -> bool, lo: nat, hi: nat): seq<nat>
    requires hi <= |order|
  {
    if hi <= lo then []
    else Accepted(order, filter, lo, hi - 1) + if filter(order[hi - 1]) then [hi - 1] else []
  }

  predicate Increasing(s: seq<nat>) {
    forall i, j :: 0 <= i < j < |s| ==> s[i] < s[j]
  }

  /** How far the publish order has reached subscription `s`. */
  function Seen(b: State, s: nat): nat
  {
    if b.holder.Some? && b.holder.value < |b.pubs| && b.order != [] && !Served(b.pubs[b.holder.value], s)
    then |b.order| - 1 else |b.order|
  }

  predicate Served(p: Publisher, s: nat) {
    match p
    case Fanning(n) => s < n
    case Pushing(n) => s <= n
    case _ => true
  }

  /**
   Order and conservation at one subscription: what was received and what is
   still queued are in publish order; the accepted publications are exactly the
   received, queued and dropped ones; every drop is counted; and under
   DropOldest the queue is the newest suffix of the accepted publications.
   */
  predicate SubOk(s: Sub, accepted: seq<nat>) {
    s.capacity > 0 && |s.queue| <= s.capacity
    && Increasing(s.received + s.queue)
    && multiset(accepted) == multiset(s.received) + multiset(s.queue) + multiset(s.dropped)
    && |s.dropped| == s.overflow + s.reported
    && (s.policy.DropOldest? ==> |s.queue| <= |accepted| && s.queue == accepted[|accepted| - |s.queue|..])
  }

  predicate SubSafe(b: State, s: nat)
    requires s < |b.subs|
  {
    b.subs[s].live && b.subs[s].since <= Seen(b, s) <= |b.order|
    ==> SubOk(b.subs[s], Accepted(b.order, b.subs[s].filter, b.subs[s].since, Seen(b, s)))
  }

  /** Publishers and the waker protocol agree; one publisher at most holds the list. */
  predicate PubOk(b: State, p: nat)
    requires p < |b.pubs| && p < |b.w.agents|
  {
    (b.pubs[p].Fanning? || b.pubs[p].Pushing? <==> b.holder == Some(p))
    && (b.pubs[p].Pushing? ==> b.pubs[p].next < |b.subs|)
    && (b.pubs[p].Fanning? ==> b.pubs[p].next <= |b.subs|)
    && b.w.agents[p].awaiting == (if b.pubs[p].Pushing? then Some(b.pubs[p].next) else None)
    && (b.pubs[p].Resting? ==> b.w.agents[p].toWake == [])
  }

  predicate Ok(b: State) {
    && W.Safe(b.w)
    && |b.w.avail| == |b.subs| && |b.w.agents| == |b.pubs|
    && (forall s :: 0 <= s < |b.subs| ==> b.w.avail[s] == |b.subs[s].queue|)
    && (forall p :: 0 <= p < |b.pubs| ==> PubOk(b, p))
    && (b.holder.Some? ==> b.holder.value < |b.pubs| && b.order != [])
    && (forall s :: 0 <= s < |b.subs| ==> b.subs[s].capacity > 0 && |b.subs[s].queue| <= b.subs[s].capacity)
    && (forall s :: 0 <= s < |b.subs| ==> b.subs[s].since <= Seen(b, s) && SubSafe(b, s))
  }

  function Empty(): (b: State)
    ensures Ok(b)
  {
    State([], [], [], None, W.State([], [], [], []))
  }

  // ---- Steps ----

  datatype Step =
    | Lock(pub: nat, frame: CanFrame)
    | Fan(pub: nat)
    | TakeWakers(pub: nat)
    | Unlock(pub: nat)
    | WakeOne(pub: nat)
    | Rest(pub: nat)
    | BeginPoll(task: nat)
    | FirstTry(task: nat)
    | Register(task: nat)
    | Recheck(task: nat)
    | Cancel(task: nat)
    | TryRecv(sub: nat)
    | TakeOverflow(sub: nat)
    | Subscribe(capacity: nat, policy: Policy, filter: CanFrame -> bool)
    | Unsubscribe(sub: nat)
    | NewTask(sub: nat)
    | NewPublisher

  predicate IsPub(b: State, p: nat) {
    p < |b.pubs|
  }

  predicate Enabled(b: State, step: Step)
    requires Ok(b)
  {
    match step
    case Lock(p, f) => IsPub(b, p) && b.pubs[p].Resting? && b.holder.None?
    case Fan(p) => IsPub(b, p) && b.pubs[p].Fanning? && b.pubs[p].next < |b.subs|
    case TakeWakers(p) => IsPub(b, p) && b.pubs[p].Pushing?
    case Unlock(p) => IsPub(b, p) && b.pubs[p].Fanning? && b.pubs[p].next == |b.subs|
    case WakeOne(p) => IsPub(b, p) && b.pubs[p].Waking? && b.w.agents[p].toWake != []
    case Rest(p) => IsPub(b, p) && b.pubs[p].Waking? && b.w.agents[p].toWake == []
    case BeginPoll(t) => W.Enabled(b.w, W.DoBeginPoll(t))
    case FirstTry(t) => W.Enabled(b.w, W.DoFirstTry(t))
    case Register(t) => W.Enabled(b.w, W.DoRegister(t))
    case Recheck(t) => W.Enabled(b.w, W.DoRecheck(t))
    case Cancel(t) => W.Enabled(b.w, W.DoCancel(t))
    case TryRecv(s) => s < |b.subs|
    case TakeOverflow(s) => s < |b.subs|
    case Subscribe(capacity, _, _) => capacity > 0 && b.holder.None?
    case Unsubscribe(s) => s < |b.subs|
    case NewTask(s) => s < |b.subs|
    case NewPublisher => true
  }

  /** Takes the lock and enters the publish order. */
  function Locked(b: State, p: nat, f: CanFrame): State
    requires IsPub(b, p)
  {
    b.(order := b.order + [f], holder := Some(p), pubs := b.pubs[p := Fanning(0)])
  }

  /** The subscription accepts the frame being published. */
  predicate Wants(b: State, s: nat)
    requires Ok(b) && b.holder.Some? && s < |b.subs|
  {
    b.subs[s].live && b.subs[s].filter(b.order[|b.order| - 1])
  }

  /** The push changed the queue, so its wakers will be taken. */
  predicate Disturbs(s: Sub) {
    !(|s.queue| >= s.capacity && s.policy.DropNewest?)
  }

  /** Serves the next subscriber. */
  function Fanned(b: State, p: nat): State
    requires Ok(b) && IsPub(b, p) && b.pubs[p].Fanning? && b.pubs[p].next < |b.subs|
  {
    var n := b.pubs[p].next;
    assert PubOk(b, p);
    if !Wants(b, n) then b.(pubs := b.pubs[p := Fanning(n + 1)])
    else
      var s' := SubPushed(b.subs[n], |b.order| - 1);
      var b1 := b.(subs := b.subs[n := s']);
      if Disturbs(b.subs[n])
      then b1.(pubs := b.pubs[p := Pushing(n)], w := W.Provide(b.w, p, n, |s'.queue|))
      else b1.(pubs := b.pubs[p := Fanning(n + 1)])
  }

  function WakersTaken(b: State, p: nat): State
    requires Ok(b) && IsPub(b, p) && b.pubs[p].Pushing?
  {
    assert PubOk(b, p);
    b.(pubs := b.pubs[p := Fanning(b.pubs[p].next + 1)], w := W.TakeWakers(b.w, p))
  }

  /** A task's attempt to take a frame, first or second. */
  function Attempted(b: State, t: nat, w': W.State): State
    requires Ok(b) && t < |b.w.tasks|
  {
    var s := b.w.tasks[t].resource;
    if b.subs[s].queue != [] then b.(subs := b.subs[s := SubPopped(b.subs[s])], w := w') else b.(w := w')
  }

  function Popped(b: State, s: nat): State
    requires Ok(b) && s < |b.subs|
  {
    if b.subs[s].queue == [] then b
    else b.(subs := b.subs[s := SubPopped(b.subs[s])], w := W.Consume(b.w, s, b.w.avail[s] - 1))
  }

  function Next(b: State, step: Step): State
    requires Ok(b) && Enabled(b, step)
  {
    match step
    case Lock(p, f) => Locked(b, p, f)
    case Fan(p) => Fanned(b, p)
    case TakeWakers(p) => WakersTaken(b, p)
    case Unlock(p) => b.(holder := None, pubs := b.pubs[p := Waking])
    case WakeOne(p) => b.(w := W.WakeOne(b.w, p))
    case Rest(p) => b.(pubs := b.pubs[p := Resting])
    case BeginPoll(t) => b.(w := W.BeginPoll(b.w, t))
    case FirstTry(t) => Attempted(b, t, W.FirstTry(b.w, t))
    case Register(t) => b.(w := W.Register(b.w, t))
    case Recheck(t) => Attempted(b, t, W.Recheck(b.w, t))
    case Cancel(t) => b.(w := W.Cancel(b.w, t))
    case TryRecv(s) => Popped(b, s)
    case TakeOverflow(s) =>
      b.(subs := b.subs[s := b.subs[s].(overflow := 0, reported := b.subs[s].reported + b.subs[s].overflow)])
    case Subscribe(capacity, policy, filter) =>
      b.(subs := b.subs + [NewSub(capacity, policy, filter, |b.order|)], w := W.AddResource(b.w, 0))
    case Unsubscribe(s) => b.(subs := b.subs[s := b.subs[s].(live := false)])
    case NewTask(s) => b.(w := W.AddTask(b.w, s))
    case NewPublisher => b.(pubs := b.pubs + [Resting], w := W.AddAgent(b.w))
  }

  // ---- Per-subscription lemmas ----

  lemma {:induction false} AcceptedMembers(order: seq<CanFrame>, filter: CanFrame -> bool, lo: nat, hi: nat, n: nat)
    requires hi <= |order|
    ensures n in Accepted(order, filter, lo, hi) <==> lo <= n < hi && filter(order[n])
  {
    if hi > lo {
      AcceptedMembers(order, filter, lo, hi - 1, n);
    }
  }

  lemma {:induction false} AcceptedIncreasing(order: seq<CanFrame>, filter: CanFrame -> bool, lo: nat, hi: nat)
    requires hi <= |order|
    ensures Increasing(Accepted(order, filter, lo, hi))
    ensures forall i :: 0 <= i < |Accepted(order, filter, lo, hi)| ==> Accepted(order, filter, lo, hi)[i] < hi
  {
    if hi > lo {
      AcceptedIncreasing(order, filter, lo, hi - 1);
    }
  }

  lemma {:induction false} AcceptedExtends(order: seq<CanFrame>, f: CanFrame, filter: CanFrame -> bool, lo: nat, hi: nat)
    requires hi <= |order|
    ensures Accepted(order + [f], filter, lo, hi) == Accepted(order, filter, lo, hi)
  {
    if hi > lo {
      AcceptedExtends(order, f, filter, lo, hi - 1);
    }
  }

  lemma PushKeepsSub(s: Sub, accepted: seq<nat>, n: nat)
    requires SubOk(s, accepted) && forall i :: 0 <= i < |accepted| ==> accepted[i] < n
    ensures SubOk(SubPushed(s, n), accepted + [n])
  {
    var s' := SubPushed(s, n);
    StoredAreAccepted(s, accepted, n);
    PushKeepsOrder(s, n);
    PushKeepsCount(s, accepted, n);
    if s.policy.DropOldest? {
      PushKeepsSuffix(s, accepted, n);
    }
    hide Increasing;
  }

  lemma StoredAreAccepted(s: Sub, accepted: seq<nat>, n: nat)
    requires multiset(accepted) == multiset(s.received) + multiset(s.queue) + multiset(s.dropped)
    requires forall i :: 0 <= i < |accepted| ==> accepted[i] < n
    ensures forall i :: 0 <= i < |s.received + s.queue| ==> (s.received + s.queue)[i] < n
  {
    var all := s.received + s.queue;
    forall i | 0 <= i < |all| ensures all[i] < n {
      assert all[i] in multiset(all);
      assert multiset(all) == multiset(s.received) + multiset(s.queue);
      assert all[i] in multiset(accepted);
      assert all[i] in accepted;
    }
  }

  lemma PushKeepsSuffix(s: Sub, accepted: seq<nat>, n: nat)
    requires s.capacity > 0 && |s.queue| <= s.capacity && s.policy.DropOldest?
    requires |s.queue| <= |accepted| && s.queue == accepted[|accepted| - |s.queue|..]
    ensures var queue, all := SubPushed(s, n).queue, accepted + [n];
            |queue| <= |all| && queue == all[|all| - |queue|..]
  {
  }

  lemma PushKeepsOrder(s: Sub, n: nat)
    requires s.capacity > 0 && |s.queue| <= s.capacity && Increasing(s.received + s.queue)
    requires forall i :: 0 <= i < |s.received + s.queue| ==> (s.received + s.queue)[i] < n
    ensures Increasing(SubPushed(s, n).received + SubPushed(s, n).queue)
  {
    var before, after := s.received + s.queue, SubPushed(s, n).received + SubPushed(s, n).queue;
    if |s.queue| < s.capacity {
      assert after == before + [n];
    } else if s.policy.DropOldest? {
      var k := |s.received|;
      assert after == before[..k] + before[k + 1..] + [n];
    } else {
      assert after == before;
    }
  }

  lemma PushKeepsCount(s: Sub, accepted: seq<nat>, n: nat)
    requires s.capacity > 0 && |s.queue| <= s.capacity
    requires multiset(accepted) == multiset(s.received) + multiset(s.queue) + multiset(s.dropped)
    ensures var s' := SubPushed(s, n);
            multiset(accepted + [n]) == multiset(s'.received) + multiset(s'.queue) + multiset(s'.dropped)
  {
    if |s.queue| >= s.capacity && s.policy.DropOldest? {
      assert s.queue == s.queue[..1] + s.queue[1..];
    }
  }

  lemma PopKeepsSub(s: Sub, accepted: seq<nat>)
    requires SubOk(s, accepted) && s.queue != []
    ensures SubOk(SubPopped(s), accepted)
  {
    assert s.received + [s.queue[0]] + s.queue[1..] == s.received + s.queue;
    assert s.queue == [s.queue[0]] + s.queue[1..];
  }

  // ---- Every step keeps the invariant ----

  /** Subscriptions whose state, filter and view of the order did not change stay in order. */
  lemma SubUntouched(b: State, b': State, s: nat)
    requires s < |b.subs| && s < |b'.subs| && b'.subs[s] == b.subs[s]
    requires b'.order == b.order && Seen(b', s) == Seen(b, s)
    requires b.subs[s].since <= Seen(b, s) && SubSafe(b, s)
    ensures b'.subs[s].since <= Seen(b', s) && SubSafe(b', s)
  {
  }

  lemma LockKeeps(b: State, p: nat, f: CanFrame)
    requires Ok(b) && Enabled(b, Lock(p, f))
    ensures Ok(Locked(b, p, f))
  {
    hide SubOk, Increasing, W.Safe;
    var b' := Locked(b, p, f);
    forall q | 0 <= q < |b'.pubs| ensures PubOk(b', q) {
      assert PubOk(b, q);
    }
    forall s | 0 <= s < |b'.subs| ensures b'.subs[s].since <= Seen(b', s) && SubSafe(b', s) {
      assert SubSafe(b, s);
      AcceptedExtends(b.order, f, b.subs[s].filter, b.subs[s].since, |b.order|);
    }
  }

  /** The served subscription after its turn. */
  lemma FanKeepsServed(b: State, p: nat)
    requires Ok(b) && Enabled(b, Fan(p))
    ensures var b', n := Fanned(b, p), b.pubs[p].next;
            |b'.subs| == |b.subs| && b'.subs[n].since <= Seen(b', n) && SubSafe(b', n)
            && b'.subs[n].capacity > 0 && |b'.subs[n].queue| <= b'.subs[n].capacity
            && (!Disturbs(b.subs[n]) ==> b'.subs[n].queue == b.subs[n].queue)
  {
    hide SubOk, Increasing, W.Safe;
    assert PubOk(b, p);
    var b', n := Fanned(b, p), b.pubs[p].next;
    var s, last := b.subs[n], |b.order| - 1;
    assert SubSafe(b, n);
    assert Seen(b, n) == last && Seen(b', n) == last + 1;
    AcceptedIncreasing(b.order, s.filter, s.since, last);
    var accepted := Accepted(b.order, s.filter, s.since, last);
    if Wants(b, n) {
      PushKeepsSub(s, accepted, last);
      assert Accepted(b.order, s.filter, s.since, last + 1) == accepted + [last];
    } else {
      assert s.live ==> Accepted(b.order, s.filter, s.since, last + 1) == accepted + [] == accepted;
    }
  }

  lemma FanKeeps(b: State, p: nat)
    requires Ok(b) && Enabled(b, Fan(p))
    ensures Ok(Fanned(b, p))
  {
    hide SubOk, Increasing, W.TaskSafe, Accepted;
    assert PubOk(b, p);
    var b', n := Fanned(b, p), b.pubs[p].next;
    FanKeepsServed(b, p);
    if Wants(b, n) && Disturbs(b.subs[n]) {
      W.ProvideSafe(b.w, p, n, |b'.subs[n].queue|);
    }
    forall q | 0 <= q < |b'.pubs| ensures PubOk(b', q) {
      assert PubOk(b, q);
    }
    forall s | 0 <= s < |b'.subs| ensures b'.subs[s].since <= Seen(b', s) && SubSafe(b', s) {
      if s != n {
        SubUntouched(b, b', s);
      }
    }
  }

  lemma PublisherKeeps(b: State, step: Step)
    requires Ok(b) && Enabled(b, step)
    requires step.TakeWakers? || step.Unlock? || step.WakeOne? || step.Rest?
    ensures Ok(Next(b, step))
  {
    hide SubOk, Increasing, W.TaskSafe, Accepted;
    var p := step.pub;
    assert PubOk(b, p);
    var b' := Next(b, step);
    if step.TakeWakers? {
      W.TakeWakersSafe(b.w, p);
    } else if step.WakeOne? {
      W.WakeOneSafe(b.w, p);
    }
    forall q | 0 <= q < |b'.pubs| ensures PubOk(b', q) {
      assert PubOk(b, q);
    }
    forall s | 0 <= s < |b'.subs| ensures b'.subs[s].since <= Seen(b', s) && SubSafe(b', s) {
      SubUntouched(b, b', s);
    }
  }

  /** Steps that leave every queue, publisher and the order alone. */
  lemma WakerStepKeeps(b: State, w': W.State)
    requires Ok(b) && W.Safe(w') && w'.avail == b.w.avail && w'.agents == b.w.agents
    ensures Ok(b.(w := w'))
  {
    hide SubOk, Increasing, W.TaskSafe, Accepted;
    var b' := b.(w := w');
    forall q | 0 <= q < |b'.pubs| ensures PubOk(b', q) {
      assert PubOk(b, q);
    }
    forall s | 0 <= s < |b'.subs| ensures b'.subs[s].since <= Seen(b', s) && SubSafe(b', s) {
      SubUntouched(b, b', s);
    }
  }

  /** One subscription changes in a way that keeps it in order; publishers and the publish order do not. */
  lemma SubStepKeeps(b: State, s: nat, sub: Sub, w': W.State)
    requires Ok(b) && s < |b.subs| && W.Safe(w') && w'.agents == b.w.agents
    requires w'.avail == b.w.avail[s := |sub.queue|]
    requires sub.since == b.subs[s].since && sub.filter == b.subs[s].filter && sub.capacity == b.subs[s].capacity
    requires |sub.queue| <= sub.capacity
    requires sub.live ==> b.subs[s].live
    requires forall accepted :: SubOk(b.subs[s], accepted) ==> SubOk(sub, accepted)
    ensures Ok(b.(subs := b.subs[s := sub], w := w'))
  {
    hide SubOk, Increasing, W.TaskSafe, Accepted;
    var b' := b.(subs := b.subs[s := sub], w := w');
    forall q | 0 <= q < |b'.pubs| ensures PubOk(b', q) {
      assert PubOk(b, q);
    }
    forall u | 0 <= u < |b'.subs| ensures b'.subs[u].since <= Seen(b', u) && SubSafe(b', u) {
      if u != s {
        SubUntouched(b, b', u);
      } else {
        assert SubSafe(b, s);
      }
    }
  }

  lemma PopKeeps(b: State, s: nat, w': W.State)
    requires Ok(b) && s < |b.subs| && b.subs[s].queue != [] && W.Safe(w') && w'.agents == b.w.agents
    requires w'.avail == b.w.avail[s := |b.subs[s].queue| - 1]
    ensures Ok(b.(subs := b.subs[s := SubPopped(b.subs[s])], w := w'))
  {
    hide Increasing, W.Safe;
    forall accepted | SubOk(b.subs[s], accepted) ensures SubOk(SubPopped(b.subs[s]), accepted) {
      PopKeepsSub(b.subs[s], accepted);
    }
    hide SubOk;
    SubStepKeeps(b, s, SubPopped(b.subs[s]), w');
  }

  lemma AttemptKeeps(b: State, t: nat, step: W.Step)
    requires Ok(b) && W.Enabled(b.w, step) && (step == W.DoFirstTry(t) || step == W.DoRecheck(t))
    ensures Ok(Attempted(b, t, W.Next(b.w, step)))
  {
    hide SubOk, Increasing, W.TaskSafe, Accepted;
    var s := b.w.tasks[t].resource;
    W.StepKeepsSafe(b.w, step);
    if b.subs[s].queue != [] {
      PopKeeps(b, s, W.Next(b.w, step));
    } else {
      WakerStepKeeps(b, W.Next(b.w, step));
    }
  }

  lemma NewSubOk(capacity: nat, policy: Policy, filter: CanFrame -> bool, order: seq<CanFrame>)
    requires capacity > 0
    ensures SubOk(NewSub(capacity, policy, filter, |order|), Accepted(order, filter, |order|, |order|))
  {
  }

  lemma SubscribeKeeps(b: State, capacity: nat, policy: Policy, filter: CanFrame -> bool)
    requires Ok(b) && Enabled(b, Subscribe(capacity, policy, filter))
    ensures Ok(Next(b, Subscribe(capacity, policy, filter)))
  {
    hide W.TaskSafe, SubOk, Accepted;
    var b' := Next(b, Subscribe(capacity, policy, filter));
    W.GrowthSafe(b.w, 0, 0);
    NewSubOk(capacity, policy, filter, b.order);
    forall q | 0 <= q < |b'.pubs| ensures PubOk(b', q) {
      assert PubOk(b, q);
    }
    forall s | 0 <= s < |b'.subs| ensures b'.subs[s].since <= Seen(b', s) && SubSafe(b', s) {
      if s < |b.subs| {
        SubUntouched(b, b', s);
      }
    }
  }

  lemma NewPublisherKeeps(b: State)
    requires Ok(b)
    ensures Ok(Next(b, NewPublisher))
  {
    hide W.TaskSafe, SubOk, Accepted;
    var b' := Next(b, NewPublisher);
    W.GrowthSafe(b.w, 0, 0);
    forall q | 0 <= q < |b'.pubs| ensures PubOk(b', q) {
      assert q < |b.pubs| ==> PubOk(b, q);
    }
    forall s | 0 <= s < |b'.subs| ensures b'.subs[s].since <= Seen(b', s) && SubSafe(b', s) {
      SubUntouched(b, b', s);
    }
  }

  /** Every atomic step of every party keeps the bus in order and loses no wakeup. */
  lemma StepKeepsOk(b: State, step: Step)
    requires Ok(b) && Enabled(b, step)
    ensures Ok(Next(b, step))
  {
    hide SubOk, W.TaskSafe, SubSafe, PubOk;
    match step {
      case Lock(p, f) => LockKeeps(b, p, f);
      case Fan(p) => FanKeeps(b, p);
      case TakeWakers(_) => PublisherKeeps(b, step);
      case Unlock(_) => PublisherKeeps(b, step);
      case WakeOne(_) => PublisherKeeps(b, step);
      case Rest(_) => PublisherKeeps(b, step);
      case BeginPoll(t) =>
        W.StepKeepsSafe(b.w, W.DoBeginPoll(t));
        WakerStepKeeps(b, W.BeginPoll(b.w, t));
      case FirstTry(t) => AttemptKeeps(b, t, W.DoFirstTry(t));
      case Register(t) =>
        W.StepKeepsSafe(b.w, W.DoRegister(t));
        WakerStepKeeps(b, W.Register(b.w, t));
      case Recheck(t) => AttemptKeeps(b, t, W.DoRecheck(t));
      case Cancel(t) =>
        W.StepKeepsSafe(b.w, W.DoCancel(t));
        WakerStepKeeps(b, W.Cancel(b.w, t));
      case TryRecv(s) =>
        if b.subs[s].queue != [] {
          W.ConsumeSafe(b.w, s, b.w.avail[s] - 1);
          PopKeeps(b, s, W.Consume(b.w, s, b.w.avail[s] - 1));
        }
      case TakeOverflow(s) => BookkeepingKeeps(b, s);
      case Subscribe(capacity, policy, filter) => SubscribeKeeps(b, capacity, policy, filter);
      case Unsubscribe(s) => BookkeepingKeeps(b, s);
      case NewTask(s) =>
        W.GrowthSafe(b.w, s, 0);
        WakerStepKeeps(b, W.AddTask(b.w, s));
      case NewPublisher => NewPublisherKeeps(b);
    }
  }

  lemma OverflowKeepsSub(s: Sub, accepted: seq<nat>)
    requires SubOk(s, accepted)
    ensures SubOk(s.(overflow := 0, reported := s.reported + s.overflow), accepted)
    ensures SubOk(s.(live := false), accepted)
  {
    hide Increasing;
  }

  lemma BookkeepingKeeps(b: State, s: nat)
    requires Ok(b) && s < |b.subs|
    ensures Ok(Next(b, TakeOverflow(s))) && Ok(Next(b, Unsubscribe(s)))
  {
    hide SubOk, W.Safe, SubSafe;
    var sub := b.subs[s];
    assert b.w.avail[s := |sub.queue|] == b.w.avail;
    forall accepted | SubOk(sub, accepted)
      ensures SubOk(sub.(overflow := 0, reported := sub.reported + sub.overflow), accepted)
      ensures SubOk(sub.(live := false), accepted)
    {
      OverflowKeepsSub(sub, accepted);
    }
    SubStepKeeps(b, s, sub.(overflow := 0, reported := sub.reported + sub.overflow), b.w);
    SubStepKeeps(b, s, sub.(live := false), b.w);
  }

  // ---- Every run ----

  predicate IsRun(b: State, steps: seq<Step>)
    requires Ok(b)
    decreases |steps|
  {
    steps == [] || (Enabled(b, steps[0]) && (StepKeepsOk(b, steps[0]); IsRun(Next(b, steps[0]), steps[1..])))
  }

  function Run(b: State, steps: seq<Step>): (b': State)
    requires Ok(b) && IsRun(b, steps)
    ensures Ok(b')
    decreases |steps|
  {
    if steps == [] then b else (StepKeepsOk(b, steps[0]); Run(Next(b, steps[0]), steps[1..]))
  }

  /** The publisher is between a push and its last wake. */
  predicate InFlight(b: State, p: nat) {
    p < |b.pubs| && !b.pubs[p].Resting?
  }

  /**
   No lost wakeups: in every interleaving, a suspended unnotified task whose
   queue holds a frame is about to be woken by a publisher in flight, which by
   its own remaining steps notifies it.
   */
  lemma NoLostWakeups(steps: seq<Step>, t: nat)
    requires IsRun(Empty(), steps)
    requires t < |Run(Empty(), steps).w.tasks|
    requires var b := Run(Empty(), steps);
             b.w.tasks[t].phase.Parked? && !b.w.tasks[t].notified && b.subs[b.w.tasks[t].resource].queue != []
    ensures var b := Run(Empty(), steps);
            exists p :: InFlight(b, p) && W.WillWake(b.w, p, t) && W.Finish(b.w, p).tasks[t].notified
  {
    hide SubSafe, Increasing;
    var b := Run(Empty(), steps);
    assert W.TaskSafe(b.w, t);
    var p :| 0 <= p < |b.w.agents| && W.WillWake(b.w, p, t);
    assert PubOk(b, p) && InFlight(b, p);
    W.FinishNotifies(b.w, p, t);
  }

  /**
   Order and conservation at every live subscription, as far as the publish
   order has reached it: its received frames followed by its queue are in the
   one publish order; the frames its filter accepts since it subscribed are
   exactly those received, queued and dropped; overflow counts account for all
   drops; under DropOldest its queue is the newest suffix.
   */
  lemma OrderedAndConserved(steps: seq<Step>, s: nat)
    requires IsRun(Empty(), steps)
    requires s < |Run(Empty(), steps).subs| && Run(Empty(), steps).subs[s].live
    ensures var b := Run(Empty(), steps);
            b.subs[s].since <= Seen(b, s) <= |b.order| && (b.holder.None? ==> Seen(b, s) == |b.order|)
            && SubOk(b.subs[s], Accepted(b.order, b.subs[s].filter, b.subs[s].since, Seen(b, s)))
  {
    hide SubOk, Increasing, Accepted;
    assert SubSafe(Run(Empty(), steps), s);
  }

  /** The step is an attempt to receive from subscription `s`, by a task or by a direct call. */
  predicate Receives(b: State, step: Step, s: nat)
    requires Ok(b) && Enabled(b, step)
  {
    match step
    case TryRecv(sub) => sub == s
    case FirstTry(t) => b.w.tasks[t].resource == s
    case Recheck(t) => b.w.tasks[t].resource == s
    case _ => false
  }

  /** Every attempt takes the oldest queued frame if there is one; no other step receives anything. */
  lemma ReceptionIsExact(b: State, step: Step, s: nat)
    requires Ok(b) && Enabled(b, step) && s < |b.subs|
    ensures s < |Next(b, step).subs|
    ensures Next(b, step).subs[s].received
         == b.subs[s].received + if Receives(b, step, s) && b.subs[s].queue != [] then b.subs[s].queue[..1] else []
  {
    hide SubSafe, W.Provide, W.TakeWakers;
  }

  // ---- When frames are given up ----

  /** A step gives up a frame only by pushing to a full queue, which stays full. */
  lemma DropNeedsFullQueue(b: State, step: Step, s: nat)
    requires Ok(b) && Enabled(b, step) && s < |b.subs| && s < |Next(b, step).subs|
    requires Next(b, step).subs[s].dropped != b.subs[s].dropped
    ensures step.Fan? && b.pubs[step.pub].next == s && b.subs[s].live && b.subs[s].filter(b.order[|b.order| - 1])
    ensures |b.subs[s].queue| == b.subs[s].capacity == |Next(b, step).subs[s].queue|
    ensures |Next(b, step).subs[s].dropped| == |b.subs[s].dropped| + 1
  {
    hide SubSafe, W.Safe, W.Provide, W.TakeWakers;
  }

  /** The accepted publications that no task has received yet. */
  function Unreceived(b: State, s: nat): int
    requires Ok(b) && s < |b.subs|
  {
    |Accepted(b.order, b.subs[s].filter, b.subs[s].since, Seen(b, s))| - |b.subs[s].received|
  }

  /** At most `capacity` accepted publications of a live subscription are unreceived. */
  predicate WithinCapacity(b: State, s: nat)
    requires Ok(b)
  {
    s < |b.subs| && b.subs[s].live ==> Unreceived(b, s) <= b.subs[s].capacity
  }

  /** The subscription is within its capacity before the run and after each of its steps. */
  predicate AlwaysWithin(b: State, steps: seq<Step>, s: nat)
    requires Ok(b) && IsRun(b, steps)
    decreases |steps|
  {
    WithinCapacity(b, s)
    && (steps == [] || (StepKeepsOk(b, steps[0]); AlwaysWithin(Next(b, steps[0]), steps[1..], s)))
  }

  lemma UnreceivedIsStored(b: State, s: nat)
    requires Ok(b) && s < |b.subs| && b.subs[s].live
    ensures Unreceived(b, s) == |b.subs[s].queue| + |b.subs[s].dropped|
  {
    hide Accepted, Increasing, W.Safe;
    assert SubSafe(b, s);
    var sub, accepted := b.subs[s], Accepted(b.order, b.subs[s].filter, b.subs[s].since, Seen(b, s));
    assert |multiset(accepted)| == |multiset(sub.received) + multiset(sub.queue) + multiset(sub.dropped)|;
  }

  lemma StepKeepsUndropped(b: State, step: Step, s: nat)
    requires Ok(b) && Enabled(b, step) && Ok(Next(b, step)) && WithinCapacity(Next(b, step), s)
    requires s < |b.subs| ==> b.subs[s].dropped == []
    requires s < |Next(b, step).subs|
    ensures Next(b, step).subs[s].dropped == []
  {
    hide Accepted, SubSafe, Unreceived;
    var b' := Next(b, step);
    if s < |b.subs| && b'.subs[s].dropped != [] {
      DropNeedsFullQueue(b, step, s);
      assert b'.subs[s].live && b'.subs[s].capacity == b.subs[s].capacity;
      UnreceivedIsStored(b', s);
    }
  }

  /** Nothing is given up as long as at most `capacity` accepted frames are unreceived. */
  lemma {:induction false} NothingDroppedWithinCapacity(b: State, steps: seq<Step>, s: nat)
    requires Ok(b) && IsRun(b, steps) && AlwaysWithin(b, steps, s)
    requires s < |b.subs| ==> b.subs[s].dropped == []
    ensures s < |Run(b, steps).subs| ==> Run(b, steps).subs[s].dropped == []
    decreases |steps|
  {
    hide Ok, Enabled, Next, WithinCapacity;
    if steps != [] {
      StepKeepsOk(b, steps[0]);
      var b' := Next(b, steps[0]);
      if s < |b'.subs| {
        AlwaysStarts(b', steps[1..], s);
        StepKeepsUndropped(b, steps[0], s);
      }
      NothingDroppedWithinCapacity(b', steps[1..], s);
    }
  }

  lemma AlwaysStarts(b: State, steps: seq<Step>, s: nat)
    requires Ok(b) && IsRun(b, steps) && AlwaysWithin(b, steps, s)
    ensures WithinCapacity(b, s)
  {
  }

  /** The accepted publications are exactly those the filter accepts, in publish order. */
  lemma AcceptedIsFiltered(order: seq<CanFrame>, filter: CanFrame -> bool, lo: nat, hi: nat)
    requires hi <= |order|
    ensures Increasing(Accepted(order, filter, lo, hi))
    ensures forall n :: n in Accepted(order, filter, lo, hi) <==> lo <= n < hi && filter(order[n])
  {
    AcceptedIncreasing(order, filter, lo, hi);
    forall n ensures n in Accepted(order, filter, lo, hi) <==> lo <= n < hi && filter(order[n]) {
      if n >= 0 {
        AcceptedMembers(order, filter, lo, hi, n);
      }
    }
  }
}
