/**
 The register-then-recheck protocol between waiting tasks and the agents that
 make a resource available, as interleaved atomic steps.

 A resource is anything a task may take one unit of: a queued frame of a
 subscription, a free slot of a transmit queue. An agent that makes units
 available first changes the resource, then takes the registered wakers, then
 wakes them one by one; other parties run between any two of these steps.
 */
module WakerProtocol {
  import opened Types

  /** Where a task's receive or send future stands. */
  datatype Phase = Idle | Polling | Checked | Registered | Parked

  datatype Task = Task(resource: nat, phase: Phase, notified: bool)

  /** `awaiting`: resource changed but its wakers not yet taken. `toWake`: wakers taken, not yet woken. */
  datatype Agent = Agent(awaiting: Option<nat>, toWake: seq<nat>)

  datatype State = State(avail: seq<nat>, wakers: seq<seq<nat>>, tasks: seq<Task>, agents: seq<Agent>)

  predicate WellFormed(s: State) {
    |s.wakers| == |s.avail|
    && (forall t :: 0 <= t < |s.tasks| ==> s.tasks[t].resource < |s.avail|)
    && forall a :: 0 <= a < |s.agents| ==> s.agents[a].awaiting.Some? ==> s.agents[a].awaiting.value < |s.avail|
  }

  // ---- Steps of a task ----

  predicate IsTask(s: State, t: nat) {
    WellFormed(s) && t < |s.tasks|
  }

  function WithPhase(s: State, t: nat, p: Phase): State
    requires IsTask(s, t)
  {
    s.(tasks := s.tasks[t := s.tasks[t].(phase := p)])
  }

  function Available(s: State, t: nat): nat
    requires IsTask(s, t)
  {
    s.avail[s.tasks[t].resource]
  }

  /** The executor polls the future: the pending notification is consumed. */
  function BeginPoll(s: State, t: nat): State
    requires IsTask(s, t)
  {
    s.(tasks := s.tasks[t := s.tasks[t].(phase := Polling, notified := false)])
  }

  /** Takes one unit and completes. */
  function Acquire(s: State, t: nat): State
    requires IsTask(s, t) && Available(s, t) > 0
  {
    var r := s.tasks[t].resource;
    WithPhase(s, t, Idle).(avail := s.avail[r := s.avail[r] - 1])
  }

  /** First attempt. */
  function FirstTry(s: State, t: nat): State
    requires IsTask(s, t)
  {
    if Available(s, t) > 0 then Acquire(s, t) else WithPhase(s, t, Checked)
  }

  function WithWaker(wakers: seq<nat>, t: nat): (r: seq<nat>)
    ensures t in r && forall u :: u in r <==> u in wakers || u == t
  {
    if t in wakers then wakers else wakers + [t]
  }

  function Register(s: State, t: nat): State
    requires IsTask(s, t)
  {
    var r := s.tasks[t].resource;
    WithPhase(s, t, Registered).(wakers := s.wakers[r := WithWaker(s.wakers[r], t)])
  }

  /** Second attempt, after registering; the task suspends when it fails too. */
  function Recheck(s: State, t: nat): State
    requires IsTask(s, t)
  {
    if Available(s, t) > 0 then Acquire(s, t) else WithPhase(s, t, Parked)
  }

  /** The future is dropped; its waker may stay registered. */
  function Cancel(s: State, t: nat): State
    requires IsTask(s, t)
  {
    WithPhase(s, t, Idle)
  }

  // ---- Steps of an agent ----

  predicate IsAgent(s: State, a: nat) {
    WellFormed(s) && a < |s.agents|
  }

  /** Changes the resource, typically making a unit available. */
  function Provide(s: State, a: nat, r: nat, n: nat): State
    requires IsAgent(s, a) && r < |s.avail|
  {
    s.(avail := s.avail[r := n], agents := s.agents[a := s.agents[a].(awaiting := Some(r))])
  }

  function TakeWakers(s: State, a: nat): State
    requires IsAgent(s, a) && s.agents[a].awaiting.Some?
  {
    var r := s.agents[a].awaiting.value;
    s.(wakers := s.wakers[r := []],
       agents := s.agents[a := Agent(None, s.agents[a].toWake + s.wakers[r])])
  }

  function WakeOne(s: State, a: nat): State
    requires IsAgent(s, a) && s.agents[a].toWake != []
  {
    var t := s.agents[a].toWake[0];
    var s1 := s.(agents := s.agents[a := s.agents[a].(toWake := s.agents[a].toWake[1..])]);
    if t < |s.tasks| then s1.(tasks := s.tasks[t := s.tasks[t].(notified := true)]) else s1
  }

  // ---- Steps of other parties ----

  /** Units taken (or a full resource left alone) without any waker involved. */
  function Consume(s: State, r: nat, n: nat): State
    requires WellFormed(s) && r < |s.avail| && n <= s.avail[r]
  {
    s.(avail := s.avail[r := n])
  }

  function AddTask(s: State, r: nat): State
    requires WellFormed(s) && r < |s.avail|
  {
    s.(tasks := s.tasks + [Task(r, Idle, false)])
  }

  function AddAgent(s: State): State {
    s.(agents := s.agents + [Agent(None, [])])
  }

  function AddResource(s: State, n: nat): State {
    s.(avail := s.avail + [n], wakers := s.wakers + [[]])
  }

  // ---- No lost wakeups ----

  /** Agent `a` is between its change and its wakes, and will wake task `t`. */
  predicate WillWake(s: State, a: nat, t: nat)
    requires IsAgent(s, a) && IsTask(s, t)
  {
    t in s.agents[a].toWake
    || (s.agents[a].awaiting == Some(s.tasks[t].resource) && t in s.wakers[s.tasks[t].resource])
  }

  predicate Covered(s: State, t: nat)
    requires IsTask(s, t)
  {
    exists a :: 0 <= a < |s.agents| && WillWake(s, a, t)
  }

  /** Past registration and not yet notified. */
  predicate Waiting(s: State, t: nat)
    requires IsTask(s, t)
  {
    (s.tasks[t].phase.Registered? || s.tasks[t].phase.Parked?) && !s.tasks[t].notified
  }

  /** The waker of a waiting task is registered or already on its way. */
  predicate Reachable(s: State, t: nat)
    requires IsTask(s, t)
  {
    t in s.wakers[s.tasks[t].resource] || Covered(s, t)
  }

  predicate TaskSafe(s: State, t: nat)
    requires IsTask(s, t)
  {
    Waiting(s, t) ==> Reachable(s, t) && (s.tasks[t].phase.Parked? && Available(s, t) > 0 ==> Covered(s, t))
  }

  /**
   No wakeup is lost: a suspended, unnotified task facing an available unit is
   about to be woken by an agent in flight.
   */
  predicate Safe(s: State) {
    WellFormed(s) && forall t :: 0 <= t < |s.tasks| ==> TaskSafe(s, t)
  }

  lemma CoveredKept(s: State, s': State, t: nat)
    requires IsTask(s, t) && IsTask(s', t) && |s.agents| <= |s'.agents|
    requires forall a :: 0 <= a < |s.agents| && WillWake(s, a, t) ==> WillWake(s', a, t)
    ensures Covered(s, t) ==> Covered(s', t)
  {
    if Covered(s, t) {
      var a :| 0 <= a < |s.agents| && WillWake(s, a, t);
      assert WillWake(s', a, t);
    }
  }

  /** A step that leaves wakers and agents alone, and raises no other task's stakes. */
  lemma TaskStepSafe(s: State, s': State, t: nat)
    requires Safe(s) && t < |s.tasks| && WellFormed(s')
    requires s'.wakers == s.wakers && s'.agents == s.agents && |s'.tasks| == |s.tasks|
    requires forall u :: 0 <= u < |s.tasks| && u != t ==> s'.tasks[u] == s.tasks[u]
    requires s'.tasks[t].resource == s.tasks[t].resource
    requires |s'.avail| == |s.avail| && forall r :: 0 <= r < |s.avail| ==> s'.avail[r] <= s.avail[r]
    requires Waiting(s', t) ==> Waiting(s, t) && (s'.tasks[t].phase.Parked? ==> Available(s', t) == 0)
    ensures Safe(s')
  {
    forall u | 0 <= u < |s'.tasks| ensures TaskSafe(s', u) {
      assert TaskSafe(s, u);
      CoveredKept(s, s', u);
    }
  }

  lemma RegisterSafe(s: State, t: nat)
    requires Safe(s) && t < |s.tasks|
    ensures Safe(Register(s, t))
  {
    var s' := Register(s, t);
    forall u | 0 <= u < |s'.tasks| ensures TaskSafe(s', u) {
      assert TaskSafe(s, u);
      CoveredKept(s, s', u);
    }
  }

  lemma ProvideSafe(s: State, a: nat, r: nat, n: nat)
    requires Safe(s) && a < |s.agents| && r < |s.avail| && s.agents[a].awaiting.None?
    ensures Safe(Provide(s, a, r, n))
  {
    var s' := Provide(s, a, r, n);
    forall t | 0 <= t < |s'.tasks| ensures TaskSafe(s', t) {
      assert TaskSafe(s, t);
      CoveredKept(s, s', t);
      if s.tasks[t].resource == r && t in s.wakers[r] {
        assert WillWake(s', a, t);
      }
    }
  }

  lemma TakeWakersSafe(s: State, a: nat)
    requires Safe(s) && a < |s.agents| && s.agents[a].awaiting.Some?
    ensures Safe(TakeWakers(s, a))
  {
    var s' := TakeWakers(s, a);
    var r := s.agents[a].awaiting.value;
    forall t | 0 <= t < |s'.tasks| ensures TaskSafe(s', t) {
      assert TaskSafe(s, t);
      if s.tasks[t].resource == r && t in s.wakers[r] {
        assert WillWake(s', a, t);
      } else {
        CoveredKept(s, s', t);
      }
    }
  }

  lemma WakeOneSafe(s: State, a: nat)
    requires Safe(s) && a < |s.agents| && s.agents[a].toWake != []
    ensures Safe(WakeOne(s, a))
  {
    var s' := WakeOne(s, a);
    var woken := s.agents[a].toWake[0];
    forall t | 0 <= t < |s'.tasks| ensures TaskSafe(s', t) {
      assert TaskSafe(s, t);
      if t != woken {
        assert forall b :: 0 <= b < |s.agents| && WillWake(s, b, t) ==> WillWake(s', b, t) by {
          assert t in s.agents[a].toWake ==> t in s.agents[a].toWake[1..];
        }
        CoveredKept(s, s', t);
      }
    }
  }

  lemma GrowthSafe(s: State, r: nat, n: nat)
    requires Safe(s)
    ensures Safe(AddAgent(s)) && Safe(AddResource(s, n))
    ensures r < |s.avail| ==> Safe(AddTask(s, r))
  {
    forall t | 0 <= t < |s.tasks|
      ensures TaskSafe(AddAgent(s), t) && TaskSafe(AddResource(s, n), t)
    {
      assert TaskSafe(s, t);
      CoveredKept(s, AddAgent(s), t);
      CoveredKept(s, AddResource(s, n), t);
    }
    if r < |s.avail| {
      var s' := AddTask(s, r);
      forall t | 0 <= t < |s'.tasks| ensures TaskSafe(s', t) {
        if t < |s.tasks| {
          assert TaskSafe(s, t);
          CoveredKept(s, s', t);
        }
      }
    }
  }

  // ---- Every run ----

  datatype Step =
    | DoBeginPoll(task: nat)
    | DoFirstTry(task: nat)
    | DoRegister(task: nat)
    | DoRecheck(task: nat)
    | DoCancel(task: nat)
    | DoProvide(agent: nat, resource: nat, units: nat)
    | DoTakeWakers(agent: nat)
    | DoWakeOne(agent: nat)
    | DoConsume(resource: nat, units: nat)
    | DoAddTask(resource: nat)
    | DoAddAgent
    | DoAddResource(units: nat)

  /** The step is possible: a future runs its phases in order, an agent finishes one change before the next. */
  predicate Enabled(s: State, step: Step)
    requires WellFormed(s)
  {
    match step
    case DoBeginPoll(t) => t < |s.tasks| && (s.tasks[t].phase.Idle? || s.tasks[t].phase.Parked?)
    case DoFirstTry(t) => t < |s.tasks| && s.tasks[t].phase.Polling?
    case DoRegister(t) => t < |s.tasks| && s.tasks[t].phase.Checked?
    case DoRecheck(t) => t < |s.tasks| && s.tasks[t].phase.Registered?
    case DoCancel(t) => t < |s.tasks|
    case DoProvide(a, r, n) => a < |s.agents| && r < |s.avail| && s.agents[a].awaiting.None?
    case DoTakeWakers(a) => a < |s.agents| && s.agents[a].awaiting.Some?
    case DoWakeOne(a) => a < |s.agents| && s.agents[a].toWake != []
    case DoConsume(r, n) => r < |s.avail| && n <= s.avail[r]
    case DoAddTask(r) => r < |s.avail|
    case DoAddAgent => true
    case DoAddResource(n) => true
  }

  function Next(s: State, step: Step): (s': State)
    requires WellFormed(s) && Enabled(s, step)
    ensures WellFormed(s')
  {
    match step
    case DoBeginPoll(t) => BeginPoll(s, t)
    case DoFirstTry(t) => FirstTry(s, t)
    case DoRegister(t) => Register(s, t)
    case DoRecheck(t) => Recheck(s, t)
    case DoCancel(t) => Cancel(s, t)
    case DoProvide(a, r, n) => Provide(s, a, r, n)
    case DoTakeWakers(a) => TakeWakers(s, a)
    case DoWakeOne(a) => WakeOne(s, a)
    case DoConsume(r, n) => Consume(s, r, n)
    case DoAddTask(r) => AddTask(s, r)
    case DoAddAgent => AddAgent(s)
    case DoAddResource(n) => AddResource(s, n)
  }

  /** Every atomic step of every party keeps the protocol safe. */
  lemma StepKeepsSafe(s: State, step: Step)
    requires Safe(s) && Enabled(s, step)
    ensures Safe(Next(s, step))
  {
    match step {
      case DoBeginPoll(t) => TaskStepSafe(s, BeginPoll(s, t), t);
      case DoFirstTry(t) => TaskStepSafe(s, FirstTry(s, t), t);
      case DoRegister(t) => RegisterSafe(s, t);
      case DoRecheck(t) => TaskStepSafe(s, Recheck(s, t), t);
      case DoCancel(t) => TaskStepSafe(s, Cancel(s, t), t);
      case DoProvide(a, r, n) => ProvideSafe(s, a, r, n);
      case DoTakeWakers(a) => TakeWakersSafe(s, a);
      case DoWakeOne(a) => WakeOneSafe(s, a);
      case DoConsume(r, n) => ConsumeSafe(s, r, n);
      case DoAddTask(r) => GrowthSafe(s, r, 0);
      case DoAddAgent => GrowthSafe(s, 0, 0);
      case DoAddResource(n) => GrowthSafe(s, 0, n);
    }
  }

  lemma ConsumeSafe(s: State, r: nat, n: nat)
    requires Safe(s) && r < |s.avail| && n <= s.avail[r]
    ensures Safe(Consume(s, r, n))
  {
    var s' := Consume(s, r, n);
    forall t | 0 <= t < |s'.tasks| ensures TaskSafe(s', t) {
      assert TaskSafe(s, t);
      CoveredKept(s, s', t);
    }
  }

  /** An agent with nothing under way. */
  predicate AtRest(a: Agent) {
    a.awaiting.None? && a.toWake == []
  }

  /** Once every agent is at rest, no suspended task is left unnotified before an available unit. */
  lemma QuiescentMeansServed(s: State, t: nat)
    requires Safe(s) && t < |s.tasks| && s.tasks[t].phase.Parked? && Available(s, t) > 0
    requires forall a :: 0 <= a < |s.agents| ==> AtRest(s.agents[a])
    ensures s.tasks[t].notified
  {
    assert TaskSafe(s, t);
    assert forall a :: 0 <= a < |s.agents| ==> AtRest(s.agents[a]) && !WillWake(s, a, t);
  }

  /** An agent that will wake a task does so by its own remaining steps, however few of the others run. */
  function Finish(s: State, a: nat): (s': State)
    requires IsAgent(s, a)
    ensures WellFormed(s') && |s'.agents| == |s.agents| && |s'.tasks| == |s.tasks|
    decreases if s.agents[a].awaiting.Some? then 1 else 0, |s.agents[a].toWake|
  {
    if s.agents[a].awaiting.Some? then Finish(TakeWakers(s, a), a)
    else if s.agents[a].toWake != [] then Finish(WakeOne(s, a), a)
    else s
  }

  lemma {:induction false} FinishNotifies(s: State, a: nat, t: nat)
    requires IsAgent(s, a) && IsTask(s, t) && (WillWake(s, a, t) || s.tasks[t].notified)
    ensures Finish(s, a).tasks[t].notified && AtRest(Finish(s, a).agents[a])
    decreases if s.agents[a].awaiting.Some? then 1 else 0, |s.agents[a].toWake|
  {
    if s.agents[a].awaiting.Some? {
      FinishNotifies(TakeWakers(s, a), a, t);
    } else if s.agents[a].toWake != [] {
      assert t in s.agents[a].toWake ==> t == s.agents[a].toWake[0] || t in s.agents[a].toWake[1..];
      FinishNotifies(WakeOne(s, a), a, t);
    }
  }
}
