/**
 The bounded transmit queue: sending tasks wait for a free slot, the pump pops
 and wakes them. The resource of the waker protocol is the number of free slots.
 */
module TxQueue {
  import opened Types
  import W = WakerProtocol

  /** The queue's shared half: every method is one critical section. */
  class Queue {
    const capacity: nat
    var queue: seq<CanFrame>
    var wakers: seq<nat>

    ghost predicate Valid()
      reads this
    {
      capacity > 0 && |queue| <= capacity
    }

    constructor (capacity: nat)
      requires capacity > 0
      ensures Valid() && this.capacity == capacity && queue == [] && wakers == []
    {
      this.capacity := capacity;
      queue, wakers := [], [];
    }

    method TrySend(f: CanFrame) returns (sent: bool)
      requires Valid()
      modifies this`queue
      ensures Valid() && (sent <==> |old(queue)| < capacity)
      ensures queue == if sent then old(queue) + [f] else old(queue)
    {
      if |queue| >= capacity {
        return false;
      }
      queue := queue + [f];
      sent := true;
    }

    /** Takes the next frame; the caller then wakes `wake`. */
    method TryPop() returns (f: Option<CanFrame>, wake: seq<nat>)
      requires Valid()
      modifies this
      ensures Valid() && (f.None? <==> old(queue) == [])
      ensures f.Some? ==> [f.value] + queue == old(queue) && wake == old(wakers) && wakers == []
      ensures f.None? ==> queue == old(queue) && wake == [] && wakers == old(wakers)
    {
      if queue == [] {
        return None, [];
      }
      f := Some(queue[0]);
      queue := queue[1..];
      wake := wakers;
      wakers := [];
    }
  }

  // ---- The queue as interleaved steps ----

  /** `frames[t]` is what task `t` sends; `sent` and `popped` are history. */
  datatype State = State(
    capacity: nat, queue: seq<CanFrame>, frames: seq<CanFrame>, sent: seq<CanFrame>, popped: seq<CanFrame>, w: W.State)

  function New(capacity: nat): (q: State)
    ensures Ok(q)
  {
    State(capacity, [], [], [], [], W.State([capacity], [[]], [], []))
  }

  /** Nothing sent is lost or reordered, and the protocol counts the free slots. */
  predicate Ok(q: State) {
    W.Safe(q.w) && |q.frames| == |q.w.tasks| && |q.w.avail| == 1
    && |q.queue| <= q.capacity && q.w.avail[0] == q.capacity - |q.queue|
    && q.sent == q.popped + q.queue
  }

  datatype Step =
    | BeginPoll(task: nat)
    | FirstTry(task: nat)
    | Register(task: nat)
    | Recheck(task: nat)
    | Cancel(task: nat)
    | TrySend(frame: CanFrame)
    | Pop(pump: nat)
    | TakeWakers(pump: nat)
    | WakeOne(pump: nat)
    | NewTask(frame: CanFrame)
    | NewPump

  predicate Enabled(q: State, step: Step)
    requires Ok(q)
  {
    match step
    case BeginPoll(t) => W.Enabled(q.w, W.DoBeginPoll(t))
    case FirstTry(t) => W.Enabled(q.w, W.DoFirstTry(t))
    case Register(t) => W.Enabled(q.w, W.DoRegister(t))
    case Recheck(t) => W.Enabled(q.w, W.DoRecheck(t))
    case Cancel(t) => W.Enabled(q.w, W.DoCancel(t))
    case TrySend(_) => true
    case Pop(p) => p < |q.w.agents| && W.AtRest(q.w.agents[p])
    case TakeWakers(p) => p < |q.w.agents| && q.w.agents[p].awaiting.Some?
    case WakeOne(p) => p < |q.w.agents| && q.w.agents[p].awaiting.None? && q.w.agents[p].toWake != []
    case NewTask(_) => true
    case NewPump => true
  }

  function Enqueued(q: State, f: CanFrame, w': W.State): State {
    q.(queue := q.queue + [f], sent := q.sent + [f], w := w')
  }

  /** A task's attempt to enqueue, first or second. */
  function Attempted(q: State, t: nat, w': W.State): State
    requires t < |q.frames|
  {
    if |q.queue| < q.capacity then Enqueued(q, q.frames[t], w') else q.(w := w')
  }

  function Next(q: State, step: Step): State
    requires Ok(q) && Enabled(q, step)
  {
    match step
    case BeginPoll(t) => q.(w := W.BeginPoll(q.w, t))
    case FirstTry(t) => Attempted(q, t, W.FirstTry(q.w, t))
    case Register(t) => q.(w := W.Register(q.w, t))
    case Recheck(t) => Attempted(q, t, W.Recheck(q.w, t))
    case Cancel(t) => q.(w := W.Cancel(q.w, t))
    case TrySend(f) =>
      if |q.queue| < q.capacity then Enqueued(q, f, W.Consume(q.w, 0, q.w.avail[0] - 1)) else q
    case Pop(p) =>
      if q.queue == [] then q
      else q.(queue := q.queue[1..], popped := q.popped + [q.queue[0]], w := W.Provide(q.w, p, 0, q.w.avail[0] + 1))
    case TakeWakers(p) => q.(w := W.TakeWakers(q.w, p))
    case WakeOne(p) => q.(w := W.WakeOne(q.w, p))
    case NewTask(f) => q.(frames := q.frames + [f], w := W.AddTask(q.w, 0))
    case NewPump => q.(w := W.AddAgent(q.w))
  }

  /** The frame a step tries to enqueue, if it tries. */
  function Attempts(q: State, step: Step): Option<CanFrame>
    requires Ok(q) && Enabled(q, step)
  {
    match step
    case TrySend(f) => Some(f)
    case FirstTry(t) => Some(q.frames[t])
    case Recheck(t) => Some(q.frames[t])
    case _ => None
  }

  /** An attempt enqueues its frame exactly when a slot is free; only a pop of a nonempty queue removes one, the oldest. */
  lemma TrafficIsExact(q: State, step: Step)
    requires Ok(q) && Enabled(q, step)
    ensures Next(q, step).sent
         == q.sent + if Attempts(q, step).Some? && |q.queue| < q.capacity then [Attempts(q, step).value] else []
    ensures Next(q, step).popped == q.popped + if step.Pop? && q.queue != [] then q.queue[..1] else []
  {
    hide W.Provide, W.TakeWakers, W.TaskSafe;
  }

  /** Steps of a sending task. */
  lemma TaskStepKeepsOk(q: State, step: Step, t: nat)
    requires Ok(q) && Enabled(q, step)
    requires step in {BeginPoll(t), FirstTry(t), Register(t), Recheck(t), Cancel(t)}
    ensures Ok(Next(q, step))
  {
    hide W.TaskSafe;
    match step {
      case BeginPoll(_) => W.StepKeepsSafe(q.w, W.DoBeginPoll(t));
      case FirstTry(_) => W.StepKeepsSafe(q.w, W.DoFirstTry(t));
      case Register(_) => W.StepKeepsSafe(q.w, W.DoRegister(t));
      case Recheck(_) => W.StepKeepsSafe(q.w, W.DoRecheck(t));
      case Cancel(_) => W.StepKeepsSafe(q.w, W.DoCancel(t));
    }
  }

  /** Every atomic step of every sender and pump keeps order, loses nothing and loses no wakeup. */
  lemma StepKeepsOk(q: State, step: Step)
    requires Ok(q) && Enabled(q, step)
    ensures Ok(Next(q, step))
  {
    hide W.TaskSafe;
    match step {
      case BeginPoll(t) => TaskStepKeepsOk(q, step, t);
      case FirstTry(t) => TaskStepKeepsOk(q, step, t);
      case Register(t) => TaskStepKeepsOk(q, step, t);
      case Recheck(t) => TaskStepKeepsOk(q, step, t);
      case Cancel(t) => TaskStepKeepsOk(q, step, t);
      case TrySend(f) =>
        if |q.queue| < q.capacity {
          W.ConsumeSafe(q.w, 0, q.w.avail[0] - 1);
        }
      case Pop(p) =>
        if q.queue != [] {
          W.ProvideSafe(q.w, p, 0, q.w.avail[0] + 1);
        }
      case TakeWakers(p) => W.TakeWakersSafe(q.w, p);
      case WakeOne(p) => W.WakeOneSafe(q.w, p);
      case NewTask(_) => W.GrowthSafe(q.w, 0, 0);
      case NewPump => W.GrowthSafe(q.w, 0, 0);
    }
  }

  predicate IsRun(q: State, steps: seq<Step>)
    requires Ok(q)
    decreases |steps|
  {
    steps == [] || (Enabled(q, steps[0]) && (StepKeepsOk(q, steps[0]); IsRun(Next(q, steps[0]), steps[1..])))
  }

  function Run(q: State, steps: seq<Step>): (q': State)
    requires Ok(q) && IsRun(q, steps)
    ensures Ok(q')
    decreases |steps|
  {
    if steps == [] then q else (StepKeepsOk(q, steps[0]); Run(Next(q, steps[0]), steps[1..]))
  }

  /**
   In every interleaving, a suspended unnotified sender facing a free slot is
   about to be woken by a pump in the middle of a pop, whose own remaining steps
   notify it; and the popped frames followed by the queue are exactly the frames
   sent, in order.
   */
  lemma NoLostWakeups(capacity: nat, steps: seq<Step>, t: nat)
    requires IsRun(New(capacity), steps)
    ensures var q := Run(New(capacity), steps); q.sent == q.popped + q.queue
    ensures var q := Run(New(capacity), steps);
            t < |q.w.tasks| && q.w.tasks[t].phase.Parked? && !q.w.tasks[t].notified && |q.queue| < q.capacity ==>
              exists p :: 0 <= p < |q.w.agents| && !W.AtRest(q.w.agents[p]) && W.WillWake(q.w, p, t)
                          && W.Finish(q.w, p).tasks[t].notified
  {
    var q := Run(New(capacity), steps);
    if t < |q.w.tasks| && q.w.tasks[t].phase.Parked? && !q.w.tasks[t].notified && |q.queue| < q.capacity {
      assert W.TaskSafe(q.w, t);
      var p :| 0 <= p < |q.w.agents| && W.WillWake(q.w, p, t);
      assert !W.AtRest(q.w.agents[p]);
      W.FinishNotifies(q.w, p, t);
    }
  }
}
