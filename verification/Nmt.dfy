/** The NMT state machine of a node and its byte encodings. */
module Nmt {
  import opened Types

  datatype NmtState = Initializing | PreOperational | Operational | Stopped

  datatype NmtCommand = StartRemoteNode | StopRemoteNode | EnterPreOperational | ResetNode | ResetCommunication

  datatype NmtTransition = NoTransition | StateChanged | ResetApplication | ResetComm

  function HeartbeatByte(s: NmtState): bv8 {
    match s
    case Initializing => 0x00
    case Stopped => 0x04
    case Operational => 0x05
    case PreOperational => 0x7F
  }

  function FromHeartbeatByte(b: bv8): (r: Option<NmtState>)
    ensures forall s :: r == Some(s) <==> HeartbeatByte(s) == b
  {
    if b == 0x00 then Some(Initializing)
    else if b == 0x04 then Some(Stopped)
    else if b == 0x05 then Some(Operational)
    else if b == 0x7F then Some(PreOperational)
    else None
  }

  function CommandByte(c: NmtCommand): bv8 {
    match c
    case StartRemoteNode => 0x01
    case StopRemoteNode => 0x02
    case EnterPreOperational => 0x80
    case ResetNode => 0x81
    case ResetCommunication => 0x82
  }

  function CommandFromByte(b: bv8): (r: Option<NmtCommand>)
    ensures forall c :: r == Some(c) <==> CommandByte(c) == b
  {
    if b == 0x01 then Some(StartRemoteNode)
    else if b == 0x02 then Some(StopRemoteNode)
    else if b == 0x80 then Some(EnterPreOperational)
    else if b == 0x81 then Some(ResetNode)
    else if b == 0x82 then Some(ResetCommunication)
    else None
  }

  /** New state and transition for a command addressed to `target`. */
  function Commanded(s: NmtState, c: NmtCommand, target: nat, ours: nat): (r: (NmtState, NmtTransition))
    ensures s.Initializing? ==> r.0.Initializing?
    ensures r.0 != s ==> !r.1.NoTransition?
    ensures r.1.ResetApplication? || r.1.ResetComm? ==> r.0.Initializing?
    ensures r.1.StateChanged? ==> r.0 != s && !r.0.Initializing? && !s.Initializing?
    ensures r.0.Initializing? && !s.Initializing? ==> r.1.ResetApplication? || r.1.ResetComm?
  {
    if target != 0 && target != ours then (s, NoTransition)
    else if s.Initializing? then (s, if c.ResetNode? then ResetApplication else NoTransition)
    else
      var next := match c
                 case StartRemoteNode => Operational
                 case StopRemoteNode => Stopped
                 case EnterPreOperational => PreOperational
                 case ResetNode => Initializing
                 case ResetCommunication => Initializing;
      if next == s then (s, NoTransition)
      else (next, if c.ResetNode? then ResetApplication else if c.ResetCommunication? then ResetComm else StateChanged)
  }

  /** The state a command asks for. */
  function Goal(c: NmtCommand): (s: NmtState)
    ensures c.StartRemoteNode? <==> s.Operational?
    ensures c.StopRemoteNode? <==> s.Stopped?
    ensures c.EnterPreOperational? <==> s.PreOperational?
  {
    match c
    case StartRemoteNode => Operational
    case StopRemoteNode => Stopped
    case EnterPreOperational => PreOperational
    case _ => Initializing
  }

  /**
   Which state each command reaches: a node that has booted obeys its own id and
   the broadcast id alike and ends in the state asked for, whatever state it was
   in; it obeys no other id; and repeating a command does nothing.
   */
  lemma CommandReaches(s: NmtState, c: NmtCommand, target: nat, ours: nat)
    ensures target != 0 && target != ours ==> Commanded(s, c, target, ours) == (s, NoTransition)
    ensures Commanded(s, c, 0, ours) == Commanded(s, c, ours, ours)
    ensures !s.Initializing? ==> Commanded(s, c, 0, ours).0 == Goal(c)
    ensures !s.Initializing? && s != Goal(c) ==>
              Commanded(s, c, 0, ours).1
              == if c.ResetNode? then ResetApplication else if c.ResetCommunication? then ResetComm else StateChanged
    ensures Commanded(Goal(c), c, target, ours).0 == Goal(c)
    ensures !c.ResetNode? ==> Commanded(Goal(c), c, target, ours).1 == NoTransition
    ensures Commanded(Initializing, c, 0, ours) == (Initializing, if c.ResetNode? then ResetApplication else NoTransition)
  {
  }

  class NmtHandler {
    var state: NmtState

    constructor ()
      ensures state == Initializing
    {
      state := Initializing;
    }

    method BootComplete()
      modifies this
      ensures state == PreOperational
    {
      state := PreOperational;
    }

    method ProcessCommand(c: NmtCommand, target: nat, ours: nat) returns (t: NmtTransition)
      modifies this
      ensures (state, t) == Commanded(old(state), c, target, ours)
    {
      if target != 0 && target != ours {
        return NoTransition;
      }
      if state.Initializing? {
        return if c.ResetNode? then ResetApplication else NoTransition;
      }
      var next := Initializing;
      match c {
        case StartRemoteNode => next := Operational;
        case StopRemoteNode => next := Stopped;
        case EnterPreOperational => next := PreOperational;
        case ResetNode =>
        case ResetCommunication =>
      }
      if state == next {
        return NoTransition;
      }
      state := next;
      t := if c.ResetNode? then ResetApplication else if c.ResetCommunication? then ResetComm else StateChanged;
    }
  }
}
