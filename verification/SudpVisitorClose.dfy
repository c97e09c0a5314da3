/** Close of the SUDP visitor returns: every step of the visitor's own brings it nearer. */
module SudpVisitorClose {
  import opened Prelude
  import opened SudpVisitor

  /** A step of the data plane, or of the call `t`, that changes something. */
  predicate Own(s: State, act: Action, s': State, t: nat) {
    s' != s &&
    match act
    case DispatchStep(_) => true
    case SendStep(_) => true
    case ReaderEnds => true
    case StopForwarding => true
    case CallStep(u, _) => u == t
    case _ => false
  }

  // ---------------------------------------------------------------------------------------
  // The measure

  function CallRank(c: Caller): nat {
    match c
    case CloseEnter => 4
    case CloseBase(_) => 3
    case CloseSock(_) => 2
    case CloseWait => 1
    case Returned => 0
    case RunEnter => 6
    case RunOpen => 5
    case RunCommit(_) => 4
    case RunAbort(_) => 3
    case RunFail => 3
    case RunFailBase => 2
  }

  function SenderRank(x: Sender): nat {
    match x
    case SenderDone => 0
    case Select => 1
    case First(_) => 2
    case Holding(_) => 2
  }

  /** How many moves the dispatcher and its worker have before them, once the visitor is closed. */
  function Rank(d: Dispatcher): nat {
    match d
    case NotSpawned => 0
    case Stopped => 0
    case Recycle => 1
    case Serve(sender, readerDone) => 2 + SenderRank(sender) + Bit(!readerDone)
    case Boundary(_) => 6
    case Dial(_) => 7
    case Retry(_) => 8
    case Idle => 8
  }

  function Measure(s: State, t: nat): nat
    requires t in s.callers
  {
    2 * |s.sendCh| + Rank(s.d) + Bit(s.forwarding) + CallRank(s.callers[t])
  }

  lemma DispatchLowers(s: State, pick: Pick, t: nat)
    requires LifecycleOk(s) && Shut(s) && CanDispatch(s, pick) && t in s.callers
    ensures Shut(Dispatch(s, pick)) && Dispatch(s, pick).callers == s.callers && Measure(Dispatch(s, pick), t) < Measure(s, t)
  {
  }

  lemma SendLowers(s: State, pick: Pick, t: nat)
    requires Shut(s) && CanSend(s, pick) && t in s.callers
    ensures Shut(Send(s, pick)) && Send(s, pick).callers == s.callers && Measure(Send(s, pick), t) < Measure(s, t)
  {
  }

  lemma CallLowers(s: State, u: nat, ok: bool, t: nat)
    requires LifecycleOk(s) && Shut(s) && CanCall(s, u) && t in s.callers
    ensures var s' := StepCaller(s, u, ok);
            Shut(s') && t in s'.callers && if u == t then Measure(s', t) < Measure(s, t) else Measure(s', t) == Measure(s, t)
  {
  }

  /** Once the visitor is closed every own step lowers the measure, and only an enqueued packet raises it, by two. */
  lemma StepLowers(s: State, act: Action, t: nat)
    requires LifecycleOk(s) && t < s.nextCaller && Shut(s) && Enabled(s, act) && t in s.callers
    ensures var s' := Apply(s, act);
            && Shut(s') && t in s'.callers
            && if Own(s, act, s', t) then Measure(s', t) < Measure(s, t) else Measure(s', t) <= Measure(s, t) + 2 * Bit(act.Enqueue?)
  {
    hide Dispatch, Send, StepCaller;
    match act
    case DispatchStep(pick) => DispatchLowers(s, pick, t);
    case SendStep(pick) => SendLowers(s, pick, t);
    case CallStep(u, ok) => CallLowers(s, u, ok, t);
    case _ =>
  }

  // ---------------------------------------------------------------------------------------
  // Theorems

  function OwnSteps(states: seq<State>, actions: seq<Action>, i: nat, j: nat, t: nat): nat
    requires |states| == |actions| + 1 && i <= j <= |actions|
    decreases j - i
  {
    if i == j then 0 else OwnSteps(states, actions, i, j - 1, t) + Bit(Own(states[j - 1], actions[j - 1], states[j], t))
  }

  function Enqueued(actions: seq<Action>, i: nat, j: nat): nat
    requires i <= j <= |actions|
    decreases j - i
  {
    if i == j then 0 else Enqueued(actions, i, j - 1) + Bit(actions[j - 1].Enqueue?)
  }

  /**
   Once the visitor is closed its data plane and any one call take together no more steps than the
   measure of that moment, plus two for each packet that still comes in.
   */
  lemma {:induction false} CloseIsBounded(states: seq<State>, actions: seq<Action>, i: nat, j: nat, t: nat)
    requires IsRun(states, actions) && |states| == |actions| + 1 && i <= j <= |actions| && Shut(states[i]) && t in states[i].callers
    ensures Shut(states[j]) && t in states[j].callers
    ensures OwnSteps(states, actions, i, j, t) + Measure(states[j], t) <= Measure(states[i], t) + 2 * Enqueued(actions, i, j)
    decreases j - i
  {
    hide IsRun, Own, Measure;
    if i < j {
      CloseIsBounded(states, actions, i, j - 1, t);
      OneStepLowers(states, actions, j - 1, t);
    }
  }

  lemma OneStepLowers(states: seq<State>, actions: seq<Action>, k: nat, t: nat)
    requires IsRun(states, actions) && k < |actions| && Shut(states[k]) && t in states[k].callers
    ensures Shut(states[k + 1]) && t in states[k + 1].callers
    ensures if Own(states[k], actions[k], states[k + 1], t) then Measure(states[k + 1], t) < Measure(states[k], t)
            else Measure(states[k + 1], t) <= Measure(states[k], t) + 2 * Bit(actions[k].Enqueue?)
  {
    RunKeepsInv(states, actions, k);
    assert t < states[k].nextCaller;
    hide Apply, Own, Measure, Enabled, CallersOk, LifecycleOk;
    StepLowers(states[k], actions[k], t);
  }

  /** And until the call has returned there is such a step to take. */
  lemma CloseProgresses(states: seq<State>, actions: seq<Action>, i: nat, t: nat)
    requires IsRun(states, actions) && i < |states| && Shut(states[i]) && t in states[i].callers && !states[i].callers[t].Returned?
    ensures exists act: Action :: Enabled(states[i], act) && Own(states[i], act, Apply(states[i], act), t)
  {
    RunKeepsInv(states, actions, i);
    var s := states[i];
    hide CallersOk, Accounted;
    var act :=
      if !s.callers[t].CloseWait? || s.workers == 0 then CallStep(t, true)
      else if s.forwarding then StopForwarding
      else if s.d.Serve? && !s.d.readerDone then ReaderEnds
      else if s.d.Serve? && !s.d.sender.SenderDone? then SendStep(No)
      else DispatchStep(Over);
    assert Enabled(s, act);
    Moves(s, act, t);
    assert Own(s, act, Apply(s, act), t);
  }

  lemma Moves(s: State, act: Action, t: nat)
    requires LifecycleOk(s) && Shut(s) && Enabled(s, act) && t in s.callers
    requires act.StopForwarding? || act.ReaderEnds? || act.SendStep? || act.DispatchStep? || (act.CallStep? && act.t == t)
    ensures Apply(s, act) != s
  {
    match act
    case DispatchStep(pick) => DispatchLowers(s, pick, t);
    case SendStep(pick) => SendLowers(s, pick, t);
    case CallStep(u, ok) => CallLowers(s, u, ok, t);
    case _ =>
  }
}
