/** Close of the frps UDP proxy returns: every step of the proxy's own brings it nearer. */
module UdpProxyClose {
  import opened Prelude
  import opened UdpProxy

  /** What others do: users send packets, and the client sends messages on the work connection. */
  predicate Environment(s: State, act: Action) {
    act.Enqueue? || (act.ReadStep? && act.pick == Yes && s.cycle.Some? && s.cycle.value.reader.Reading?)
  }

  /** A step of the proxy's own that changes something. */
  predicate Own(s: State, act: Action, s': State) {
    !Environment(s, act) && s' != s
  }

  // ---------------------------------------------------------------------------------------
  // The measure

  /** How many moves the dispatcher has before it, once doneCh is closed. */
  function Rank(d: Dispatcher): nat {
    match d
    case Stopped(_) => 0
    case Top(_) => 1
    case Sleep => 2
    case Retry(_) => 2
    case Join(_) => 2
    case Cancel(_) => 3
    case Watch => 4
    case Spawn(_, _) => 5
    case CloseOld(_, _, _) => 6
    case Publish(_, _) => 7
    case Request(_) => 8
  }

  function ReaderRank(r: Reader): nat {
    match r
    case ReaderDone => 0
    case Quit => 1
    case Notify => 2
    case CloseConn => 3
    case Reading => 4
    case Delivering => 5
  }

  function SenderRank(x: Sender): nat {
    match x
    case SenderDone(_) => 0
    case Return(_) => 1
    case Check(_) => 2
    case Ask => 3
    case Write(_) => 4
  }

  function ShutdownRank(x: Shutdown): nat {
    match x
    case Open => 2
    case Closing(_) => 1
    case Shut => 0
  }

  function CycleRank(c: Option<Cycle>): nat {
    if c.Some? then ReaderRank(c.value.reader) + SenderRank(c.value.sender) else 0
  }

  function Measure(s: State): nat {
    20 * Rank(s.d) + CycleRank(s.cycle) + ShutdownRank(s.shutdown) + Bit(s.forwarding) + Bit(!s.closed)
  }

  lemma DispatchLowers(s: State, pick: Pick)
    requires Orderly(s) && Done(s) && CanDispatch(s, pick)
    ensures Measure(Dispatch(s, pick)) < Measure(s)
  {
  }

  lemma ReadLowers(s: State, pick: Pick)
    requires Done(s) && CanRead(s, pick)
    ensures if s.cycle.value.reader.Reading? && pick == Yes then Measure(Read(s, pick)) == Measure(s) + 1
            else Read(s, pick) == s || Measure(Read(s, pick)) < Measure(s)
  {
  }

  lemma SendLowers(s: State, pick: Pick)
    requires Done(s) && CanSend(s, pick)
    ensures Measure(Send(s, pick)) < Measure(s)
  {
  }

  /** Once shutdown has begun every own step lowers the measure, and what others do raises it by at most one. */
  lemma StepLowers(s: State, act: Action)
    requires Inv(s) && Done(s) && Enabled(s, act)
    ensures Done(Apply(s, act))
    ensures if Own(s, act, Apply(s, act)) then Measure(Apply(s, act)) < Measure(s)
            else Measure(Apply(s, act)) <= Measure(s) + Bit(Environment(s, act))
  {
    hide Accounted;
    match act
    case DispatchStep(pick) => DispatchLowers(s, pick);
    case ReadStep(pick) => ReadLowers(s, pick);
    case SendStep(pick) => SendLowers(s, pick);
    case _ =>
  }

  // ---------------------------------------------------------------------------------------
  // Theorems

  function OwnSteps(states: seq<State>, actions: seq<Action>, i: nat, j: nat): nat
    requires |states| == |actions| + 1 && i <= j <= |actions|
    decreases j - i
  {
    if i == j then 0 else OwnSteps(states, actions, i, j - 1) + Bit(Own(states[j - 1], actions[j - 1], states[j]))
  }

  function OthersSteps(states: seq<State>, actions: seq<Action>, i: nat, j: nat): nat
    requires |states| == |actions| + 1 && i <= j <= |actions|
    decreases j - i
  {
    if i == j then 0 else OthersSteps(states, actions, i, j - 1) + Bit(Environment(states[j - 1], actions[j - 1]))
  }

  /**
   From the moment shutdown begins, the proxy takes no more steps of its own than the measure of that
   moment, plus one for each packet or message it still receives.
   */
  lemma {:induction false} ShutdownIsBounded(states: seq<State>, actions: seq<Action>, i: nat, j: nat)
    requires IsRun(states, actions) && |states| == |actions| + 1 && i <= j <= |actions| && Done(states[i])
    ensures Done(states[j])
    ensures OwnSteps(states, actions, i, j) + Measure(states[j]) <= Measure(states[i]) + OthersSteps(states, actions, i, j)
    decreases j - i
  {
    hide IsRun, Done, Own, Measure, Environment;
    if i < j {
      ShutdownIsBounded(states, actions, i, j - 1);
      OneStepLowers(states, actions, j - 1);
    }
  }

  lemma OneStepLowers(states: seq<State>, actions: seq<Action>, k: nat)
    requires IsRun(states, actions) && k < |actions| && Done(states[k])
    ensures Done(states[k + 1])
    ensures if Own(states[k], actions[k], states[k + 1]) then Measure(states[k + 1]) < Measure(states[k])
            else Measure(states[k + 1]) <= Measure(states[k]) + Bit(Environment(states[k], actions[k]))
  {
    RunKeepsInv(states, actions, k);
    hide Inv, Apply, Own, Measure, Environment;
    StepLowers(states[k], actions[k]);
  }

  /** And until Close has returned there is such a step to take. */
  lemma CloseProgresses(states: seq<State>, actions: seq<Action>, i: nat)
    requires IsRun(states, actions) && i < |states| && Done(states[i]) && !states[i].closed
    ensures exists act: Action :: Enabled(states[i], act) && Own(states[i], act, Apply(states[i], act))
  {
    RunKeepsInv(states, actions, i);
    var s := states[i];
    if s.shutdown.Closing? {
      assert Own(s, CloseConns, Apply(s, CloseConns));
    } else if s.forwarding {
      assert Own(s, StopForwarding, Apply(s, StopForwarding));
    } else if s.cycle.Some? && !s.cycle.value.reader.ReaderDone? {
      assert Own(s, ReadStep(No), Apply(s, ReadStep(No)));
    } else if s.cycle.Some? && !s.cycle.value.sender.SenderDone? {
      SendLowers(s, No);
      assert Own(s, SendStep(No), Apply(s, SendStep(No)));
    } else if !s.d.Stopped? {
      DispatchLowers(s, Over);
      assert Own(s, DispatchStep(Over), Apply(s, DispatchStep(Over)));
    } else {
      assert Own(s, CloseReturns, Apply(s, CloseReturns));
    }
  }
}
