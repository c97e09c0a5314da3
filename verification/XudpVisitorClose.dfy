/** Close of the XUDP visitor returns: every step of the visitor's own brings it nearer. */
module XudpVisitorClose {
  import opened Prelude
  import opened XudpVisitor
  import opened XudpVisitorTheorems

  /** What others do: users send packets, a peer's packet arrives, the recovery timer fires. */
  predicate Environment(s: State, act: Action) {
    || act.Enqueue?
    || (act.ReadStep? && act.got.Some? && act.a in s.acts && s.acts[act.a].reader.Receive?)
    || (act.DispatchStep? && act.pick == No && s.d.RelayWait?)
  }

  /** A step of the visitor's own that changes something. */
  predicate Own(s: State, act: Action, s': State) {
    !Environment(s, act) && s' != s
  }

  // ---------------------------------------------------------------------------------------
  // The measure

  /** How many moves the dispatcher has before it, once the visitor is closed and the queue is empty. */
  function Rank(d: Dispatcher): nat {
    match d
    case Stopped => 0
    case Idle => 1
    case Top(_, _) => 2
    case Between(_, _) => 2
    case Backoff(_, _) => 2
    case RunP2P(_, _, _) => 3
    case BeginP2P(_, _, _) => 4
    case SwitchBegin(_, _, _) => 4
    case DialP2P(_, _) => 5
    case Switch(_, _, _) => 5
    case JoinRelay(_, _, _) => 6
    case RelayWait(_, _) => 7
    case Probe(_, _) => 8
    case DialRelay(_, _) => 9
  }

  function RunnerRank(r: Runner): nat {
    match r
    case Returned(_) => 0
    case Join => 1
    case Watch => 2
    case FirstSent => 3
    case FirstSend => 4
    case FirstGuard => 5
    case Register => 6
  }

  function ReaderRank(r: Reader): nat {
    match r
    case NotReading => 0
    case ReadDone => 0
    case Receive => 1
    case ReadGuard => 2
    case Deliver(_) => 3
    case Received(_) => 4
  }

  function SenderRank(x: Sender): nat {
    match x
    case NotSending => 0
    case SendDone => 0
    case Taken(_) => 2
    case Select => 3
    case Posted => 4
    case Sending(_) => 5
    case Guarded(_) => 6
  }

  function TransportRank(x: Act): nat {
    20 * RunnerRank(x.runner) + ReaderRank(x.reader) + SenderRank(x.sender) + Bit(!x.ctxDone)
  }

  /** The rank of the transport the dispatcher waits on. */
  function ActRank(s: State): nat {
    var a := ActOf(s.d);
    if a.Some? && a.value in s.acts then TransportRank(s.acts[a.value]) else 0
  }

  function ClosingRank(c: Closing): nat {
    match c
    case NotClosing => 0
    case RunClosers(left) => |left| + 2
    case AwaitWorkers => 1
    case CloseReturned => 0
  }

  function Measure(s: State): nat {
    2000 * |s.sendCh| + 200 * Rank(s.d) + ActRank(s) + ClosingRank(s.closing) + Bit(s.forwarding)
  }

  // ---------------------------------------------------------------------------------------
  // Every step after Close has begun

  /** A transport moves on: what counts is its own rank and the queue. */
  lemma ActLowers(s: State, s': State, a: ActID)
    requires Inv(s) && a in s.acts && a in s'.acts && s'.d == s.d && s'.closing == s.closing && s'.forwarding == s.forwarding
    requires |s'.sendCh| <= |s.sendCh|
    ensures Measure(s') + TransportRank(s.acts[a]) <= Measure(s) + TransportRank(s'.acts[a])
  {
    assert ActOf(s.d) == Some(a);
  }

  /** Only the transport itself and the queue change. */
  predicate SameElse(s: State, s': State, a: ActID) {
    && a in s.acts && a in s'.acts && s'.d == s.d && s'.closing == s.closing && s'.forwarding == s.forwarding && s'.closed == s.closed
    && |s'.sendCh| <= |s.sendCh|
  }

  lemma RunRank(s: State, a: ActID, outcome: Outcome)
    requires s.closed && CanRun(s, a)
    ensures var s' := Run(s, a, outcome); SameElse(s, s', a) && TransportRank(s'.acts[a]) < TransportRank(s.acts[a])
  {
    hide Return, Start;
    var x := s.acts[a];
    match x.runner
    case Register => ReturnRank(s, a, x.first);
    case FirstGuard =>
      StartRank(s, a, s.fates);
      ReturnRank(s, a, x.first);
    case FirstSend =>
      StartRank(s, a, s.fates + [Oversized(x.first.value)]);
      ReturnRank(s, a, x.first);
    case FirstSent =>
      StartRank(s, a, s.fates);
      ReturnRank(s, a, None);
    case Join => ReturnRank(s, a, x.handoff);
    case _ =>
  }

  lemma ReturnRank(s: State, a: ActID, p: Option<Packet>)
    requires a in s.acts && !s.acts[a].runner.Returned?
    ensures var s' := Return(s, a, p); SameElse(s, s', a) && TransportRank(s'.acts[a]) < TransportRank(s.acts[a])
  {
  }

  lemma StartRank(s: State, a: ActID, fates: seq<Fate>)
    requires a in s.acts && RunnerRank(s.acts[a].runner) > 2
    ensures var s' := Start(s.(fates := fates), a); SameElse(s, s', a) && TransportRank(s'.acts[a]) < TransportRank(s.acts[a])
  {
  }

  lemma ReadRank(s: State, a: ActID, got: Option<Packet>, room: bool)
    requires s.closed && CanRead(s, a)
    ensures var s' := Read(s, a, got, room);
            && SameElse(s, s', a)
            && if s.acts[a].reader.Receive? && got.Some? then TransportRank(s'.acts[a]) <= TransportRank(s.acts[a]) + 3
               else TransportRank(s'.acts[a]) < TransportRank(s.acts[a])
  {
  }

  lemma SendRank(s: State, a: ActID, take: bool, outcome: Outcome)
    requires s.closed && CanSend(s, a, take)
    ensures var s' := Send(s, a, take, outcome); SameElse(s, s', a) && TransportRank(s'.acts[a]) < TransportRank(s.acts[a])
  {
  }

  lemma RunLowers(s: State, a: ActID, outcome: Outcome)
    requires Inv(s) && s.closed && CanRun(s, a)
    ensures Measure(Run(s, a, outcome)) < Measure(s)
  {
    hide Run, TransportRank, Measure, Inv;
    RunRank(s, a, outcome);
    ActLowers(s, Run(s, a, outcome), a);
  }

  lemma ReadLowers(s: State, a: ActID, got: Option<Packet>, room: bool)
    requires Inv(s) && s.closed && CanRead(s, a)
    ensures if s.acts[a].reader.Receive? && got.Some? then Measure(Read(s, a, got, room)) <= Measure(s) + 3
            else Measure(Read(s, a, got, room)) < Measure(s)
  {
    hide Read, TransportRank, Measure, Inv;
    ReadRank(s, a, got, room);
    ActLowers(s, Read(s, a, got, room), a);
  }

  lemma SendLowers(s: State, a: ActID, take: bool, outcome: Outcome)
    requires Inv(s) && s.closed && CanSend(s, a, take)
    ensures Measure(Send(s, a, take, outcome)) < Measure(s)
  {
    hide Send, TransportRank, Measure, Inv;
    SendRank(s, a, take, outcome);
    ActLowers(s, Send(s, a, take, outcome), a);
  }

  lemma DispatchLowers(s: State, pick: Pick)
    requires Inv(s) && s.closed && CanDispatch(s, pick)
    ensures if s.d.RelayWait? && pick == No then Measure(Dispatch(s, pick)) <= Measure(s) + 200
            else Measure(Dispatch(s, pick)) < Measure(s)
  {
  }

  lemma CloseActLowers(s: State, a: ActID)
    requires Inv(s) && a in s.acts
    ensures CloseAct(s, a) == s || Measure(CloseAct(s, a)) < Measure(s)
  {
    TheAct(s, a);
    ActLowers(s, CloseAct(s, a), a);
    hide Inv, Measure;
    if s.acts[a].ctxDone {
      assert CloseAct(s, a).acts == s.acts;
      assert s.open - {s.acts[a].conn} == s.open;
    }
  }

  lemma CloserLowers(s: State, a: ActID)
    requires Inv(s) && Enabled(s, CloserStep(a))
    ensures Measure(Apply(s, CloserStep(a))) < Measure(s)
  {
    if a in s.acts { CloseActLowers(s, a); }
    assert |s.closing.left - {a}| < |s.closing.left|;
  }

  /** Once the visitor is closed every own step lowers the measure, and what others do raises it by a bounded amount. */
  lemma StepLowers(s: State, act: Action)
    requires Inv(s) && s.closed && Enabled(s, act)
    ensures Apply(s, act).closed
    ensures if Own(s, act, Apply(s, act)) then Measure(Apply(s, act)) < Measure(s)
            else Measure(Apply(s, act)) <= Measure(s) + 2000 * Bit(Environment(s, act))
  {
    StaysClosed(s, act);
    hide Run, Read, Send, Dispatch;
    match act
    case DispatchStep(pick) => DispatchLowers(s, pick);
    case RunStep(a, outcome) => RunLowers(s, a, outcome);
    case ReadStep(a, got, room) => ReadLowers(s, a, got, room);
    case SendStep(a, take, outcome) => SendLowers(s, a, take, outcome);
    case Watchdog(a) => CloseActLowers(s, a);
    case CloserStep(a) => CloserLowers(s, a);
    case _ =>
  }

  lemma StaysClosed(s: State, act: Action)
    requires s.closed && Enabled(s, act)
    ensures Apply(s, act).closed
  {
    hide Run, Read, Send, TransportRank;
    match act
    case RunStep(a, outcome) => RunRank(s, a, outcome);
    case ReadStep(a, got, room) => ReadRank(s, a, got, room);
    case SendStep(a, take, outcome) => SendRank(s, a, take, outcome);
    case _ =>
  }

  // ---------------------------------------------------------------------------------------
  // Theorems

  function OwnSteps(states: seq<State>, actions: seq<Action>, i: nat, j: nat): nat
    requires |states| == |actions| + 1 && i <= j <= |actions|
    decreases j - i
  {
    if i == j then 0 else OwnSteps(states, actions, i, j - 1) + Bit(Own(states[j - 1], actions[j - 1], states[j]))
  }

  function OthersSteps(states: seq<State>, actions: seq<Action>, i: nat, j: nat): nat
    requires |states| == |actions| + 1 && i <= j <= |actions|
    decreases j - i
  {
    if i == j then 0 else OthersSteps(states, actions, i, j - 1) + Bit(Environment(states[j - 1], actions[j - 1]))
  }

  /**
   From the moment Close begins, the visitor takes no more steps of its own than the measure of that
   moment, plus a bounded number for each packet it still receives and each time its timer fires.
   */
  lemma {:induction false} CloseIsBounded(states: seq<State>, actions: seq<Action>, i: nat, j: nat)
    requires IsRun(states, actions) && |states| == |actions| + 1 && i <= j <= |actions| && states[i].closed
    ensures states[j].closed
    ensures OwnSteps(states, actions, i, j) + Measure(states[j]) <= Measure(states[i]) + 2000 * OthersSteps(states, actions, i, j)
    decreases j - i
  {
    hide IsRun, Own, Measure, Environment;
    if i < j {
      CloseIsBounded(states, actions, i, j - 1);
      OneStepLowers(states, actions, j - 1);
    }
  }

  lemma OneStepLowers(states: seq<State>, actions: seq<Action>, k: nat)
    requires IsRun(states, actions) && k < |actions| && states[k].closed
    ensures states[k + 1].closed
    ensures if Own(states[k], actions[k], states[k + 1]) then Measure(states[k + 1]) < Measure(states[k])
            else Measure(states[k + 1]) <= Measure(states[k]) + 2000 * Bit(Environment(states[k], actions[k]))
  {
    RunKeepsInv(states, actions, k);
    hide Inv, Apply, Own, Measure, Environment;
    StepLowers(states[k], actions[k]);
  }

  /** And until Close has returned there is such a step to take. */
  lemma CloseProgresses(states: seq<State>, actions: seq<Action>, i: nat)
    requires IsRun(states, actions) && i < |states|
    requires states[i].closed && states[i].closing != CloseReturned
    ensures exists act: Action :: Enabled(states[i], act) && Own(states[i], act, Apply(states[i], act))
  {
    RunKeepsInv(states, actions, i);
    OwnStep(states[i]);
  }

  lemma OwnStep(s: State)
    requires Inv(s) && s.closed && s.closing != CloseReturned
    ensures exists act: Action :: Enabled(s, act) && Own(s, act, Apply(s, act))
  {
    var act := OwnChoice(s);
    ChoiceIsOwn(s);
    hide Inv;
    StepMoves(s, act);
    assert Own(s, act, Apply(s, act));
  }

  /** A step the visitor can take on its way to the end of Close. */
  ghost function OwnChoice(s: State): Action {
    var a := ActOf(s.d);
    if s.closing.RunClosers? then
      if s.closing.left == {} then CloseStep else var c :| c in s.closing.left; CloserStep(c)
    else if a.Some? && a.value in s.acts && !s.acts[a.value].runner.Returned? then
      var x := s.acts[a.value];
      if x.runner.Join? && !x.reader.ReadDone? then ReadStep(a.value, None, false)
      else if x.runner.Join? && !x.sender.SendDone? then SendStep(a.value, false, Failed)
      else RunStep(a.value, Failed)
    else if s.d.Stopped? then if s.forwarding then StopForwarding else CloseStep
    else DispatchStep(if s.d.Idle? then Shut else Yes)
  }

  lemma ChoiceIsOwn(s: State)
    requires Inv(s) && s.closed && s.closing != CloseReturned
    ensures Enabled(s, OwnChoice(s)) && !Environment(s, OwnChoice(s))
  {
  }

  /** The chosen step changes the state, for it lowers the measure. */
  lemma StepMoves(s: State, act: Action)
    requires Inv(s) && s.closed && Enabled(s, act) && act == OwnChoice(s)
    ensures Apply(s, act) != s
  {
    match act
    case DispatchStep(pick) => DispatchLowers(s, pick);
    case RunStep(a, outcome) => RunLowers(s, a, outcome);
    case ReadStep(a, got, room) => ReadLowers(s, a, got, room);
    case SendStep(a, take, outcome) => SendLowers(s, a, take, outcome);
    case CloserStep(a) => CloserLowers(s, a);
    case _ =>
  }
}
