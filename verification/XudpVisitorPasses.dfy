/**
 The XUDP visitor over transports that speak the binary packet codec, as P2P ones always do: the next
 packet can be settled, that is accepted or dropped as too large for P2P, exactly when it has an
 encoding. So applications cannot block the visitor exactly when the configured packet size fits.
 */
module XudpVisitorPasses {
  import opened Prelude
  import opened XudpVisitor
  import opened XudpVisitorTheorems
  import opened UserSocket
  import Codec

  /** The packet a step tries to send, if any. */
  function Tries(s: State, act: Action): (r: Option<Packet>)
    ensures r.Some? ==> act.RunStep? || act.SendStep?
  {
    match act
    case RunStep(a, _) => if a in s.acts && s.acts[a].runner.FirstSend? then s.acts[a].first else None
    case SendStep(a, _, _) => if a in s.acts && s.acts[a].sender.Sending? then Some(s.acts[a].sender.packet) else None
    case _ => None
  }

  /** The transport takes the packet, or drops it as too large. */
  predicate Settles(s: State, act: Action) {
    Tries(s, act).Some? && act.outcome != Failed
  }

  /** ConservativeXUDPDatagramPayloadLimit (pkg/xudp/transport/mtu.go). */
  const MAX_P2P_PAYLOAD := 1150

  predicate Large(p: Packet, content: Contents) {
    Encodable(p, content) && |Codec.Encode(Some(content(p))).value| > MAX_P2P_PAYLOAD
  }

  /**
   The transports speak the codec: a packet without an encoding fails, and P2P transports, open or not,
   find exactly those too large whose encoding is. Otherwise a packet is sent or fails.
   */
  predicate Lawful(s: State, act: Action, content: Contents) {
    match Tries(s, act)
    case None => true
    case Some(p) => if Encodable(p, content) then act.outcome == TooLarge <==> s.d.RunP2P? && Large(p, content) else act.outcome == Failed
  }

  ghost predicate SpeaksBinary(states: seq<State>, actions: seq<Action>, content: Contents)
    requires |actions| <= |states|
  {
    forall i | 0 <= i < |actions| :: Lawful(states[i], actions[i], content)
  }

  // ---------------------------------------------------------------------------------------
  // Only packets with an encoding are settled

  /** A step settles at most one packet: the one it sends, or one given up at close. */
  predicate AddsFate(s: State, act: Action, s': State) {
    if Settles(s, act) then
      && |s'.fates| == |s.fates| + 1 && s'.fates == s.fates + [s'.fates[|s.fates|]]
      && var f := s'.fates[|s.fates|];
      && f.packet == Tries(s, act).value && !f.Abandoned? && (f.Oversized? <==> act.outcome == TooLarge)
    else
      || s'.fates == s.fates
      || (s.closed && |s'.fates| == |s.fates| + 1 && s'.fates == s.fates + [s'.fates[|s.fates|]] && s'.fates[|s.fates|].Abandoned?)
  }

  lemma FateStep(s: State, act: Action)
    requires Inv(s) && Enabled(s, act)
    ensures AddsFate(s, act, Apply(s, act))
  {
    match act
    case DispatchStep(pick) => DispatchFate(s, pick);
    case RunStep(a, outcome) => RunFate(s, a, outcome);
    case _ => hide Dispatch, Run, Inv;
  }

  lemma RunFate(s: State, a: ActID, outcome: Outcome)
    requires CanRun(s, a)
    ensures AddsFate(s, RunStep(a, outcome), Run(s, a, outcome))
  {
  }

  lemma DispatchFate(s: State, pick: Pick)
    requires OneTransport(s) && CanDispatch(s, pick)
    ensures AddsFate(s, DispatchStep(pick), Dispatch(s, pick))
  {
  }

  lemma {:induction false} SettledHasEncoding(states: seq<State>, actions: seq<Action>, content: Contents, i: nat)
    requires IsRun(states, actions) && SpeaksBinary(states, actions, content) && i < |states|
    ensures forall f <- states[i].fates :: f.Abandoned? || Encodable(f.packet, content)
  {
    hide Enabled, Apply, Encodable, Inv, Tries, Large;
    if i != 0 {
      SettledHasEncoding(states, actions, content, i - 1);
      RunKeepsInv(states, actions, i - 1);
      FateStep(states[i - 1], actions[i - 1]);
      assert Lawful(states[i - 1], actions[i - 1], content);
    }
  }

  /** A packet not given up was settled by one step `j`, and dropped exactly when that was on P2P and its encoding has more than 1150 bytes. */
  lemma {:induction false} OversizedIff(states: seq<State>, actions: seq<Action>, content: Contents, i: nat, k: nat) returns (j: nat)
    requires IsRun(states, actions) && SpeaksBinary(states, actions, content)
    requires i < |states| && k < |states[i].fates| && !states[i].fates[k].Abandoned?
    ensures j < i && |states[j].fates| == k && states[j + 1].fates == states[i].fates[..k + 1]
    ensures Tries(states[j], actions[j]) == Some(states[i].fates[k].packet)
    ensures states[i].fates[k].Oversized? <==> states[j].d.RunP2P? && Large(states[i].fates[k].packet, content)
  {
    hide Enabled, Apply, Encodable, Inv, Tries, Large;
    if i != 0 {
      RunKeepsInv(states, actions, i - 1);
      FateStep(states[i - 1], actions[i - 1]);
      if k < |states[i - 1].fates| {
        j := OversizedIff(states, actions, content, i - 1, k);
      } else {
        assert Lawful(states[i - 1], actions[i - 1], content);
        j := i - 1;
      }
    }
  }

  /** However often the visitor switches, only packets before the first without an encoding are settled while it is open. */
  lemma NothingPasses(states: seq<State>, actions: seq<Action>, content: Contents, i: nat)
    requires IsRun(states, actions) && SpeaksBinary(states, actions, content) && i < |states| && !states[i].closed
    ensures Settled(states[i].fates) <= states[i].enqueued[..Sendable(states[i].enqueued, content)]
  {
    var s := states[i];
    Delivery(states, actions, i);
    SettledHasEncoding(states, actions, content, i);
    SendableIs(s.enqueued, content);
    hide Encodable;
    assert forall k | 0 <= k < |s.fates| :: s.fates[k] in s.fates && Encodable(s.enqueued[k], content);
  }

  // ---------------------------------------------------------------------------------------
  // The way the next packet takes

  function RunnerRank(r: Runner): nat {
    match r
    case Register => 5
    case FirstGuard => 4
    case FirstSend => 3
    case FirstSent => 3
    case Watch => 2
    case Join => 1
    case Returned(_) => 0
  }

  function ReaderRank(r: Reader): nat {
    match r
    case Received(_) => 5
    case Deliver(_) => 4
    case ReadGuard => 3
    case Receive => 2
    case _ => 0
  }

  function SenderRank(x: Sender): nat {
    match x
    case Posted => 6
    case Select => 5
    case Taken(_) => 4
    case Guarded(_) => 3
    case Sending(_) => 2
    case _ => 0
  }

  /** The transport is open and going to send the packet. `big` ones are not sent over P2P where there is a choice. */
  predicate Hopeful(s: State, x: Act, big: bool) {
    && x.conn in s.open && !x.canceled && !x.reader.ReadDone? && !x.sender.SendDone? && !x.runner.Returned?
    && !(s.d.RunP2P? && big)
  }

  function ActRank(s: State, x: Act, big: bool): nat {
    if Hopeful(s, x, big) then
      match x.runner
      case Register => 8
      case FirstGuard => 7
      case FirstSent => 6
      case FirstSend => 1
      case _ => SenderRank(x.sender)
    else 20 + 30 * RunnerRank(x.runner) + ReaderRank(x.reader) + SenderRank(x.sender)
  }

  function Rank(s: State, big: bool): nat {
    match ActOf(s.d)
    case Some(a) => (if a in s.acts then ActRank(s, s.acts[a], big) else 0) + Bit(s.d.Probe?) + 300 * Bit(s.d.JoinRelay?)
    case None =>
      match s.d
      case Switch(_, _, _) => 202
      case SwitchBegin(_, _, _) => 201
      case BeginP2P(_, _, _) => 201
      case Idle => 13
      case Backoff(_, _) => 13
      case Top(_, _) => 12
      case DialP2P(_, _) => 11
      case Between(_, _) => 10
      case _ => 9
  }

  /** What sending comes to: the law decides over P2P, and what can succeed does. */
  function OutcomeOf(s: State, x: Act, big: bool): Outcome {
    if s.d.RunP2P? && big then TooLarge else if x.conn in s.open then Sent else Failed
  }

  function NextOf(s: State, a: ActID, x: Act, big: bool): Action {
    match x.runner
    case Returned(_) => DispatchStep(if s.d.Probe? then No else Yes)
    case Watch => WorkOn(s, a, x, big)
    case Join => WorkOn(s, a, x, big)
    case _ => RunStep(a, OutcomeOf(s, x, big))
  }

  /** The sender goes on, or else reader, sender and runner stop in turn. */
  function WorkOn(s: State, a: ActID, x: Act, big: bool): Action {
    if Hopeful(s, x, big) then SendStep(a, true, OutcomeOf(s, x, big))
    else if !x.reader.ReadDone? then ReadStep(a, None, true)
    else if !x.sender.SendDone? then SendStep(a, false, OutcomeOf(s, x, big))
    else RunStep(a, Sent)
  }

  /** Relays are dialled rather than P2P; a reader finds its transport closed. */
  function Next(s: State, big: bool): Action {
    match ActOf(s.d)
    case None => DispatchStep(if s.d.DialP2P? then No else Yes)
    case Some(a) => if a in s.acts then NextOf(s, a, s.acts[a], big) else DispatchStep(Yes)
  }

  /** The connection a step sends on. */
  predicate OnOpen(s: State, act: Action) {
    (act.RunStep? || act.SendStep?) && act.a in s.acts && s.acts[act.a].conn in s.open
  }

  predicate InHand(s: State) {
    OneTransport(s) && ConnsOk(s) && !s.closed && !s.d.Stopped? && (InFlight(s).Some? || s.sendCh != [])
  }

  lemma NextEnabled(s: State, big: bool)
    requires InHand(s)
    ensures var act := Next(s, big);
            && Enabled(s, act)
            && (Tries(s, act).Some? ==> Tries(s, act) == InFlight(s) && (act.outcome == TooLarge <==> s.d.RunP2P? && big))
            && (Settles(s, act) && act.outcome == Sent ==> OnOpen(s, act))
  {
  }

  lemma NextStays(s: State, big: bool)
    requires InHand(s) && Enabled(s, Next(s, big))
    ensures !Apply(s, Next(s, big)).closed && Apply(s, Next(s, big)).enqueued == s.enqueued
  {
    assert var act := Next(s, big); act.DispatchStep? || act.RunStep? || act.ReadStep? || act.SendStep?;
    hide InHand, Next, CanDispatch, CanRun, CanRead, CanSend, IsCurrent, SenderStops;
    match Next(s, big)
    case DispatchStep(pick) =>
    case RunStep(a, outcome) => hide Dispatch;
    case ReadStep(a, got, room) => hide Dispatch;
    case SendStep(a, take, outcome) => hide Dispatch;
  }

  /** Until the packet is settled each step brings it nearer. */
  lemma NextLowers(s: State, big: bool)
    requires InHand(s) && !Settles(s, Next(s, big)) && Enabled(s, Next(s, big))
    ensures Rank(Apply(s, Next(s, big)), big) < Rank(s, big)
  {
    if ActOf(s.d).Some? { ActLowers(s, big); } else { DialLowers(s, big); }
  }

  lemma DialLowers(s: State, big: bool)
    requires InHand(s) && ActOf(s.d) == None && Enabled(s, Next(s, big))
    ensures Rank(Apply(s, Next(s, big)), big) < Rank(s, big)
  {
  }

  lemma ActLowers(s: State, big: bool)
    requires InHand(s) && ActOf(s.d).Some? && !Settles(s, Next(s, big)) && Enabled(s, Next(s, big))
    ensures Rank(Apply(s, Next(s, big)), big) < Rank(s, big)
  {
    var a := ActOf(s.d).value;
    var x := s.acts[a];
    match Next(s, big)
    case DispatchStep(pick) => LeavesAct(s, a, pick, big);
    case RunStep(_, outcome) => RunLowers(s, a, outcome, big);
    case ReadStep(_, _, _) => ReadLowers(s, a, big);
    case SendStep(_, take, outcome) => SendLowers(s, a, take, outcome, big);
    case _ => assert false;
  }

  predicate Current(s: State, a: ActID) {
    a in s.acts && ActOf(s.d) == Some(a) && ActOk(s, s.acts[a])
  }

  lemma LeavesAct(s: State, a: ActID, pick: Pick, big: bool)
    requires Current(s, a) && !s.closed && s.acts[a].runner.Returned? && CanDispatch(s, pick) && pick == (if s.d.Probe? then No else Yes)
    ensures Rank(Dispatch(s, pick), big) < Rank(s, big)
  {
  }

  lemma SameDispatcher(s: State, s': State, a: ActID, big: bool)
    requires a in s.acts && a in s'.acts && ActOf(s.d) == Some(a) && s'.d == s.d
    requires ActRank(s', s'.acts[a], big) < ActRank(s, s.acts[a], big)
    ensures Rank(s', big) < Rank(s, big)
  {
    hide ActRank;
  }

  lemma RunLowers(s: State, a: ActID, outcome: Outcome, big: bool)
    requires Current(s, a) && !s.closed && CanRun(s, a) && !Settles(s, RunStep(a, outcome))
    requires s.acts[a].runner in {Watch, Join} ==> s.acts[a].sender.SendDone? && s.acts[a].reader.ReadDone?
    requires s.acts[a].runner.FirstSend? ==> s.acts[a].conn !in s.open
    ensures Rank(Run(s, a, outcome), big) < Rank(s, big)
  {
    hide Rank;
    var s' := Run(s, a, outcome);
    var x, y := s.acts[a], s'.acts[a];
    if x.runner in {Register, FirstGuard, FirstSent} {
      StartLowers(s, a, outcome, big);
    } else {
      assert !Hopeful(s, x, big) && !Hopeful(s', y, big) && RunnerRank(y.runner) < RunnerRank(x.runner);
      assert ReaderRank(y.reader) == SenderRank(y.sender) == 0;
    }
    hide Run, CanRun, Settles, Hopeful;
    SameDispatcher(s, s', a, big);
  }

  lemma StartLowers(s: State, a: ActID, outcome: Outcome, big: bool)
    requires Current(s, a) && !s.closed && CanRun(s, a) && s.acts[a].runner in {Register, FirstGuard, FirstSent}
    ensures var s' := Run(s, a, outcome); a in s'.acts && s'.d == s.d && ActRank(s', s'.acts[a], big) < ActRank(s, s.acts[a], big)
  {
  }

  lemma ReadLowers(s: State, a: ActID, big: bool)
    requires Current(s, a) && s.acts[a].runner in {Watch, Join} && CanRead(s, a) && !Hopeful(s, s.acts[a], big)
    ensures Rank(Read(s, a, None, true), big) < Rank(s, big)
  {
    hide Rank;
    var s' := Read(s, a, None, true);
    var x, y := s.acts[a], s'.acts[a];
    assert ReaderRank(y.reader) < ReaderRank(x.reader) && y == x.(reader := y.reader) && s'.open == s.open && s'.d == s.d;
    assert !x.reader.ReadDone?;
    hide Read, CanRead, ReaderRank, SenderRank, RunnerRank;
    SameDispatcher(s, s', a, big);
  }

  lemma SendLowers(s: State, a: ActID, take: bool, outcome: Outcome, big: bool)
    requires Current(s, a) && !s.closed && s.acts[a].runner in {Watch, Join} && CanSend(s, a, take) && !Settles(s, SendStep(a, take, outcome))
    requires if Hopeful(s, s.acts[a], big) then take && !s.acts[a].sender.Sending? else !take && s.acts[a].reader.ReadDone?
    ensures Rank(Send(s, a, take, outcome), big) < Rank(s, big)
  {
    hide Rank;
    var s' := Send(s, a, take, outcome);
    var x, y := s.acts[a], s'.acts[a];
    assert SenderRank(y.sender) < SenderRank(x.sender) && y == x.(sender := y.sender, handoff := y.handoff) && s'.open == s.open && s'.d == s.d;
    assert Hopeful(s, x, big) ==> !y.sender.SendDone?;
    hide Send, CanSend, Settles, SenderRank, RunnerRank, ReaderRank;
    SameDispatcher(s, s', a, big);
  }

  // ---------------------------------------------------------------------------------------
  // Continuing a run

  /** A run over transports that speak the codec, of a visitor that is open and has packets to send. */
  ghost predicate Waits(states: seq<State>, actions: seq<Action>, content: Contents) {
    && IsRun(states, actions) && SpeaksBinary(states, actions, content)
    && !states[|actions|].closed && |states[|actions|].fates| < |states[|actions|].enqueued|
  }

  /** The run goes on over such transports, and from `n` on what is accepted is accepted by an open one. */
  ghost predicate GoesOn(states: seq<State>, actions: seq<Action>, states': seq<State>, actions': seq<Action>, content: Contents, n: nat) {
    && IsRun(states', actions') && SpeaksBinary(states', actions', content)
    && states <= states' && actions <= actions'
    && forall i | n <= i < |actions'| :: Settles(states'[i], actions'[i]) && actions'[i].outcome == Sent ==> OnOpen(states'[i], actions'[i])
  }

  /** The next packet to be settled. */
  function Due(s: State): Packet
    requires |s.fates| < |s.enqueued|
  {
    s.enqueued[|s.fates|]
  }

  /** In `s'` the packet due in `s` has been accepted or dropped, and nothing else has happened to a packet. */
  predicate SettledNext(s: State, s': State)
    requires |s.fates| < |s.enqueued|
  {
    && |s'.fates| == |s.fates| + 1 && s'.fates == s.fates + [s'.fates[|s.fates|]]
    && !s'.fates[|s.fates|].Abandoned? && s'.fates[|s.fates|].packet == Due(s)
  }

  /** The run can go on so that the next packet is settled. */
  ghost predicate Passes(states: seq<State>, actions: seq<Action>, content: Contents)
    requires Waits(states, actions, content)
  {
    exists states': seq<State>, actions': seq<Action> ::
      && GoesOn(states, actions, states', actions', content, |actions|)
      && SettledNext(states[|actions|], states'[|actions'|])
  }

  lemma Extend(states: seq<State>, actions: seq<Action>, content: Contents, act: Action) returns (states': seq<State>, actions': seq<Action>)
    requires IsRun(states, actions) && SpeaksBinary(states, actions, content)
    requires var s := states[|actions|];
             Enabled(s, act) && Lawful(s, act, content) && (Settles(s, act) && act.outcome == Sent ==> OnOpen(s, act))
    ensures states' == states + [Apply(states[|actions|], act)] && actions' == actions + [act]
    ensures IsRun(states', actions') && SpeaksBinary(states', actions', content) && GoesOn(states, actions, states', actions', content, |actions|)
  {
    hide Apply, Enabled, Lawful, OnOpen;
    states', actions' := states + [Apply(states[|actions|], act)], actions + [act];
    forall i | 0 <= i < |actions'|
      ensures Enabled(states'[i], actions'[i]) && states'[i + 1] == Apply(states'[i], actions'[i])
      ensures Lawful(states'[i], actions'[i], content)
    {
      if i < |actions| { assert states'[i] == states[i] && states'[i + 1] == states[i + 1] && actions'[i] == actions[i]; }
    }
  }

  lemma GoesOnTwice(states: seq<State>, actions: seq<Action>, states1: seq<State>, actions1: seq<Action>, states': seq<State>, actions': seq<Action>,
                    content: Contents)
    requires GoesOn(states, actions, states1, actions1, content, |actions|)
    requires GoesOn(states1, actions1, states', actions', content, |actions1|)
    ensures GoesOn(states, actions, states', actions', content, |actions|)
  {
    hide Lawful, Enabled, Apply, OnOpen;
    forall i | |actions| <= i < |actions1| ensures states'[i] == states1[i] && actions'[i] == actions1[i] {}
  }

  /** What is due is in flight, or else first in the queue. */
  lemma DueIs(s: State)
    requires Accounted(s) && |s.fates| < |s.enqueued|
    ensures InFlight(s).Some? || s.sendCh != []
    ensures InFlight(s).Some? ==> InFlight(s).value == Due(s)
  {
    assert s.enqueued == Settled(s.fates) + (ToSeq(InFlight(s)) + s.sendCh);
  }

  lemma NextHelps(s: State, content: Contents)
    requires Inv(s) && !s.closed && |s.fates| < |s.enqueued| && Encodable(Due(s), content)
    ensures var big := Large(Due(s), content);
            var act := Next(s, big);
            && Enabled(s, act) && Lawful(s, act, content) && (Settles(s, act) && act.outcome == Sent ==> OnOpen(s, act))
            && var s' := Apply(s, act);
            && !s'.closed && s'.enqueued == s.enqueued
            && if Settles(s, act) then SettledNext(s, s') else s'.fates == s.fates && Rank(s', big) < Rank(s, big)
  {
    DueIs(s);
    assert InHand(s);
    hide InHand, Inv, Rank, Apply, Enabled, Next, Tries, InFlight, OnOpen, Encodable, Large;
    var big := Large(Due(s), content);
    NextEnabled(s, big);
    NextStays(s, big);
    FateStep(s, Next(s, big));
    if !Settles(s, Next(s, big)) { NextLowers(s, big); }
  }

  /** An open visitor gets an encodable packet through, by steps it can take, and nothing is enqueued meanwhile. */
  lemma {:induction false} GetsThrough(states: seq<State>, actions: seq<Action>, content: Contents) returns (states': seq<State>, actions': seq<Action>)
    requires Waits(states, actions, content) && Encodable(Due(states[|actions|]), content)
    ensures GoesOn(states, actions, states', actions', content, |actions|)
    ensures SettledNext(states[|actions|], states'[|actions'|])
    ensures states'[|actions'|].enqueued == states[|actions|].enqueued && !states'[|actions'|].closed
    decreases Rank(states[|actions|], Large(Due(states[|actions|]), content))
  {
    var s := states[|actions|];
    RunKeepsInv(states, actions, |actions|);
    hide Inv, Apply, Enabled, Encodable, Large, Lawful, Next, Rank, IsRun, SpeaksBinary, GoesOn, Settles, Tries, OnOpen;
    NextHelps(s, content);
    var act := Next(s, Large(Due(s), content));
    states', actions' := Extend(states, actions, content, act);
    if !Settles(s, act) {
      var states1, actions1 := states', actions';
      states', actions' := GetsThrough(states1, actions1, content);
      GoesOnTwice(states, actions, states1, actions1, states', actions', content);
    }
  }

  // ---------------------------------------------------------------------------------------
  // Theorems

  /** The next packet can be settled exactly when it has an encoding. */
  lemma PassesIff(states: seq<State>, actions: seq<Action>, content: Contents)
    requires Waits(states, actions, content)
    ensures Passes(states, actions, content) <==> Encodable(Due(states[|actions|]), content)
  {
    var s := states[|actions|];
    hide Encodable;
    if Encodable(Due(s), content) {
      var states', actions' := GetsThrough(states, actions, content);
    } else if Passes(states, actions, content) {
      var states': seq<State>, actions': seq<Action> :|
        && GoesOn(states, actions, states', actions', content, |actions|)
        && SettledNext(s, states'[|actions'|]);
      SettledHasEncoding(states', actions', content, |actions'|);
    }
  }

  /**
   The packets before the first without an encoding can all get through: with `NothingPasses`, they are
   exactly those that can while the visitor is open.
   */
  lemma {:induction false} AllBeforePass(states: seq<State>, actions: seq<Action>, content: Contents) returns (states': seq<State>, actions': seq<Action>)
    requires IsRun(states, actions) && SpeaksBinary(states, actions, content) && !states[|actions|].closed
    ensures GoesOn(states, actions, states', actions', content, |actions|)
    ensures var enqueued := states[|actions|].enqueued; Settled(states'[|actions'|].fates) == enqueued[..Sendable(enqueued, content)]
    decreases |states[|actions|].enqueued| - |states[|actions|].fates|
  {
    var s := states[|actions|];
    NothingPasses(states, actions, content, |actions|);
    var n := Sendable(s.enqueued, content);
    if |s.fates| == n {
      states', actions' := states, actions;
    } else {
      SendableIs(s.enqueued, content);
      assert Encodable(Due(s), content);
      hide Encodable, Sendable;
      var states1, actions1 := GetsThrough(states, actions, content);
      states', actions' := AllBeforePass(states1, actions1, content);
      GoesOnTwice(states, actions, states1, actions1, states', actions', content);
    }
  }

  /** Whatever applications send, no run of the open visitor leaves it with a packet that cannot get through. */
  ghost predicate NeverBlocked(names: set<seq<Codec.byte>>, size: nat) {
    forall content: Contents, states: seq<State>, actions: seq<Action> ::
      FromSocket(content, names, size) && Waits(states, actions, content) ==> Passes(states, actions, content)
  }

  /** A packet that has no encoding, once enqueued, blocks the visitor. */
  lemma Blocks(p: Codec.Packet, names: set<seq<Codec.byte>>, size: nat) returns (content: Contents, states: seq<State>)
    requires Receivable(p, names, size) && Codec.Encode(Some(p)).Err?
    ensures FromSocket(content, names, size) && content(0) == p
    ensures Waits(states, [Enqueue(0)], content) && !Passes(states, [Enqueue(0)], content)
  {
    hide Codec.Encode, Passes;
    content := _ => p;
    states := [Init, Apply(Init, Enqueue(0))];
    PassesIff(states, [Enqueue(0)], content);
  }

  lemma AlwaysPasses(states: seq<State>, actions: seq<Action>, content: Contents, names: set<seq<Codec.byte>>, size: nat)
    requires FromSocket(content, names, size) && Waits(states, actions, content) && Fits(names, size)
    ensures Passes(states, actions, content)
  {
    hide Receivable, Fits, Codec.Encode, Passes;
    AllEncodableIff(names, size);
    PassesIff(states, actions, content);
    assert Receivable(content(Due(states[|actions|])), names, size);
  }

  /** So applications cannot block the visitor exactly when the packet size in the configuration fits the names of the interfaces. */
  lemma NeverBlockedIff(names: set<seq<Codec.byte>>, size: nat)
    ensures NeverBlocked(names, size) <==> Fits(names, size)
  {
    hide Receivable, Fits, Codec.Encode, Waits, Passes;
    if Fits(names, size) {
      forall content: Contents, states: seq<State>, actions: seq<Action> | FromSocket(content, names, size) && Waits(states, actions, content)
        ensures Passes(states, actions, content)
      {
        AlwaysPasses(states, actions, content, names, size);
      }
    } else {
      var content, states := Blocks(Misfit(names, size), names, size);
    }
  }
}
