/**
 The frps UDP proxy over work connections that speak the binary packet codec: the next
 packet can get through exactly when it has an encoding, and so users cannot block the proxy exactly
 when the configured packet size fits.
 */
module UdpProxyPasses {
  import opened Prelude
  import opened UdpProxy
  import opened UdpProxyCodec
  import UdpProxyClose
  import opened UserSocket
  import Codec

  // ---------------------------------------------------------------------------------------
  // What keeps an open proxy going

  /** A reader that leaves an open proxy wakes the dispatcher, and a connection is open when its cycle starts. */
  predicate Awake(s: State) {
    && (s.cycle.Some? && s.cycle.value.reader.Quit? ==> Done(s))
    && (s.d.Watch? && s.cycle.Some? && s.cycle.value.reader.ReaderDone? && !Done(s) ==> s.reconnectCh > 0)
    && (s.workConn.Some? ==> s.workConn.value < s.nextConn)
    && match s.d
       case Publish(_, conn) => conn < s.nextConn && s.workConn != Some(conn) && (Done(s) || conn in s.open)
       case CloseOld(_, conn, previous) => conn != previous && (Done(s) || conn in s.open)
       case Spawn(_, conn) => Done(s) || conn in s.open
       case _ => true
  }

  lemma AwakeStep(s: State, act: Action)
    requires Orderly(s) && Awake(s) && Enabled(s, act)
    ensures Awake(Apply(s, act))
  {
    match act
    case DispatchStep(pick) => AwakeDispatch(s, pick);
    case ReadStep(pick) => AwakeRead(s, pick);
    case _ => hide CanDispatch, Dispatch, Read;
  }

  lemma AwakeRead(s: State, pick: Pick)
    requires Orderly(s) && Awake(s) && CanRead(s, pick)
    ensures Awake(Read(s, pick))
  {
  }

  lemma AwakeDispatch(s: State, pick: Pick)
    requires Orderly(s) && Awake(s) && CanDispatch(s, pick)
    ensures Awake(Dispatch(s, pick))
  {
  }

  lemma {:induction false} RunIsAwake(states: seq<State>, actions: seq<Action>, i: nat)
    requires IsRun(states, actions) && i < |states|
    ensures Inv(states[i]) && Awake(states[i])
  {
    RunKeepsInv(states, actions, i);
    hide Inv, Enabled, Apply;
    if i != 0 {
      RunIsAwake(states, actions, i - 1);
      assert Orderly(states[i - 1]) by { OrderlyOf(states[i - 1]); }
      hide Orderly, Awake;
      AwakeStep(states[i - 1], actions[i - 1]);
    } else {
      assert Awake(Init);
    }
  }

  lemma OrderlyOf(s: State)
    requires Inv(s)
    ensures Orderly(s)
  {
  }

  // ---------------------------------------------------------------------------------------
  // The way the next packet takes

  function SenderRank(x: Sender): nat {
    match x
    case SenderDone(_) => 0
    case Return(_) => 1
    case Write(_) => 2
    case Check(_) => 3
    case Ask => 4
  }

  /** The packet is going to be written to a connection that is open. */
  predicate Hopeful(s: State, c: Cycle) {
    c.conn in s.open && (c.sender.Write? || ((c.sender.Ask? || c.sender.Check?) && !c.canceled))
  }

  function Rank(s: State): nat {
    match s.cycle
    case None =>
      (match s.d
       case Sleep => 9
       case Retry(_) => 9
       case Top(_) => 8
       case Request(_) => 7
       case Publish(_, _) => 6
       case CloseOld(_, _, _) => 5
       case Spawn(_, _) => 4
       case _ => 0)
    case Some(c) =>
      if Hopeful(s, c) then SenderRank(c.sender) - 1
      else
        10 + UdpProxyClose.ReaderRank(c.reader) + SenderRank(c.sender)
        + (if s.d.Watch? then 20 else if s.d.Cancel? then 10 else 0)
  }

  /** Dialling and writing succeed where they can; a reader finds its connection closed. */
  function Next(s: State): Action {
    match s.cycle
    case None => DispatchStep(Yes)
    case Some(c) =>
      if !c.sender.SenderDone? then SendStep(if c.sender.Write? && c.conn !in s.open then No else Yes)
      else if !c.reader.ReaderDone? then ReadStep(if c.reader.Reading? then No else Yes)
      else DispatchStep(Yes)
  }

  predicate InHand(s: State) {
    Orderly(s) && Awake(s) && !Done(s) && (InFlight(s).Some? || s.sendCh != [])
  }

  lemma NextEnabled(s: State)
    requires InHand(s)
    ensures Enabled(s, Next(s)) && !Done(Apply(s, Next(s)))
    ensures Writes(s, Next(s)) ==> s.cycle.value.conn in s.open && InFlight(s) == Some(s.cycle.value.sender.packet)
    ensures Apply(s, Next(s)).enqueued == s.enqueued
  {
  }

  /** Until the packet is written each step brings it nearer. */
  lemma NextLowers(s: State)
    requires InHand(s) && !Writes(s, Next(s)) && Enabled(s, Next(s))
    ensures Rank(Apply(s, Next(s))) < Rank(s)
  {
    match s.cycle
    case None => DialLowers(s);
    case Some(c) => CycleLowers(s);
  }

  lemma DialLowers(s: State)
    requires InHand(s) && s.cycle == None && Enabled(s, DispatchStep(Yes))
    ensures Rank(Apply(s, DispatchStep(Yes))) < Rank(s)
  {
  }

  lemma CycleLowers(s: State)
    requires InHand(s) && s.cycle.Some? && !Writes(s, Next(s)) && Enabled(s, Next(s))
    ensures Rank(Apply(s, Next(s))) < Rank(s)
  {
  }

  // ---------------------------------------------------------------------------------------
  // Continuing a run

  /** A run over connections that speak the codec, of a proxy that is open and has packets to send. */
  ghost predicate Waits(states: seq<State>, actions: seq<Action>, content: Contents) {
    && IsRun(states, actions) && SpeaksBinary(states, actions, content)
    && !Done(states[|actions|]) && |states[|actions|].accepted| < |states[|actions|].enqueued|
  }

  /** The run goes on over such connections, and from `n` on what is written is written to an open one. */
  ghost predicate GoesOn(states: seq<State>, actions: seq<Action>, states': seq<State>, actions': seq<Action>, content: Contents, n: nat) {
    && IsRun(states', actions') && SpeaksBinary(states', actions', content)
    && states <= states' && actions <= actions'
    && forall i | n <= i < |actions'| :: Writes(states'[i], actions'[i]) ==> states'[i].cycle.value.conn in states'[i].open
  }

  /** The next packet to be accepted. */
  function Due(s: State): Packet
    requires |s.accepted| < |s.enqueued|
  {
    s.enqueued[|s.accepted|]
  }

  /** The run can go on so that the next packet is accepted. */
  ghost predicate Passes(states: seq<State>, actions: seq<Action>, content: Contents)
    requires Waits(states, actions, content)
  {
    var s := states[|actions|];
    exists states': seq<State>, actions': seq<Action> ::
      && GoesOn(states, actions, states', actions', content, |actions|)
      && states'[|actions'|].accepted == s.accepted + [Due(s)]
  }

  lemma Extend(states: seq<State>, actions: seq<Action>, content: Contents, act: Action) returns (states': seq<State>, actions': seq<Action>)
    requires IsRun(states, actions) && SpeaksBinary(states, actions, content)
    requires var s := states[|actions|]; Enabled(s, act) && (Writes(s, act) ==> Encodable(s.cycle.value.sender.packet, content) && s.cycle.value.conn in s.open)
    ensures states' == states + [Apply(states[|actions|], act)] && actions' == actions + [act]
    ensures IsRun(states', actions') && SpeaksBinary(states', actions', content) && GoesOn(states, actions, states', actions', content, |actions|)
  {
    hide Apply, Enabled, Encodable;
    states', actions' := states + [Apply(states[|actions|], act)], actions + [act];
    forall i | 0 <= i < |actions'|
      ensures Enabled(states'[i], actions'[i]) && states'[i + 1] == Apply(states'[i], actions'[i])
      ensures Writes(states'[i], actions'[i]) ==> Encodable(states'[i].cycle.value.sender.packet, content)
    {
      if i < |actions| { assert states'[i] == states[i] && states'[i + 1] == states[i + 1] && actions'[i] == actions[i]; }
    }
  }

  lemma GoesOnTwice(states: seq<State>, actions: seq<Action>, states1: seq<State>, actions1: seq<Action>, states': seq<State>, actions': seq<Action>,
                    content: Contents)
    requires GoesOn(states, actions, states1, actions1, content, |actions|)
    requires GoesOn(states1, actions1, states', actions', content, |actions1|)
    ensures GoesOn(states, actions, states', actions', content, |actions|)
  {
    hide Writes, Encodable, Enabled, Apply;
    forall i | |actions| <= i < |actions1| ensures states'[i] == states1[i] && actions'[i] == actions1[i] {}
  }

  /** What is due is in flight, or else first in the queue. */
  lemma DueIs(s: State)
    requires Accounted(s) && |s.accepted| < |s.enqueued|
    ensures InFlight(s).Some? || s.sendCh != []
    ensures InFlight(s).Some? ==> InFlight(s).value == Due(s)
  {
    assert s.enqueued == s.accepted + (ToSeq(InFlight(s)) + s.sendCh);
  }

  lemma NextHelps(s: State)
    requires Inv(s) && Awake(s) && !Done(s) && |s.accepted| < |s.enqueued|
    ensures var act := Next(s);
            && Enabled(s, act)
            && var s' := Apply(s, act);
            && !Done(s') && s'.enqueued == s.enqueued
            && if Writes(s, act) then s.cycle.value.conn in s.open && s.cycle.value.sender.packet == Due(s) && s'.accepted == s.accepted + [Due(s)]
               else s'.accepted == s.accepted && Rank(s') < Rank(s)
  {
    DueIs(s);
    OrderlyOf(s);
    hide Inv, Orderly, Awake, Rank, Apply, Enabled, Next;
    NextEnabled(s);
    AcceptStep(s, Next(s));
    if !Writes(s, Next(s)) { NextLowers(s); }
  }

  /** An open proxy gets an encodable packet through, by steps it can take, and nothing is enqueued meanwhile. */
  lemma {:induction false} GetsThrough(states: seq<State>, actions: seq<Action>, content: Contents) returns (states': seq<State>, actions': seq<Action>)
    requires Waits(states, actions, content) && Encodable(Due(states[|actions|]), content)
    ensures GoesOn(states, actions, states', actions', content, |actions|)
    ensures states'[|actions'|].accepted == states[|actions|].accepted + [Due(states[|actions|])]
    ensures states'[|actions'|].enqueued == states[|actions|].enqueued && !Done(states'[|actions'|])
    decreases Rank(states[|actions|])
  {
    var s := states[|actions|];
    RunIsAwake(states, actions, |actions|);
    hide Inv, Awake, Apply, Enabled, Encodable, Next, Rank, Done, IsRun, SpeaksBinary, GoesOn;
    NextHelps(s);
    var act := Next(s);
    states', actions' := Extend(states, actions, content, act);
    if !Writes(s, act) {
      var states1, actions1 := states', actions';
      states', actions' := GetsThrough(states1, actions1, content);
      GoesOnTwice(states, actions, states1, actions1, states', actions', content);
    }
  }

  // ---------------------------------------------------------------------------------------
  // A packet in flight

  /** The states in which an idle proxy takes packet 0 from the queue for its first connection. */
  const FIRST_ACTIONS: seq<Action> :=
    [Enqueue(0), DispatchStep(Yes), DispatchStep(Yes), DispatchStep(Yes), DispatchStep(Yes), DispatchStep(Yes), SendStep(Yes)]

  lemma FirstInFlight(content: Contents) returns (states: seq<State>)
    ensures Waits(states, FIRST_ACTIONS, content) && InFlight(states[|FIRST_ACTIONS|]) == Some(0)
  {
    var s1 := Apply(Init, Enqueue(0));
    var s2 := Apply(s1, DispatchStep(Yes));
    var s3 := Apply(s2, DispatchStep(Yes));
    var s4 := Apply(s3, DispatchStep(Yes));
    var s5 := Apply(s4, DispatchStep(Yes));
    var s6 := Apply(s5, DispatchStep(Yes));
    var s7 := Apply(s6, SendStep(Yes));
    states := [Init, s1, s2, s3, s4, s5, s6, s7];
  }

  // ---------------------------------------------------------------------------------------
  // Theorems

  /** The next packet can be accepted exactly when it has an encoding. */
  lemma PassesIff(states: seq<State>, actions: seq<Action>, content: Contents)
    requires Waits(states, actions, content)
    ensures Passes(states, actions, content) <==> Encodable(Due(states[|actions|]), content)
  {
    var s := states[|actions|];
    hide Encodable, Done;
    if Encodable(Due(s), content) {
      var states', actions' := GetsThrough(states, actions, content);
    } else if Passes(states, actions, content) {
      var states': seq<State>, actions': seq<Action> :|
        && GoesOn(states, actions, states', actions', content, |actions|)
        && states'[|actions'|].accepted == s.accepted + [Due(s)];
      AcceptedHasEncoding(states', actions', content, |actions'|);
    }
  }

  /**
   The packets before the first without an encoding can all get through: with `NothingPasses`, they are
   exactly those that can.
   */
  lemma {:induction false} AllBeforePass(states: seq<State>, actions: seq<Action>, content: Contents) returns (states': seq<State>, actions': seq<Action>)
    requires IsRun(states, actions) && SpeaksBinary(states, actions, content) && !Done(states[|actions|])
    ensures GoesOn(states, actions, states', actions', content, |actions|)
    ensures var enqueued := states[|actions|].enqueued; states'[|actions'|].accepted == enqueued[..Sendable(enqueued, content)]
    decreases |states[|actions|].enqueued| - |states[|actions|].accepted|
  {
    var s := states[|actions|];
    Delivery(states, actions, |actions|);
    NothingPasses(states, actions, content, |actions|);
    var n := Sendable(s.enqueued, content);
    if |s.accepted| == n {
      states', actions' := states, actions;
    } else {
      SendableIs(s.enqueued, content);
      assert Encodable(Due(s), content);
      hide Encodable, Done, Sendable;
      var states1, actions1 := GetsThrough(states, actions, content);
      states', actions' := AllBeforePass(states1, actions1, content);
      GoesOnTwice(states, actions, states1, actions1, states', actions', content);
    }
  }

  /** Whatever users send, no run of the open proxy leaves it with a packet that cannot get through. */
  ghost predicate NeverBlocked(names: set<seq<Codec.byte>>, size: nat) {
    forall content: Contents, states: seq<State>, actions: seq<Action> ::
      FromSocket(content, names, size) && Waits(states, actions, content) ==> Passes(states, actions, content)
  }

  /** A run in which a packet that users can send, and that has no encoding, is in flight: the proxy is blocked, for good. */
  lemma Blocks(p: Codec.Packet, names: set<seq<Codec.byte>>, size: nat) returns (content: Contents, states: seq<State>)
    requires Receivable(p, names, size) && Codec.Encode(Some(p)).Err?
    ensures FromSocket(content, names, size) && content(0) == p
    ensures Waits(states, FIRST_ACTIONS, content) && InFlight(states[|FIRST_ACTIONS|]) == Some(0)
    ensures !Passes(states, FIRST_ACTIONS, content)
    ensures forall states': seq<State>, actions': seq<Action> | GoesOn(states, FIRST_ACTIONS, states', actions', content, |actions'|) ::
              InFlight(states'[|actions'|]) == Some(0) && states'[|actions'|].accepted == states[|FIRST_ACTIONS|].accepted
  {
    hide Codec.Encode, Passes, InFlight, Done;
    content := _ => p;
    states := FirstInFlight(content);
    PassesIff(states, FIRST_ACTIONS, content);
    forall states': seq<State>, actions': seq<Action> | GoesOn(states, FIRST_ACTIONS, states', actions', content, |actions'|)
      ensures InFlight(states'[|actions'|]) == Some(0) && states'[|actions'|].accepted == states[|FIRST_ACTIONS|].accepted
    {
      var n := |FIRST_ACTIONS|;
      assert states'[n] == states[n];
      BlockedForGood(states', actions', content, n, |actions'|);
    }
  }

  /** For one: with a buffer of 65508 bytes, as many zeros from an IPv6 address. */
  lemma BlockedByZeros() returns (content: Contents, states: seq<State>)
    ensures FromSocket(content, {}, 65508) && Waits(states, FIRST_ACTIONS, content) && !Passes(states, FIRST_ACTIONS, content)
    ensures |content(0).content| == 65508
  {
    content, states := Blocks(Zeros(65508, []), {}, 65508);
  }

  /** So users cannot block the proxy exactly when the packet size in the configuration fits the names of the interfaces. */
  lemma NeverBlockedIff(names: set<seq<Codec.byte>>, size: nat)
    ensures NeverBlocked(names, size) <==> Fits(names, size)
  {
    hide Receivable, Fits, Codec.Encode, Waits, Passes;
    if Fits(names, size) {
      forall content: Contents, states: seq<State>, actions: seq<Action> | FromSocket(content, names, size) && Waits(states, actions, content)
        ensures Passes(states, actions, content)
      {
        AlwaysPasses(states, actions, content, names, size);
      }
    } else {
      var content, states := Blocks(Misfit(names, size), names, size);
    }
  }

  lemma AlwaysPasses(states: seq<State>, actions: seq<Action>, content: Contents, names: set<seq<Codec.byte>>, size: nat)
    requires FromSocket(content, names, size) && Waits(states, actions, content) && Fits(names, size)
    ensures Passes(states, actions, content)
  {
    hide Receivable, Fits, Codec.Encode, Passes;
    AllEncodableIff(names, size);
    PassesIff(states, actions, content);
    assert Receivable(content(Due(states[|actions|])), names, size);
  }
}
