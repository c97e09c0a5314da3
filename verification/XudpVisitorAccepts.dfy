/**
 When the XUDP visitor can still have a packet accepted: one too large for P2P is dropped exactly when
 it can no longer avoid being sent there, and so every packet can always be accepted exactly when the
 configured packet size leaves room for the address in 1150 bytes.
 */
module XudpVisitorAccepts {
  import opened Prelude
  import opened XudpVisitor
  import opened XudpVisitorTheorems
  import opened XudpVisitorPasses
  import opened UserSocket
  import Codec

  // ---------------------------------------------------------------------------------------
  // The way to a P2P transport

  /** The transport is going to return the packet it has to the dispatcher, unsent. */
  predicate GivenBack(s: State, x: Act) {
    match x.runner
    case Register => x.first.Some? && (s.closed || x.conn !in s.open)
    case FirstGuard => x.first.Some? && x.conn !in s.open
    case FirstSend => x.conn !in s.open
    case FirstSent => false
    case Returned(p) => p.Some?
    case _ =>
      match x.sender
      case Taken(_) => SenderStops(s, x)
      case Guarded(_) => x.conn !in s.open
      case Sending(_) => x.conn !in s.open
      case _ => x.handoff.Some?
  }

  /** The transport is going to try and send the packet it has. */
  predicate Sends(x: Act) {
    match x.runner
    case Register => x.first.Some?
    case FirstGuard => x.first.Some?
    case FirstSend => true
    case Watch => x.sender.Guarded? || x.sender.Sending?
    case Join => x.sender.Guarded? || x.sender.Sending?
    case _ => false
  }

  /**
   The packet in flight is sent over P2P next, if at all. So it is when a P2P transport is past its last
   check, or when the packet is with the dispatcher, or about to be, that has dialled a P2P connection.
   A visitor that has been closed sends nothing that comes to its dispatcher.
   */
  predicate Committed(s: State) {
    match ActOf(s.d)
    case None => PendingOf(s.d).Some? && ToP2P(s)
    case Some(a) => a in s.acts && ((s.d.RunP2P? && Sends(s.acts[a])) || (ToP2P(s) && GivenBack(s, s.acts[a])))
  }

  predicate ToP2P(s: State) {
    s.closed || Candidate(s.d).Some?
  }

  /** A step over lawful transports, when the packet in flight is too large for P2P. */
  predicate LargeStep(s: State, act: Action) {
    && Enabled(s, act)
    && (Tries(s, act).Some? ==> (act.outcome == TooLarge <==> s.d.RunP2P?))
    && (Settles(s, act) && act.outcome == Sent ==> OnOpen(s, act))
  }

  /** The packet remains committed, or is dropped or given up. */
  predicate Remains(s: State, s': State) {
    || (s'.fates == s.fates && Committed(s'))
    || (|s'.fates| == |s.fates| + 1 && !s'.fates[|s.fates|].Accepted?)
  }

  lemma StaysCommitted(s: State, act: Action)
    requires OneTransport(s) && ConnsOk(s) && Committed(s) && LargeStep(s, act)
    ensures Remains(s, Apply(s, act))
  {
    match act
    case DispatchStep(pick) => DispatchStays(s, pick);
    case RunStep(a, outcome) => RunStays(s, a, outcome);
    case ReadStep(a, got, room) => ReadStays(s, a, got, room);
    case SendStep(a, take, outcome) => SendStays(s, a, take, outcome);
    case _ => OtherStays(s, act);
  }

  lemma DispatchStays(s: State, pick: Pick)
    requires OneTransport(s) && Committed(s) && CanDispatch(s, pick)
    ensures Remains(s, Dispatch(s, pick))
  {
  }

  lemma RunStays(s: State, a: ActID, outcome: Outcome)
    requires OneTransport(s) && Committed(s) && LargeStep(s, RunStep(a, outcome))
    ensures Remains(s, Run(s, a, outcome))
  {
    var x := s.acts[a];
    if s.d.RunP2P? && Sends(x) { RunSends(s, a, outcome); } else { RunGivesBack(s, a, outcome); }
  }

  lemma RunSends(s: State, a: ActID, outcome: Outcome)
    requires OneTransport(s) && a in s.acts && s.d.RunP2P? && Sends(s.acts[a]) && LargeStep(s, RunStep(a, outcome))
    ensures Remains(s, Run(s, a, outcome))
  {
  }

  lemma RunGivesBack(s: State, a: ActID, outcome: Outcome)
    requires OneTransport(s) && a in s.acts && ToP2P(s) && GivenBack(s, s.acts[a]) && !(s.d.RunP2P? && Sends(s.acts[a]))
    requires LargeStep(s, RunStep(a, outcome))
    ensures Remains(s, Run(s, a, outcome))
  {
  }

  lemma ReadStays(s: State, a: ActID, got: Option<Packet>, room: bool)
    requires OneTransport(s) && Committed(s) && CanRead(s, a)
    ensures Remains(s, Read(s, a, got, room))
  {
    var s' := Read(s, a, got, room);
    var x, y := s.acts[a], s'.acts[a];
    assert y == x.(reader := y.reader) && !x.reader.ReadDone?;
    assert s' == s.(acts := s.acts[a := y], readCh := s'.readCh);
    hide Read, CanRead;
  }

  lemma SendStays(s: State, a: ActID, take: bool, outcome: Outcome)
    requires OneTransport(s) && Committed(s) && LargeStep(s, SendStep(a, take, outcome))
    ensures Remains(s, Send(s, a, take, outcome))
  {
    if s.d.RunP2P? && Sends(s.acts[a]) { SendSends(s, a, take, outcome); } else { SendGivesBack(s, a, take, outcome); }
  }

  lemma SendSends(s: State, a: ActID, take: bool, outcome: Outcome)
    requires OneTransport(s) && a in s.acts && s.d.RunP2P? && Sends(s.acts[a]) && LargeStep(s, SendStep(a, take, outcome))
    ensures Remains(s, Send(s, a, take, outcome))
  {
  }

  lemma SendGivesBack(s: State, a: ActID, take: bool, outcome: Outcome)
    requires OneTransport(s) && a in s.acts && ToP2P(s) && GivenBack(s, s.acts[a]) && !(s.d.RunP2P? && Sends(s.acts[a]))
    requires LargeStep(s, SendStep(a, take, outcome))
    ensures Remains(s, Send(s, a, take, outcome))
  {
  }

  lemma OtherStays(s: State, act: Action)
    requires OneTransport(s) && Committed(s) && Enabled(s, act)
    requires !act.DispatchStep? && !act.RunStep? && !act.ReadStep? && !act.SendStep?
    ensures Remains(s, Apply(s, act))
  {
  }

  // ---------------------------------------------------------------------------------------
  // Going another way

  /** A large packet that is not committed is kept off P2P. */
  lemma NextAvoids(s: State)
    requires InHand(s) && !Committed(s) && Enabled(s, Next(s, true))
    ensures if Settles(s, Next(s, true)) then Next(s, true).outcome == Sent else !Committed(Apply(s, Next(s, true)))
  {
    NextStays(s, true);
    if ActOf(s.d).Some? { ActAvoids(s); }
  }

  lemma ActAvoids(s: State)
    requires InHand(s) && ActOf(s.d).Some? && !Committed(s) && Enabled(s, Next(s, true))
    ensures if Settles(s, Next(s, true)) then Next(s, true).outcome == Sent else !Committed(Apply(s, Next(s, true)))
  {
    var a := ActOf(s.d).value;
    match Next(s, true)
    case DispatchStep(pick) => DispatchAvoids(s, a, pick);
    case RunStep(_, outcome) => if !Settles(s, Next(s, true)) { RunAvoids(s, a, outcome); }
    case ReadStep(_, _, _) => ReadAvoids(s, a);
    case SendStep(_, take, outcome) => if !Settles(s, Next(s, true)) { SendAvoids(s, a, take, outcome); }
    case _ => assert false;
  }

  lemma DispatchAvoids(s: State, a: ActID, pick: Pick)
    requires Current(s, a) && !s.closed && !Committed(s) && CanDispatch(s, pick)
    requires s.acts[a].runner.Returned? && pick == (if s.d.Probe? then No else Yes)
    ensures !Committed(Dispatch(s, pick))
  {
  }

  lemma RunAvoids(s: State, a: ActID, outcome: Outcome)
    requires Current(s, a) && !s.closed && !Committed(s) && CanRun(s, a) && !Settles(s, RunStep(a, outcome))
    requires s.acts[a].runner in {Watch, Join} ==> s.acts[a].sender.SendDone? && s.acts[a].reader.ReadDone?
    requires s.acts[a].runner.FirstSend? ==> s.acts[a].conn !in s.open
    ensures !Committed(Run(s, a, outcome))
  {
  }

  lemma ReadAvoids(s: State, a: ActID)
    requires Current(s, a) && !s.closed && !Committed(s) && CanRead(s, a)
    requires s.acts[a].runner in {Watch, Join} && !Hopeful(s, s.acts[a], true)
    ensures !Committed(Read(s, a, None, true))
  {
    var s' := Read(s, a, None, true);
    var x, y := s.acts[a], s'.acts[a];
    assert y == x.(reader := y.reader) && !x.reader.ReadDone?;
    assert s' == s.(acts := s.acts[a := y], readCh := s'.readCh);
    hide Read, CanRead;
  }

  lemma SendAvoids(s: State, a: ActID, take: bool, outcome: Outcome)
    requires Current(s, a) && !s.closed && !Committed(s) && CanSend(s, a, take) && !Settles(s, SendStep(a, take, outcome))
    requires s.acts[a].runner in {Watch, Join} && (s.acts[a].sender.Sending? ==> s.acts[a].conn !in s.open)
    requires if Hopeful(s, s.acts[a], true) then take else !take && s.acts[a].reader.ReadDone?
    ensures !Committed(Send(s, a, take, outcome))
  {
  }

  // ---------------------------------------------------------------------------------------
  // Continuing a run

  /** In `s'` the packet due in `s` has been accepted, and nothing else has happened to a packet. */
  predicate AcceptedNext(s: State, s': State)
    requires |s.fates| < |s.enqueued|
  {
    SettledNext(s, s') && s'.fates[|s.fates|].Accepted?
  }

  /** The run can go on so that the next packet is accepted. */
  ghost predicate Accepts(states: seq<State>, actions: seq<Action>, content: Contents)
    requires Waits(states, actions, content)
  {
    exists states': seq<State>, actions': seq<Action> ::
      && GoesOn(states, actions, states', actions', content, |actions|)
      && AcceptedNext(states[|actions|], states'[|actions'|])
  }

  lemma NextAccepts(s: State, content: Contents)
    requires Inv(s) && !s.closed && |s.fates| < |s.enqueued| && Encodable(Due(s), content) && !(Large(Due(s), content) && Committed(s))
    ensures var act := Next(s, Large(Due(s), content));
            && Enabled(s, act)
            && var s' := Apply(s, act);
            if Settles(s, act) then |s'.fates| > |s.fates| && s'.fates[|s.fates|].Accepted? else !(Large(Due(s), content) && Committed(s'))
  {
    DueIs(s);
    assert InHand(s);
    hide InHand, Inv, Apply, Enabled, Next, Tries, InFlight, Encodable, Large, Committed;
    NextEnabled(s, Large(Due(s), content));
    FateStep(s, Next(s, Large(Due(s), content)));
    if Large(Due(s), content) { NextAvoids(s); }
  }

  lemma {:induction false} GetsAccepted(states: seq<State>, actions: seq<Action>, content: Contents) returns (states': seq<State>, actions': seq<Action>)
    requires Waits(states, actions, content) && Encodable(Due(states[|actions|]), content)
    requires !(Large(Due(states[|actions|]), content) && Committed(states[|actions|]))
    ensures GoesOn(states, actions, states', actions', content, |actions|)
    ensures AcceptedNext(states[|actions|], states'[|actions'|])
    decreases Rank(states[|actions|], Large(Due(states[|actions|]), content))
  {
    var s := states[|actions|];
    RunKeepsInv(states, actions, |actions|);
    hide Inv, Apply, Enabled, Encodable, Large, Lawful, Committed, Next, Rank, IsRun, SpeaksBinary, GoesOn, Settles, Tries, OnOpen;
    NextHelps(s, content);
    NextAccepts(s, content);
    var act := Next(s, Large(Due(s), content));
    states', actions' := Extend(states, actions, content, act);
    if !Settles(s, act) {
      var states1, actions1 := states', actions';
      states', actions' := GetsAccepted(states1, actions1, content);
      GoesOnTwice(states, actions, states1, actions1, states', actions', content);
    }
  }

  /** What is tried is what is in flight. */
  lemma TriesInFlight(s: State, act: Action)
    requires OneTransport(s) && Enabled(s, act) && Tries(s, act).Some?
    ensures Tries(s, act) == InFlight(s)
  {
  }

  /** From a state where a large packet is due and committed, nothing accepts it. */
  lemma {:induction false} NeverAccepted(states: seq<State>, actions: seq<Action>, content: Contents, n: nat, j: nat)
    requires IsRun(states, actions) && SpeaksBinary(states, actions, content) && n <= j < |states|
    requires GoesOn(states[..n + 1], actions[..n], states, actions, content, n)
    requires |states[n].fates| < |states[n].enqueued| && Large(Due(states[n]), content) && Committed(states[n])
    ensures var k := |states[n].fates|;
            if |states[j].fates| == k then Committed(states[j]) else |states[j].fates| > k && !states[j].fates[k].Accepted?
    ensures states[n].enqueued <= states[j].enqueued
    decreases j - n
  {
    if j > n {
      NeverAccepted(states, actions, content, n, j - 1);
      RunKeepsInv(states, actions, j - 1);
      CommittedStep(states[j - 1], actions[j - 1], content, Due(states[n]), |states[n].fates|);
    }
  }

  lemma CommittedStep(s: State, act: Action, content: Contents, p: Packet, k: nat)
    requires Inv(s) && Enabled(s, act) && Lawful(s, act, content) && (Settles(s, act) && act.outcome == Sent ==> OnOpen(s, act))
    requires k < |s.enqueued| && s.enqueued[k] == p && Large(p, content)
    requires if |s.fates| == k then Committed(s) else |s.fates| > k && !s.fates[k].Accepted?
    ensures var s' := Apply(s, act);
            && s.enqueued <= s'.enqueued
            && if |s'.fates| == k then Committed(s') else |s'.fates| > k && !s'.fates[k].Accepted?
  {
    FateStep(s, act);
    EnqueuedGrows(s, act);
    if |s.fates| == k {
      DueIs(s);
      if Tries(s, act).Some? { TriesInFlight(s, act); }
      StaysCommitted(s, act);
    }
  }

  lemma EnqueuedGrows(s: State, act: Action)
    requires Enabled(s, act)
    ensures s.enqueued <= Apply(s, act).enqueued
  {
    hide CanDispatch, CanRun, CanRead, CanSend, IsCurrent, SenderStops, Stopping;
    match act
    case DispatchStep(pick) => hide Run, Read, Send;
    case RunStep(a, outcome) => hide Dispatch, Read, Send;
    case SendStep(a, take, outcome) => hide Dispatch, Run, Read;
    case _ => hide Dispatch, Run, Send;
  }

  // ---------------------------------------------------------------------------------------
  // Theorems

  /** The next packet can still be accepted exactly when it has an encoding, and is small enough for P2P or not committed to it. */
  lemma AcceptsIff(states: seq<State>, actions: seq<Action>, content: Contents)
    requires Waits(states, actions, content)
    ensures var s := states[|actions|];
            Accepts(states, actions, content) <==> Encodable(Due(s), content) && !(Large(Due(s), content) && Committed(s))
  {
    var s := states[|actions|];
    hide Encodable, Large, Committed;
    if Encodable(Due(s), content) && !(Large(Due(s), content) && Committed(s)) {
      var states', actions' := GetsAccepted(states, actions, content);
    } else if Accepts(states, actions, content) {
      var states': seq<State>, actions': seq<Action> :|
        && GoesOn(states, actions, states', actions', content, |actions|)
        && AcceptedNext(s, states'[|actions'|]);
      SettledHasEncoding(states', actions', content, |actions'|);
      assert states'[..|actions| + 1] == states && actions'[..|actions|] == actions;
      NeverAccepted(states', actions', content, |actions|, |actions'|);
    }
  }

  /** Every packet that applications send can always be accepted, in every run of the open visitor. */
  ghost predicate NeverDropped(names: set<seq<Codec.byte>>, size: nat) {
    forall content: Contents, states: seq<State>, actions: seq<Action> ::
      FromSocket(content, names, size) && Waits(states, actions, content) ==> Accepts(states, actions, content)
  }

  const P2P_ACTIONS := [Enqueue(0), DispatchStep(Yes), DispatchStep(Yes), DispatchStep(Yes)]

  /** Once the first P2P dial succeeds, a packet that is too large for P2P or has no encoding cannot be accepted any more. */
  lemma Drops(p: Codec.Packet, names: set<seq<Codec.byte>>, size: nat) returns (content: Contents, states: seq<State>)
    requires Receivable(p, names, size)
    requires Codec.Encode(Some(p)).Ok? ==> |Codec.Encode(Some(p)).value| > MAX_P2P_PAYLOAD
    ensures FromSocket(content, names, size) && content(0) == p
    ensures Waits(states, P2P_ACTIONS, content) && !Accepts(states, P2P_ACTIONS, content)
  {
    hide Codec.Encode, Accepts, Receivable;
    content := _ => p;
    var s1 := Apply(Init, Enqueue(0));
    var s2 := Apply(s1, DispatchStep(Yes));
    var s3 := Apply(s2, DispatchStep(Yes));
    states := [Init, s1, s2, s3, Apply(s3, DispatchStep(Yes))];
    AcceptsIff(states, P2P_ACTIONS, content);
  }

  /** For one: under the default packet size, 1400 bytes from 10.0.0.1:5000, which do have an encoding. */
  lemma DropsDefault() returns (content: Contents, states: seq<State>)
    ensures FromSocket(content, {}, DEFAULT_PACKET_SIZE) && Encodable(0, content) && |content(0).content| == 1400
    ensures Waits(states, P2P_ACTIONS, content) && Passes(states, P2P_ACTIONS, content) && !Accepts(states, P2P_ACTIONS, content)
  {
    var p := Codec.Packet(seq(1400, _ => 0), None, Some(Codec.Addr([10, 0, 0, 1], 5000, [])));
    EncodableIff(p, {}, DEFAULT_PACKET_SIZE);
    EncodedSize(p, {}, DEFAULT_PACKET_SIZE);
    hide Codec.Encode, Accepts, Passes;
    content, states := Drops(p, {}, DEFAULT_PACKET_SIZE);
    PassesIff(states, P2P_ACTIONS, content);
  }

  /** What an operator can check: the address and `size` bytes fit P2P, whichever interface a packet comes in by. */
  predicate FitsP2P(names: set<seq<Codec.byte>>, size: nat) {
    size <= MAX_P2P_PAYLOAD - 23 && forall z <- names :: Codec.ValidUTF8(z) && |z| < 0x100 && size + |z| <= MAX_P2P_PAYLOAD - 23
  }

  /** A receivable packet that has no encoding or too large a one. */
  ghost function LargeMisfit(names: set<seq<Codec.byte>>, size: nat): (p: Codec.Packet)
    requires !FitsP2P(names, size)
    ensures Receivable(p, names, size) && (Codec.Encode(Some(p)).Ok? ==> |Codec.Encode(Some(p)).value| > MAX_P2P_PAYLOAD)
  {
    if size > MAX_P2P_PAYLOAD - 23 then
      var p := Zeros(MAX_P2P_PAYLOAD - 22, []);
      EncodedSize(p, names, size);
      p
    else
      var bad :| bad in names && !(Codec.ValidUTF8(bad) && |bad| < 0x100 && size + |bad| <= MAX_P2P_PAYLOAD - 23);
      var p := Zeros(size, bad);
      EncodedSize(p, names, size);
      p
  }

  /** So nothing applications send need ever be dropped exactly when the packet size in the configuration fits P2P. */
  lemma NeverDroppedIff(names: set<seq<Codec.byte>>, size: nat)
    ensures NeverDropped(names, size) <==> FitsP2P(names, size)
  {
    hide Receivable, FitsP2P, Codec.Encode, Waits, Accepts;
    if FitsP2P(names, size) {
      forall content: Contents, states: seq<State>, actions: seq<Action> | FromSocket(content, names, size) && Waits(states, actions, content)
        ensures Accepts(states, actions, content)
      {
        AlwaysAccepts(states, actions, content, names, size);
      }
    } else {
      var content, states := Drops(LargeMisfit(names, size), names, size);
    }
  }

  lemma AlwaysAccepts(states: seq<State>, actions: seq<Action>, content: Contents, names: set<seq<Codec.byte>>, size: nat)
    requires FromSocket(content, names, size) && Waits(states, actions, content) && FitsP2P(names, size)
    ensures Accepts(states, actions, content)
  {
    hide Codec.Encode, Accepts;
    var p := content(Due(states[|actions|]));
    assert Receivable(p, names, size);
    EncodableIff(p, names, size);
    EncodedSize(p, names, size);
    hide Receivable, FitsP2P, Waits;
    AcceptsIff(states, actions, content);
  }
}
