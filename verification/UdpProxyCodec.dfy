/**
 The frps UDP proxy over a work connection that speaks the binary packet codec: a packet that has no
 encoding is never accepted, and nothing behind it is.
 */
module UdpProxyCodec {
  import opened Prelude
  import opened UdpProxy
  import opened UserSocket

  /** A packet is about to be written. */
  predicate Writes(s: State, act: Action) {
    act == SendStep(Yes) && s.cycle.Some? && s.cycle.value.sender.Write?
  }

  /** The connections speak the codec: a write succeeds only if the packet has an encoding. */
  ghost predicate SpeaksBinary(states: seq<State>, actions: seq<Action>, content: Contents)
    requires |actions| <= |states|
  {
    forall i | 0 <= i < |actions| :: Writes(states[i], actions[i]) ==> Encodable(states[i].cycle.value.sender.packet, content)
  }

  lemma AcceptStep(s: State, act: Action)
    requires Enabled(s, act)
    ensures var s' := Apply(s, act);
            if Writes(s, act) then s'.accepted == s.accepted + [s.cycle.value.sender.packet] else s'.accepted == s.accepted
  {
  }

  lemma {:induction false} AcceptedHasEncoding(states: seq<State>, actions: seq<Action>, content: Contents, i: nat)
    requires IsRun(states, actions) && SpeaksBinary(states, actions, content) && i < |states|
    ensures forall p <- states[i].accepted :: Encodable(p, content)
  {
    hide Enabled, Apply, Encodable;
    if i != 0 {
      AcceptedHasEncoding(states, actions, content, i - 1);
      AcceptStep(states[i - 1], actions[i - 1]);
    }
  }

  /** However often the proxy reconnects, only packets before the first without an encoding are ever accepted. */
  lemma NothingPasses(states: seq<State>, actions: seq<Action>, content: Contents, i: nat)
    requires IsRun(states, actions) && SpeaksBinary(states, actions, content) && i < |states|
    ensures states[i].accepted <= states[i].enqueued[..Sendable(states[i].enqueued, content)]
  {
    var s := states[i];
    Delivery(states, actions, i);
    AcceptedHasEncoding(states, actions, content, i);
    SendableIs(s.enqueued, content);
    assert forall k | 0 <= k < |s.accepted| :: s.enqueued[k] == s.accepted[k] && Encodable(s.enqueued[k], content);
  }

  lemma StaysInFlight(s: State, act: Action)
    requires Orderly(s) && Enabled(s, act) && InFlight(s).Some? && !Writes(s, act)
    ensures InFlight(Apply(s, act)) == InFlight(s)
  {
    InCycleIffCycle(s);
    hide Orderly;
    match act
    case DispatchStep(pick) => DispatchCarries(s, pick);
    case SendStep(pick) =>
    case _ =>
  }

  lemma BlockedStep(s: State, act: Action)
    requires Inv(s) && Enabled(s, act) && InFlight(s).Some? && !(Writes(s, act) && InFlight(s) == Some(s.cycle.value.sender.packet))
    ensures InFlight(Apply(s, act)) == InFlight(s) && Apply(s, act).accepted == s.accepted
  {
    hide Orderly, Apply;
    AcceptStep(s, act);
    StaysInFlight(s, act);
  }

  /** Once such a packet is taken from the queue it stays in flight for good, and nothing is accepted any more. */
  lemma {:induction false} BlockedForGood(states: seq<State>, actions: seq<Action>, content: Contents, i: nat, j: nat)
    requires IsRun(states, actions) && SpeaksBinary(states, actions, content) && i <= j < |states|
    requires InFlight(states[i]).Some? && !Encodable(InFlight(states[i]).value, content)
    ensures InFlight(states[j]) == InFlight(states[i]) && states[j].accepted == states[i].accepted
    decreases j
  {
    hide Inv, Enabled, Apply, InFlight, Encodable;
    if i < j {
      BlockedForGood(states, actions, content, i, j - 1);
      RunKeepsInv(states, actions, j - 1);
      BlockedStep(states[j - 1], actions[j - 1]);
    }
  }
}
