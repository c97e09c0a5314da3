/** What TCP groups guarantee about their members and their registry, over every run. */
module TcpGroupTheorems {
  import opened Prelude
  import opened TcpGroup
  import opened TcpGroupInvariant
  import Ports

  // ---------------------------------------------------------------------------------------
  // Members

  /** The real listeners are those of the groups that have members, one port for each. */
  lemma PortBoundIffListeners(states: seq<State>, actions: seq<Action>, allowed: set<int>, i: nat, p: int)
    requires IsRun(states, actions, allowed) && i < |states|
    ensures p in states[i].bound <==> exists g :: Listening(states[i], g, p)
    ensures forall g, h | Listening(states[i], g, p) && Listening(states[i], h, p) :: g == h
  {
    RunKeepsInv(states, actions, allowed, i);
    forall g | Listening(states[i], g, p) ensures p in states[i].bound { assert GroupOk(states[i], g); }
  }

  /** A group with members is the registered one, and its listeners are its members, one each. */
  lemma NonEmptyIsRegistered(states: seq<State>, actions: seq<Action>, allowed: set<int>, i: nat, g: GroupID)
    requires IsRun(states, actions, allowed) && i < |states| && g in states[i].groups
    ensures var s, group := states[i], states[i].groups[g];
            && (group.lns != {} ==> IsCurrent(s, group.name, g) && forall n :: IsCurrent(s, n, g) ==> n == group.name)
            && (forall ln :: ln in group.lns <==> Owned(s, g, ln))
            && (forall t, u | t in s.callers && u in s.callers && s.callers[t].Joined? && s.callers[u].Joined? && s.callers[t].ln == s.callers[u].ln :: t == u)
  {
    var s := states[i];
    RunKeepsInv(states, actions, allowed, i);
    assert GroupOk(s, g);
    forall ln | Owned(s, g, ln) ensures ln in s.groups[g].lns {
      var t :| t in s.callers && s.callers[t].Joined? && s.callers[t].g == g && s.callers[t].ln == ln;
      assert CallerOk(s, t);
    }
    forall t, u | t in s.callers && u in s.callers && s.callers[t].Joined? && s.callers[u].Joined? && s.callers[t].ln == s.callers[u].ln ensures t == u {
      assert Apart(s, t, u);
    }
  }

  /** Members that named the same group share its object, key, address, port and listener; members of different groups share no port. */
  lemma MembersAgree(states: seq<State>, actions: seq<Action>, allowed: set<int>, i: nat, t: nat, u: nat)
    requires IsRun(states, actions, allowed) && i < |states| && t in states[i].callers && u in states[i].callers
    requires states[i].callers[t].Joined? && states[i].callers[u].Joined?
    ensures var c, d := states[i].callers[t], states[i].callers[u];
            && (c.req.group == d.req.group <==> c.g == d.g)
            && (c.g == d.g <==> c.realPort == d.realPort)
            && (c.g == d.g ==> c.req.key == d.req.key && c.req.addr == d.req.addr && c.req.port == d.req.port)
  {
    var s := states[i];
    RunKeepsInv(states, actions, allowed, i);
    assert CallerOk(s, t) && CallerOk(s, u);
    var c, d := s.callers[t], s.callers[u];
    assert GroupOk(s, c.g) && GroupOk(s, d.g);
    assert Listening(s, c.g, c.realPort) && Listening(s, d.g, d.realPort);
  }

  // ---------------------------------------------------------------------------------------
  // A stale group

  predicate Unregisters(s: State, act: Action, g: GroupID) {
    act.UnregisterStep? && act.t in s.callers && s.callers[act.t].Unregistering? && s.callers[act.t].g == g
  }

  lemma UnregisterCurrent(s: State, t: nat, g: GroupID)
    requires Enabled(s, UnregisterStep(t)) && g in s.groups && CallerOk(s, t)
    ensures var s', n := Apply(s, UnregisterStep(t)), s.groups[g].born;
            g in s'.groups && s'.groups[g].born == n && (IsCurrent(s', n, g) <==> IsCurrent(s, n, g) && s.callers[t].g != g)
  {
  }

  lemma OtherCurrent(s: State, act: Action, g: GroupID)
    requires Enabled(s, act) && !act.UnregisterStep? && g in s.groups && g < s.nextGroup
    ensures var s', n := Apply(s, act), s.groups[g].born;
            g in s'.groups && s'.groups[g].born == n && (IsCurrent(s', n, g) <==> IsCurrent(s, n, g))
  {
    hide Ports.Acquired, Ports.Released, Refusal, Free;
  }

  /** A group is registered until it is unregistered, and never again. */
  lemma CurrentStep(s: State, act: Action, g: GroupID)
    requires Inv(s) && Enabled(s, act) && g in s.groups
    ensures var s', n := Apply(s, act), s.groups[g].born;
            g in s'.groups && s'.groups[g].born == n && (IsCurrent(s', n, g) <==> IsCurrent(s, n, g) && !Unregisters(s, act, g))
  {
    assert GroupOk(s, g);
    if act.UnregisterStep? {
      assert CallerOk(s, act.t);
      hide Inv;
      UnregisterCurrent(s, act.t, g);
    } else {
      hide Inv;
      OtherCurrent(s, act, g);
    }
  }

  lemma {:induction false} CurrentIff(states: seq<State>, actions: seq<Action>, allowed: set<int>, j: nat, i: nat, g: GroupID)
    requires IsRun(states, actions, allowed) && j <= i < |states| && g in states[j].groups
    ensures var n := states[j].groups[g].born;
            && g in states[i].groups && states[i].groups[g].born == n
            && (IsCurrent(states[i], n, g) <==> IsCurrent(states[j], n, g) && forall k | j <= k < i :: !Unregisters(states[k], actions[k], g))
    decreases i
  {
    hide Inv, Apply, Enabled, Unregisters, IsCurrent, Init;
    if j < i {
      CurrentIff(states, actions, allowed, j, i - 1, g);
      RunKeepsInv(states, actions, allowed, i - 1);
      CurrentStep(states[i - 1], actions[i - 1], g);
    }
  }

  /** The lookup, at step `j`, that found the group caller `t` is about to listen on before step `i`. */
  predicate LookedUp(states: seq<State>, actions: seq<Action>, t: nat, j: nat, i: nat)
    requires i < |states| == |actions| + 1 && t in states[i].callers && states[i].callers[t].Listen?
  {
    && j < i && actions[j] == LookupStep(t)
    && t in states[j + 1].callers && states[j + 1].callers[t] == states[i].callers[t]
    && IsCurrent(states[j + 1], states[i].callers[t].req.group, states[i].callers[t].g)
  }

  lemma LookupStepShows(s: State, act: Action, t: nat)
    requires Enabled(s, act)
    ensures var s' := Apply(s, act);
            t in s'.callers && s'.callers[t].Listen? ==>
              || (t in s.callers && s.callers[t] == s'.callers[t])
              || (act == LookupStep(t) && IsCurrent(s', s'.callers[t].req.group, s'.callers[t].g))
  {
  }

  lemma {:induction false} WasLookedUp(states: seq<State>, actions: seq<Action>, allowed: set<int>, t: nat, i: nat)
    requires IsRun(states, actions, allowed) && i < |states| && t in states[i].callers && states[i].callers[t].Listen?
    ensures exists j: nat :: LookedUp(states, actions, t, j, i)
  {
    LookupStepShows(states[i - 1], actions[i - 1], t);
    if t in states[i - 1].callers && states[i - 1].callers[t] == states[i].callers[t] {
      WasLookedUp(states, actions, allowed, t, i - 1);
      var j: nat :| LookedUp(states, actions, t, j, i - 1);
      assert LookedUp(states, actions, t, j, i);
    } else {
      assert LookedUp(states, actions, t, i - 1, i);
    }
  }

  /**
   A caller finds its group stale exactly when the group was unregistered after that caller looked it
   up; and then it has no member.
   */
  lemma StaleMeansEmptied(states: seq<State>, actions: seq<Action>, allowed: set<int>, t: nat, i: nat)
    requires IsRun(states, actions, allowed) && i < |states| && t in states[i].callers && states[i].callers[t].Listen?
    ensures var req, g := states[i].callers[t].req, states[i].callers[t].g;
            exists j: nat :: && LookedUp(states, actions, t, j, i)
                        && (!IsCurrent(states[i], req.group, g) <==> exists k | j < k < i :: Unregisters(states[k], actions[k], g))
                        && (!IsCurrent(states[i], req.group, g) ==> g in states[i].groups && states[i].groups[g].lns == {})
  {
    var req, g := states[i].callers[t].req, states[i].callers[t].g;
    WasLookedUp(states, actions, allowed, t, i);
    var j: nat :| LookedUp(states, actions, t, j, i);
    RunKeepsInv(states, actions, allowed, j + 1);
    About(states[j + 1], t);
    CurrentIff(states, actions, allowed, j + 1, i, g);
    RunKeepsInv(states, actions, allowed, i);
    About(states[i], t);
    hide Inv, IsRun;
    assert LookedUp(states, actions, t, j, i);
    assert !IsCurrent(states[i], req.group, g) <==> exists k | j < k < i :: Unregisters(states[k], actions[k], g);
  }

  /** When a group is unregistered it has no member. */
  lemma UnregisteredIsEmpty(states: seq<State>, actions: seq<Action>, allowed: set<int>, i: nat, g: GroupID)
    requires IsRun(states, actions, allowed) && i < |actions| && Unregisters(states[i], actions[i], g)
    ensures g in states[i].groups && states[i].groups[g].lns == {} && !states[i].groups[g].holds
  {
    RunKeepsInv(states, actions, allowed, i);
    About(states[i], actions[i].t);
  }
}
