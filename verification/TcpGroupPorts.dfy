/**
 The ports of TCP groups and the port manager's table: when exactly a port in use has one holder, and
 how that fails.
 */
module TcpGroupPorts {
  import opened Prelude
  import opened TcpGroup
  import opened TcpGroupInvariant
  import Ports

  // ---------------------------------------------------------------------------------------
  // The table

  ghost predicate TableOk(t: Ports.Table, allowed: set<int>) {
    t.free + t.used == allowed && t.free !! t.used && (forall n <- t.reserved :: t.reserved[n] in allowed)
  }

  lemma AcquiredKeepsTable(t: Ports.Table, allowed: set<int>, name: string, port: int, available: set<int>, order: seq<int>)
    requires TableOk(t, allowed) && Ports.IsOrder(order, t.free)
    ensures TableOk(Ports.Acquired(t, name, port, available, order).0, allowed)
  {
    Ports.FindFirstIs(order, available, Ports.MAX_TRY_TIMES);
  }

  /** Free and used ports always divide the allowed ones, and only allowed ports are reserved. */
  lemma {:induction false} TablePartition(states: seq<State>, actions: seq<Action>, allowed: set<int>, i: nat)
    requires IsRun(states, actions, allowed) && i < |states|
    ensures TableOk(states[i].ports, allowed)
  {
    if i != 0 {
      TablePartition(states, actions, allowed, i - 1);
      TableStep(states[i - 1], actions[i - 1], allowed);
    }
  }

  lemma TableStep(s: State, act: Action, allowed: set<int>)
    requires Enabled(s, act) && TableOk(s.ports, allowed)
    ensures TableOk(Apply(s, act).ports, allowed)
  {
    hide Ports.Acquired;
    if act.ListenStep? {
      var req := s.callers[act.t].req;
      AcquiredKeepsTable(s.ports, allowed, req.proxy, req.port, act.available, act.order);
    }
  }

  // ---------------------------------------------------------------------------------------
  // Holders

  /** A port belongs to a group from its binding to its release, and before that to the caller that acquired it. */
  datatype Holder = OfGroup(g: GroupID) | OfCaller(t: nat)

  predicate Holds(s: State, h: Holder, p: int) {
    match h
    case OfGroup(g) => g in s.groups && s.groups[g].holds && s.groups[g].realPort == p
    case OfCaller(t) => t in s.callers && s.callers[t].Binding? && s.callers[t].acquired == p
  }

  ghost predicate Held(s: State, p: int) {
    exists h :: Holds(s, h, p)
  }

  /** The manager's used ports are those that have a holder, and each has one. */
  ghost predicate Exclusive(s: State) {
    && (forall p :: p in s.ports.used <==> Held(s, p))
    && (forall h, k, p | Holds(s, h, p) && Holds(s, k, p) :: h == k)
  }

  /** The first listener of a group asks for any port. */
  predicate AsksForAny(s: State, act: Action) {
    && act.ListenStep? && act.t in s.callers && s.callers[act.t].Listen?
    && IsCurrent(s, s.callers[act.t].req.group, s.callers[act.t].g) && s.callers[act.t].g in s.groups && s.groups[s.callers[act.t].g].lns == {}
    && s.callers[act.t].req.port == 0
  }

  predicate ReservationOffered(s: State, act: Action)
    requires AsksForAny(s, act)
  {
    var name := s.callers[act.t].req.proxy;
    name in s.ports.reserved && s.ports.reserved[name] in act.available
  }

  /**
   The steps that spoil it. A port reserved for the name is in use already, though the system can bind
   it; or port 0 is allowed, and found, and recorded as used by nobody.
   */
  predicate Breaks(s: State, act: Action) {
    && AsksForAny(s, act)
    && if ReservationOffered(s, act) then s.ports.reserved[s.callers[act.t].req.proxy] in s.ports.used
       else Ports.FindFirst(act.order, act.available, Ports.MAX_TRY_TIMES) == Some(0)
  }

  lemma SameHolders(s: State, s': State)
    requires s'.ports.used == s.ports.used && (forall h, p :: Holds(s', h, p) <==> Holds(s, h, p)) && Exclusive(s)
    ensures Exclusive(s')
  {
    forall p ensures Held(s', p) <==> Held(s, p) {
      if Held(s, p) {
        var h :| Holds(s, h, p);
        assert Holds(s', h, p);
      }
    }
    forall h, k, p | Holds(s', h, p) && Holds(s', k, p) ensures h == k { assert Holds(s, h, p) && Holds(s, k, p); }
  }

  lemma HolderAdded(s: State, s': State, x: Holder, q: int)
    requires s'.ports.used == s.ports.used + {q} && (forall p :: !Holds(s, x, p)) && Exclusive(s)
    requires forall h, p :: Holds(s', h, p) <==> Holds(s, h, p) || (h == x && p == q)
    ensures Exclusive(s') <==> q !in s.ports.used
  {
    assert Holds(s', x, q);
    if q in s.ports.used {
      assert Held(s, q);
      var h :| Holds(s, h, q);
      assert Holds(s', h, q) && h != x;
    } else {
      assert !Held(s, q);
      forall p ensures p in s'.ports.used <==> Held(s', p) {
        assert Held(s, p) <==> p in s.ports.used;
        if Held(s, p) {
          var h :| Holds(s, h, p);
          assert Holds(s', h, p);
        }
      }
      forall h, k, p | Holds(s', h, p) && Holds(s', k, p) ensures h == k { assert p != q ==> Holds(s, h, p) && Holds(s, k, p); }
    }
  }

  lemma HolderDropped(s: State, s': State, x: Holder, q: int)
    requires Exclusive(s) && Holds(s, x, q) && s'.ports.used == s.ports.used - {q}
    requires forall h, p :: Holds(s', h, p) <==> Holds(s, h, p) && h != x
    ensures Exclusive(s')
  {
    forall p ensures p in s'.ports.used <==> Held(s', p) {
      assert Held(s, p) <==> p in s.ports.used;
      if p != q && Held(s, p) {
        var h :| Holds(s, h, p);
        assert Holds(s', h, p);
      }
    }
    forall h, k, p | Holds(s', h, p) && Holds(s', k, p) ensures h == k { assert Holds(s, h, p) && Holds(s, k, p); }
  }

  lemma HolderChanged(s: State, s': State, x: Holder, y: Holder, q: int)
    requires Exclusive(s) && Holds(s, x, q) && s'.ports.used == s.ports.used && (forall p :: !Holds(s, y, p))
    requires forall h, p :: Holds(s', h, p) <==> (Holds(s, h, p) && h != x) || (h == y && p == q)
    ensures Exclusive(s')
  {
    assert Held(s, q) && Holds(s', y, q);
    forall p ensures p in s'.ports.used <==> Held(s', p) {
      assert Held(s, p) <==> p in s.ports.used;
      if p != q && Held(s, p) {
        var h :| Holds(s, h, p);
        assert Holds(s', h, p);
      }
    }
    forall h, k, p | Holds(s', h, p) && Holds(s', k, p) ensures h == k {
      assert h != y ==> Holds(s, h, p);
      assert k != y ==> Holds(s, k, p);
    }
  }

  // ---------------------------------------------------------------------------------------
  // Step by step

  lemma AcquireBreaksIff(s: State, act: Action)
    requires Inv(s) && Exclusive(s) && Enabled(s, act) && act.ListenStep?
    requires var c := s.callers[act.t]; IsCurrent(s, c.req.group, c.g) && s.groups[c.g].lns == {}
    ensures Exclusive(Apply(s, act)) <==> !Breaks(s, act)
  {
    hide Breaks, Ports.Acquired, GroupOk, CallerOk, RegistryOk, Apart, Owned, BoundOk;
    AcquireOutcome(s, act);
    hide Inv;
    if AcquireFor(s, s.callers[act.t].req, act.available, act.order).1.Ok? { AcquiredHolder(s, act); } else { RefusedHolders(s, act); }
  }

  lemma AcquiredHolder(s: State, act: Action)
    requires Exclusive(s) && Enabled(s, act) && act.ListenStep?
    requires var c := s.callers[act.t]; IsCurrent(s, c.req.group, c.g) && s.groups[c.g].lns == {}
    requires var (table, r) := AcquireFor(s, s.callers[act.t].req, act.available, act.order);
             r.Ok? && table.used == s.ports.used + {r.value}
    ensures Exclusive(Apply(s, act)) <==>
              AcquireFor(s, s.callers[act.t].req, act.available, act.order).1.value !in s.ports.used
  {
    hide Exclusive, Ports.Acquired;
    HolderAdded(s, Apply(s, act), OfCaller(act.t), AcquireFor(s, s.callers[act.t].req, act.available, act.order).1.value);
  }

  lemma RefusedHolders(s: State, act: Action)
    requires Exclusive(s) && Enabled(s, act) && act.ListenStep?
    requires var c := s.callers[act.t]; IsCurrent(s, c.req.group, c.g) && s.groups[c.g].lns == {}
    requires var (table, r) := AcquireFor(s, s.callers[act.t].req, act.available, act.order);
             r.Err? && if Breaks(s, act) then 0 in table.used && 0 !in s.ports.used else table == s.ports
    ensures Exclusive(Apply(s, act)) <==> !Breaks(s, act)
  {
    hide Breaks, Ports.Acquired;
    var s' := Apply(s, act);
    if Breaks(s, act) {
      assert !Held(s, 0);
      assert forall h :: Holds(s', h, 0) <==> Holds(s, h, 0);
      assert !Held(s', 0);
    } else {
      hide Exclusive;
      SameHolders(s, s');
    }
  }

  /** What the manager's answer says about the request. */
  lemma AcquireOutcome(s: State, act: Action)
    requires s.ports.free !! s.ports.used && Enabled(s, act) && act.ListenStep?
    requires var c := s.callers[act.t]; IsCurrent(s, c.req.group, c.g) && s.groups[c.g].lns == {}
    ensures var (table, r) := AcquireFor(s, s.callers[act.t].req, act.available, act.order);
            if r.Ok? then (Breaks(s, act) <==> r.value in s.ports.used) && table.used == s.ports.used + {r.value}
            else if Breaks(s, act) then 0 in table.used && 0 !in s.ports.used
            else table == s.ports
  {
    Ports.FindFirstIs(act.order, act.available, Ports.MAX_TRY_TIMES);
    hide Ports.FindFirst;
  }

  lemma JoinKeepsHolders(s: State, act: Action)
    requires Exclusive(s) && Enabled(s, act) && act.ListenStep?
    requires var c := s.callers[act.t]; !(IsCurrent(s, c.req.group, c.g) && s.groups[c.g].lns == {})
    ensures Exclusive(Apply(s, act))
  {
    hide Exclusive;
    SameHolders(s, Apply(s, act));
  }

  lemma BindKeepsHolders(s: State, t: nat, ok: bool)
    requires Exclusive(s) && Enabled(s, BindStep(t, ok)) && !s.groups[s.callers[t].g].holds
    ensures Exclusive(Apply(s, BindStep(t, ok)))
  {
    var s' := Apply(s, BindStep(t, ok));
    assert Holds(s, OfCaller(t), s.callers[t].acquired);
    assert Held(s, s.callers[t].acquired);
    hide Exclusive;
    if ok {
      HolderChanged(s, s', OfCaller(t), OfGroup(s.callers[t].g), s.callers[t].acquired);
    } else {
      HolderDropped(s, s', OfCaller(t), s.callers[t].acquired);
    }
  }

  lemma ReleaseKeepsHolders(s: State, t: nat)
    requires Exclusive(s) && Enabled(s, ReleaseStep(t)) && s.groups[s.callers[t].g].holds
    ensures Exclusive(Apply(s, ReleaseStep(t)))
  {
    var g := s.callers[t].g;
    assert Holds(s, OfGroup(g), s.groups[g].realPort);
    assert Held(s, s.groups[g].realPort);
    hide Exclusive;
    HolderDropped(s, Apply(s, ReleaseStep(t)), OfGroup(g), s.groups[g].realPort);
  }

  lemma OthersKeepHolders(s: State, act: Action)
    requires Exclusive(s) && Enabled(s, act) && s.nextGroup !in s.groups && !act.ListenStep? && !act.BindStep? && !act.ReleaseStep?
    ensures Exclusive(Apply(s, act))
  {
    hide Exclusive;
    SameHolders(s, Apply(s, act));
  }

  /** After an action used ports have one holder each, if they had before, exactly unless the action is one that spoils it. */
  lemma StepBreaksIff(s: State, act: Action)
    requires Inv(s) && Exclusive(s) && Enabled(s, act)
    ensures Exclusive(Apply(s, act)) <==> !Breaks(s, act)
  {
    hide Exclusive, Apply, GroupOk, CallerOk;
    match act
    case ListenStep(t, _, _) =>
      var c := s.callers[t];
      if IsCurrent(s, c.req.group, c.g) && s.groups[c.g].lns == {} { AcquireBreaksIff(s, act); } else { JoinKeepsHolders(s, act); }
    case BindStep(t, ok) =>
      HoldsOf(s, t);
      BindKeepsHolders(s, t, ok);
    case ReleaseStep(t) =>
      HoldsOf(s, t);
      ReleaseKeepsHolders(s, t);
    case _ =>
      NextIsNew(s);
      OthersKeepHolders(s, act);
  }

  lemma HoldsOf(s: State, t: nat)
    requires Inv(s) && t in s.callers && (s.callers[t].Binding? || s.callers[t].Releasing?)
    ensures s.callers[t].g in s.groups && (s.groups[s.callers[t].g].holds <==> s.callers[t].Releasing?)
  {
    assert CallerOk(s, t);
  }

  lemma NextIsNew(s: State)
    requires Inv(s)
    ensures s.nextGroup !in s.groups
  {
    assert s.nextGroup in s.groups ==> GroupOk(s, s.nextGroup);
  }

  // ---------------------------------------------------------------------------------------
  // Over a run

  predicate NoBreak(states: seq<State>, actions: seq<Action>, n: nat)
    requires n <= |actions| < |states|
  {
    forall i | 0 <= i < n :: !Breaks(states[i], actions[i])
  }

  /** Used ports have one holder each up to a point of a run exactly when no step so far was one that spoils it. */
  lemma {:induction false} ExclusiveIff(states: seq<State>, actions: seq<Action>, allowed: set<int>, n: nat)
    requires IsRun(states, actions, allowed) && n <= |actions|
    ensures (forall i | 0 <= i <= n :: Exclusive(states[i])) <==> NoBreak(states, actions, n)
  {
    if n == 0 {
      assert forall h, p :: !Holds(states[0], h, p);
      assert Exclusive(states[0]);
    } else {
      ExclusiveIff(states, actions, allowed, n - 1);
      RunKeepsInv(states, actions, allowed, n - 1);
      hide Inv, Exclusive, Breaks, Enabled, Apply;
      assert states[n] == Apply(states[n - 1], actions[n - 1]);
      assert NoBreak(states, actions, n) <==> NoBreak(states, actions, n - 1) && !Breaks(states[n - 1], actions[n - 1]);
      if NoBreak(states, actions, n - 1) {
        StepBreaksIff(states[n - 1], actions[n - 1]);
        assert Exclusive(states[n]) <==> !Breaks(states[n - 1], actions[n - 1]);
      }
    }
  }

  /** The system never reports a used port as free. */
  ghost predicate SystemKnows(states: seq<State>, actions: seq<Action>)
    requires |actions| < |states|
  {
    forall i | 0 <= i < |actions| && actions[i].ListenStep? :: actions[i].available !! states[i].ports.used
  }

  lemma KnownNeverBreaks(s: State, act: Action, allowed: set<int>)
    requires Enabled(s, act) && TableOk(s.ports, allowed) && 0 !in allowed && (act.ListenStep? ==> act.available !! s.ports.used)
    ensures !Breaks(s, act)
  {
    if act.ListenStep? { Ports.FindFirstIs(act.order, act.available, Ports.MAX_TRY_TIMES); }
  }

  /** Every used port has one holder, if the system never reports a used port as free and port 0 is not allowed. */
  lemma OneHolder(states: seq<State>, actions: seq<Action>, allowed: set<int>, i: nat)
    requires IsRun(states, actions, allowed) && i < |states| && 0 !in allowed && SystemKnows(states, actions)
    ensures Exclusive(states[i]) && NoBreak(states, actions, |actions|)
  {
    forall k | 0 <= k < |actions| ensures !Breaks(states[k], actions[k]) {
      TablePartition(states, actions, allowed, k);
      KnownNeverBreaks(states[k], actions[k], allowed);
    }
    ExclusiveIff(states, actions, allowed, |actions|);
  }

  /**
   A group that no caller is working on holds a port exactly when it has members. The port is then used
   and bound and no other holder's; and a port is used exactly while it is held.
   */
  lemma PortIffListeners(states: seq<State>, actions: seq<Action>, allowed: set<int>, i: nat, g: GroupID)
    requires IsRun(states, actions, allowed) && i < |states| && g in states[i].groups
    ensures var s, group := states[i], states[i].groups[g];
            && (group.locked == None ==> (group.lns != {} <==> exists p :: Holds(s, OfGroup(g), p)))
            && (group.lns != {} ==> Holds(s, OfGroup(g), group.realPort) && group.realPort in s.bound)
            && (NoBreak(states, actions, i) && group.lns != {} ==> group.realPort in s.ports.used && forall h | Holds(s, h, group.realPort) :: h == OfGroup(g))
  {
    var s, group := states[i], states[i].groups[g];
    RunKeepsInv(states, actions, allowed, i);
    assert GroupOk(s, g);
    hide Inv;
    ExclusiveIff(states, actions, allowed, i);
    if group.holds { assert Holds(s, OfGroup(g), group.realPort); }
    if NoBreak(states, actions, i) && group.lns != {} {
      assert Exclusive(states[i]);
      assert Held(s, group.realPort);
    }
  }
}
