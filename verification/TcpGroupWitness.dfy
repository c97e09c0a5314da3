/**
 Runs after which used ports and their holders disagree. The system answers truthfully: no
 port is reported free on which a group listens.
 */
module TcpGroupWitness {
  import opened Prelude
  import opened TcpGroup
  import opened TcpGroupInvariant
  import opened TcpGroupPorts
  import Ports

  /** A run that ends in a given state. */
  ghost predicate Leads(states: seq<State>, actions: seq<Action>, allowed: set<int>, s: State) {
    IsRun(states, actions, allowed) && states[|actions|] == s
  }

  lemma Extend(states: seq<State>, actions: seq<Action>, allowed: set<int>, s: State, act: Action)
    returns (states': seq<State>, actions': seq<Action>)
    requires Leads(states, actions, allowed, s) && Enabled(s, act)
    ensures Leads(states', actions', allowed, Apply(s, act)) && actions' == actions + [act]
  {
    states', actions' := states + [Apply(s, act)], actions + [act];
    forall i | 0 <= i < |actions'| ensures Enabled(states'[i], actions'[i]) && states'[i + 1] == Apply(states'[i], actions'[i]) {
      if i < |actions| { assert states'[i] == states[i] && states'[i + 1] == states[i + 1] && actions'[i] == actions[i]; }
    }
  }

  /** The state after a caller has opened a group on a port it was given. */
  function Opening(s: State, t: nat, req: Request, table: Ports.Table, p: int): State {
    State(s.registry[req.group := s.nextGroup],
          s.groups[s.nextGroup := Group(req.group, req.key, req.addr, req.port, p, {s.nextListener}, None, true, req.group)],
          s.nextGroup + 1, s.nextListener + 1, table, s.bound + {p}, s.callers[t := Joined(req, s.nextGroup, s.nextListener, p)])
  }

  /** The same, before the port is bound. */
  function Acquiring(s: State, t: nat, req: Request, table: Ports.Table, p: int): State {
    State(s.registry[req.group := s.nextGroup], s.groups[s.nextGroup := EmptyGroup(req.group).(locked := Some(t))],
          s.nextGroup + 1, s.nextListener, table, s.bound, s.callers[t := Binding(req, s.nextGroup, p)])
  }

  /** And before that, when the caller has looked its new group up. */
  function LookedUp(s: State, t: nat, req: Request): State {
    Go(Created(s, req.group), t, Listen(req, s.nextGroup))
  }

  lemma LookUp(states: seq<State>, actions: seq<Action>, allowed: set<int>, s: State, t: nat, req: Request)
    returns (states': seq<State>, actions': seq<Action>)
    requires Leads(states, actions, allowed, s) && t !in s.callers && req.group !in s.registry
    ensures Leads(states', actions', allowed, LookedUp(s, t, req))
  {
    hide Leads, Ports.IsOrder, ListenOn, Bind, Close, Release, Unregister;
    var s1 := Apply(s, Call(t, req));
    assert Apply(s1, LookupStep(t)).callers == LookedUp(s, t, req).callers;
    states', actions' := Extend(states, actions, allowed, s, Call(t, req));
    states', actions' := Extend(states', actions', allowed, s1, LookupStep(t));
  }

  lemma Acquire(states: seq<State>, actions: seq<Action>, allowed: set<int>, s: State, t: nat, req: Request, available: set<int>, order: seq<int>,
                table: Ports.Table, p: int)
    returns (states': seq<State>, actions': seq<Action>)
    requires Leads(states, actions, allowed, s) && t !in s.callers && req.group !in s.registry
    requires available !! s.bound && Ports.IsOrder(order, s.ports.free) && AcquireFor(s, req, available, order) == (table, Ok(p))
    ensures Leads(states', actions', allowed, Acquiring(s, t, req, table, p))
  {
    hide Leads, Ports.Acquired, Ports.IsOrder, Refusal, Bind, Close, Release, Unregister;
    states', actions' := LookUp(states, actions, allowed, s, t, req);
    var s2 := LookedUp(s, t, req);
    var s3 := Apply(s2, ListenStep(t, available, order));
    assert s3.groups == Acquiring(s, t, req, table, p).groups;
    assert s3.callers == Acquiring(s, t, req, table, p).callers;
    states', actions' := Extend(states', actions', allowed, s2, ListenStep(t, available, order));
  }

  lemma Open(states: seq<State>, actions: seq<Action>, allowed: set<int>, s: State, t: nat, req: Request, available: set<int>, order: seq<int>,
             table: Ports.Table, p: int)
    returns (states': seq<State>, actions': seq<Action>)
    requires Leads(states, actions, allowed, s) && t !in s.callers && req.group !in s.registry
    requires available !! s.bound && Ports.IsOrder(order, s.ports.free) && AcquireFor(s, req, available, order) == (table, Ok(p)) && p !in s.bound
    ensures Leads(states', actions', allowed, Opening(s, t, req, table, p))
  {
    hide Leads, Ports.Acquired, Ports.IsOrder;
    states', actions' := Acquire(states, actions, allowed, s, t, req, available, order, table, p);
    var s3 := Acquiring(s, t, req, table, p);
    var s4 := Apply(s3, BindStep(t, true));
    assert s4.groups[s.nextGroup].lns == {s.nextListener};
    assert s4.groups == Opening(s, t, req, table, p).groups;
    assert s4.callers == Opening(s, t, req, table, p).callers;
    states', actions' := Extend(states', actions', allowed, s3, BindStep(t, true));
  }

  // ---------------------------------------------------------------------------------------
  // A port released late

  const PORT := 7
  const ANY := Request("y", "b", "", "", 0)
  const FIXED := Request("x", "a", "", "", PORT)

  const CLOSED_B := Group("b", "", "", 0, PORT, {}, None, false, "b")
  const CLOSING_A := Group("a", "", "", PORT, PORT, {}, Some(1), true, "a")
  const OPEN_B := Group("b", "", "", 0, PORT, {2}, None, true, "b")

  const ALL_FREE := Ports.Table({PORT}, {}, map["y" := PORT])
  const IN_USE := Ports.Table({}, {PORT}, map["y" := PORT, "x" := PORT])

  /** Proxy y has had the port and keeps its reservation. */
  const RESERVED := State(map[], map[0 := CLOSED_B], 1, 1, ALL_FREE, {}, map[0 := Left(ANY)])

  /** Proxy x had asked for that port, and its group is closing: the listener is closed, the port not yet released. */
  const CLOSING :=
    State(map["a" := 1], map[0 := CLOSED_B, 1 := CLOSING_A], 2, 2, IN_USE, {}, map[0 := Left(ANY), 1 := Releasing(FIXED, 1)])

  /** Proxy y has got its reserved port back and listens on it. */
  const TAKEN :=
    State(map["a" := 1, "b" := 2], map[0 := CLOSED_B, 1 := CLOSING_A, 2 := OPEN_B], 3, 3, IN_USE, {PORT},
          map[0 := Left(ANY), 1 := Releasing(FIXED, 1), 2 := Joined(ANY, 2, 2, PORT)])

  lemma Reserving() returns (states: seq<State>, actions: seq<Action>)
    ensures Leads(states, actions, {PORT}, RESERVED)
  {
    var s0, used := Init({PORT}), Ports.Table({}, {PORT}, map["y" := PORT]);
    assert Ports.Take(s0.ports, "y", PORT) == used;
    states, actions := Open([s0], [], {PORT}, s0, 0, ANY, {PORT}, [PORT], used, PORT);
    hide Leads;
    var s1 := Opening(s0, 0, ANY, used, PORT);
    var s2 := Apply(s1, CloseStep(0));
    assert s2.callers[0] == Releasing(ANY, 0);
    var s3 := Apply(s2, ReleaseStep(0));
    assert Apply(s3, UnregisterStep(0)) == RESERVED;
    states, actions := Extend(states, actions, {PORT}, s1, CloseStep(0));
    states, actions := Extend(states, actions, {PORT}, s2, ReleaseStep(0));
    states, actions := Extend(states, actions, {PORT}, s3, UnregisterStep(0));
  }

  lemma ClosingDown() returns (states: seq<State>, actions: seq<Action>)
    ensures Leads(states, actions, {PORT}, CLOSING)
  {
    hide Leads;
    states, actions := Reserving();
    assert Ports.Take(ALL_FREE, "x", PORT) == IN_USE;
    states, actions := Open(states, actions, {PORT}, RESERVED, 1, FIXED, {PORT}, [PORT], IN_USE, PORT);
    var s := Opening(RESERVED, 1, FIXED, IN_USE, PORT);
    assert Apply(s, CloseStep(1)) == CLOSING;
    states, actions := Extend(states, actions, {PORT}, s, CloseStep(1));
  }

  lemma Taking() returns (states: seq<State>, actions: seq<Action>)
    ensures Leads(states, actions, {PORT}, TAKEN)
  {
    hide Leads;
    states, actions := ClosingDown();
    assert Ports.Take(IN_USE, "y", PORT) == IN_USE;
    states, actions := Open(states, actions, {PORT}, CLOSING, 2, ANY, {PORT}, [], IN_USE, PORT);
    assert Opening(CLOSING, 2, ANY, IN_USE, PORT) == TAKEN;
  }

  /**
   A closing group has closed its listener and not yet released the port when another proxy takes the
   port up from its reservation; the release then frees a port on which a group listens.
   */
  lemma ReleasedWhileBound() returns (states: seq<State>, actions: seq<Action>)
    ensures IsRun(states, actions, {PORT})
    ensures var s := states[|actions|];
            Listening(s, 2, PORT) && PORT in s.bound && s.ports.free == {PORT} && s.ports.used == {} && !Exclusive(s)
  {
    states, actions := Taking();
    states, actions := Extend(states, actions, {PORT}, TAKEN, ReleaseStep(1));
    var s := Apply(TAKEN, ReleaseStep(1));
    assert Holds(s, OfGroup(2), PORT);
    assert Held(s, PORT);
  }

  const OTHER := Request("y", "a", "", "", 0)

  /** The second of two callers with one proxy name fails to listen on the port both were given, and releases it under the first. */
  lemma ReleasedByTheLoser() returns (states: seq<State>, actions: seq<Action>)
    ensures IsRun(states, actions, {PORT})
    ensures var s := states[|actions|]; Listening(s, 0, PORT) && PORT in s.bound && s.ports.free == {PORT} && s.ports.used == {} && !Exclusive(s)
  {
    var s0, used := Init({PORT}), Ports.Table({}, {PORT}, map["y" := PORT]);
    assert Ports.Take(s0.ports, "y", PORT) == used;
    states, actions := Acquire([s0], [], {PORT}, s0, 0, ANY, {PORT}, [PORT], used, PORT);
    var s1 := Acquiring(s0, 0, ANY, used, PORT);
    assert Ports.Take(used, "y", PORT) == used;
    states, actions := Acquire(states, actions, {PORT}, s1, 1, OTHER, {PORT}, [], used, PORT);
    hide Leads;
    var s2 := Acquiring(s1, 1, OTHER, used, PORT);
    states, actions := Extend(states, actions, {PORT}, s2, BindStep(0, true));
    var s3 := Apply(s2, BindStep(0, true));
    states, actions := Extend(states, actions, {PORT}, s3, BindStep(1, false));
    var s4 := Apply(s3, BindStep(1, false));
    assert 0 in s4.groups[0].lns;
    assert Holds(s4, OfGroup(0), PORT);
    assert Held(s4, PORT);
    LastOf(states, actions, {PORT}, s4);
  }

  lemma LastOf(states: seq<State>, actions: seq<Action>, allowed: set<int>, s: State)
    requires Leads(states, actions, allowed, s)
    ensures IsRun(states, actions, allowed) && states[|actions|] == s
  {
  }

  /** Where port 0 is allowed it can be found and recorded as used, while the caller is told that there is none. */
  lemma ZeroIsLost() returns (states: seq<State>, actions: seq<Action>)
    ensures IsRun(states, actions, {0})
    ensures var s := states[|actions|]; s.callers == map[0 := Failed(ANY, PortFailed)] && s.ports.used == {0} && !Held(s, 0)
  {
    var s0 := Init({0});
    var s1 := Apply(s0, Call(0, ANY));
    var s2 := Apply(s1, LookupStep(0));
    states, actions := [s0], [];
    states, actions := Extend(states, actions, {0}, s0, Call(0, ANY));
    states, actions := Extend(states, actions, {0}, s1, LookupStep(0));
    states, actions := Extend(states, actions, {0}, s2, ListenStep(0, {0}, [0]));
  }
}
