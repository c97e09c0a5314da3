/** The step system is not empty: a run in which a login ends with its control running, current and online. */
module HandoffWitness {
  import opened Prelude
  import opened Handoff
  import Registry

  /** `s` is reached by some run. */
  ghost predicate Reachable(s: State) {
    exists states, actions :: IsRun(states, actions) && states[|states| - 1] == s
  }

  lemma InitReachable()
    ensures Reachable(Init)
  {
    assert IsRun([Init], []);
    assert [Init][|[Init]| - 1] == Init;
  }

  lemma Extend(s: State, a: Action)
    requires Reachable(s) && Enabled(s, a)
    ensures Reachable(Apply(s, a))
  {
    var states, actions :| IsRun(states, actions) && states[|states| - 1] == s;
    Append(states, actions, a);
    var states' := states + [Apply(s, a)];
    hide IsRun;
    assert IsRun(states', actions + [a]) && states'[|states'| - 1] == Apply(s, a);
  }

  /** A thread that can step reaches the state after its step. */
  lemma Moves(s: State, t: Tid)
    requires Reachable(s) && t in s.th && CanStep(s, t) && WellKinded(s, t) && SlotsKnown(s)
    ensures Reachable(StepThread(s, t, true, 0, ""))
  {
    hide Reachable;
    Extend(s, Step(t, true, 0, ""));
  }

  const CTL := Ctl("run", "", "", 0, 0, Created, false, None, false, {}, [], false)

  /** The state while control `x` of the run is the only one, with its login at `pc`. */
  function Alone(x: Ctl, pc: Pc, entry: Option<Entry>, gateHeld: bool, nextID: nat, nextGate: Gate, reg: Registry.Index): State {
    State(map[0 := x], if entry.Some? then map["run" := entry.value] else map[],
          if gateHeld then map[0 := Login(0)] else map[], map[Login(0) := Thread(pc, "run", 0, [])],
          false, nextID, nextGate, reg, {}, {})
  }

  lemma FirstAdmitted()
    ensures Reachable(Alone(CTL.(id := 1, life := Pending), AwaitHandoff, Some(Entry(0, 1, 0, false, 0)), false, 2, 1, Init.reg))
  {
    hide Reachable;
    InitReachable();
    Extend(Init, NewLogin(0, "run", "", "", 0));
    var s1 := Alone(CTL, AddRead, None, false, 1, 0, Init.reg);
    assert Apply(Init, NewLogin(0, "run", "", "", 0)) == s1;
    Moves(s1, Login(0));
    var s2 := Alone(CTL, AddCommit(None), None, false, 1, 0, Init.reg);
    assert StepThread(s1, Login(0), true, 0, "") == s2;
    Moves(s2, Login(0));
    assert StepThread(s2, Login(0), true, 0, "") ==
           Alone(CTL.(id := 1, life := Pending), AwaitHandoff, Some(Entry(0, 1, 0, false, 0)), false, 2, 1, Init.reg);
  }

  /** The login asks for its run's gate, and gets it. */
  lemma Gets(x: Ctl, op: Op, e: Entry, nextID: nat, nextGate: Gate, reg: Registry.Index)
    requires op == Activate || op == Complete
    requires x.run == "run" && e.ctl == 0 && e.gate == 0
    requires Reachable(Alone(x, OpRead(op), Some(e), false, nextID, nextGate, reg))
    ensures Reachable(Alone(x, OpCheck(op, 0), Some(e), true, nextID, nextGate, reg))
  {
    hide Reachable;
    var s := Alone(x, OpRead(op), Some(e), false, nextID, nextGate, reg);
    Moves(s, Login(0));
    var s1 := Alone(x, OpGate(op, 0), Some(e), false, nextID, nextGate, reg);
    assert StepThread(s, Login(0), true, 0, "") == s1;
    Moves(s1, Login(0));
    assert StepThread(s1, Login(0), true, 0, "") == Alone(x, OpCheck(op, 0), Some(e), true, nextID, nextGate, reg);
  }

  /** The login is let into a manager call. */
  lemma Locks(x: Ctl, op: Op, e: Entry, nextID: nat, nextGate: Gate, reg: Registry.Index)
    requires op == Activate || op == Complete
    requires x.run == "run" && e.ctl == 0 && e.gate == 0
    requires Reachable(Alone(x, OpRead(op), Some(e), false, nextID, nextGate, reg))
    ensures Reachable(Alone(x, OpAct(op, e), Some(e), true, nextID, nextGate, reg))
  {
    hide Reachable;
    Gets(x, op, e, nextID, nextGate, reg);
    var s := Alone(x, OpCheck(op, 0), Some(e), true, nextID, nextGate, reg);
    Moves(s, Login(0));
    assert StepThread(s, Login(0), true, 0, "") == Alone(x, OpAct(op, e), Some(e), true, nextID, nextGate, reg);
  }

  const ONLINE := Registry.Register(Init.reg, "", "", "run", 1, 0)

  lemma FirstWaited()
    ensures Reachable(Alone(CTL.(id := 1, life := Pending), OpRead(Activate), Some(Entry(0, 1, 0, false, 0)), false, 2, 1, Init.reg))
  {
    hide Reachable;
    FirstAdmitted();
    var x, e := CTL.(id := 1, life := Pending), Entry(0, 1, 0, false, 0);
    var s := Alone(x, AwaitHandoff, Some(e), false, 2, 1, Init.reg);
    Moves(s, Login(0));
    assert StepThread(s, Login(0), true, 0, "") == Alone(x, OpRead(Activate), Some(e), false, 2, 1, Init.reg);
  }

  const PENDING := CTL.(id := 1, life := Pending)
  const ENTRY := Entry(0, 1, 0, false, 0)

  function Activating(): State {
    Alone(PENDING, OpAct(Activate, ENTRY), Some(ENTRY), true, 2, 1, Init.reg)
  }

  const ACTIVE := PENDING.(activated := true)
  const ONLINE_ENTRY := Entry(0, 1, 0, true, 1)

  function Activated(pc: Pc, gateHeld: bool): State {
    Alone(ACTIVE, pc, Some(ONLINE_ENTRY), gateHeld, 2, 1, ONLINE.after)
  }

  lemma ActivateGoesOnline()
    ensures StepActivate(Activating(), Login(0), ENTRY, 0) == Activated(OpRead(Complete), false)
  {
    assert !ONLINE.conflict;
    hide Registry.Register;
    var s := Activating();
    assert Leave(s, Login(0), OpRead(Complete)) == Alone(PENDING, OpRead(Complete), Some(ENTRY), false, 2, 1, Init.reg);
  }

  lemma FirstActivated()
    ensures Reachable(Activated(OpRead(Complete), false))
  {
    hide Reachable;
    FirstWaited();
    Locks(PENDING, Activate, ENTRY, 2, 1, Init.reg);
    Moves(Activating(), Login(0));
    ActivateGoesOnline();
    hide StepActivate;
    assert StepThread(Activating(), Login(0), true, 0, "") == StepActivate(Activating(), Login(0), ENTRY, 0);
  }

  lemma FirstWriting()
    ensures Reachable(Activated(Writing(ONLINE_ENTRY), true))
  {
    hide Reachable;
    hide Registry.Register;
    FirstActivated();
    Locks(ACTIVE, Complete, ONLINE_ENTRY, 2, 1, ONLINE.after);
    var s := Activated(OpAct(Complete, ONLINE_ENTRY), true);
    Moves(s, Login(0));
    assert StepThread(s, Login(0), true, 0, "") == Activated(Writing(ONLINE_ENTRY), true);
  }

  const RUNNING := ACTIVE.(life := Running)

  /** The first control serves its client. */
  function FirstRunning(): State {
    State(map[0 := RUNNING], map["run" := ONLINE_ENTRY], map[],
          map[Login(0) := Thread(Done, "run", 0, []), Worker(0) := Thread(Serve, "run", 0, [])], false, 2, 1, ONLINE.after, {}, {})
  }

  lemma FirstIsRunning()
    ensures Reachable(FirstRunning())
  {
    hide Reachable;
    hide Registry.Register;
    FirstWriting();
    var s := Activated(Writing(ONLINE_ENTRY), true);
    Moves(s, Login(0));
    assert StepThread(s, Login(0), true, 0, "") == FirstRunning();
  }

  /** A run in which a login ends with its control running, current and online. */
  lemma LoginReachesRunning()
    ensures exists s :: Reachable(s) && 0 in s.ctls && s.ctls[0].life == Running && Worker(0) in s.th
                        && "run" in s.slots && s.slots["run"].ctl == 0 && s.slots["run"].online
  {
    hide Reachable;
    FirstIsRunning();
  }

  // ---------------------------------------------------------------------------------------
  // A chain of replacements

  /** A second login of the run, at `l1`, while control 0 is `x0`. */
  function Second(x0: Ctl, x1: Ctl, e: Entry, gate: map<Gate, Tid>, l1: Pc, nextID: nat): State {
    State(map[0 := x0, 1 := x1], map["run" := e], gate,
          map[Login(0) := Thread(Done, "run", 0, []), Worker(0) := Thread(Serve, "run", 0, []), Login(1) := Thread(l1, "run", 1, [])],
          false, nextID, 1, ONLINE.after, {}, {})
  }

  const CLOSING := RUNNING.(life := Closing)
  const SECOND := CTL.(id := 2, life := Pending, barrier := Some(0))
  const SECOND_ENTRY := Entry(1, 2, 0, true, 1)

  lemma SecondComes()
    ensures Reachable(Second(RUNNING, CTL, ONLINE_ENTRY, map[0 := Login(1)], AddCommit(Some(ONLINE_ENTRY)), 2))
  {
    hide Reachable;
    hide Registry.Register;
    FirstIsRunning();
    Extend(FirstRunning(), NewLogin(1, "run", "", "", 0));
    var s := Second(RUNNING, CTL, ONLINE_ENTRY, map[], AddRead, 2);
    assert Apply(FirstRunning(), NewLogin(1, "run", "", "", 0)) == s;
    Moves(s, Login(1));
    var s1 := Second(RUNNING, CTL, ONLINE_ENTRY, map[], AddGate(ONLINE_ENTRY), 2);
    assert StepThread(s, Login(1), true, 0, "") == s1;
    Moves(s1, Login(1));
    assert StepThread(s1, Login(1), true, 0, "") == Second(RUNNING, CTL, ONLINE_ENTRY, map[0 := Login(1)], AddCommit(Some(ONLINE_ENTRY)), 2);
  }

  /** The second login replaces the running control, and waits for it. */
  lemma SecondReplaces()
    ensures Reachable(Second(CLOSING, SECOND, SECOND_ENTRY, map[], AddNotify(0), 3))
  {
    hide Reachable;
    hide Registry.Register;
    SecondComes();
    var s := Second(RUNNING, CTL, ONLINE_ENTRY, map[0 := Login(1)], AddCommit(Some(ONLINE_ENTRY)), 2);
    Moves(s, Login(1));
    assert StepThread(s, Login(1), true, 0, "") == Second(CLOSING, SECOND, SECOND_ENTRY, map[], AddNotify(0), 3);
  }

  /** A third login of the run, at `l2`, with the worker of control 0 at `w0`. */
  function Third(x0: Ctl, x1: Ctl, x2: Ctl, e: Entry, gate: map<Gate, Tid>, w0: Pc, l2: Pc, nextID: nat): State {
    State(map[0 := x0, 1 := x1, 2 := x2], map["run" := e], gate,
          map[Login(0) := Thread(Done, "run", 0, []), Worker(0) := Thread(w0, "run", 0, []), Login(1) := Thread(AddNotify(0), "run", 1, []),
              Login(2) := Thread(l2, "run", 2, [])],
          false, nextID, 1, ONLINE.after, {}, {})
  }

  const THIRD := CTL.(id := 3, life := Pending, barrier := Some(0))
  const THIRD_ENTRY := Entry(2, 3, 0, true, 1)

  lemma ThirdComes()
    ensures Reachable(Third(CLOSING, SECOND, CTL, SECOND_ENTRY, map[0 := Login(2)], Serve, AddCommit(Some(SECOND_ENTRY)), 3))
  {
    hide Reachable;
    hide Registry.Register;
    SecondReplaces();
    var s0 := Second(CLOSING, SECOND, SECOND_ENTRY, map[], AddNotify(0), 3);
    Extend(s0, NewLogin(2, "run", "", "", 0));
    var s := Third(CLOSING, SECOND, CTL, SECOND_ENTRY, map[], Serve, AddRead, 3);
    assert Apply(s0, NewLogin(2, "run", "", "", 0)) == s;
    Moves(s, Login(2));
    var s1 := Third(CLOSING, SECOND, CTL, SECOND_ENTRY, map[], Serve, AddGate(SECOND_ENTRY), 3);
    assert StepThread(s, Login(2), true, 0, "") == s1;
    Moves(s1, Login(2));
    assert StepThread(s1, Login(2), true, 0, "") == Third(CLOSING, SECOND, CTL, SECOND_ENTRY, map[0 := Login(2)], Serve, AddCommit(Some(SECOND_ENTRY)), 3);
  }

  /** The pending second control is finished, and passes its barrier on. */
  lemma ThirdReplaces()
    ensures Reachable(Third(CLOSING, SECOND.(life := Closed), THIRD, THIRD_ENTRY, map[], Serve, AddNotify(1), 4))
  {
    hide Reachable;
    hide Registry.Register;
    ThirdComes();
    var s := Third(CLOSING, SECOND, CTL, SECOND_ENTRY, map[0 := Login(2)], Serve, AddCommit(Some(SECOND_ENTRY)), 3);
    Moves(s, Login(2));
    assert StepThread(s, Login(2), true, 0, "") == Third(CLOSING, SECOND.(life := Closed), THIRD, THIRD_ENTRY, map[], Serve, AddNotify(1), 4);
  }

  const REPLACED := SECOND.(life := Closed, interrupted := true)

  /** The third login waits, with the first control's worker at `w0` and its control `x0`. */
  function Waiting(x0: Ctl, gate: map<Gate, Tid>, w0: Pc, l2: Pc): State {
    Third(x0, REPLACED, THIRD, THIRD_ENTRY, gate, w0, l2, 4)
  }

  lemma ThirdWaits()
    ensures Reachable(Waiting(CLOSING, map[], Serve, AwaitHandoff))
  {
    hide Reachable;
    hide Registry.Register;
    ThirdReplaces();
    var s := Third(CLOSING, SECOND.(life := Closed), THIRD, THIRD_ENTRY, map[], Serve, AddNotify(1), 4);
    Moves(s, Login(2));
    assert StepThread(s, Login(2), true, 0, "") == Waiting(CLOSING, map[], Serve, AwaitHandoff);
  }

  const INTERRUPTED := CLOSING.(interrupted := true)
  const DRAINED := INTERRUPTED.(poolClosed := true)

  lemma WorkerNotices()
    ensures Reachable(Waiting(CLOSING, map[], MarkClosing, AwaitHandoff))
  {
    hide Reachable;
    hide Registry.Register;
    ThirdWaits();
    WorkerMoves(Waiting(CLOSING, map[], Serve, AwaitHandoff), Waiting(CLOSING, map[], MarkClosing, AwaitHandoff));
  }

  lemma WorkerStops()
    ensures Reachable(Waiting(INTERRUPTED, map[], ClosePool, AwaitHandoff))
  {
    hide Reachable;
    hide Registry.Register;
    WorkerNotices();
    WorkerMoves(Waiting(CLOSING, map[], MarkClosing, AwaitHandoff), Waiting(INTERRUPTED, map[], ClosePool, AwaitHandoff));
  }

  lemma WorkerClosesPool()
    ensures Reachable(Waiting(DRAINED, map[], DrainPool, AwaitHandoff))
  {
    hide Reachable;
    hide Registry.Register;
    WorkerStops();
    WorkerMoves(Waiting(INTERRUPTED, map[], ClosePool, AwaitHandoff), Waiting(DRAINED, map[], DrainPool, AwaitHandoff));
  }

  lemma WorkerCleansUp()
    ensures Reachable(Waiting(DRAINED, map[], CloseProxies, AwaitHandoff))
  {
    hide Reachable;
    hide Registry.Register;
    WorkerClosesPool();
    WorkerMoves(Waiting(DRAINED, map[], DrainPool, AwaitHandoff), Waiting(DRAINED, map[], CloseProxies, AwaitHandoff));
  }

  lemma WorkerMoves(s: State, s': State)
    requires Reachable(s) && Worker(0) in s.th && CanStep(s, Worker(0)) && WellKinded(s, Worker(0)) && SlotsKnown(s)
    requires StepThread(s, Worker(0), true, 0, "") == s'
    ensures Reachable(s')
  {
    hide Reachable;
    Moves(s, Worker(0));
  }

  lemma WorkerAsks()
    ensures Reachable(Waiting(DRAINED, map[], OpGate(Remove, 0), AwaitHandoff))
  {
    hide Reachable;
    hide Registry.Register;
    WorkerCleansUp();
    WorkerMoves(Waiting(DRAINED, map[], CloseProxies, AwaitHandoff), Waiting(DRAINED, map[], OpRead(Remove), AwaitHandoff));
    WorkerMoves(Waiting(DRAINED, map[], OpRead(Remove), AwaitHandoff), Waiting(DRAINED, map[], OpGate(Remove, 0), AwaitHandoff));
  }

  lemma WorkerLocks()
    ensures Reachable(Waiting(DRAINED, map[0 := Worker(0)], OpAct(Remove, THIRD_ENTRY), AwaitHandoff))
  {
    hide Reachable;
    hide Registry.Register;
    WorkerAsks();
    WorkerMoves(Waiting(DRAINED, map[], OpGate(Remove, 0), AwaitHandoff), Waiting(DRAINED, map[0 := Worker(0)], OpCheck(Remove, 0), AwaitHandoff));
    WorkerMoves(Waiting(DRAINED, map[0 := Worker(0)], OpCheck(Remove, 0), AwaitHandoff), Waiting(DRAINED, map[0 := Worker(0)], OpAct(Remove, THIRD_ENTRY), AwaitHandoff));
  }

  /** The worker finds its control replaced, leaves the map alone and finishes. */
  lemma WorkerLeaves()
    ensures Reachable(Waiting(DRAINED, map[], Finish, AwaitHandoff))
  {
    hide Reachable;
    hide Registry.Register;
    WorkerLocks();
    WorkerMoves(Waiting(DRAINED, map[0 := Worker(0)], OpAct(Remove, THIRD_ENTRY), AwaitHandoff), Waiting(DRAINED, map[], Finish, AwaitHandoff));
  }

  lemma WorkerFinishes()
    ensures Reachable(Waiting(DRAINED.(life := Closed), map[], Done, AwaitHandoff))
  {
    hide Reachable;
    hide Registry.Register;
    WorkerLeaves();
    WorkerMoves(Waiting(DRAINED, map[], Finish, AwaitHandoff), Waiting(DRAINED.(life := Closed), map[], Done, AwaitHandoff));
  }

  const FINISHED := DRAINED.(life := Closed)

  lemma LoginMoves(s: State, s': State)
    requires Reachable(s) && Login(2) in s.th && CanStep(s, Login(2)) && WellKinded(s, Login(2)) && SlotsKnown(s)
    requires StepThread(s, Login(2), true, 0, "") == s'
    ensures Reachable(s')
  {
    hide Reachable;
    Moves(s, Login(2));
  }

  function AboutToActivate(): State {
    Waiting(FINISHED, map[0 := Login(2)], Done, OpAct(Activate, THIRD_ENTRY))
  }

  lemma ThirdAsks()
    ensures Reachable(Waiting(FINISHED, map[], Done, OpGate(Activate, 0)))
  {
    hide Reachable;
    hide Registry.Register;
    WorkerFinishes();
    LoginMoves(Waiting(FINISHED, map[], Done, AwaitHandoff), Waiting(FINISHED, map[], Done, OpRead(Activate)));
    LoginMoves(Waiting(FINISHED, map[], Done, OpRead(Activate)), Waiting(FINISHED, map[], Done, OpGate(Activate, 0)));
  }

  lemma ThirdGoesOn()
    ensures Reachable(AboutToActivate())
  {
    hide Reachable;
    hide Registry.Register;
    ThirdAsks();
    LoginMoves(Waiting(FINISHED, map[], Done, OpGate(Activate, 0)), Waiting(FINISHED, map[0 := Login(2)], Done, OpCheck(Activate, 0)));
    LoginMoves(Waiting(FINISHED, map[0 := Login(2)], Done, OpCheck(Activate, 0)), AboutToActivate());
  }

  /** Of three generations of one run the first was active, the second never was, and the third becomes so. */
  predicate ChainActivates(s: State, s': State) {
    && 0 in s.ctls && 1 in s.ctls && 2 in s.ctls && 2 in s'.ctls
    && s.ctls[0].run == s.ctls[1].run == s.ctls[2].run && 0 < s.ctls[0].id < s.ctls[1].id < s.ctls[2].id
    && s.ctls[0].activated && !s.ctls[1].activated && s.ctls[1].barrier == s.ctls[2].barrier == Some(0)
    && !s.ctls[2].activated && s'.ctls[2].activated
  }

  lemma ThirdActivates()
    ensures var s, a := AboutToActivate(), Step(Login(2), true, 0, ""); Enabled(s, a) && ChainActivates(s, Apply(s, a))
  {
    assert !Registry.Register(ONLINE.after, "", "", "run", 3, 0).conflict;
    hide Registry.Register;
    var s := AboutToActivate();
    assert StepThread(s, Login(2), true, 0, "") == StepActivate(s, Login(2), THIRD_ENTRY, 0);
  }

  /**
   A running control is replaced by a login that is replaced while it waits, and the third control is
   activated: the handoff theorem applies, through a chain of replacements.
   */
  lemma ChainReachesActivation()
    ensures exists states, actions ::
              IsRun(states, actions) && |actions| > 0 && ChainActivates(states[|actions| - 1], states[|actions|])
  {
    var s := AboutToActivate();
    var a := Step(Login(2), true, 0, "");
    ThirdGoesOn();
    ThirdActivates();
    hide ChainActivates;
    hide AboutToActivate;
    hide Apply;
    hide Enabled;
    var states, actions :| IsRun(states, actions) && states[|states| - 1] == s;
    Append(states, actions, a);
    var states', actions' := states + [Apply(s, a)], actions + [a];
    assert states'[|actions'| - 1] == s && states'[|actions'|] == Apply(s, a);
  }

  lemma Append(states: seq<State>, actions: seq<Action>, a: Action)
    requires IsRun(states, actions) && Enabled(states[|states| - 1], a)
    ensures IsRun(states + [Apply(states[|states| - 1], a)], actions + [a])
  {
    var s := states[|states| - 1];
    var states', actions' := states + [Apply(s, a)], actions + [a];
    forall i | 0 <= i < |actions'|
      ensures Enabled(states'[i], actions'[i]) && states'[i + 1] == Apply(states'[i], actions'[i])
    {
      if i < |actions| { assert states'[i] == states[i] && states'[i + 1] == states[i + 1] && actions'[i] == actions[i]; }
    }
  }
}
