/** What every reachable state of the handoff system satisfies, and why each action keeps it. */
module HandoffInvariant {
  import opened Prelude
  import opened Handoff
  import Registry

  // ---------------------------------------------------------------------------------------
  // Threads

  predicate Adding(pc: Pc) {
    pc.AddRead? || pc.AddGate? || pc.AddCommit?
  }

  /** The login thread has waited for its handoff barrier, or never got one. */
  predicate PastWait(pc: Pc) {
    !Adding(pc) && !pc.AddNotify? && !pc.AwaitHandoff?
  }

  predicate BarrierPassed(s: State, c: Ref)
    requires c in s.ctls
  {
    var b := s.ctls[c].barrier;
    b.Some? ==> b.value in s.ctls && s.ctls[b.value].life == Closed
  }

  /** An entry read from the map at some earlier time. */
  predicate WasEntry(s: State, e: Entry) {
    e.ctl in s.ctls && s.ctls[e.ctl].id == e.id && s.ctls[e.ctl].life != Created
  }

  predicate LoginOk(s: State, c: Ref, pc: Pc)
    requires c in s.ctls
  {
    && (Adding(pc) ==> s.ctls[c].life == Created)
    && (pc.AddGate? ==> WasEntry(s, pc.want) && s.ctls[pc.want.ctl].run == s.ctls[c].run)
    && (pc.AddCommit? && pc.seen.Some? ==> WasEntry(s, pc.seen.value) && s.ctls[pc.seen.value.ctl].run == s.ctls[c].run)
    && (pc.AddNotify? ==> pc.replaced in s.ctls && s.ctls[pc.replaced].life in {Closing, Closed})
    && (pc.AddNotify? || pc.AwaitHandoff? ==> s.ctls[c].life != Created)
    && (PastWait(pc) ==> BarrierPassed(s, c))
    && (pc.Writing? ==> s.ctls[c].life == Pending && s.ctls[c].activated && pc.entry.ctl == c)
    && (Worker(c) in s.th ==> pc == Done)
  }

  /** The worker has not yet closed the proxies and work connections of its control. */
  predicate Uncleaned(pc: Pc) {
    pc.Serve? || pc.MarkClosing? || pc.ClosePool? || pc.DrainPool? || pc.CloseProxies?
  }

  predicate WorkerOk(x: Ctl, pc: Pc) {
    && x.life in {Running, Closing, Closed}
    && (x.life == Closed <==> pc == Done)
    && (x.life == Running ==> pc.Serve? || pc.MarkClosing?)
    && (x.poolClosed <==> !pc.Serve? && !pc.MarkClosing? && !pc.ClosePool?)
    && (x.pool != [] ==> pc.Serve? || pc.MarkClosing? || pc.ClosePool? || pc.DrainPool?)
    && (x.proxies != {} ==> Uncleaned(pc))
  }

  predicate CloserOk(s: State, x: Thread) {
    && s.closed
    && (x.pc == Done ==> forall r <- s.slots :: false)
    && (x.pc == CloseCtl ==> forall r <- s.slots :: s.slots[r].ctl in x.rest)
    && (x.pc != Done ==> forall r <- s.slots :: s.slots[r].ctl == x.ctl || s.slots[r].ctl in x.rest)
    && (x.pc != Done ==> x.ctl in s.ctls && s.ctls[x.ctl].life != Created)
    && (forall c <- x.rest :: c in s.ctls && s.ctls[c].life != Created)
  }

  predicate NotCurrent(s: State, run: string, c: Ref) {
    run in s.slots ==> s.slots[run].ctl != c
  }

  /**
   Remove comes before Close: whoever is about to finish a control no longer finds it in the map.
   And a validated gate protects the very entry that was validated.
   */
  predicate SlotViewOk(s: State, x: Thread) {
    && (x.pc.CloseCtl? || x.pc.Finish? ==> NotCurrent(s, x.run, x.ctl))
    && (x.pc.OpGate? && x.pc.op == Remove ==> NotCurrent(s, x.run, x.ctl) || s.slots[x.run].gate == x.pc.gate)
    && (x.pc.OpCheck? && x.pc.op == Remove ==> NotCurrent(s, x.run, x.ctl) || s.slots[x.run].gate == x.pc.gate)
    && (x.pc.OpAct? || x.pc.Writing? ==> x.run in s.slots && s.slots[x.run] == x.pc.entry)
    && (x.pc.AddGate? ==> SeenOk(s, x.run, x.pc.want))
    && (x.pc.AddCommit? && x.pc.seen.Some? ==> SeenOk(s, x.run, x.pc.seen.value))
  }

  /** If the entry seen earlier is still the current one, its gate and control are what they were. */
  predicate SeenOk(s: State, run: string, e: Entry) {
    run in s.slots && s.slots[run].id == e.id ==> s.slots[run].gate == e.gate && s.slots[run].ctl == e.ctl
  }

  predicate GateOk(s: State, t: Tid, pc: Pc) {
    && (Holding(pc).Some? ==> Holding(pc).value in s.held && s.held[Holding(pc).value] == t)
    && (pc.AddGate? ==> pc.want.gate < s.nextGate)
    && (pc.OpGate? ==> pc.gate < s.nextGate)
  }

  predicate ThreadOk(s: State, t: Tid)
    requires t in s.th
  {
    var x := s.th[t];
    && WellKinded(s, t)
    && GateOk(s, t, x.pc)
    && SlotViewOk(s, x)
    && match t
       case Login(c) => LoginOk(s, c, x.pc)
       case Worker(c) => WorkerOk(s.ctls[c], x.pc)
       case Closer(_) => CloserOk(s, x)
       case Presenter(_) => true
       case Visitor(_) => true
  }

  // ---------------------------------------------------------------------------------------
  // Controls and slots

  predicate Live(s: State, c: Ref) {
    Worker(c) in s.th && Uncleaned(s.th[Worker(c)].pc)
  }

  /** The control in the slot either is `p` or waits for it. */
  predicate Covers(s: State, p: Ref)
    requires p in s.ctls && s.ctls[p].run in s.slots
  {
    var c := s.slots[s.ctls[p].run].ctl;
    c == p || (c in s.ctls && s.ctls[c].life == Pending && s.ctls[c].barrier == Some(p))
  }

  /** A barrier is the `doneCh` of an earlier control of the same run, which is on its way out. */
  predicate BarrierOk(s: State, c: Ref)
    requires c in s.ctls
  {
    var b := s.ctls[c].barrier;
    b.Some? ==>
      && s.ctls[c].life != Created
      && b.value in s.ctls
      && Worker(b.value) in s.th
      && s.ctls[b.value].run == s.ctls[c].run
      && s.ctls[b.value].id < s.ctls[c].id
      && s.ctls[b.value].life in {Closing, Closed}
  }

  predicate CtlOk(s: State, c: Ref)
    requires c in s.ctls
  {
    var x := s.ctls[c];
    && Login(c) in s.th
    && x.run != ""
    && x.id < s.nextID
    && (x.life == Created ==> x.id == 0)
    && (x.life in {Pending, Running, Closing} ==> x.id != 0)
    && (Worker(c) !in s.th ==>
          x.life in {Created, Pending, Closed} && !x.poolClosed && x.pool == [] && x.proxies == {})
    && BarrierOk(s, c)
    && (x.life == Running && !s.closed ==> x.run in s.slots && s.slots[x.run].ctl == c)
    && (Live(s, c) && !s.closed ==> x.run in s.slots)
    && (Live(s, c) && x.run in s.slots ==> Covers(s, c))
  }

  /** The current entry of a run names an admitted control of that run which is not closed. */
  predicate SlotOk(s: State, r: string)
    requires r in s.slots
  {
    var e := s.slots[r];
    && e.gate < s.nextGate
    && e.ctl in s.ctls
    && s.ctls[e.ctl].run == r
    && s.ctls[e.ctl].id == e.id
    && s.ctls[e.ctl].life in {Pending, Running, Closing}
  }

  predicate HeldOk(s: State, g: Gate)
    requires g in s.held
  {
    g < s.nextGate && s.held[g] in s.th && Holding(s.th[s.held[g]].pc) == Some(g)
  }

  ghost predicate UniqueIDs(s: State) {
    forall c <- s.ctls, d <- s.ctls | s.ctls[c].id == s.ctls[d].id != 0 :: c == d
  }

  ghost predicate OneLive(s: State) {
    forall p <- s.ctls, q <- s.ctls | Live(s, p) && Live(s, q) && s.ctls[p].run == s.ctls[q].run :: p == q
  }

  /** Whoever the registry shows online is owned by the current entry of its run. */
  ghost predicate Agree(s: State) {
    && Registry.Consistent(s.reg)
    && (forall r, c | Registry.Online(s.reg, r, c) :: r in s.slots && s.slots[r].online && s.slots[r].onlineID == c)
  }

  ghost predicate Inv(s: State) {
    && (forall t <- s.th :: ThreadOk(s, t))
    && (forall c <- s.ctls :: CtlOk(s, c))
    && (forall r <- s.slots :: SlotOk(s, r))
    && (forall g <- s.held :: HeldOk(s, g))
    && 0 < s.nextID && UniqueIDs(s) && OneLive(s) && Agree(s)
  }

  // ---------------------------------------------------------------------------------------
  // Actions that move one thread and change at most one control

  /** A control may only move on in its life; who it is does not change. */
  predicate Evolves(x: Ctl, y: Ctl) {
    && y.run == x.run && y.id == x.id && y.barrier == x.barrier
    && (y.life == x.life || (x.life == Running && y.life == Closing) || (y.life == Closed && x.life != Running))
    && (x.life == Pending && x.activated ==> y.activated)
  }

  /** Only thread `t` moved, only control `c` changed, and gates changed hands only with `t`. */
  predicate Local(s: State, s': State, t: Tid, c: Ref) {
    && t in s.th && t in s'.th && s'.th == s.th[t := s'.th[t]]
    && (s'.ctls == s.ctls
        || (c in s.ctls && c in s'.ctls && s'.ctls == s.ctls[c := s'.ctls[c]] && Evolves(s.ctls[c], s'.ctls[c])))
    && s'.slots == s.slots && s'.closed == s.closed && s'.reg == s.reg
    && s'.nextGate == s.nextGate && s'.nextID >= s.nextID
    && (forall g <- s.held :: s.held[g] == t || (g in s'.held && s'.held[g] == s.held[g]))
    && (forall g <- s'.held :: s'.held[g] == t || (g in s.held && s'.held[g] == s.held[g]))
  }

  /** What is left to see to for control `c` itself, and for its threads other than `t`. */
  predicate CtlDuty(s: State, s': State, t: Tid, c: Ref) {
    c in s.ctls && c in s'.ctls ==>
      var y := s'.ctls[c];
      && (Login(c) in s.th && Login(c) != t ==> LoginOk(s', c, s.th[Login(c)].pc))
      && (Worker(c) in s.th && Worker(c) != t ==> WorkerOk(y, s.th[Worker(c)].pc))
      && (Worker(c) !in s.th ==>
            y.life in {Created, Pending, Closed} && !y.poolClosed && y.pool == [] && y.proxies == {})
      && (y.life == Closed != s.ctls[c].life ==> NotCurrent(s, y.run, c))
  }

  /** A worker that has cleaned up stays so, and `t` holds just the gate its program counter names. */
  ghost predicate MoveDuty(s: State, s': State, t: Tid)
    requires t in s.th && t in s'.th
  {
    && (t.Worker? && Uncleaned(s'.th[t].pc) ==> Uncleaned(s.th[t].pc))
    && (forall g <- s'.held | s'.held[g] == t :: g < s'.nextGate && Holding(s'.th[t].pc) == Some(g))
  }

  lemma LocalThread(s: State, s': State, t: Tid, c: Ref, u: Tid)
    requires Local(s, s', t, c) && CtlDuty(s, s', t, c)
    requires u in s.th && u != t && ThreadOk(s, u)
    ensures ThreadOk(s', u)
  {
    assert (u == Login(c) ==> c in s.ctls) && (u == Worker(c) ==> c in s.ctls);
  }

  lemma LocalCtl(s: State, s': State, t: Tid, c: Ref, d: Ref)
    requires Local(s, s', t, c) && CtlDuty(s, s', t, c) && MoveDuty(s, s', t)
    requires d in s.ctls && CtlOk(s, d)
    requires s.ctls[d].run in s.slots ==> SlotOk(s, s.ctls[d].run)
    ensures CtlOk(s', d)
  {
    hide LoginOk;
    hide WorkerOk;
    hide Holding;
  }

  lemma LocalSlot(s: State, s': State, t: Tid, c: Ref, r: string)
    requires Local(s, s', t, c) && CtlDuty(s, s', t, c)
    requires r in s.slots && SlotOk(s, r)
    ensures SlotOk(s', r)
  {
    hide LoginOk;
    hide WorkerOk;
  }

  lemma LocalGlobals(s: State, s': State, t: Tid, c: Ref)
    requires Local(s, s', t, c) && MoveDuty(s, s', t)
    requires forall g <- s.held :: HeldOk(s, g)
    requires UniqueIDs(s) && OneLive(s)
    ensures forall g <- s'.held :: HeldOk(s', g)
    ensures UniqueIDs(s') && OneLive(s')
  {
    hide Holding;
    assert forall p <- s.ctls :: Live(s', p) ==> Live(s, p);
  }

  lemma LocalKeeps(s: State, s': State, t: Tid, c: Ref)
    requires Inv(s) && Local(s, s', t, c)
    requires ThreadOk(s', t) && CtlDuty(s, s', t, c) && MoveDuty(s, s', t)
    ensures Inv(s')
  {
    hide ThreadOk;
    hide CtlOk;
    hide SlotOk;
    hide HeldOk;
    hide CtlDuty;
    hide MoveDuty;
    hide UniqueIDs;
    hide OneLive;
    hide Evolves;
    forall u <- s'.th ensures ThreadOk(s', u) { if u != t { LocalThread(s, s', t, c, u); } }
    forall d <- s'.ctls ensures CtlOk(s', d) { LocalCtl(s, s', t, c, d); }
    forall r <- s'.slots ensures SlotOk(s', r) { LocalSlot(s, s', t, c, r); }
    LocalGlobals(s, s', t, c);
  }

  ghost predicate OnlyHolds(s: State, t: Tid)
    requires t in s.th
  {
    forall g <- s.held | s.held[g] == t :: g < s.nextGate && Holding(s.th[t].pc) == Some(g)
  }

  /** The parts of the invariant that speak of one thread, its control and its slot. */
  lemma About(s: State, t: Tid)
    requires Inv(s) && t in s.th
    ensures ThreadOk(s, t) && OnlyHolds(s, t) && SlotsKnown(s)
    ensures s.th[t].ctl in s.ctls ==> CtlOk(s, s.th[t].ctl)
    ensures s.th[t].run in s.slots ==> SlotOk(s, s.th[t].run)
  {
    hide ThreadOk;
    hide CtlOk;
    forall g <- s.held | s.held[g] == t ensures g < s.nextGate && Holding(s.th[t].pc) == Some(g) {
      assert HeldOk(s, g);
    }
    forall r <- s.slots ensures s.slots[r].ctl in s.ctls {
      assert SlotOk(s, r);
    }
  }

  /** Nothing about a control is at stake when no control changes. */
  lemma NoCtlDuty(s: State, s': State, t: Tid, c: Ref)
    requires Inv(s) && Local(s, s', t, c) && s'.ctls == s.ctls
    ensures CtlDuty(s, s', t, c)
  {
    hide Holding;
    hide WellKinded;
    hide GateOk;
    hide SlotViewOk;
    if c in s.ctls { assert CtlOk(s, c); }
    if Login(c) in s.th { assert ThreadOk(s, Login(c)); }
    if Worker(c) in s.th { assert ThreadOk(s, Worker(c)); }
  }

  /** A thread moves on, taking or leaving a gate, and nothing else happens. */
  lemma MoveKeeps(s: State, s': State, t: Tid)
    requires Inv(s) && Local(s, s', t, 0) && s'.ctls == s.ctls
    requires ThreadOk(s', t) && MoveDuty(s, s', t)
    ensures Inv(s')
  {
    NoCtlDuty(s, s', t, 0);
    hide *;
    LocalKeeps(s, s', t, 0);
  }

  lemma GoKeeps(s: State, t: Tid, pc: Pc)
    requires t in s.th && Holding(pc) == Holding(s.th[t].pc)
    requires t.Worker? && Uncleaned(pc) ==> Uncleaned(s.th[t].pc)
    requires ThreadOk(Go(s, t, pc), t) && Inv(s)
    ensures Inv(Go(s, t, pc))
  {
    hide Inv;
    hide ThreadOk;
    hide Holding;
    About(s, t);
    MoveKeeps(s, Go(s, t, pc), t);
  }

  lemma LeaveKeeps(s: State, t: Tid, pc: Pc)
    requires Inv(s) && t in s.th && Holding(pc) == None
    requires t.Worker? && Uncleaned(pc) ==> Uncleaned(s.th[t].pc)
    requires ThreadOk(Leave(s, t, pc), t)
    ensures Inv(Leave(s, t, pc))
  {
    hide Inv;
    About(s, t);
    assert GateOk(s, t, s.th[t].pc);
    hide ThreadOk;
    hide Holding;
    MoveKeeps(s, Leave(s, t, pc), t);
  }

  function Take(s: State, t: Tid, pc: Pc, g: Gate): State
    requires t in s.th
  {
    Go(s, t, pc).(held := s.held[g := t])
  }

  lemma TakeKeeps(s: State, t: Tid, pc: Pc, g: Gate)
    requires Inv(s) && t in s.th && g !in s.held && g < s.nextGate
    requires Holding(s.th[t].pc) == None && Holding(pc) == Some(g)
    requires t.Worker? ==> !Uncleaned(pc)
    requires ThreadOk(Take(s, t, pc, g), t)
    ensures Inv(Take(s, t, pc, g))
  {
    hide Inv;
    hide ThreadOk;
    hide Holding;
    About(s, t);
    MoveKeeps(s, Take(s, t, pc, g), t);
  }

  // ---------------------------------------------------------------------------------------
  // Steps that only move a thread

  lemma AddReadKeeps(s: State, t: Tid)
    requires Inv(s) && t in s.th && s.th[t].pc.AddRead?
    ensures Inv(StepAddRead(s, t))
  {
    hide Inv;
    About(s, t);
    var run := s.th[t].run;
    GoKeeps(s, t, if run in s.slots then AddGate(s.slots[run]) else AddCommit(None));
  }

  lemma AddGateKeeps(s: State, t: Tid, want: Entry)
    requires Inv(s) && t in s.th && s.th[t].pc == AddGate(want) && CanStep(s, t)
    ensures Inv(StepAddGate(s, t, want))
  {
    hide Inv;
    About(s, t);
    TakeKeeps(s, t, AddCommit(Some(want)), want.gate);
  }

  lemma AwaitHandoffKeeps(s: State, t: Tid)
    requires Inv(s) && t in s.th && s.th[t].pc == AwaitHandoff && CanStep(s, t)
    ensures Inv(Go(s, t, OpRead(Activate)))
  {
    hide Inv;
    About(s, t);
    GoKeeps(s, t, OpRead(Activate));
  }

  /** A control that is not current is in no slot at all. */
  lemma NotInAnySlot(s: State, c: Ref)
    requires Inv(s) && c in s.ctls && NotCurrent(s, s.ctls[c].run, c)
    ensures forall r <- s.slots :: s.slots[r].ctl != c
  {
    hide ThreadOk;
    hide CtlOk;
    forall r <- s.slots ensures s.slots[r].ctl != c {
      assert SlotOk(s, r);
    }
  }

  /** lockCurrentRun, or the call after it, did not succeed. */
  lemma FailureKeeps(s: State, t: Tid, op: Op)
    requires Inv(s) && t in s.th && OpOk(t, op)
    requires s.th[t].pc == OpRead(op) || (s.th[t].pc.OpCheck? && s.th[t].pc.op == op) || (s.th[t].pc.OpAct? && s.th[t].pc.op == op)
    requires op == Remove ==> NotCurrent(s, s.th[t].run, s.th[t].ctl)
    ensures Inv(Leave(s, t, AfterFailure(t, op)))
  {
    hide Inv;
    About(s, t);
    if t.Closer? { NotInAnySlot(s, s.th[t].ctl); }
    hide CtlOk;
    hide SlotOk;
    FailureOk(s, t, op);
    hide ThreadOk;
    LeaveKeeps(s, t, AfterFailure(t, op));
  }

  lemma FailureOk(s: State, t: Tid, op: Op)
    requires t in s.th && OpOk(t, op) && ThreadOk(s, t)
    requires s.th[t].pc == OpRead(op) || (s.th[t].pc.OpCheck? && s.th[t].pc.op == op) || (s.th[t].pc.OpAct? && s.th[t].pc.op == op)
    requires op == Remove ==> NotCurrent(s, s.th[t].run, s.th[t].ctl)
    requires t.Closer? ==> forall r <- s.slots :: s.slots[r].ctl != s.th[t].ctl
    ensures ThreadOk(Leave(s, t, AfterFailure(t, op)), t)
  {
    FailedViewOk(s, t, op);
    if t.Login? { FailedLoginOk(s, t, op); }
    hide LoginOk, SlotViewOk, GateOk, WellKinded;
  }

  lemma FailedViewOk(s: State, t: Tid, op: Op)
    requires t in s.th && OpOk(t, op) && WellKinded(s, t) && s.th[t].pc != Done
    requires op == Remove ==> NotCurrent(s, s.th[t].run, s.th[t].ctl)
    ensures var s' := Leave(s, t, AfterFailure(t, op));
            WellKinded(s', t) && GateOk(s', t, s'.th[t].pc) && SlotViewOk(s', s'.th[t])
  {
  }

  lemma FailedLoginOk(s: State, t: Tid, op: Op)
    requires t in s.th && t.Login? && OpOk(t, op) && ThreadOk(s, t)
    requires s.th[t].pc == OpRead(op) || (s.th[t].pc.OpCheck? && s.th[t].pc.op == op) || (s.th[t].pc.OpAct? && s.th[t].pc.op == op)
    ensures LoginOk(Leave(s, t, AfterFailure(t, op)), t.ctl, AfterFailure(t, op))
  {
    hide SlotViewOk, GateOk, Holding;
  }

  lemma OpReadKeeps(s: State, t: Tid, op: Op)
    requires Inv(s) && t in s.th && s.th[t].pc == OpRead(op)
    ensures Inv(StepOpRead(s, t, op))
  {
    hide Inv;
    About(s, t);
    var run := s.th[t].run;
    if Finds(s, run, op) {
      GoKeeps(s, t, OpGate(op, s.slots[run].gate));
    } else {
      FailureKeeps(s, t, op);
    }
  }

  lemma OpGateKeeps(s: State, t: Tid, op: Op, g: Gate)
    requires Inv(s) && t in s.th && s.th[t].pc == OpGate(op, g) && CanStep(s, t)
    ensures Inv(StepOpGate(s, t, op, g))
  {
    hide Inv;
    About(s, t);
    TakeKeeps(s, t, OpCheck(op, g), g);
  }

  lemma OpCheckKeeps(s: State, t: Tid, op: Op, g: Gate)
    requires Inv(s) && t in s.th && s.th[t].pc == OpCheck(op, g)
    ensures Inv(StepOpCheck(s, t, op, g))
  {
    hide Inv;
    About(s, t);
    var run := s.th[t].run;
    if Finds(s, run, op) && s.slots[run].gate == g {
      GoKeeps(s, t, OpAct(op, s.slots[run]));
    } else {
      FailureKeeps(s, t, op);
    }
  }

  /** A login gives its gate back and goes on to another call. */
  lemma LoginLeaves(s: State, t: Tid, op: Op)
    requires Inv(s) && t in s.th && t.Login? && op in {Activate, Complete, Remove}
    requires s.th[t].pc.AddCommit? ==> s.closed
    requires PastWait(s.th[t].pc) || s.th[t].pc.AddCommit?
    requires s.th[t].pc != Done
    ensures Inv(Leave(s, t, OpRead(op)))
  {
    hide Inv;
    About(s, t);
    LeaveKeeps(s, t, OpRead(op));
  }

  lemma AddRetryKeeps(s: State, t: Tid)
    requires Inv(s) && t in s.th && s.th[t].pc.AddCommit?
    ensures Inv(Leave(s, t, AddRead))
  {
    hide Inv;
    About(s, t);
    LeaveKeeps(s, t, AddRead);
  }

  lemma CompleteKeeps(s: State, t: Tid, e: Entry)
    requires Inv(s) && t in s.th && s.th[t].pc == OpAct(Complete, e) && s.th[t].ctl in s.ctls
    ensures Inv(StepComplete(s, t, e))
  {
    hide Inv;
    About(s, t);
    if StepComplete(s, t, e) == Go(s, t, Writing(e)) {
      GoKeeps(s, t, Writing(e));
    } else {
      LoginLeaves(s, t, Remove);
    }
  }

  lemma FindKeeps(s: State, t: Tid, e: Entry, ok: bool)
    requires Inv(s) && t in s.th && s.th[t].pc == OpAct(Find, e) && e.ctl in s.ctls
    ensures Inv(StepFind(s, t, e, ok))
  {
    hide Inv;
    About(s, t);
    hide CtlOk, SlotOk;
    MoveKeeps(s, StepFind(s, t, e, ok), t);
  }

  lemma DropConnKeeps(s: State, t: Tid)
    requires Inv(s) && t in s.th && s.th[t].pc == DropConn && t.Presenter?
    ensures Inv(StepDropConn(s, t))
  {
    hide Inv;
    About(s, t);
    MoveKeeps(s, StepDropConn(s, t), t);
  }

  lemma ServeKeeps(s: State, t: Tid)
    requires Inv(s) && t in s.th && s.th[t].pc == Serve
    ensures Inv(Go(s, t, MarkClosing))
  {
    hide Inv;
    About(s, t);
    GoKeeps(s, t, MarkClosing);
  }

  // ---------------------------------------------------------------------------------------
  // Steps that change one control

  /** The parts of the invariant that speak of one control and its two threads. */
  lemma AboutCtl(s: State, c: Ref)
    requires Inv(s) && c in s.ctls
    ensures CtlOk(s, c) && LoginOk(s, c, s.th[Login(c)].pc)
    ensures Worker(c) in s.th ==> WorkerOk(s.ctls[c], s.th[Worker(c)].pc)
    ensures s.ctls[c].run in s.slots ==> SlotOk(s, s.ctls[c].run)
  {
    hide LoginOk;
    hide WorkerOk;
    hide SlotOk;
    assert CtlOk(s, c);
    assert ThreadOk(s, Login(c));
    if Worker(c) in s.th { assert ThreadOk(s, Worker(c)); }
  }

  /** `c` becomes `y`, `t` moves to `pc`, and work connections may be given away. */
  predicate Becomes(s: State, s': State, t: Tid, pc: Pc, c: Ref, y: Ctl)
    requires t in s.th
  {
    s' == Go(SetCtl(s, c, y), t, pc).(handed := s'.handed, dropped := s'.dropped)
  }

  predicate WorkerPc(pc: Pc) {
    Uncleaned(pc) || pc == OpRead(Remove) || pc == Done
  }

  lemma WorkerThread(s: State, s': State, c: Ref, pc: Pc)
    requires Worker(c) in s.th && Worker(c) in s'.th && c in s'.ctls
    requires s'.th[Worker(c)] == Thread(pc, s'.ctls[c].run, c, [])
    requires WorkerPc(pc) && WorkerOk(s'.ctls[c], pc)
    ensures ThreadOk(s', Worker(c))
  {
  }

  /** A worker goes on, or someone else changes the control it serves. */
  lemma WorkerMoves(s: State, s': State, c: Ref, pc: Pc, y: Ctl)
    requires Inv(s) && c in s.ctls && Worker(c) in s.th && Becomes(s, s', Worker(c), pc, c, y)
    requires WorkerPc(pc) && Holding(s.th[Worker(c)].pc) == None
    requires Uncleaned(pc) ==> Uncleaned(s.th[Worker(c)].pc)
    requires Evolves(s.ctls[c], y) && WorkerOk(y, pc)
    requires y.life == Closed != s.ctls[c].life ==> NotCurrent(s, y.run, c)
    ensures Inv(s')
  {
    hide Inv;
    var t := Worker(c);
    var x := s.th[t];
    About(s, t);
    AboutCtl(s, c);
    assert GateOk(s, t, s.th[t].pc) && x.run == s.ctls[c].run && x.ctl == c && x.rest == [];
    hide ThreadOk;
    hide CtlOk;
    hide SlotOk;
    hide WorkerOk;
    assert ThreadOk(s', t) by { WorkerThread(s, s', c, pc); }
    LocalKeeps(s, s', t, c);
  }

  lemma MarkClosingKeeps(s: State, t: Tid)
    requires Inv(s) && t in s.th && s.th[t].pc == MarkClosing && s.th[t].ctl in s.ctls
    ensures Inv(StepMarkClosing(s, t))
  {
    hide Inv;
    About(s, t);
    var c := s.th[t].ctl;
    WorkerMoves(s, StepMarkClosing(s, t), c, ClosePool, StepMarkClosing(s, t).ctls[c]);
  }

  lemma ClosePoolKeeps(s: State, t: Tid)
    requires Inv(s) && t in s.th && s.th[t].pc == ClosePool && s.th[t].ctl in s.ctls
    ensures Inv(StepClosePool(s, t))
  {
    hide Inv;
    About(s, t);
    var c := s.th[t].ctl;
    WorkerMoves(s, StepClosePool(s, t), c, DrainPool, StepClosePool(s, t).ctls[c]);
  }

  lemma DrainPoolKeeps(s: State, t: Tid)
    requires Inv(s) && t in s.th && s.th[t].pc == DrainPool && s.th[t].ctl in s.ctls
    ensures Inv(StepDrainPool(s, t))
  {
    hide Inv;
    About(s, t);
    var c := s.th[t].ctl;
    var s' := StepDrainPool(s, t);
    WorkerMoves(s, s', c, s'.th[t].pc, s'.ctls[c]);
  }

  lemma CloseProxiesKeeps(s: State, t: Tid, name: string)
    requires Inv(s) && t in s.th && s.th[t].pc == CloseProxies && s.th[t].ctl in s.ctls
    ensures Inv(StepCloseProxies(s, t, name))
  {
    hide Inv;
    About(s, t);
    var c := s.th[t].ctl;
    var s' := StepCloseProxies(s, t, name);
    WorkerMoves(s, s', c, s'.th[t].pc, s'.ctls[c]);
  }

  lemma FinishKeeps(s: State, t: Tid)
    requires Inv(s) && t in s.th && s.th[t].pc == Finish && s.th[t].ctl in s.ctls
    ensures Inv(StepFinish(s, t))
  {
    hide Inv;
    About(s, t);
    var c := s.th[t].ctl;
    WorkerMoves(s, StepFinish(s, t), c, Done, StepFinish(s, t).ctls[c]);
  }

  lemma TakeConnKeeps(s: State, c: Ref)
    requires Inv(s) && Enabled(s, TakeConn(c))
    ensures Inv(Apply(s, TakeConn(c)))
  {
    hide Inv;
    AboutCtl(s, c);
    var s' := Apply(s, TakeConn(c));
    WorkerMoves(s, s', c, s.th[Worker(c)].pc, s'.ctls[c]);
  }

  lemma ProxyKeeps(s: State, c: Ref, proxies: set<string>)
    requires Inv(s) && Serving(s, c) && c in s.ctls
    ensures Inv(SetCtl(s, c, s.ctls[c].(proxies := proxies)))
  {
    hide Inv;
    AboutCtl(s, c);
    var s' := SetCtl(s, c, s.ctls[c].(proxies := proxies));
    WorkerMoves(s, s', c, Serve, s'.ctls[c]);
  }

  /** Control.Close, of a control that has a worker or is no longer current. */
  lemma ClosedByKeeps(s: State, c: Ref)
    requires Inv(s) && c in s.ctls && LifeFree(s, c) && Login(c) in s.th && !Adding(s.th[Login(c)].pc)
    requires Worker(c) in s.th || NotCurrent(s, s.ctls[c].run, c)
    ensures Inv(SetCtl(s, c, ClosedBy(s.ctls[c])))
  {
    hide Inv;
    var t := Login(c);
    var s' := SetCtl(s, c, ClosedBy(s.ctls[c]));
    About(s, t);
    AboutCtl(s, c);
    assert ThreadOk(s', t) by { hide CtlOk; hide SlotOk; hide WorkerOk; }
    hide ThreadOk;
    hide SlotOk;
    LocalKeeps(s, s', t, c);
  }

  lemma AddNotifyKeeps(s: State, t: Tid, c: Ref)
    requires Inv(s) && t in s.th && s.th[t].pc == AddNotify(c) && c in s.ctls && CanStep(s, t)
    ensures Inv(StepAddNotify(s, t, c))
  {
    hide Inv;
    NotifyFacts(s, t, c);
    ClosedByKeeps(s, c);
    var s1 := SetCtl(s, c, ClosedBy(s.ctls[c]));
    About(s1, t);
    hide CtlOk;
    GoKeeps(s1, t, AwaitHandoff);
  }

  lemma NotifyFacts(s: State, t: Tid, c: Ref)
    requires Inv(s) && t in s.th && s.th[t].pc == AddNotify(c) && c in s.ctls
    ensures s.ctls[c].life in {Closing, Closed} && Login(c) in s.th && !Adding(s.th[Login(c)].pc)
    ensures Worker(c) !in s.th ==> NotCurrent(s, s.ctls[c].run, c)
    ensures t.Login?
  {
    hide Inv;
    About(s, t);
    AboutCtl(s, c);
  }

  lemma OfferKeeps(s: State, t: Tid, e: Entry)
    requires Inv(s) && t in s.th && s.th[t].pc == OpAct(Offer, e) && t.Presenter? && s.th[t].ctl in s.ctls
    ensures Inv(StepOffer(s, t, e))
  {
    hide Inv;
    if s.ctls[s.th[t].ctl].life == Running { PooledKeeps(s, t); }
    About(s, t);
    hide CtlOk;
    LeaveKeeps(s, t, DropConn);
  }

  lemma PooledKeeps(s: State, t: Tid)
    requires Inv(s) && t in s.th && t.Presenter? && s.th[t].pc.OpAct? && s.th[t].pc.op == Offer
    requires s.th[t].ctl in s.ctls && s.ctls[s.th[t].ctl].life == Running
    ensures var c := s.th[t].ctl; Inv(Leave(SetCtl(s, c, s.ctls[c].(pool := s.ctls[c].pool + [t.conn])), t, Done))
  {
    hide Inv;
    var c := s.th[t].ctl;
    AboutCtl(s, c);
    var y := s.ctls[c].(pool := s.ctls[c].pool + [t.conn]);
    var s1 := SetCtl(s, c, y);
    WorkerMoves(s, s1, c, s.th[Worker(c)].pc, y);
    hide CtlOk;
    hide WorkerOk;
    About(s1, t);
    LeaveKeeps(s1, t, Done);
  }

  lemma NextCtlKeeps(s: State, t: Tid)
    requires Inv(s) && t in s.th && s.th[t].pc == CloseCtl && WellKinded(s, t)
    ensures Inv(NextCtl(s, t))
  {
    hide Inv;
    About(s, t);
    NextCtlOk(s, t);
    hide ThreadOk;
    MoveKeeps(s, NextCtl(s, t), t);
  }

  lemma NextCtlOk(s: State, t: Tid)
    requires t in s.th && s.th[t].pc == CloseCtl && ThreadOk(s, t)
    ensures ThreadOk(NextCtl(s, t), t)
  {
    var x := s.th[t];
    if t.Closer? {
      CloserNextOk(s, t);
    } else {
      hide CloserOk;
    }
  }

  lemma CloserNextOk(s: State, t: Tid)
    requires t in s.th && s.th[t].pc == CloseCtl && ThreadOk(s, t) && t.Closer?
    ensures ThreadOk(NextCtl(s, t), t)
  {
    var x := s.th[t];
    CloserGoesOn(s, NextCtl(s, t), x);
    hide CloserOk;
  }

  lemma CloserGoesOn(s: State, s': State, x: Thread)
    requires CloserOk(s, x) && x.pc == CloseCtl && s' == s.(th := s'.th)
    ensures x.rest == [] ==> CloserOk(s', x.(pc := Done))
    ensures x.rest != [] ==> x.rest[0] in s.ctls && CloserOk(s', Thread(OpRead(Remove), s.ctls[x.rest[0]].run, x.rest[0], x.rest[1..]))
  {
    if x.rest != [] { CloserStarts(s', x.rest); }
  }

  lemma CloseCtlKeeps(s: State, t: Tid)
    requires Inv(s) && t in s.th && s.th[t].pc == CloseCtl && WellKinded(s, t) && CanStep(s, t)
    ensures Inv(StepCloseCtl(s, t))
  {
    hide Inv;
    About(s, t);
    var c := s.th[t].ctl;
    AboutCtl(s, c);
    ClosedByKeeps(s, c);
    var s1 := SetCtl(s, c, ClosedBy(s.ctls[c]));
    hide CtlOk;
    hide LoginOk;
    hide WorkerOk;
    hide SlotViewOk;
    hide CloserOk;
    NextCtlKeeps(s1, t);
  }

  // ---------------------------------------------------------------------------------------
  // Starting a worker

  lemma StartThread(s: State, c: Ref, u: Tid)
    requires c in s.ctls && s.ctls[c].life == Pending && Worker(c) !in s.th
    requires u in s.th && ThreadOk(s, u)
    requires u == Login(c) ==> s.th[u].pc == Done
    ensures ThreadOk(Start(s, c), u)
  {
  }

  lemma StartCtl(s: State, c: Ref, d: Ref)
    requires c in s.ctls && s.ctls[c].life == Pending && Worker(c) !in s.th
    requires s.ctls[c].run in s.slots && s.slots[s.ctls[c].run].ctl == c
    requires d in s.ctls && CtlOk(s, c) && CtlOk(s, d)
    requires d != c && s.ctls[d].run == s.ctls[c].run ==> !Live(s, d)
    ensures CtlOk(Start(s, c), d)
  {
  }

  /** Whoever waits in the slot for a barrier that is closed waits for no live control. */
  lemma NoLiveBehind(s: State, c: Ref, p: Ref)
    requires Inv(s) && c in s.ctls && s.ctls[c].run in s.slots && s.slots[s.ctls[c].run].ctl == c
    requires BarrierPassed(s, c) || s.ctls[c].life != Pending
    requires p in s.ctls && p != c && s.ctls[p].run == s.ctls[c].run
    ensures !Live(s, p)
  {
    hide Inv;
    AboutCtl(s, c);
    AboutCtl(s, p);
  }

  lemma StartFacts(s: State, c: Ref)
    requires Inv(s) && c in s.ctls && s.ctls[c].life == Pending && Login(c) in s.th && s.th[Login(c)].pc == Done
    requires s.ctls[c].run in s.slots && s.slots[s.ctls[c].run].ctl == c
    ensures Worker(c) !in s.th && CtlOk(s, c) && WorkerOk(Start(s, c).ctls[c], Serve)
    ensures forall p <- s.ctls | p != c && s.ctls[p].run == s.ctls[c].run :: !Live(s, p)
  {
    hide Inv;
    AboutCtl(s, c);
    forall p <- s.ctls | p != c && s.ctls[p].run == s.ctls[c].run ensures !Live(s, p) { NoLiveBehind(s, c, p); }
  }

  lemma StartGlobals(s: State, c: Ref)
    requires c in s.ctls && Worker(c) !in s.th
    requires forall p <- s.ctls | p != c && s.ctls[p].run == s.ctls[c].run :: !Live(s, p)
    requires forall g <- s.held :: HeldOk(s, g)
    requires UniqueIDs(s) && OneLive(s) && Agree(s)
    ensures var s' := Start(s, c);
            && (forall g <- s'.held :: HeldOk(s', g))
            && UniqueIDs(s') && OneLive(s') && Agree(s')
  {
    hide Holding;
  }

  lemma StartKeeps(s: State, c: Ref)
    requires Inv(s) && c in s.ctls && s.ctls[c].life == Pending && Login(c) in s.th && s.th[Login(c)].pc == Done
    requires s.ctls[c].run in s.slots && s.slots[s.ctls[c].run].ctl == c
    ensures Inv(Start(s, c))
  {
    hide CtlOk;
    hide ThreadOk;
    hide HeldOk;
    hide UniqueIDs;
    hide OneLive;
    hide Agree;
    hide WorkerOk;
    StartFacts(s, c);
    var s' := Start(s, c);
    forall u <- s'.th ensures ThreadOk(s', u) {
      if u == Worker(c) { WorkerThread(s', s', c, Serve); } else { StartThread(s, c, u); }
    }
    forall d <- s'.ctls ensures CtlOk(s', d) { StartCtl(s, c, d); }
    StartGlobals(s, c);
  }

  // ---------------------------------------------------------------------------------------
  // Changing a slot

  /** No thread is inside a call it validated against the slot of `run`. */
  predicate Unlocked(s: State, run: string) {
    forall t <- s.th | s.th[t].run == run :: !s.th[t].pc.OpAct? && !s.th[t].pc.Writing?
  }

  /** A validated gate keeps everyone else out of the slot it protects. */
  lemma SoleLocker(s: State, t: Tid, u: Tid)
    requires Inv(s) && t in s.th && u in s.th && t != u && s.th[t].run == s.th[u].run
    requires s.th[t].run in s.slots && Holding(s.th[t].pc) == Some(s.slots[s.th[t].run].gate)
    ensures !s.th[u].pc.OpAct? && !s.th[u].pc.Writing?
  {
    hide Inv;
    About(s, t);
    About(s, u);
  }

  lemma LeaveUnlocks(s: State, t: Tid, pc: Pc)
    requires Inv(s) && t in s.th && !pc.OpAct? && !pc.Writing?
    requires s.th[t].run in s.slots && Holding(s.th[t].pc) == Some(s.slots[s.th[t].run].gate)
    ensures Unlocked(Leave(s, t, pc), s.th[t].run)
  {
    hide Inv;
    hide Holding;
    forall u <- s.th | u != t && s.th[u].run == s.th[t].run
      ensures !s.th[u].pc.OpAct? && !s.th[u].pc.Writing?
    {
      SoleLocker(s, t, u);
    }
  }

  lemma GoOnlineThread(s: State, c: Ref, r: Registry.Registered, u: Tid)
    requires c in s.ctls && s.ctls[c].run in s.slots && s.slots[s.ctls[c].run].ctl == c
    requires u in s.th && ThreadOk(s, u)
    requires s.th[u].run == s.ctls[c].run ==> !s.th[u].pc.OpAct? && !s.th[u].pc.Writing?
    ensures ThreadOk(GoOnline(s, c, r), u)
  {
  }

  lemma GoOnlineCtl(s: State, c: Ref, r: Registry.Registered, d: Ref)
    requires c in s.ctls && s.ctls[c].run in s.slots && s.slots[s.ctls[c].run].ctl == c
    requires d in s.ctls && CtlOk(s, d)
    ensures CtlOk(GoOnline(s, c, r), d)
  {
  }

  lemma GoOnlineGlobals(s: State, c: Ref, now: int)
    requires c in s.ctls && s.ctls[c].run in s.slots && s.slots[s.ctls[c].run].ctl == c && s.ctls[c].run != ""
    requires (forall r <- s.slots :: SlotOk(s, r)) && (forall g <- s.held :: HeldOk(s, g))
    requires UniqueIDs(s) && OneLive(s) && Agree(s)
    requires var x := s.ctls[c]; !Registry.Register(s.reg, x.user, x.clientID, x.run, x.id, now).conflict
    ensures var x := s.ctls[c];
            var s' := GoOnline(s, c, Registry.Register(s.reg, x.user, x.clientID, x.run, x.id, now));
            && (forall r <- s'.slots :: SlotOk(s', r)) && (forall g <- s'.held :: HeldOk(s', g))
            && UniqueIDs(s') && OneLive(s') && Agree(s')
  {
    hide Holding, Registry.Register;
    GoOnlineAgrees(s, c, now);
    hide Agree;
  }

  lemma GoOnlineAgrees(s: State, c: Ref, now: int)
    requires c in s.ctls && s.ctls[c].run in s.slots && s.ctls[c].run != "" && Agree(s)
    requires var x := s.ctls[c]; !Registry.Register(s.reg, x.user, x.clientID, x.run, x.id, now).conflict
    ensures var x := s.ctls[c]; Agree(GoOnline(s, c, Registry.Register(s.reg, x.user, x.clientID, x.run, x.id, now)))
  {
    hide Registry.Register, Registry.Consistent, Registry.Online;
    var x := s.ctls[c];
    Registry.RegisterKeepsConsistent(s.reg, x.user, x.clientID, x.run, x.id, now);
    Registry.RegisterEffect(s.reg, x.user, x.clientID, x.run, x.id, now);
  }

  lemma UnlockedAt(s: State, run: string, u: Tid)
    requires Unlocked(s, run) && u in s.th
    ensures s.th[u].run == run ==> !s.th[u].pc.OpAct? && !s.th[u].pc.Writing?
  {
  }

  lemma RunNamed(s: State, c: Ref)
    requires Inv(s) && c in s.ctls
    ensures s.ctls[c].run != ""
  {
    hide Inv;
    AboutCtl(s, c);
  }

  lemma GoOnlineKeeps(s: State, c: Ref, now: int)
    requires Inv(s) && c in s.ctls && s.ctls[c].run in s.slots && s.slots[s.ctls[c].run].ctl == c
    requires Unlocked(s, s.ctls[c].run)
    requires var x := s.ctls[c]; !Registry.Register(s.reg, x.user, x.clientID, x.run, x.id, now).conflict
    ensures var x := s.ctls[c]; Inv(GoOnline(s, c, Registry.Register(s.reg, x.user, x.clientID, x.run, x.id, now)))
  {
    hide CtlOk;
    hide ThreadOk;
    hide SlotOk;
    hide HeldOk;
    hide UniqueIDs;
    hide OneLive;
    hide Agree;
    hide Registry.Register;
    hide Unlocked;
    RunNamed(s, c);
    var x := s.ctls[c];
    var r := Registry.Register(s.reg, x.user, x.clientID, x.run, x.id, now);
    var s' := GoOnline(s, c, r);
    forall u <- s'.th ensures ThreadOk(s', u) { UnlockedAt(s, x.run, u); GoOnlineThread(s, c, r, u); }
    forall d <- s'.ctls ensures CtlOk(s', d) { GoOnlineCtl(s, c, r, d); }
    GoOnlineGlobals(s, c, now);
  }

  lemma ActivateKeeps(s: State, t: Tid, e: Entry, now: int)
    requires Inv(s) && t in s.th && s.th[t].pc == OpAct(Activate, e) && WellKinded(s, t)
    ensures Inv(StepActivate(s, t, e, now))
  {
    hide Inv;
    hide Registry.Register;
    About(s, t);
    hide CtlOk;
    LoginLeaves(s, t, Remove);
    LoginLeaves(s, t, Complete);
    var c := s.th[t].ctl;
    var s1 := Leave(s, t, OpRead(Complete));
    var x := s.ctls[c];
    if !s.closed && Mine(s, t, e) && x.life == Pending && !x.activated
       && !Registry.Register(s.reg, x.user, x.clientID, x.run, e.id, now).conflict
    {
      LeaveUnlocks(s, t, OpRead(Complete));
      hide ThreadOk;
      hide Unlocked;
      GoOnlineKeeps(s1, c, now);
    }
  }

  lemma WritingKeeps(s: State, t: Tid, ok: bool)
    requires Inv(s) && t in s.th && s.th[t].pc.Writing? && WellKinded(s, t)
    ensures Inv(StepWriting(s, t, ok))
  {
    hide Inv;
    About(s, t);
    hide CtlOk;
    LoginLeaves(s, t, Remove);
    var c := s.th[t].ctl;
    assert s.slots[s.th[t].run].ctl == c;
    LeaveKeeps(s, t, Done);
    hide ThreadOk;
    StartKeeps(Leave(s, t, Done), c);
  }

  lemma DropSlotThread(s: State, run: string, now: int, u: Tid)
    requires run in s.slots && u in s.th && ThreadOk(s, u)
    requires s.th[u].run == run ==> !s.th[u].pc.OpAct? && !s.th[u].pc.Writing?
    ensures ThreadOk(DropSlot(s, run, now), u)
  {
    hide Registry.MarkOffline;
  }

  lemma DropSlotCtl(s: State, run: string, now: int, d: Ref)
    requires run in s.slots && d in s.ctls && CtlOk(s, d)
    requires s.closed || s.ctls[d].run != run || (!Live(s, d) && s.ctls[d].life != Running)
    ensures CtlOk(DropSlot(s, run, now), d)
  {
    hide Registry.MarkOffline;
  }

  lemma DropSlotAgree(s: State, run: string, now: int)
    requires run in s.slots && run != "" && Agree(s)
    ensures Agree(DropSlot(s, run, now))
  {
    hide Registry.MarkOffline;
    hide Registry.Consistent;
    hide Registry.Online;
    Registry.MarkOfflineKeepsConsistent(s.reg, run, Registry.Exactly(s.slots[run].onlineID), now);
    Registry.MarkOfflineEffect(s.reg, run, Registry.Exactly(s.slots[run].onlineID), now);
  }

  lemma DropSlotKeeps(s: State, run: string, now: int)
    requires Inv(s) && run in s.slots && run != "" && Unlocked(s, run)
    requires s.closed || forall d <- s.ctls | s.ctls[d].run == run :: !Live(s, d) && s.ctls[d].life != Running
    ensures Inv(DropSlot(s, run, now))
  {
    hide CtlOk;
    hide ThreadOk;
    hide HeldOk;
    hide UniqueIDs;
    hide OneLive;
    hide Agree;
    hide Live;
    hide Registry.MarkOffline;
    var s' := DropSlot(s, run, now);
    forall u <- s'.th ensures ThreadOk(s', u) { DropSlotThread(s, run, now, u); }
    forall d <- s'.ctls ensures CtlOk(s', d) { DropSlotCtl(s, run, now, d); }
    DropSlotAgree(s, run, now);
    DropSlotGlobals(s, run, now);
  }

  lemma DropSlotGlobals(s: State, run: string, now: int)
    requires run in s.slots
    requires (forall r <- s.slots :: SlotOk(s, r)) && (forall g <- s.held :: HeldOk(s, g)) && UniqueIDs(s) && OneLive(s)
    ensures var s' := DropSlot(s, run, now);
            (forall r <- s'.slots :: SlotOk(s', r)) && (forall g <- s'.held :: HeldOk(s', g)) && UniqueIDs(s') && OneLive(s')
  {
    hide Registry.MarkOffline;
    hide Holding;
  }

  /** Whoever may remove the current control of a run leaves no live control of that run behind. */
  lemma RemoverLeavesNoneLive(s: State, t: Tid, d: Ref)
    requires Inv(s) && t in s.th && (t.Login? || t.Worker?) && s.th[t].pc.OpAct? && s.th[t].pc.op == Remove
    requires s.th[t].run in s.slots && s.slots[s.th[t].run].ctl == s.th[t].ctl
    requires d in s.ctls && s.ctls[d].run == s.th[t].run && !s.closed
    ensures !Live(s, d) && s.ctls[d].life != Running
  {
    hide Inv;
    About(s, t);
    AboutCtl(s, s.th[t].ctl);
    AboutCtl(s, d);
  }

  lemma BackToRemove(s: State, t: Tid, e: Entry)
    requires Inv(s) && t in s.th && s.th[t].pc == OpAct(Remove, e)
    ensures Inv(Leave(s, t, OpRead(Remove)))
  {
    hide Inv;
    About(s, t);
    hide CtlOk;
    LeaveKeeps(s, t, OpRead(Remove));
  }

  lemma RemoveFacts(s: State, t: Tid, e: Entry)
    requires Inv(s) && t in s.th && s.th[t].pc == OpAct(Remove, e) && s.th[t].ctl in s.ctls
    ensures s.th[t].run != "" && s.th[t].run in s.slots && s.slots[s.th[t].run] == e && !t.Presenter? && !t.Visitor?
    ensures t.Closer? ==> s.closed
    ensures !Mine(s, t, e) ==> e.ctl != s.th[t].ctl
  {
    hide Inv;
    About(s, t);
    RunNamed(s, s.th[t].ctl);
  }

  lemma LeaveLive(s: State, t: Tid, d: Ref)
    requires t in s.th && !Live(s, d)
    ensures !Live(Leave(s, t, OpRead(Remove)), d)
  {
  }

  lemma RemoveInTwo(s: State, t: Tid, e: Entry, now: int)
    requires t in s.th && s.th[t].pc == OpAct(Remove, e) && s.th[t].run in s.slots
    ensures var run := s.th[t].run;
            var s2 := DropSlot(Leave(s, t, OpRead(Remove)), run, now);
            Leave(DropSlot(s, run, now), t, AfterRemove(t)) == Leave(s2, t, AfterRemove(t))
  {
    hide Registry.MarkOffline;
  }

  lemma RemoveHitKeeps(s: State, t: Tid, e: Entry, now: int)
    requires Inv(s) && t in s.th && s.th[t].pc == OpAct(Remove, e) && s.th[t].ctl in s.ctls && Mine(s, t, e)
    requires s.th[t].run in s.slots
    ensures Inv(Leave(DropSlot(s, s.th[t].run, now), t, AfterRemove(t)))
  {
    hide Inv;
    hide Live;
    hide Unlocked;
    hide Registry.MarkOffline;
    RemoveFacts(s, t, e);
    var run := s.th[t].run;
    var s1 := Leave(s, t, OpRead(Remove));
    BackToRemove(s, t, e);
    LeaveUnlocks(s, t, OpRead(Remove));
    forall d <- s1.ctls | s1.ctls[d].run == run && !s1.closed ensures !Live(s1, d) && s1.ctls[d].life != Running {
      RemoverLeavesNoneLive(s, t, d);
      LeaveLive(s, t, d);
    }
    DropSlotKeeps(s1, run, now);
    FailureKeeps(DropSlot(s1, run, now), t, Remove);
    RemoveInTwo(s, t, e, now);
  }

  lemma RemoveKeeps(s: State, t: Tid, e: Entry, now: int)
    requires Inv(s) && t in s.th && s.th[t].pc == OpAct(Remove, e) && s.th[t].ctl in s.ctls
    ensures Inv(StepRemove(s, t, e, now))
  {
    hide Inv;
    hide DropSlot;
    RemoveFacts(s, t, e);
    if Mine(s, t, e) {
      RemoveHitKeeps(s, t, e, now);
    } else {
      FailureKeeps(s, t, Remove);
    }
  }

  // ---------------------------------------------------------------------------------------
  // Admitting a control

  /** The state after a successful Add. */
  function Added(s: State, c: Ref): State
    requires c in s.ctls && Login(c) in s.th && s.th[Login(c)].pc.AddCommit?
    requires var run := s.ctls[c].run; run in s.slots ==> s.slots[run].ctl in s.ctls
  {
    var seen := s.th[Login(c)].pc.seen;
    Leave(Admit(s, c), Login(c), if seen.Some? then AddNotify(seen.value.ctl) else AwaitHandoff)
  }

  /** What Add has checked when it commits. */
  predicate Admissible(s: State, c: Ref) {
    && c in s.ctls && Login(c) in s.th && s.th[Login(c)].pc.AddCommit? && ThreadOk(s, Login(c)) && CtlOk(s, c)
    && !s.closed && SameSlot(s, s.ctls[c].run, s.th[Login(c)].pc.seen)
    && Worker(c) !in s.th
    && (s.ctls[c].run in s.slots ==> s.slots[s.ctls[c].run].ctl in s.ctls && SlotOk(s, s.ctls[c].run))
  }

  lemma AddedSelf(s: State, c: Ref)
    requires Admissible(s, c)
    ensures ThreadOk(Added(s, c), Login(c))
  {
  }

  /** What Add does to the parts of the state other threads look at. */
  predicate AddedShape(s: State, s': State, c: Ref)
    requires c in s.ctls && c in s'.ctls && Login(c) in s.th && Login(c) in s'.th
  {
    var run := s.ctls[c].run;
    && s'.th == s.th[Login(c) := s'.th[Login(c)]]
    && s'.ctls.Keys == s.ctls.Keys
    && s'.ctls[c] == s.ctls[c].(id := s.nextID, life := Pending, barrier := s'.ctls[c].barrier)
    && (forall d <- s.ctls | d != c ::
          && Evolved(s.ctls[d], s'.ctls[d])
          && (s'.ctls[d] == s.ctls[d] || (run in s.slots && s.slots[run].ctl == d && s.ctls[d].run == run)))
    && run in s'.slots && s'.slots == s.slots[run := s'.slots[run]] && s'.slots[run].ctl == c && s'.slots[run].id == s.nextID
    && s'.closed == s.closed && s.nextGate <= s'.nextGate && s'.handed == s.handed && s'.dropped == s.dropped
    && (forall g <- s.held :: s.held[g] == Login(c) || (g in s'.held && s'.held[g] == s.held[g]))
  }

  /** The replaced control ended at once if it had no worker, and is on its way out otherwise. */
  predicate Evolved(x: Ctl, y: Ctl) {
    && y == x.(life := y.life)
    && (y.life == x.life || (x.life == Pending && y.life == Closed) || (x.life == Running && y.life == Closing))
  }

  lemma AddedHasShape(s: State, c: Ref)
    requires Admissible(s, c)
    ensures AddedShape(s, Added(s, c), c)
  {
    hide LoginOk;
    hide CtlOk;
  }

  lemma AddedLogin(s: State, s': State, c: Ref, d: Ref, pc: Pc)
    requires c in s.ctls && c in s'.ctls && Login(c) in s.th && Login(c) in s'.th && AddedShape(s, s', c)
    requires s.ctls[c].life == Created && d in s.ctls && d != c && LoginOk(s, d, pc)
    requires s.ctls[d].run == s.ctls[c].run ==> !pc.Writing?
    ensures LoginOk(s', d, pc)
  {
  }

  lemma AddedSlotView(s: State, s': State, c: Ref, x: Thread)
    requires c in s.ctls && c in s'.ctls && Login(c) in s.th && Login(c) in s'.th && AddedShape(s, s', c)
    requires SlotViewOk(s, x) && x.ctl != c
    requires x.run == s.ctls[c].run ==> !x.pc.OpAct? && !x.pc.Writing?
    requires x.pc.AddGate? ==> x.pc.want.id < s.nextID
    requires x.pc.AddCommit? && x.pc.seen.Some? ==> x.pc.seen.value.id < s.nextID
    ensures SlotViewOk(s', x)
  {
  }

  /** A work connection or a visitor looks at a slot only when it acts. */
  lemma AddedCaller(s: State, s': State, c: Ref, u: Tid)
    requires c in s.ctls && c in s'.ctls && Login(c) in s.th && Login(c) in s'.th && AddedShape(s, s', c)
    requires u in s.th && (u.Presenter? || u.Visitor?) && KindOk(u, s.th[u].pc) && SlotViewOk(s, s.th[u])
    requires s.th[u].run == s.ctls[c].run ==> !s.th[u].pc.OpAct?
    ensures SlotViewOk(s', s.th[u])
  {
  }

  lemma AddedThread(s: State, s': State, c: Ref, u: Tid)
    requires c in s.ctls && c in s'.ctls && Login(c) in s.th && Login(c) in s'.th && AddedShape(s, s', c)
    requires s.ctls[c].life == Created && !s.closed
    requires u in s.th && u != Login(c) && ThreadOk(s, u)
    requires s.th[u].run == s.ctls[c].run ==> !s.th[u].pc.OpAct? && !s.th[u].pc.Writing?
    requires s.th[u].pc.AddGate? ==> s.th[u].pc.want.id < s.nextID
    requires s.th[u].pc.AddCommit? && s.th[u].pc.seen.Some? ==> s.th[u].pc.seen.value.id < s.nextID
    ensures ThreadOk(s', u)
  {
    hide LoginOk, SlotViewOk;
    if u.Login? { AddedLogin(s, s', c, u.ctl, s.th[u].pc); }
    if u.Presenter? || u.Visitor? { AddedCaller(s, s', c, u); } else { AddedSlotView(s, s', c, s.th[u]); }
  }

  /** A replacement inherits the wait of a pending control, and waits for a started one. */
  lemma AddedCtl(s: State, c: Ref, d: Ref)
    requires Admissible(s, c) && s.ctls[c].life == Created && d in s.ctls && CtlOk(s, d)
    requires var run := s.ctls[c].run;
             run in s.slots ==>
               var q := s.slots[run].ctl; CtlOk(s, q) && (Worker(q) in s.th ==> s.ctls[q].life != Pending)
    ensures CtlOk(Added(s, c), d)
  {
    hide ThreadOk, CtlOk;
    if d == c { AddedNewcomer(s, c); }
    else if s.ctls[c].run in s.slots && s.slots[s.ctls[c].run].ctl == d { AddedPrior(s, c); }
    else { AddedOther(s, c, d); }
  }

  lemma AddedNewcomer(s: State, c: Ref)
    requires Admissible(s, c) && s.ctls[c].life == Created
    requires var run := s.ctls[c].run;
             run in s.slots ==>
               var q := s.slots[run].ctl; CtlOk(s, q) && (Worker(q) in s.th ==> s.ctls[q].life != Pending)
    ensures CtlOk(Added(s, c), c)
  {
    hide ThreadOk, LoginOk;
  }

  lemma AddedPrior(s: State, c: Ref)
    requires Admissible(s, c) && s.ctls[c].life == Created
    requires s.ctls[c].run in s.slots && CtlOk(s, s.slots[s.ctls[c].run].ctl)
    requires var q := s.slots[s.ctls[c].run].ctl; Worker(q) in s.th ==> s.ctls[q].life != Pending
    ensures CtlOk(Added(s, c), s.slots[s.ctls[c].run].ctl)
  {
    hide ThreadOk, LoginOk;
  }

  lemma AddedOther(s: State, c: Ref, d: Ref)
    requires Admissible(s, c) && s.ctls[c].life == Created && d in s.ctls && d != c && CtlOk(s, d)
    requires var run := s.ctls[c].run;
             run in s.slots ==>
               var q := s.slots[run].ctl; q != d && CtlOk(s, q) && (Worker(q) in s.th ==> s.ctls[q].life != Pending)
    ensures CtlOk(Added(s, c), d)
  {
    hide ThreadOk, LoginOk;
  }

  lemma AddedSlot(s: State, c: Ref, r: string)
    requires Admissible(s, c) && s.ctls[c].life == Created
    requires r in Added(s, c).slots && (r in s.slots ==> SlotOk(s, r))
    ensures SlotOk(Added(s, c), r)
  {
    if r == s.ctls[c].run {
      NewSlot(s, c);
    } else {
      AddedHasShape(s, c);
      OtherSlot(s, Added(s, c), c, r);
    }
  }

  lemma NewSlot(s: State, c: Ref)
    requires Admissible(s, c) && s.ctls[c].life == Created
    ensures s.ctls[c].run in Added(s, c).slots && SlotOk(Added(s, c), s.ctls[c].run)
  {
    hide ThreadOk;
    hide CtlOk;
  }

  lemma OtherSlot(s: State, s': State, c: Ref, r: string)
    requires c in s.ctls && c in s'.ctls && Login(c) in s.th && Login(c) in s'.th && AddedShape(s, s', c)
    requires r in s'.slots && r != s.ctls[c].run && (r in s.slots ==> SlotOk(s, r)) && s.ctls[c].life == Created && s.nextID <= s'.nextID
    ensures SlotOk(s', r)
  {
  }

  lemma AddedHeld(s: State, c: Ref, g: Gate)
    requires Admissible(s, c) && OnlyHolds(s, Login(c))
    requires g in Added(s, c).held && g in s.held && HeldOk(s, g)
    ensures HeldOk(Added(s, c), g)
  {
    hide LoginOk;
    hide CtlOk;
  }

  lemma AddedUnique(s: State, c: Ref)
    requires Admissible(s, c) && s.ctls[c].life == Created && UniqueIDs(s) && OneLive(s)
    requires forall d <- s.ctls :: s.ctls[d].id < s.nextID
    ensures UniqueIDs(Added(s, c)) && OneLive(Added(s, c))
  {
    AddedControls(s, c);
    hide Admissible, Added, Live;
  }

  lemma AddedControls(s: State, c: Ref)
    requires Admissible(s, c) && s.ctls[c].life == Created
    ensures var s' := Added(s, c);
            && s'.ctls.Keys == s.ctls.Keys
            && forall p <- s.ctls ::
                 && (Live(s', p) ==> Live(s, p))
                 && s'.ctls[p].run == s.ctls[p].run
                 && s'.ctls[p].id == if p == c then s.nextID else s.ctls[p].id
  {
    hide ThreadOk, CtlOk, SlotOk;
    var s' := Added(s, c);
    assert s'.ctls.Keys == s.ctls.Keys;
  }

  lemma AddedAgree(s: State, c: Ref)
    requires Admissible(s, c) && Agree(s)
    ensures Agree(Added(s, c))
  {
    hide ThreadOk;
    hide CtlOk;
    hide SlotOk;
    hide Registry.Consistent;
    hide Registry.Online;
  }

  lemma SeenBelow(s: State, u: Tid)
    requires Inv(s) && u in s.th
    ensures s.th[u].pc.AddGate? ==> s.th[u].pc.want.id < s.nextID
    ensures s.th[u].pc.AddCommit? && s.th[u].pc.seen.Some? ==> s.th[u].pc.seen.value.id < s.nextID
  {
    hide Inv;
    About(s, u);
    var pc := s.th[u].pc;
    if pc.AddGate? { AboutCtl(s, pc.want.ctl); }
    if pc.AddCommit? && pc.seen.Some? { AboutCtl(s, pc.seen.value.ctl); }
  }

  lemma AdderAlone(s: State, c: Ref, u: Tid)
    requires Inv(s) && Admissible(s, c) && u in s.th && u != Login(c) && s.th[u].run == s.ctls[c].run
    ensures !s.th[u].pc.OpAct? && !s.th[u].pc.Writing?
  {
    hide Inv;
    hide CtlOk;
    About(s, u);
    if s.ctls[c].run in s.slots { SoleLocker(s, Login(c), u); }
  }

  lemma AddedKeeps(s: State, c: Ref)
    requires Inv(s) && Admissible(s, c) && s.ctls[c].life == Created
    ensures Inv(Added(s, c))
  {
    hide CtlOk;
    hide ThreadOk;
    hide SlotOk;
    hide HeldOk;
    hide UniqueIDs;
    hide OneLive;
    hide Agree;
    hide OnlyHolds;
    var s' := Added(s, c);
    AddedHasShape(s, c);
    AddedSelf(s, c);
    About(s, Login(c));
    forall u <- s'.th ensures ThreadOk(s', u) {
      if u != Login(c) { AddedOthers(s, c, u); }
    }
    forall d <- s'.ctls ensures CtlOk(s', d) { AddedCtlOf(s, c, d); }
    forall r <- s'.slots ensures SlotOk(s', r) { AddedSlot(s, c, r); }
    forall g <- s'.held ensures HeldOk(s', g) { AddedHeld(s, c, g); }
    forall d <- s.ctls ensures s.ctls[d].id < s.nextID { AboutID(s, d); }
    AddedUnique(s, c);
    AddedAgree(s, c);
  }

  lemma AboutID(s: State, d: Ref)
    requires Inv(s) && d in s.ctls
    ensures s.ctls[d].id < s.nextID
  {
    hide Inv;
    AboutCtl(s, d);
  }

  lemma AddedOthers(s: State, c: Ref, u: Tid)
    requires Inv(s) && Admissible(s, c) && s.ctls[c].life == Created && u in s.th && u != Login(c)
    ensures u in Added(s, c).th && ThreadOk(Added(s, c), u)
  {
    hide Inv;
    hide CtlOk;
    About(s, u);
    hide ThreadOk;
    AddedHasShape(s, c);
    SeenBelow(s, u);
    if s.th[u].run == s.ctls[c].run { AdderAlone(s, c, u); }
    AddedThread(s, Added(s, c), c, u);
  }

  lemma AddedCtlOf(s: State, c: Ref, d: Ref)
    requires Inv(s) && Admissible(s, c) && s.ctls[c].life == Created && d in s.ctls
    ensures d in Added(s, c).ctls && CtlOk(Added(s, c), d)
  {
    hide Inv;
    AboutCtl(s, d);
    if s.ctls[c].run in s.slots { AboutCtl(s, s.slots[s.ctls[c].run].ctl); }
    hide CtlOk;
    hide ThreadOk;
    AddedCtl(s, c, d);
  }

  lemma AddCommitKeeps(s: State, t: Tid, seen: Option<Entry>)
    requires Inv(s) && t in s.th && s.th[t].pc == AddCommit(seen) && WellKinded(s, t) && SlotsKnown(s)
    ensures Inv(StepAddCommit(s, t, seen))
  {
    hide Inv;
    About(s, t);
    var c := s.th[t].ctl;
    AboutCtl(s, c);
    if s.closed {
      LoginLeaves(s, t, Remove);
    } else if !SameSlot(s, s.th[t].run, seen) {
      AddRetryKeeps(s, t);
    } else {
      assert t == Login(c) && s.ctls[c].life == Created;
      assert Admissible(s, c);
      hide CtlOk;
      hide ThreadOk;
      AddedKeeps(s, c);
    }
  }

  // ---------------------------------------------------------------------------------------
  // New threads

  /** A thread joins, with a new control or without; the manager may close. */
  predicate Joined(s: State, s': State, t: Tid) {
    && t !in s.th && t in s'.th && !t.Worker? && s'.th == s.th[t := s'.th[t]]
    && Holding(s'.th[t].pc) == None
    && (forall c <- s.ctls :: c in s'.ctls && s'.ctls[c] == s.ctls[c])
    && (forall c <- s'.ctls | c !in s.ctls ::
          var x := s'.ctls[c];
          && t == Login(c) && x.life == Created && x.id == 0 && x.barrier == None && x.run != ""
          && !x.poolClosed && x.pool == [] && x.proxies == {})
    && (s.closed ==> s'.closed)
    && s' == s.(th := s'.th, ctls := s'.ctls, closed := s'.closed)
  }

  lemma JoinedThread(s: State, s': State, t: Tid, u: Tid)
    requires Joined(s, s', t) && u in s.th && ThreadOk(s, u)
    ensures ThreadOk(s', u)
  {
  }

  lemma JoinedCtl(s: State, s': State, t: Tid, c: Ref)
    requires Joined(s, s', t) && c in s'.ctls && s.nextID > 0
    requires if c in s.ctls then CtlOk(s, c) else Worker(c) !in s.th
    ensures CtlOk(s', c)
  {
  }

  lemma JoinedGlobals(s: State, s': State, t: Tid)
    requires Joined(s, s', t)
    requires (forall r <- s.slots :: SlotOk(s, r)) && (forall g <- s.held :: HeldOk(s, g))
    requires forall c <- s'.ctls | c !in s.ctls :: Worker(c) !in s.th
    requires UniqueIDs(s) && OneLive(s) && Agree(s)
    ensures (forall r <- s'.slots :: SlotOk(s', r)) && (forall g <- s'.held :: HeldOk(s', g))
    ensures UniqueIDs(s') && OneLive(s') && Agree(s')
  {
    hide Holding;
  }

  lemma NoStrayWorker(s: State, c: Ref)
    requires Inv(s) && c !in s.ctls
    ensures Worker(c) !in s.th
  {
    hide Inv;
    if Worker(c) in s.th { About(s, Worker(c)); }
  }

  lemma JoinedKeeps(s: State, s': State, t: Tid)
    requires Inv(s) && Joined(s, s', t) && ThreadOk(s', t)
    ensures Inv(s')
  {
    hide CtlOk;
    hide ThreadOk;
    hide SlotOk;
    hide HeldOk;
    hide UniqueIDs;
    hide OneLive;
    hide Agree;
    forall u <- s'.th ensures ThreadOk(s', u) { if u != t { JoinedThread(s, s', t, u); } }
    forall c <- s'.ctls | c !in s.ctls ensures Worker(c) !in s.th { NoStrayWorker(s, c); }
    forall c <- s'.ctls ensures CtlOk(s', c) { JoinedCtl(s, s', t, c); }
    JoinedGlobals(s, s', t);
  }

  lemma NewLoginKeeps(s: State, a: Action)
    requires Inv(s) && Enabled(s, a) && a.NewLogin?
    ensures Inv(Apply(s, a))
  {
    hide Inv;
    NoStrayWorker(s, a.c);
    JoinedKeeps(s, Apply(s, a), Login(a.c));
  }

  lemma NewWorkConnKeeps(s: State, a: Action)
    requires Inv(s) && Enabled(s, a) && a.NewWorkConn?
    ensures Inv(Apply(s, a))
  {
    hide Inv;
    JoinedKeeps(s, Apply(s, a), Presenter(a.conn));
  }

  lemma NewVisitorKeeps(s: State, a: Action)
    requires Inv(s) && Enabled(s, a) && a.NewVisitor?
    ensures Inv(Apply(s, a))
  {
    hide Inv;
    JoinedKeeps(s, Apply(s, a), Visitor(a.no));
  }

  lemma CurrentKnown(s: State, c: Ref, r: string)
    requires Inv(s) && r in s.slots && s.slots[r].ctl == c
    ensures c in s.ctls && s.ctls[c].life != Created
  {
    hide ThreadOk;
    hide CtlOk;
    assert SlotOk(s, r);
  }

  lemma CloseManagerKeeps(s: State, a: Action)
    requires Inv(s) && Enabled(s, a) && a.CloseManager?
    ensures Inv(Apply(s, a))
  {
    hide Inv;
    forall c <- a.order ensures c in s.ctls && s.ctls[c].life != Created {
      var r :| r in s.slots && s.slots[r].ctl == c;
      CurrentKnown(s, c, r);
    }
    NewCloserOk(s, Apply(s, a), Closer(a.no), a.order);
    hide ThreadOk;
    JoinedKeeps(s, Apply(s, a), Closer(a.no));
  }

  lemma NewCloserOk(s: State, s': State, t: Tid, order: seq<Ref>)
    requires (forall c <- order :: c in s.ctls && s.ctls[c].life != Created) && forall r <- s.slots :: s.slots[r].ctl in order
    requires t.Closer? && t in s'.th && s' == s.(closed := true, th := s'.th)
    requires order == [] ==> s'.th[t] == Thread(Done, "", 0, [])
    requires order != [] ==> order[0] in s.ctls && s'.th[t] == Thread(OpRead(Remove), s.ctls[order[0]].run, order[0], order[1..])
    ensures ThreadOk(s', t)
  {
    hide CloserOk;
    if order == [] {
      NothingToClose(s, s');
    } else {
      CloserStarts(s', order);
    }
  }

  lemma NothingToClose(s: State, s': State)
    requires s'.slots == s.slots && s'.closed && forall r <- s.slots :: s.slots[r].ctl in []
    ensures CloserOk(s', Thread(Done, "", 0, []))
  {
  }

  /** A closer that goes on with the first of the controls left covers all slots. */
  lemma CloserStarts(s: State, left: seq<Ref>)
    requires s.closed && left != [] && (forall c <- left :: c in s.ctls && s.ctls[c].life != Created)
    requires forall r <- s.slots :: s.slots[r].ctl in left
    ensures CloserOk(s, Thread(OpRead(Remove), s.ctls[left[0]].run, left[0], left[1..]))
  {
    assert left == [left[0]] + left[1..];
    assert left[0] in left;
  }

  // ---------------------------------------------------------------------------------------
  // Every action, every run

  lemma StepKeeps(s: State, t: Tid, ok: bool, now: int, name: string)
    requires Inv(s) && Enabled(s, Step(t, ok, now, name))
    ensures Inv(StepThread(s, t, ok, now, name))
  {
    hide Inv;
    match s.th[t].pc
    case AddRead => AddReadKeeps(s, t);
    case AddGate(want) => AddGateKeeps(s, t, want);
    case AddCommit(seen) => AddCommitKeeps(s, t, seen);
    case AddNotify(c) => AddNotifyKeeps(s, t, c);
    case AwaitHandoff => AwaitHandoffKeeps(s, t);
    case OpRead(op) => OpReadKeeps(s, t, op);
    case OpGate(op, g) => OpGateKeeps(s, t, op, g);
    case OpCheck(op, g) => OpCheckKeeps(s, t, op, g);
    case OpAct(Activate, e) => ActivateKeeps(s, t, e, now);
    case OpAct(Complete, e) => CompleteKeeps(s, t, e);
    case OpAct(Remove, e) => RemoveKeeps(s, t, e, now);
    case OpAct(Find, e) => FindKeeps(s, t, e, ok);
    case OpAct(Offer, e) => OfferKeeps(s, t, e);
    case OpAct(AdmitVisitor, _) => FailureKeeps(s, t, AdmitVisitor);
    case Writing(_) => WritingKeeps(s, t, ok);
    case CloseCtl => CloseCtlKeeps(s, t);
    case Serve => ServeKeeps(s, t);
    case MarkClosing => MarkClosingKeeps(s, t);
    case ClosePool => ClosePoolKeeps(s, t);
    case DrainPool => DrainPoolKeeps(s, t);
    case CloseProxies => CloseProxiesKeeps(s, t, name);
    case Finish => FinishKeeps(s, t);
    case DropConn => DropConnKeeps(s, t);
    case Done =>
  }

  lemma HeartbeatKeeps(s: State, c: Ref)
    requires Inv(s) && Enabled(s, Heartbeat(c))
    ensures Inv(Apply(s, Heartbeat(c)))
  {
    hide Inv;
    AboutCtl(s, c);
    ClosedByKeeps(s, c);
  }

  lemma ActionKeeps(s: State, a: Action)
    requires Inv(s) && Enabled(s, a)
    ensures Inv(Apply(s, a))
  {
    hide Inv;
    match a
    case NewLogin(_, _, _, _, _) => NewLoginKeeps(s, a);
    case NewWorkConn(_, _) => NewWorkConnKeeps(s, a);
    case NewVisitor(_, _) => NewVisitorKeeps(s, a);
    case CloseManager(_, _) => CloseManagerKeeps(s, a);
    case Step(t, ok, now, name) => StepKeeps(s, t, ok, now, name);
    case Heartbeat(c) => HeartbeatKeeps(s, c);
    case RegisterProxy(c, name) => ProxyKeeps(s, c, s.ctls[c].proxies + {name});
    case CloseProxy(c, name) => ProxyKeeps(s, c, s.ctls[c].proxies - {name});
    case TakeConn(c) => TakeConnKeeps(s, c);
  }
}
