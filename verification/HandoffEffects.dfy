/** How far one action of the handoff system reaches. */
module HandoffEffects {
  import opened Prelude
  import opened Handoff
  import opened HandoffInvariant
  import Registry

  predicate OffersNow(pc: Pc) {
    pc.OpAct? && pc.op == Offer
  }

  /** What a step of `t` from `pc` to `next` may do to control `d`. */
  predicate CtlReach(t: Tid, pc: Pc, next: Pc, d: Ref, x: Ctl, y: Ctl) {
    && y.run == x.run
    && y.poolCount == x.poolCount
    && (y.id == x.id || (t == Login(d) && pc.AddCommit?))
    && (y.activated == x.activated || (t == Login(d) && pc.OpAct? && pc.op == Activate && pc.entry.ctl == d))
    && (x.interrupted ==> y.interrupted)
    && (y.life == Closing != x.life ==> y.interrupted || next == AddNotify(d))
    && (pc == AddNotify(d) ==> y.interrupted)
    && (y.pool == x.pool || pc.DrainPool? || OffersNow(pc))
  }

  /** The reach of one thread step. */
  ghost predicate Effect(s: State, s': State, t: Tid)
    requires t in s.th
  {
    var pc := s.th[t].pc;
    // no other thread moves; the only thread a step adds is the worker of a control that starts
    && t in s'.th && s'.th[t].pc != Serve
    && (Uncleaned(s'.th[t].pc) ==> Uncleaned(pc))
    && (forall u <- s.th | u != t :: u in s'.th && s'.th[u] == s.th[u])
    && (forall u <- s'.th | u !in s.th :: pc.Writing? && u == Worker(s.th[t].ctl) && s'.th[u].pc == Serve)
    // controls keep their run, and their ID once they have one
    && s'.ctls.Keys == s.ctls.Keys
    && (forall d <- s.ctls :: CtlReach(t, pc, s'.th[t].pc, d, s.ctls[d], s'.ctls[d]))
    // only an admission puts a control into a slot
    && (forall r <- s'.slots ::
          (r in s.slots && s'.slots[r].ctl == s.slots[r].ctl) || (t == Login(s'.slots[r].ctl) && pc.AddCommit?))
    // connections are handed out, or closed, where they are held
    && s'.handed == s.handed
    && (s'.dropped == s.dropped || pc.DrainPool? || pc.DropConn?)
    && (t.Presenter? && s'.th[t].pc == Done ==> pc.DropConn? || OffersNow(pc))
  }

  predicate OneCtl(s: State, s': State, t: Tid, c: Ref) {
    && t in s.th && t in s'.th && s'.th == s.th[t := s'.th[t]]
    && (s'.ctls == s.ctls || (c in s.ctls && c in s'.ctls && s'.ctls == s.ctls[c := s'.ctls[c]]))
    && (forall r <- s'.slots :: r in s.slots && s'.slots[r].ctl == s.slots[r].ctl)
    && s'.handed == s.handed
  }

  /** A step that moves its thread and changes at most one control. */
  lemma OneCtlEffect(s: State, s': State, t: Tid, c: Ref)
    requires OneCtl(s, s', t, c)
    requires s'.dropped == s.dropped || s.th[t].pc.DrainPool? || s.th[t].pc.DropConn?
    requires s'.th[t].pc != Serve && (Uncleaned(s'.th[t].pc) ==> Uncleaned(s.th[t].pc))
    requires t.Presenter? && s'.th[t].pc == Done ==> s.th[t].pc.DropConn? || OffersNow(s.th[t].pc)
    requires s.th[t].pc.AddNotify? ==> c == s.th[t].pc.replaced
    requires c in s.ctls ==> CtlReach(t, s.th[t].pc, s'.th[t].pc, c, s.ctls[c], s'.ctls[c])
    ensures Effect(s, s', t)
  {
  }

  lemma ReplacedIsNotified(s: State, c: Ref, d: Ref)
    requires Admissible(s, c) && d in s.ctls && d in Added(s, c).ctls
    requires Added(s, c).ctls[d].life == Closing != s.ctls[d].life
    ensures Added(s, c).th[Login(c)].pc == AddNotify(d)
  {
    hide CtlOk;
    hide LoginOk;
    hide GateOk;
  }

  lemma AddedEffect(s: State, c: Ref)
    requires Admissible(s, c) && s.ctls[c].life == Created
    ensures Effect(s, Added(s, c), Login(c))
  {
    hide ThreadOk;
    hide CtlOk;
    hide SlotOk;
    AddedHasShape(s, c);
    var s' := Added(s, c);
    forall d <- s.ctls | s'.ctls[d].life == Closing != s.ctls[d].life ensures s'.th[Login(c)].pc == AddNotify(d) {
      ReplacedIsNotified(s, c, d);
    }
    hide Added;
    ShapeEffect(s, s', c);
  }

  lemma ShapeEffect(s: State, s': State, c: Ref)
    requires c in s.ctls && c in s'.ctls && Login(c) in s.th && Login(c) in s'.th && AddedShape(s, s', c)
    requires s.th[Login(c)].pc.AddCommit? && !Uncleaned(s'.th[Login(c)].pc)
    requires forall d <- s.ctls | s'.ctls[d].life == Closing != s.ctls[d].life :: s'.th[Login(c)].pc == AddNotify(d)
    ensures Effect(s, s', Login(c))
  {
  }

  lemma GoEffect(s: State, t: Tid, pc: Pc)
    requires t in s.th && !s.th[t].pc.AddNotify? && pc != Serve && (Uncleaned(pc) ==> Uncleaned(s.th[t].pc)) && (t.Presenter? ==> pc != Done)
    ensures Effect(s, Go(s, t, pc), t)
  {
    hide Effect;
    OneCtlEffect(s, Go(s, t, pc), t, s.th[t].ctl);
  }

  lemma LeaveEffect(s: State, t: Tid, pc: Pc)
    requires t in s.th && !s.th[t].pc.AddNotify? && pc != Serve && (Uncleaned(pc) ==> Uncleaned(s.th[t].pc)) && (t.Presenter? ==> pc != Done)
    ensures Effect(s, Leave(s, t, pc), t)
  {
    hide Effect;
    hide Holding;
    OneCtlEffect(s, Leave(s, t, pc), t, s.th[t].ctl);
  }

  lemma TakeEffect(s: State, t: Tid, pc: Pc, g: Gate)
    requires t in s.th && !s.th[t].pc.AddNotify? && pc != Serve && (Uncleaned(pc) ==> Uncleaned(s.th[t].pc)) && (t.Presenter? ==> pc != Done)
    ensures Effect(s, Take(s, t, pc, g), t)
  {
    hide Effect;
    OneCtlEffect(s, Take(s, t, pc, g), t, s.th[t].ctl);
  }

  lemma NotifyEffect(s: State, t: Tid, c: Ref)
    requires t in s.th && s.th[t].pc == AddNotify(c) && c in s.ctls && s.ctls[c].life in {Closing, Closed}
    ensures Effect(s, StepAddNotify(s, t, c), t)
  {
    hide Effect;
    OneCtlEffect(s, StepAddNotify(s, t, c), t, c);
  }

  lemma GoOnlineEffect(s: State, t: Tid, e: Entry, now: int)
    requires t in s.th && s.th[t].pc == OpAct(Activate, e) && t == Login(s.th[t].ctl) && s.th[t].ctl in s.ctls && s.th[t].run == s.ctls[s.th[t].ctl].run
    ensures Effect(s, StepActivate(s, t, e, now), t)
  {
    hide Effect, Registry.Register, Holding;
    LeaveEffect(s, t, OpRead(Remove));
    LeaveEffect(s, t, OpRead(Complete));
    var c, s' := s.th[t].ctl, StepActivate(s, t, e, now);
    if s' != Leave(s, t, OpRead(Remove)) && s' != Leave(s, t, OpRead(Complete)) { OneCtlEffect(s, s', t, c); }
  }

  lemma DropSlotEffect(s: State, t: Tid, e: Entry, now: int)
    requires t in s.th && s.th[t].pc == OpAct(Remove, e) && s.th[t].ctl in s.ctls
    ensures Effect(s, StepRemove(s, t, e, now), t)
  {
    hide Effect;
    hide Registry.Register;
    hide Registry.MarkOffline;
    OneCtlEffect(s, StepRemove(s, t, e, now), t, s.th[t].ctl);
  }

  lemma OfferEffect(s: State, t: Tid, e: Entry)
    requires t in s.th && s.th[t].pc == OpAct(Offer, e) && t.Presenter? && s.th[t].ctl in s.ctls
    ensures Effect(s, StepOffer(s, t, e), t)
  {
    hide Effect;
    hide Holding;
    hide Capacity;
    var c := s.th[t].ctl;
    var s' := StepOffer(s, t, e);
    if s'.ctls == s.ctls {
      LeaveEffect(s, t, DropConn);
    } else {
      OneCtlEffect(s, s', t, c);
    }
  }

  lemma FindEffect(s: State, t: Tid, e: Entry, ok: bool)
    requires t in s.th && s.th[t].pc == OpAct(Find, e) && e.ctl in s.ctls
    ensures Effect(s, StepFind(s, t, e, ok), t)
  {
    hide Effect;
    OneCtlEffect(s, StepFind(s, t, e, ok), t, s.th[t].ctl);
  }

  lemma CloseCtlEffect(s: State, t: Tid)
    requires t in s.th && s.th[t].pc == CloseCtl && !t.Presenter? && s.th[t].ctl in s.ctls && (forall c <- s.th[t].rest :: c in s.ctls)
    ensures Effect(s, StepCloseCtl(s, t), t)
  {
    hide Effect;
    var c := s.th[t].ctl;
    forall next ensures CtlReach(t, CloseCtl, next, c, s.ctls[c], ClosedBy(s.ctls[c])) { }
    hide CtlReach;
    hide ClosedBy;
    OneCtlEffect(s, StepCloseCtl(s, t), t, c);
  }

  lemma MarkClosingEffect(s: State, t: Tid)
    requires t in s.th && s.th[t].pc == MarkClosing && s.th[t].ctl in s.ctls
    ensures Effect(s, StepMarkClosing(s, t), t)
  {
    hide Effect;
    OneCtlEffect(s, StepMarkClosing(s, t), t, s.th[t].ctl);
  }

  lemma ClosePoolEffect(s: State, t: Tid)
    requires t in s.th && s.th[t].pc == ClosePool && s.th[t].ctl in s.ctls
    ensures Effect(s, StepClosePool(s, t), t)
  {
    hide Effect;
    OneCtlEffect(s, StepClosePool(s, t), t, s.th[t].ctl);
  }

  lemma DrainPoolEffect(s: State, t: Tid)
    requires t in s.th && s.th[t].pc == DrainPool && s.th[t].ctl in s.ctls
    ensures Effect(s, StepDrainPool(s, t), t)
  {
    hide Effect;
    OneCtlEffect(s, StepDrainPool(s, t), t, s.th[t].ctl);
  }

  lemma CloseProxiesEffect(s: State, t: Tid, name: string)
    requires t in s.th && s.th[t].pc == CloseProxies && s.th[t].ctl in s.ctls
    ensures Effect(s, StepCloseProxies(s, t, name), t)
  {
    hide Effect;
    OneCtlEffect(s, StepCloseProxies(s, t, name), t, s.th[t].ctl);
  }

  lemma FinishEffect(s: State, t: Tid)
    requires t in s.th && s.th[t].pc == Finish && !t.Presenter? && s.th[t].ctl in s.ctls
    ensures Effect(s, StepFinish(s, t), t)
  {
    hide Effect;
    OneCtlEffect(s, StepFinish(s, t), t, s.th[t].ctl);
  }

  lemma DropConnEffect(s: State, t: Tid)
    requires t in s.th && s.th[t].pc == DropConn && t.Presenter?
    ensures Effect(s, StepDropConn(s, t), t)
  {
    hide Effect;
    OneCtlEffect(s, StepDropConn(s, t), t, s.th[t].ctl);
  }

  lemma StartEffect(s: State, t: Tid)
    requires t in s.th && s.th[t].pc.Writing? && !t.Presenter? && s.th[t].ctl in s.ctls && Worker(s.th[t].ctl) !in s.th
    ensures Effect(s, Start(Leave(s, t, Done), s.th[t].ctl), t)
  {
    hide Holding;
  }

  lemma WritingEffect(s: State, t: Tid, ok: bool)
    requires Inv(s) && t in s.th && s.th[t].pc.Writing? && !t.Presenter? && s.th[t].ctl in s.ctls
    ensures Effect(s, StepWriting(s, t, ok), t)
  {
    hide Inv;
    hide Effect;
    hide Start;
    AboutCtl(s, s.th[t].ctl);
    if Worker(s.th[t].ctl) !in s.th { StartEffect(s, t); }
    LeaveEffect(s, t, OpRead(Remove));
  }

  lemma AddCommitEffect(s: State, t: Tid, seen: Option<Entry>)
    requires Inv(s) && t in s.th && s.th[t].pc == AddCommit(seen) && WellKinded(s, t) && SlotsKnown(s)
    ensures Effect(s, StepAddCommit(s, t, seen), t)
  {
    hide Inv;
    hide Effect;
    About(s, t);
    var c := s.th[t].ctl;
    AboutCtl(s, c);
    assert t == Login(c) && s.ctls[c].life == Created;
    if !s.closed && SameSlot(s, s.th[t].run, seen) {
      assert Admissible(s, c);
      hide CtlOk;
      hide ThreadOk;
      AddedEffect(s, c);
    } else {
      LeaveEffect(s, t, if s.closed then OpRead(Remove) else AddRead);
    }
  }

  /** Steps that read, wait for and take gates. */
  lemma GateEffect(s: State, t: Tid, ok: bool, now: int, name: string)
    requires Inv(s) && Enabled(s, Step(t, ok, now, name))
    requires var pc := s.th[t].pc; pc.AddRead? || pc.AddGate? || pc.AwaitHandoff? || pc.OpRead? || pc.OpGate? || pc.OpCheck?
    ensures Effect(s, StepThread(s, t, ok, now, name), t)
  {
    hide Inv;
    hide Effect;
    var run := s.th[t].run;
    match s.th[t].pc
    case AddRead => GoEffect(s, t, if run in s.slots then AddGate(s.slots[run]) else AddCommit(None));
    case AddGate(want) => TakeEffect(s, t, AddCommit(Some(want)), want.gate);
    case AwaitHandoff => GoEffect(s, t, OpRead(Activate));
    case OpRead(op) => GoEffect(s, t, if Finds(s, run, op) then OpGate(op, s.slots[run].gate) else AfterFailure(t, op));
    case OpGate(op, g) => TakeEffect(s, t, OpCheck(op, g), g);
    case OpCheck(op, g) =>
      if Finds(s, run, op) && s.slots[run].gate == g { GoEffect(s, t, OpAct(op, s.slots[run])); }
      else { LeaveEffect(s, t, AfterFailure(t, op)); }
  }

  /** What a manager call does under its gate. */
  lemma OpEffect(s: State, t: Tid, ok: bool, now: int, name: string)
    requires Inv(s) && Enabled(s, Step(t, ok, now, name)) && s.th[t].pc.OpAct?
    ensures Effect(s, StepThread(s, t, ok, now, name), t)
  {
    hide Inv;
    hide Effect;
    match s.th[t].pc
    case OpAct(Activate, e) => GoOnlineEffect(s, t, e, now);
    case OpAct(Complete, e) => GoEffect(s, t, Writing(e)); LeaveEffect(s, t, OpRead(Remove));
    case OpAct(Remove, e) => DropSlotEffect(s, t, e, now);
    case OpAct(Find, e) => FindEffect(s, t, e, ok);
    case OpAct(Offer, e) => OfferEffect(s, t, e);
    case OpAct(AdmitVisitor, _) => LeaveEffect(s, t, Done);
  }

  lemma StepEffect(s: State, t: Tid, ok: bool, now: int, name: string)
    requires Inv(s) && Enabled(s, Step(t, ok, now, name))
    ensures Effect(s, StepThread(s, t, ok, now, name), t)
  {
    hide Inv;
    hide Effect;
    match s.th[t].pc
    case AddCommit(seen) => AddCommitEffect(s, t, seen);
    case AddNotify(c) => NotifiedIsClosing(s, t, c); NotifyEffect(s, t, c);
    case OpAct(_, _) => OpEffect(s, t, ok, now, name);
    case Writing(_) => WritingEffect(s, t, ok);
    case CloseCtl => CloseCtlEffect(s, t);
    case Serve => GoEffect(s, t, MarkClosing);
    case MarkClosing => MarkClosingEffect(s, t);
    case ClosePool => ClosePoolEffect(s, t);
    case DrainPool => DrainPoolEffect(s, t);
    case CloseProxies => CloseProxiesEffect(s, t, name);
    case Finish => FinishEffect(s, t);
    case DropConn => DropConnEffect(s, t);
    case Done =>
    case _ => GateEffect(s, t, ok, now, name);
  }

  lemma NotifiedIsClosing(s: State, t: Tid, c: Ref)
    requires Inv(s) && t in s.th && s.th[t].pc == AddNotify(c)
    ensures c in s.ctls && s.ctls[c].life in {Closing, Closed}
  {
    hide Inv;
    About(s, t);
  }
}
