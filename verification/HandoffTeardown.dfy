/** A replaced control is torn down: its worker has a bounded number of steps left before it releases the barrier. */
module HandoffTeardown {
  import opened Prelude
  import opened Handoff
  import opened HandoffInvariant
  import opened HandoffTheorems
  import Registry

  /** The control has a worker and was told to stop. */
  predicate Doomed(s: State, c: Ref) {
    c in s.ctls && Worker(c) in s.th && s.ctls[c].life in {Closing, Closed}
  }

  // ---------------------------------------------------------------------------------------
  // The measure

  function PcRank(pc: Pc): nat {
    match pc
    case Serve => 10
    case MarkClosing => 9
    case ClosePool => 8
    case DrainPool => 7
    case CloseProxies => 6
    case OpRead(_) => 5
    case OpGate(_, _) => 4
    case OpCheck(_, _) => 3
    case OpAct(_, _) => 2
    case Finish => 1
    case _ => 0
  }

  /** What the worker still has to do: its way through the clean-up, and each connection and proxy to be closed. */
  function Measure(s: State, c: Ref): nat
    requires c in s.ctls && Worker(c) in s.th
  {
    PcRank(s.th[Worker(c)].pc) + |s.ctls[c].pool| + |s.ctls[c].proxies|
  }

  predicate Own(s: State, a: Action, s': State, c: Ref) {
    a.Step? && a.t == Worker(c) && s' != s
  }

  /** The client may register proxies as long as its messages are served. */
  predicate Registers(a: Action, c: Ref) {
    a.RegisterProxy? && a.c == c
  }

  // ---------------------------------------------------------------------------------------
  // Others do not add to it

  predicate Unaltered(s: State, s': State, c: Ref)
    requires c in s.ctls
  {
    && c in s'.ctls
    && s'.ctls[c].pool == s.ctls[c].pool && s'.ctls[c].proxies == s.ctls[c].proxies
    && (s.ctls[c].life in {Closing, Closed} ==> s'.ctls[c].life in {Closing, Closed})
  }

  lemma OtherStep(s: State, t: Tid, ok: bool, now: int, name: string, c: Ref)
    requires Enabled(s, Step(t, ok, now, name)) && Doomed(s, c) && t != Worker(c)
    ensures Unaltered(s, StepThread(s, t, ok, now, name), c)
  {
    hide StepThread, Doomed, Unaltered, CanStep;
    var pc := s.th[t].pc;
    if pc.OpAct? {
      OpUnaltered(s, t, ok, now, name, c);
    } else if pc.AddCommit? || pc.AddNotify? || pc.Writing? || pc.CloseCtl? {
      LifeUnaltered(s, t, ok, now, name, c);
    } else {
      RestUnaltered(s, t, ok, now, name, c);
    }
  }

  lemma LifeUnaltered(s: State, t: Tid, ok: bool, now: int, name: string, c: Ref)
    requires t in s.th && CanStep(s, t) && WellKinded(s, t) && SlotsKnown(s) && Doomed(s, c)
    requires var pc := s.th[t].pc; pc.AddCommit? || pc.AddNotify? || pc.Writing? || pc.CloseCtl?
    ensures Unaltered(s, StepThread(s, t, ok, now, name), c)
  {
    hide CanStep, Holding, SameSlot;
    match s.th[t].pc
    case AddCommit(seen) => CommitUnaltered(s, t, seen, c);
    case CloseCtl => CloseCtlUnaltered(s, t, c);
    case _ => hide StepAddCommit, StepCloseCtl;
  }

  /** Workers of other controls, and steps that only move a thread. */
  lemma RestUnaltered(s: State, t: Tid, ok: bool, now: int, name: string, c: Ref)
    requires t in s.th && CanStep(s, t) && WellKinded(s, t) && SlotsKnown(s) && Doomed(s, c) && t != Worker(c)
    requires var pc := s.th[t].pc; !pc.OpAct? && !pc.AddCommit? && !pc.AddNotify? && !pc.Writing? && !pc.CloseCtl?
    ensures Unaltered(s, StepThread(s, t, ok, now, name), c)
  {
    hide CanStep, Holding, Finds, StepAddCommit, StepCloseCtl, StepAddNotify, StepWriting, StepActivate, StepRemove, StepOffer, StepFind;
    if t.Worker? { assert s.th[t].ctl == t.ctl; } else { hide StepDrainPool, StepCloseProxies, StepMarkClosing, StepClosePool, StepFinish; }
  }

  lemma CommitUnaltered(s: State, t: Tid, seen: Option<Entry>, c: Ref)
    requires t in s.th && s.th[t].ctl in s.ctls && SlotsKnown(s) && Doomed(s, c)
    ensures Unaltered(s, StepAddCommit(s, t, seen), c)
  {
    hide SameSlot, Holding, Admit;
    if s.ctls[s.th[t].ctl].life == Created { AdmitUnaltered(s, s.th[t].ctl, c); }
  }

  lemma AdmitUnaltered(s: State, d: Ref, c: Ref)
    requires d in s.ctls && s.ctls[d].life == Created && SlotsKnown(s) && Doomed(s, c)
    ensures Unaltered(s, Admit(s, d), c)
  {
  }

  lemma CloseCtlUnaltered(s: State, t: Tid, c: Ref)
    requires t in s.th && s.th[t].ctl in s.ctls && (forall d <- s.th[t].rest :: d in s.ctls) && Doomed(s, c)
    ensures Unaltered(s, StepCloseCtl(s, t), c)
  {
  }

  lemma OpUnaltered(s: State, t: Tid, ok: bool, now: int, name: string, c: Ref)
    requires t in s.th && CanStep(s, t) && WellKinded(s, t) && SlotsKnown(s) && s.th[t].pc.OpAct? && Doomed(s, c)
    ensures Unaltered(s, StepThread(s, t, ok, now, name), c)
  {
    hide CanStep, Holding, SameSlot, Registry.MarkOffline, StepActivate, StepOffer;
    match s.th[t].pc
    case OpAct(Activate, e) => ActivateUnaltered(s, t, e, now, c);
    case OpAct(Offer, e) => OfferUnaltered(s, t, e, c);
    case _ => hide StepAddCommit, StepCloseCtl, StepAddNotify, StepWriting, StepMarkClosing, StepDrainPool, StepCloseProxies;
  }

  lemma ActivateUnaltered(s: State, t: Tid, e: Entry, now: int, c: Ref)
    requires t in s.th && s.th[t].ctl in s.ctls && s.th[t].run == s.ctls[s.th[t].ctl].run && Doomed(s, c)
    ensures Unaltered(s, StepActivate(s, t, e, now), c)
  {
    hide Holding, Registry.Register;
  }

  lemma OfferUnaltered(s: State, t: Tid, e: Entry, c: Ref)
    requires t in s.th && t.Presenter? && s.th[t].ctl in s.ctls && Doomed(s, c)
    ensures Unaltered(s, StepOffer(s, t, e), c)
  {
    hide Holding;
  }

  // ---------------------------------------------------------------------------------------
  // The worker's own steps lower it

  lemma OwnStep(s: State, ok: bool, now: int, name: string, c: Ref)
    requires Enabled(s, Step(Worker(c), ok, now, name)) && Doomed(s, c)
    ensures var s' := StepThread(s, Worker(c), ok, now, name);
            Doomed(s', c) && (s' == s || Measure(s', c) < Measure(s, c))
  {
    var pc := s.th[Worker(c)].pc;
    if pc.OpRead? || pc.OpGate? || pc.OpCheck? || pc.OpAct? {
      hide StepThread, CanStep, Measure, Doomed;
      LeavingLowers(s, ok, now, name, c);
    } else {
      CleaningLowers(s, ok, now, name, c);
    }
  }

  lemma LeavingLowers(s: State, ok: bool, now: int, name: string, c: Ref)
    requires Worker(c) in s.th && CanStep(s, Worker(c)) && WellKinded(s, Worker(c)) && SlotsKnown(s) && Doomed(s, c)
    requires var pc := s.th[Worker(c)].pc; pc.OpRead? || pc.OpGate? || pc.OpCheck? || pc.OpAct?
    ensures var s' := StepThread(s, Worker(c), ok, now, name); Doomed(s', c) && Measure(s', c) < Measure(s, c)
  {
    hide CanStep, Holding, Finds, StepRemove;
    var t := Worker(c);
    assert OpOk(t, s.th[t].pc.op) && s.th[t].ctl == c;
    if s.th[t].pc.OpAct? { RemoveLowers(s, t, s.th[t].pc.entry, now); }
  }

  lemma CleaningLowers(s: State, ok: bool, now: int, name: string, c: Ref)
    requires Worker(c) in s.th && CanStep(s, Worker(c)) && WellKinded(s, Worker(c)) && SlotsKnown(s) && Doomed(s, c)
    requires var pc := s.th[Worker(c)].pc; !pc.OpRead? && !pc.OpGate? && !pc.OpCheck? && !pc.OpAct?
    ensures var s' := StepThread(s, Worker(c), ok, now, name);
            Doomed(s', c) && (s' == s || Measure(s', c) < Measure(s, c))
  {
    hide CanStep, Measure, StepAddCommit, StepCloseCtl, StepAddNotify, StepWriting, StepDrainPool, StepCloseProxies, StepMarkClosing, StepClosePool, StepFinish;
    var t := Worker(c);
    assert s.th[t].ctl == c;
    match s.th[t].pc
    case DrainPool => DrainLowers(s, c);
    case CloseProxies => ProxiesLower(s, c, name);
    case Done =>
    case _ => MoveLowers(s, c);
  }

  lemma MoveLowers(s: State, c: Ref)
    requires Doomed(s, c) && s.th[Worker(c)].ctl == c
    ensures s.th[Worker(c)].pc == Serve ==> var s' := Go(s, Worker(c), MarkClosing); Doomed(s', c) && Measure(s', c) < Measure(s, c)
    ensures s.th[Worker(c)].pc == MarkClosing ==> var s' := StepMarkClosing(s, Worker(c)); Doomed(s', c) && Measure(s', c) < Measure(s, c)
    ensures s.th[Worker(c)].pc == ClosePool ==> var s' := StepClosePool(s, Worker(c)); Doomed(s', c) && Measure(s', c) < Measure(s, c)
    ensures s.th[Worker(c)].pc == Finish ==> var s' := StepFinish(s, Worker(c)); Doomed(s', c) && Measure(s', c) < Measure(s, c)
  {
  }

  lemma DrainLowers(s: State, c: Ref)
    requires Doomed(s, c) && s.th[Worker(c)].ctl == c && s.th[Worker(c)].pc == DrainPool
    ensures var s' := StepDrainPool(s, Worker(c)); Doomed(s', c) && Measure(s', c) < Measure(s, c)
  {
  }

  lemma ProxiesLower(s: State, c: Ref, name: string)
    requires Doomed(s, c) && s.th[Worker(c)].ctl == c && s.th[Worker(c)].pc == CloseProxies
    ensures var s' := StepCloseProxies(s, Worker(c), name); Doomed(s', c) && (s' == s || Measure(s', c) < Measure(s, c))
  {
    ProxyCloses(s, Worker(c), name);
  }

  lemma ProxyCloses(s: State, t: Tid, name: string)
    requires t in s.th && s.th[t].ctl in s.ctls
    ensures var x := s.ctls[s.th[t].ctl].proxies;
            name in x ==> |x - {name}| < |x|
    ensures s.ctls[s.th[t].ctl].proxies != {} && name !in s.ctls[s.th[t].ctl].proxies ==> StepCloseProxies(s, t, name) == s
  {
    var c := s.th[t].ctl;
    var x := s.ctls[c];
    if name !in x.proxies {
      assert x.proxies - {name} == x.proxies;
      assert s.ctls[c := x] == s.ctls;
    }
  }

  lemma RemoveLowers(s: State, t: Tid, e: Entry, now: int)
    requires t in s.th && s.th[t].ctl in s.ctls && t.Worker?
    ensures var s' := StepRemove(s, t, e, now); s'.ctls == s.ctls && t in s'.th && s'.th[t].pc == Finish
  {
    hide Holding, SameSlot, Registry.MarkOffline;
  }

  // ---------------------------------------------------------------------------------------
  // Theorems

  function OwnSteps(states: seq<State>, actions: seq<Action>, i: nat, j: nat, c: Ref): nat
    requires |states| == |actions| + 1 && i <= j <= |actions|
    decreases j - i
  {
    if i == j then 0 else OwnSteps(states, actions, i, j - 1, c) + Bit(Own(states[j - 1], actions[j - 1], states[j], c))
  }

  function Registrations(actions: seq<Action>, i: nat, j: nat, c: Ref): nat
    requires i <= j <= |actions|
    decreases j - i
  {
    if i == j then 0 else Registrations(actions, i, j - 1, c) + Bit(Registers(actions[j - 1], c))
  }

  /** No action raises the measure but a registration, by one, which only a worker that still serves allows. */
  lemma ActionLowers(s: State, a: Action, c: Ref)
    requires Inv(s) && Enabled(s, a) && Doomed(s, c)
    ensures Doomed(Apply(s, a), c)
    ensures if Own(s, a, Apply(s, a), c) then Measure(Apply(s, a), c) < Measure(s, c)
            else Measure(Apply(s, a), c) <= Measure(s, c) + Bit(Registers(a, c))
    ensures Registers(a, c) ==> s.th[Worker(c)].pc == Serve
  {
    hide Inv;
    if a.Step? && a.t == Worker(c) {
      hide StepThread;
      OwnStep(s, a.ok, a.now, a.name, c);
    } else {
      OthersUnmoved(s, a, Worker(c));
      if a.Step? {
        hide StepThread;
        OtherStep(s, a.t, a.ok, a.now, a.name, c);
      } else {
        OutsideLowers(s, a, c);
      }
    }
  }

  lemma OutsideLowers(s: State, a: Action, c: Ref)
    requires Enabled(s, a) && !a.Step? && Doomed(s, c)
    ensures var s' := Apply(s, a);
            && c in s'.ctls && s'.ctls[c].life in {Closing, Closed} && |s'.ctls[c].pool| <= |s.ctls[c].pool|
            && |s'.ctls[c].proxies| <= |s.ctls[c].proxies| + Bit(Registers(a, c))
  {
    hide StepThread;
    var x := s.ctls[c].proxies;
    match a
    case RegisterProxy(d, name) => assert name !in x ==> |x + {name}| == |x| + 1; assert name in x ==> x + {name} == x;
    case CloseProxy(d, name) => assert x - {name} <= x; SubsetSize(x - {name}, x);
    case _ =>
  }

  lemma SubsetSize(a: set<string>, b: set<string>)
    requires a <= b
    ensures |a| <= |b|
  {
    assert b == a + (b - a);
  }

  /**
   Once a control has been replaced or told to close, its worker takes no more steps than the measure of
   that moment, plus one for each proxy its client still registers.
   */
  lemma {:induction false} TeardownIsBounded(states: seq<State>, actions: seq<Action>, i: nat, j: nat, c: Ref)
    requires IsRun(states, actions) && |states| == |actions| + 1 && i <= j <= |actions| && Doomed(states[i], c)
    ensures Doomed(states[j], c)
    ensures OwnSteps(states, actions, i, j, c) + Measure(states[j], c) <= Measure(states[i], c) + Registrations(actions, i, j, c)
    decreases j - i
  {
    hide IsRun, Doomed, Own, Measure, Registers;
    if i < j {
      TeardownIsBounded(states, actions, i, j - 1, c);
      OneStepLowers(states, actions, j - 1, c);
    }
  }

  lemma OneStepLowers(states: seq<State>, actions: seq<Action>, k: nat, c: Ref)
    requires IsRun(states, actions) && k < |actions| && Doomed(states[k], c)
    ensures Doomed(states[k + 1], c)
    ensures if Own(states[k], actions[k], states[k + 1], c) then Measure(states[k + 1], c) < Measure(states[k], c)
            else Measure(states[k + 1], c) <= Measure(states[k], c) + Bit(Registers(actions[k], c))
  {
    RunIsGood(states, actions, k);
    hide Inv, Apply, Enabled, Own, Measure, Registers, Doomed;
    ActionLowers(states[k], actions[k], c);
  }

  /** The measure is zero exactly when the barrier is released; until then the worker can step, or waits for one that can. */
  lemma TeardownProgresses(states: seq<State>, actions: seq<Action>, i: nat, c: Ref)
    requires IsRun(states, actions) && i < |states| && Doomed(states[i], c)
    ensures Measure(states[i], c) == 0 <==> states[i].ctls[c].life == Closed
    ensures states[i].ctls[c].life != Closed ==> Released(states[i], Worker(c), 3)
  {
    RunIsGood(states, actions, i);
    hide Inv, IsRun;
    About(states[i], Worker(c));
    if states[i].ctls[c].life != Closed { NoDeadlock(states, actions, i, Worker(c)); }
  }
}
