/** What the handoff protocol guarantees, over every run. */
module HandoffTheorems {
  import opened Prelude
  import opened Handoff
  import opened HandoffInvariant
  import opened HandoffEffects
  import Registry

  // ---------------------------------------------------------------------------------------
  // Work connections

  /** The one who presented the connection no longer has it. */
  predicate GivenUp(s: State, k: Conn) {
    Presenter(k) in s.th && s.th[Presenter(k)].pc == Done
  }

  predicate Pooled(s: State, k: Conn) {
    exists c <- s.ctls :: k in s.ctls[c].pool
  }

  /** Once given up, a connection is pooled, handed out or closed, and only one of these; before, none. */
  predicate Accounted(s: State, k: Conn) {
    if GivenUp(s, k) then
      || (Pooled(s, k) && k !in s.handed && k !in s.dropped)
      || (!Pooled(s, k) && k in s.handed && k !in s.dropped)
      || (!Pooled(s, k) && k !in s.handed && k in s.dropped)
    else
      !Pooled(s, k) && k !in s.handed && k !in s.dropped
  }

  /** No connection is pooled twice, and no pool is over its capacity. */
  ghost predicate PoolsOk(s: State) {
    && (forall c <- s.ctls, d <- s.ctls, i, j |
          0 <= i < |s.ctls[c].pool| && 0 <= j < |s.ctls[d].pool| && s.ctls[c].pool[i] == s.ctls[d].pool[j] ::
          c == d && i == j)
    && (forall c <- s.ctls :: |s.ctls[c].pool| <= Capacity(s.ctls[c]))
  }

  ghost predicate Conserved(s: State) {
    (forall k :: Accounted(s, k)) && PoolsOk(s)
  }

  /** Nothing about connections changes. */
  ghost predicate SameConns(s: State, s': State) {
    && s'.handed == s.handed && s'.dropped == s.dropped
    && (forall c <- s.ctls :: c in s'.ctls && s'.ctls[c].pool == s.ctls[c].pool && s'.ctls[c].poolCount == s.ctls[c].poolCount)
    && (forall c <- s'.ctls | c !in s.ctls :: s'.ctls[c].pool == [])
    && (forall k :: GivenUp(s', k) <==> GivenUp(s, k))
  }

  lemma SameConnsKeeps(s: State, s': State)
    requires Conserved(s) && SameConns(s, s')
    ensures Conserved(s')
  {
    forall k ensures Accounted(s', k) {
      assert Accounted(s, k);
      assert Pooled(s', k) <==> Pooled(s, k);
    }
  }

  /** `k` joins the pool of `c`. */
  lemma PushKeeps(s: State, s': State, c: Ref, k: Conn)
    requires Conserved(s) && c in s.ctls && !GivenUp(s, k) && |s.ctls[c].pool| < Capacity(s.ctls[c])
    requires s'.ctls == s.ctls[c := s.ctls[c].(pool := s.ctls[c].pool + [k])]
    requires s'.handed == s.handed && s'.dropped == s.dropped
    requires forall j :: GivenUp(s', j) <==> GivenUp(s, j) || j == k
    ensures Conserved(s')
  {
    assert Accounted(s, k);
    forall j ensures Accounted(s', j) {
      assert Accounted(s, j);
      assert s'.ctls.Keys == s.ctls.Keys;
      assert forall d <- s.ctls :: j in s'.ctls[d].pool <==> j in s.ctls[d].pool || (d == c && j == k);
      assert k in s'.ctls[c].pool;
    }
    assert forall d <- s.ctls :: k !in s.ctls[d].pool;
  }

  /** The first connection in the pool of `c` leaves it, to be handed out or closed. */
  lemma PopKeeps(s: State, s': State, c: Ref)
    requires Conserved(s) && c in s.ctls && s.ctls[c].pool != []
    requires s'.ctls == s.ctls[c := s.ctls[c].(pool := s.ctls[c].pool[1..])]
    requires var k := s.ctls[c].pool[0];
             || (s'.handed == s.handed + {k} && s'.dropped == s.dropped)
             || (s'.handed == s.handed && s'.dropped == s.dropped + {k})
    requires forall j :: GivenUp(s', j) <==> GivenUp(s, j)
    ensures Conserved(s')
  {
    var pool := s.ctls[c].pool;
    var k := pool[0];
    assert k in pool;
    assert Accounted(s, k) && Pooled(s, k);
    forall j ensures Accounted(s', j) {
      assert Accounted(s, j);
      assert pool == [k] + pool[1..];
      assert forall d <- s.ctls | d != c :: s'.ctls[d] == s.ctls[d];
      assert j != k ==> (Pooled(s', j) <==> Pooled(s, j)) by {
        if j != k && Pooled(s, j) {
          var d :| d in s.ctls && j in s.ctls[d].pool;
          assert d in s'.ctls && j in s'.ctls[d].pool;
        }
      }
      assert !Pooled(s', k);
    }
  }

  /** A presenter closes the connection nobody took. */
  lemma DropKeeps(s: State, s': State, k: Conn)
    requires Conserved(s) && !GivenUp(s, k)
    requires s'.ctls == s.ctls && s'.handed == s.handed && s'.dropped == s.dropped + {k}
    requires forall j :: GivenUp(s', j) <==> GivenUp(s, j) || j == k
    ensures Conserved(s')
  {
    forall j ensures Accounted(s', j) {
      assert Accounted(s, j);
      assert Pooled(s', j) <==> Pooled(s, j);
    }
  }

  lemma OfferConserves(s: State, t: Tid, e: Entry)
    requires Conserved(s) && t in s.th && s.th[t].pc == OpAct(Offer, e) && t.Presenter? && s.th[t].ctl in s.ctls
    ensures Conserved(StepOffer(s, t, e))
  {
    var s' := StepOffer(s, t, e);
    var c := s.th[t].ctl;
    assert !GivenUp(s, t.conn);
    hide Accounted;
    hide PoolsOk;
    if s'.ctls == s.ctls {
      assert SameConns(s, s');
      SameConnsKeeps(s, s');
    } else {
      assert s'.ctls[c].pool == s.ctls[c].pool + [t.conn];
      hide Conserved;
      PushKeeps(s, s', c, t.conn);
    }
  }

  lemma DrainConserves(s: State, t: Tid)
    requires Conserved(s) && t in s.th && s.th[t].pc == DrainPool && s.th[t].ctl in s.ctls
    ensures Conserved(StepDrainPool(s, t))
  {
    hide Conserved;
    var s' := StepDrainPool(s, t);
    var c := s.th[t].ctl;
    if s.ctls[c].pool == [] {
      SameConnsKeeps(s, s');
    } else {
      PopKeeps(s, s', c);
    }
  }

  lemma StepConserves(s: State, t: Tid, ok: bool, now: int, name: string)
    requires Inv(s) && Conserved(s) && Enabled(s, Step(t, ok, now, name))
    ensures Conserved(StepThread(s, t, ok, now, name))
  {
    hide Inv;
    hide Conserved;
    var pc := s.th[t].pc;
    if pc.DrainPool? {
      DrainConserves(s, t);
    } else if pc.DropConn? {
      DropKeeps(s, StepDropConn(s, t), t.conn);
    } else if OffersNow(pc) {
      OfferConserves(s, t, pc.entry);
    } else {
      hide StepThread;
      hide Effect;
      StepEffect(s, t, ok, now, name);
      var s' := StepThread(s, t, ok, now, name);
      OtherStepSameConns(s, s', t);
      SameConnsKeeps(s, s');
    }
  }

  lemma OtherStepSameConns(s: State, s': State, t: Tid)
    requires t in s.th && Effect(s, s', t)
    requires var pc := s.th[t].pc; !pc.DrainPool? && !pc.DropConn? && !OffersNow(pc) && pc != Done
    ensures SameConns(s, s')
  {
  }

  lemma ActionConserves(s: State, a: Action)
    requires Inv(s) && Conserved(s) && Enabled(s, a)
    ensures Conserved(Apply(s, a))
  {
    hide Inv;
    hide Conserved;
    hide StepThread;
    match a
    case Step(t, ok, now, name) => StepConserves(s, t, ok, now, name);
    case TakeConn(c) => PopKeeps(s, Apply(s, a), c);
    case _ => OutsideConserves(s, a);
  }

  lemma OutsideConserves(s: State, a: Action)
    requires Conserved(s) && Enabled(s, a) && !a.Step? && !a.TakeConn?
    ensures Conserved(Apply(s, a))
  {
    hide Conserved;
    hide StepThread;
    SameConnsKeeps(s, Apply(s, a));
  }

  // ---------------------------------------------------------------------------------------
  // Whoever replaces a running control also interrupts it

  predicate Notified(s: State, c: Ref)
    requires c in s.ctls
  {
    Serving(s, c) && s.ctls[c].life == Closing && !s.ctls[c].interrupted ==>
      exists u <- s.th :: s.th[u].pc == AddNotify(c)
  }

  ghost predicate AllNotified(s: State) {
    forall c <- s.ctls :: Notified(s, c)
  }

  lemma StepNotifies(s: State, s': State, t: Tid, c: Ref)
    requires t in s.th && Effect(s, s', t) && c in s.ctls && c in s'.ctls && Notified(s, c) && CtlOk(s, c)
    ensures Notified(s', c)
  {
    if Serving(s', c) && s'.ctls[c].life == Closing && !s'.ctls[c].interrupted {
      if s.ctls[c].life == Closing {
        var u :| u in s.th && s.th[u].pc == AddNotify(c);
        assert u in s'.th && s'.th[u].pc == AddNotify(c);
      } else {
        assert s'.th[t].pc == AddNotify(c);
      }
    }
  }

  /** Actions other than thread steps leave the threads there are alone. */
  lemma OutsideNotifies(s: State, a: Action, c: Ref)
    requires Enabled(s, a) && !a.Step? && c in s.ctls && Notified(s, c)
    ensures c in Apply(s, a).ctls && Notified(Apply(s, a), c)
  {
    var s' := Apply(s, a);
    if Serving(s', c) && s'.ctls[c].life == Closing && !s'.ctls[c].interrupted {
      var u :| u in s.th && s.th[u].pc == AddNotify(c);
      assert u in s'.th && s'.th[u] == s.th[u];
    }
  }

  lemma ActionNotifies(s: State, a: Action)
    requires Inv(s) && AllNotified(s) && Enabled(s, a)
    ensures AllNotified(Apply(s, a))
  {
    hide Inv;
    hide Notified;
    var s' := Apply(s, a);
    forall c <- s'.ctls ensures Notified(s', c) {
      if a.Step? {
        StepNotifiesOf(s, a, c);
      } else if c in s.ctls {
        OutsideNotifies(s, a, c);
      } else {
        NewcomerNotified(s, a, c);
      }
    }
  }

  lemma StepNotifiesOf(s: State, a: Action, c: Ref)
    requires Inv(s) && AllNotified(s) && Enabled(s, a) && a.Step? && c in Apply(s, a).ctls
    ensures Notified(Apply(s, a), c)
  {
    hide Inv;
    hide Notified;
    hide StepThread;
    StepEffect(s, a.t, a.ok, a.now, a.name);
    AboutCtl(s, c);
    hide CtlOk;
    StepNotifies(s, Apply(s, a), a.t, c);
  }

  lemma NewcomerNotified(s: State, a: Action, c: Ref)
    requires Inv(s) && Enabled(s, a) && !a.Step? && c in Apply(s, a).ctls && c !in s.ctls
    ensures Notified(Apply(s, a), c)
  {
    hide Inv;
  }

  // ---------------------------------------------------------------------------------------
  // A generation that has been superseded and cleaned up never comes back

  predicate Retired(s: State, d: Ref) {
    d in s.ctls && s.ctls[d].id != 0 && NotCurrent(s, s.ctls[d].run, d) && !Live(s, d)
  }

  lemma StepRetires(s: State, s': State, t: Tid, d: Ref)
    requires t in s.th && Effect(s, s', t) && Retired(s, d) && ThreadOk(s, t) && CtlOk(s, d)
    ensures Retired(s', d)
  {
  }

  lemma OutsideRetires(s: State, a: Action, d: Ref)
    requires Enabled(s, a) && !a.Step? && Retired(s, d)
    ensures Retired(Apply(s, a), d)
  {
  }

  lemma ActionRetires(s: State, a: Action, d: Ref)
    requires Inv(s) && Enabled(s, a) && Retired(s, d)
    ensures Retired(Apply(s, a), d)
  {
    hide Inv;
    hide Retired;
    if a.Step? {
      hide StepThread;
      StepEffect(s, a.t, a.ok, a.now, a.name);
      RetiredKnown(s, d);
      About(s, a.t);
      AboutCtl(s, d);
      hide CtlOk;
      hide ThreadOk;
      StepRetires(s, Apply(s, a), a.t, d);
    } else {
      OutsideRetires(s, a, d);
    }
  }

  lemma RetiredKnown(s: State, d: Ref)
    requires Retired(s, d)
    ensures d in s.ctls
  {
  }

  // ---------------------------------------------------------------------------------------
  // Every run

  ghost predicate Good(s: State) {
    Inv(s) && Conserved(s) && AllNotified(s)
  }

  lemma {:induction false} RunIsGood(states: seq<State>, actions: seq<Action>, i: nat)
    requires IsRun(states, actions) && i < |states|
    ensures Good(states[i])
  {
    if i == 0 {
      assert forall k :: Accounted(Init, k);
    } else {
      hide Inv;
      hide Conserved;
      hide AllNotified;
      hide Apply;
      RunIsGood(states, actions, i - 1);
      ActionKeeps(states[i - 1], actions[i - 1]);
      ActionConserves(states[i - 1], actions[i - 1]);
      ActionNotifies(states[i - 1], actions[i - 1]);
    }
  }

  /** A control owns proxies, or work connections it has not drained. */
  predicate Owns(s: State, c: Ref)
    requires c in s.ctls
  {
    s.ctls[c].proxies != {} || s.ctls[c].pool != []
  }

  lemma OwnersAreLive(s: State, c: Ref)
    requires Inv(s) && c in s.ctls && Owns(s, c)
    ensures Live(s, c)
  {
    hide Inv;
    AboutCtl(s, c);
  }

  /** At no time do two generations of one run own proxies or work connections. */
  lemma OneOwnerPerRun(states: seq<State>, actions: seq<Action>, i: nat, p: Ref, q: Ref)
    requires IsRun(states, actions) && i < |states|
    requires var s := states[i];
             p in s.ctls && q in s.ctls && s.ctls[p].run == s.ctls[q].run && Owns(s, p) && Owns(s, q)
    ensures p == q
  {
    hide IsRun;
    hide Owns;
    RunIsGood(states, actions, i);
    var s := states[i];
    OwnersAreLive(s, p);
    OwnersAreLive(s, q);
    hide ThreadOk;
    hide CtlOk;
    assert OneLive(s);
  }

  lemma {:induction false} StaysRetired(states: seq<State>, actions: seq<Action>, i: nat, j: nat, d: Ref)
    requires IsRun(states, actions) && i <= j < |states| && Retired(states[i], d)
    ensures Retired(states[j], d)
    decreases j - i
  {
    if i < j {
      RunIsGood(states, actions, i);
      hide Inv;
      hide Retired;
      hide Apply;
      ActionRetires(states[i], actions[i], d);
      StaysRetired(states, actions, i + 1, j, d);
    }
  }

  /** Only Activate activates, and only the current control of a run that has passed its barrier. */
  lemma ActivationFacts(s: State, a: Action, c: Ref)
    requires Inv(s) && Enabled(s, a) && c in s.ctls && c in Apply(s, a).ctls
    requires !s.ctls[c].activated && Apply(s, a).ctls[c].activated
    ensures s.ctls[c].run in s.slots && s.slots[s.ctls[c].run].ctl == c && BarrierPassed(s, c)
  {
    hide Inv;
    if a.Step? {
      hide StepThread;
      StepEffect(s, a.t, a.ok, a.now, a.name);
      assert a.t == Login(c);
      hide Effect;
      About(s, a.t);
    }
  }

  /**
   The handoff theorem. When a control is activated, every other generation of its run, through
   however many pending generations it was replaced, has nothing left to clean up; and none of
   them owns anything ever again.
   */
  lemma ActivationIsExclusive(states: seq<State>, actions: seq<Action>, i: nat, c: Ref, d: Ref, j: nat)
    requires IsRun(states, actions) && i < |actions| && i <= j < |states|
    requires c in states[i].ctls && !states[i].ctls[c].activated
    requires c in states[i + 1].ctls && states[i + 1].ctls[c].activated
    requires d in states[i].ctls && d != c && states[i].ctls[d].run == states[i].ctls[c].run && states[i].ctls[d].id != 0
    ensures d in states[j].ctls && !Owns(states[j], d) && !Live(states[j], d)
  {
    RunIsGood(states, actions, i);
    RunIsGood(states, actions, j);
    hide Inv;
    hide Apply;
    hide Conserved;
    hide AllNotified;
    ActivationFacts(states[i], actions[i], c);
    NoLiveBehind(states[i], c, d);
    assert Retired(states[i], d);
    StaysRetired(states, actions, i, j, d);
    hide IsRun;
    if Owns(states[j], d) { OwnersAreLive(states[j], d); }
  }

  /** While the manager is open, a running control is the current one of its run, hence the only one. */
  lemma RunningIsCurrent(states: seq<State>, actions: seq<Action>, i: nat, c: Ref)
    requires IsRun(states, actions) && i < |states|
    requires var s := states[i]; c in s.ctls && s.ctls[c].life == Running && !s.closed
    ensures var s := states[i]; s.ctls[c].run in s.slots && s.slots[s.ctls[c].run].ctl == c
  {
    hide IsRun;
    RunIsGood(states, actions, i);
    hide Inv;
    AboutCtl(states[i], c);
  }

  lemma RunningIsLive(s: State, c: Ref)
    requires Inv(s) && c in s.ctls && s.ctls[c].life == Running
    ensures Live(s, c)
  {
    hide Inv;
    AboutCtl(s, c);
  }

  lemma EntryIsCurrent(s: State, t: Tid)
    requires Inv(s) && t in s.th && s.th[t].pc.OpAct?
    ensures s.th[t].run in s.slots && s.slots[s.th[t].run] == s.th[t].pc.entry && SlotOk(s, s.th[t].run)
  {
    hide Inv;
    About(s, t);
  }

  lemma OthersAreCleanedUp(s: State, c: Ref, d: Ref)
    requires Inv(s) && c in s.ctls && Live(s, c) && d in s.ctls && d != c && s.ctls[d].run == s.ctls[c].run
    ensures !Owns(s, d) && !Live(s, d)
  {
    assert OneLive(s);
    hide Inv, Live;
    if Owns(s, d) { OwnersAreLive(s, d); }
  }

  /**
   A visitor is let in only by the current generation of its run, which is running; its own worker has
   everything it owns still to clean up, and no other generation of the run owns anything.
   */
  lemma VisitorMeetsCurrent(states: seq<State>, actions: seq<Action>, i: nat, t: Tid, d: Ref)
    requires IsRun(states, actions) && i < |states| && Admits(states[i], t)
    ensures var s, e := states[i], states[i].th[t].pc.entry;
            && s.th[t].run in s.slots && s.slots[s.th[t].run] == e
            && s.ctls[e.ctl].run == s.th[t].run && s.ctls[e.ctl].id == e.id && Live(s, e.ctl)
            && (d in s.ctls && d != e.ctl && s.ctls[d].run == s.th[t].run ==> !Owns(s, d) && !Live(s, d))
  {
    hide IsRun, Inv, Live, Owns;
    RunIsGood(states, actions, i);
    var s, c := states[i], states[i].th[t].pc.entry.ctl;
    EntryIsCurrent(s, t);
    RunningIsLive(s, c);
    if d in s.ctls && d != c && s.ctls[d].run == s.ctls[c].run { OthersAreCleanedUp(s, c, d); }
  }

  /** A thread moves by its own steps only. */
  lemma OthersUnmoved(s: State, a: Action, t: Tid)
    requires Inv(s) && Enabled(s, a) && t in s.th && !(a.Step? && a.t == t)
    ensures t in Apply(s, a).th && Apply(s, a).th[t] == s.th[t]
  {
    hide Inv;
    if a.Step? {
      hide StepThread;
      StepEffect(s, a.t, a.ok, a.now, a.name);
    }
  }

  /**
   The gate theorem. While a thread is inside a call that lockCurrentRun let in, nothing any other
   thread does changes the slot of its run: not its control, its gate or its registry ownership,
   though slots are removed and made again with new gates all the while.
   */
  lemma GateFreezesSlot(states: seq<State>, actions: seq<Action>, i: nat, t: Tid)
    requires IsRun(states, actions) && i < |actions| && t in states[i].th
    requires states[i].th[t].pc.OpAct? || states[i].th[t].pc.Writing?
    requires !(actions[i].Step? && actions[i].t == t)
    ensures var run := states[i].th[t].run;
            && run in states[i].slots && run in states[i + 1].slots
            && states[i + 1].slots[run] == states[i].slots[run]
  {
    RunIsGood(states, actions, i);
    RunIsGood(states, actions, i + 1);
    hide Inv;
    hide Apply;
    OthersUnmoved(states[i], actions[i], t);
    About(states[i], t);
    About(states[i + 1], t);
  }

  /** No thread ever holds two run gates, and one that waits for a gate holds none. */
  lemma OneGateEach(states: seq<State>, actions: seq<Action>, i: nat, t: Tid)
    requires IsRun(states, actions) && i < |states| && t in states[i].th
    ensures forall g, h | g in states[i].held && h in states[i].held && states[i].held[g] == t && states[i].held[h] == t :: g == h
    ensures states[i].th[t].pc.AddGate? || states[i].th[t].pc.OpGate? ==> forall g <- states[i].held :: states[i].held[g] != t
  {
    hide IsRun;
    RunIsGood(states, actions, i);
    hide Inv;
    About(states[i], t);
    hide ThreadOk;
    hide CtlOk;
    hide SlotOk;
  }

  /**
   The registry shows a run online only on behalf of its current entry, which knows it, be it
   the control that registered or a replacement that inherited the registration.
   */
  lemma RegistryFollowsManager(states: seq<State>, actions: seq<Action>, i: nat, run: string, id: nat)
    requires IsRun(states, actions) && i < |states| && Registry.Online(states[i].reg, run, id)
    ensures var s := states[i]; run in s.slots && s.slots[run].online && s.slots[run].onlineID == id
  {
    hide IsRun;
    RunIsGood(states, actions, i);
    hide ThreadOk;
    hide CtlOk;
    hide Registry.Online;
    assert Agree(states[i]);
  }

  /** Once a Close of the manager has returned, no run is in the map and nobody is online. */
  lemma ClosedMeansOffline(states: seq<State>, actions: seq<Action>, i: nat, no: nat, run: string, id: nat)
    requires IsRun(states, actions) && i < |states|
    requires Closer(no) in states[i].th && states[i].th[Closer(no)].pc == Done
    ensures run !in states[i].slots && !Registry.Online(states[i].reg, run, id)
  {
    hide IsRun;
    RunIsGood(states, actions, i);
    hide Registry.Online;
    if Registry.Online(states[i].reg, run, id) { RegistryFollowsManager(states, actions, i, run, id); }
    hide Inv;
    About(states[i], Closer(no));
  }

  /**
   Work connections are conserved: a connection its presenter gave up is in one place and one
   place only, pools stay within their capacity, and no connection is offered to a pool that is closed.
   */
  lemma WorkConnsConserved(states: seq<State>, actions: seq<Action>, i: nat, k: Conn, c: Ref)
    requires IsRun(states, actions) && i < |states|
    ensures Accounted(states[i], k)
    ensures c in states[i].ctls ==> |states[i].ctls[c].pool| <= states[i].ctls[c].poolCount + 10
    ensures c in states[i].ctls && states[i].ctls[c].life == Running ==> !states[i].ctls[c].poolClosed
  {
    hide IsRun;
    RunIsGood(states, actions, i);
    hide Inv;
    hide Accounted;
    assert PoolsOk(states[i]);
    if c in states[i].ctls { AboutCtl(states[i], c); }
  }

  /** Nothing is sent on the channel of a pool that has been closed: from then on the pool only shrinks. */
  lemma ClosedPoolOnlyShrinks(states: seq<State>, actions: seq<Action>, i: nat, c: Ref)
    requires IsRun(states, actions) && i < |actions| && c in states[i].ctls && states[i].ctls[c].poolClosed
    ensures c in states[i + 1].ctls
    ensures var before, after := states[i].ctls[c].pool, states[i + 1].ctls[c].pool; after == before || (before != [] && after == before[1..])
  {
    RunIsGood(states, actions, i);
    hide Inv;
    AboutCtl(states[i], c);
    hide CtlOk;
    hide Conserved;
    hide AllNotified;
    PoolStep(states[i], actions[i], c);
  }

  lemma PoolStep(s: State, a: Action, c: Ref)
    requires Inv(s) && Enabled(s, a) && c in s.ctls && s.ctls[c].poolClosed && s.ctls[c].life != Running
    ensures c in Apply(s, a).ctls
    ensures var before, after := s.ctls[c].pool, Apply(s, a).ctls[c].pool; after == before || (before != [] && after == before[1..])
  {
    hide Inv;
    if a.Step? {
      var pc := s.th[a.t].pc;
      if pc.DrainPool? || OffersNow(pc) {
        PoolMoves(s, a.t, c);
      } else {
        hide StepThread;
        StepEffect(s, a.t, a.ok, a.now, a.name);
      }
    }
  }

  lemma PoolMoves(s: State, t: Tid, c: Ref)
    requires t in s.th && WellKinded(s, t) && c in s.ctls && s.ctls[c].life != Running
    ensures s.th[t].pc.DrainPool? ==>
              c in StepDrainPool(s, t).ctls
              && var before, after := s.ctls[c].pool, StepDrainPool(s, t).ctls[c].pool; after == before || (before != [] && after == before[1..])
    ensures OffersNow(s.th[t].pc) ==>
              c in StepOffer(s, t, s.th[t].pc.entry).ctls && StepOffer(s, t, s.th[t].pc.entry).ctls[c].pool == s.ctls[c].pool
  {
  }

  /** A barrier always belongs to an earlier generation of the same run, so waits cannot form a cycle. */
  lemma BarriersDescend(states: seq<State>, actions: seq<Action>, i: nat, c: Ref)
    requires IsRun(states, actions) && i < |states| && c in states[i].ctls && states[i].ctls[c].barrier.Some?
    ensures var s := states[i];
            var b := s.ctls[c].barrier.value;
            b in s.ctls && s.ctls[b].id < s.ctls[c].id && s.ctls[b].run == s.ctls[c].run && Worker(b) in s.th
  {
    hide IsRun;
    RunIsGood(states, actions, i);
    hide Inv;
    AboutCtl(states[i], c);
  }

  // ---------------------------------------------------------------------------------------
  // No deadlock

  /** The control whose lifecycle lock the next step of `t` takes first, if it is the one being written under. */
  predicate WantsLife(s: State, t: Tid, c: Ref)
    requires t in s.th
  {
    var x := s.th[t];
    match x.pc
    case AddCommit(seen) => c == x.ctl || (seen.Some? && c == seen.value.ctl)
    case AddNotify(d) => c == d
    case AwaitHandoff => c == x.ctl
    case OpAct(_, e) => c == e.ctl
    case CloseCtl => c == x.ctl
    case MarkClosing => c == x.ctl
    case Finish => c == x.ctl
    case _ => false
  }

  /** What `t` is waiting for is in the hands of `u`. */
  predicate WaitsFor(s: State, t: Tid, u: Tid) {
    && t in s.th && u in s.th
    && var x := s.th[t];
       || (x.pc.AddGate? && x.pc.want.gate in s.held && s.held[x.pc.want.gate] == u)
       || (x.pc.OpGate? && x.pc.gate in s.held && s.held[x.pc.gate] == u)
       || (x.pc.AwaitHandoff? && x.ctl in s.ctls
           && var b := s.ctls[x.ctl].barrier; b.Some? && b.value in s.ctls && s.ctls[b.value].life != Closed && u == Worker(b.value))
       || (x.pc.Serve? && x.ctl in s.ctls && s.ctls[x.ctl].life == Closing && s.th[u].pc == AddNotify(x.ctl))
       || (u.Login? && s.th[u].pc.Writing? && WantsLife(s, t, u.ctl))
  }

  /** A step of `t` can be taken now, and a worker's connection has been interrupted for it. */
  predicate Ready(s: State, t: Tid) {
    && t in s.th && CanStep(s, t) && WellKinded(s, t)
    && (s.th[t].pc.Serve? ==> s.th[t].ctl in s.ctls && s.ctls[s.th[t].ctl].interrupted)
  }

  /** The worker of a running control whose client is connected. */
  predicate AtWork(s: State, t: Tid) {
    t in s.th && s.th[t].pc.Serve? && s.th[t].ctl in s.ctls && s.ctls[s.th[t].ctl].life == Running
  }

  /** Following at most `n` waits from `t` leads to a thread that can move. */
  ghost predicate Released(s: State, t: Tid, n: nat)
    decreases n
  {
    Ready(s, t) || (n > 0 && exists u :: WaitsFor(s, t, u) && Released(s, u, n - 1))
  }

  lemma MoreWaits(s: State, t: Tid, n: nat)
    requires Released(s, t, n)
    ensures Released(s, t, n + 1)
    decreases n
  {
    if !Ready(s, t) {
      var u :| WaitsFor(s, t, u) && Released(s, u, n - 1);
      MoreWaits(s, u, n - 1);
    }
  }

  /** Only a login response write stands between these threads and their next step. */
  predicate Short(pc: Pc) {
    !pc.AddGate? && !pc.OpGate? && !pc.AwaitHandoff? && !pc.Serve? && !pc.Done?
  }

  lemma ShortIsReleased(s: State, t: Tid)
    requires Inv(s) && t in s.th && Short(s.th[t].pc)
    ensures Released(s, t, 1)
  {
    hide Inv;
    About(s, t);
    hide GateOk;
    hide SlotViewOk;
    if !Ready(s, t) {
      var c := if WantsLife(s, t, s.th[t].ctl) && !LifeFree(s, s.th[t].ctl) then s.th[t].ctl
        else if s.th[t].pc.AddCommit? then s.th[t].pc.seen.value.ctl
        else if s.th[t].pc.AddNotify? then s.th[t].pc.replaced
        else s.th[t].pc.entry.ctl;
      assert !LifeFree(s, c) && WantsLife(s, t, c);
      About(s, Login(c));
      assert Released(s, Login(c), 0);
      assert WaitsFor(s, t, Login(c));
    }
  }

  lemma GateIsReleased(s: State, t: Tid)
    requires Inv(s) && t in s.th && (s.th[t].pc.AddGate? || s.th[t].pc.OpGate?)
    ensures Released(s, t, 2)
  {
    hide Inv;
    About(s, t);
    hide SlotViewOk;
    if Ready(s, t) {
      MoreWaits(s, t, 0);
      MoreWaits(s, t, 1);
    } else {
      var g := if s.th[t].pc.AddGate? then s.th[t].pc.want.gate else s.th[t].pc.gate;
      HolderOf(s, g);
      ShortIsReleased(s, s.held[g]);
      assert WaitsFor(s, t, s.held[g]);
    }
  }

  lemma HolderOf(s: State, g: Gate)
    requires Inv(s) && g in s.held
    ensures s.held[g] in s.th && Short(s.th[s.held[g]].pc)
  {
    hide ThreadOk;
    hide CtlOk;
    assert HeldOk(s, g);
  }

  lemma ServeIsReleased(s: State, t: Tid)
    requires Inv(s) && AllNotified(s) && t in s.th && s.th[t].pc.Serve? && !AtWork(s, t)
    ensures Released(s, t, 2)
  {
    hide Inv;
    About(s, t);
    hide SlotViewOk;
    var c := s.th[t].ctl;
    if s.ctls[c].interrupted {
      MoreWaits(s, t, 0);
      MoreWaits(s, t, 1);
    } else {
      assert Notified(s, c);
      var u :| u in s.th && s.th[u].pc == AddNotify(c);
      ShortIsReleased(s, u);
      assert WaitsFor(s, t, u);
    }
  }

  lemma WorkerIsReleased(s: State, t: Tid)
    requires Inv(s) && AllNotified(s) && t in s.th && t.Worker? && s.th[t].pc != Done && !AtWork(s, t)
    ensures Released(s, t, 2)
  {
    hide Inv;
    hide AllNotified;
    hide Released;
    About(s, t);
    if s.th[t].pc.Serve? { ServeIsReleased(s, t); }
    else if s.th[t].pc.OpGate? { GateIsReleased(s, t); }
    else { ShortIsReleased(s, t); MoreWaits(s, t, 1); }
  }

  lemma AwaitIsReleased(s: State, t: Tid)
    requires Inv(s) && AllNotified(s) && t in s.th && s.th[t].pc.AwaitHandoff?
    ensures Released(s, t, 3)
  {
    hide Inv;
    hide AllNotified;
    About(s, t);
    hide SlotViewOk;
    var c := s.th[t].ctl;
    var b := s.ctls[c].barrier;
    if b.Some? && s.ctls[b.value].life != Closed {
      AboutCtl(s, b.value);
      About(s, Worker(b.value));
      WorkerIsReleased(s, Worker(b.value));
      assert WaitsFor(s, t, Worker(b.value));
    } else {
      MoreWaits(s, t, 0);
      MoreWaits(s, t, 1);
      MoreWaits(s, t, 2);
    }
  }

  /** A thread that writes a login response holds the gate of the entry its control has in the slot. */
  lemma WriterHoldsGate(s: State, c: Ref)
    requires Inv(s) && !LifeFree(s, c)
    ensures c in s.ctls && s.ctls[c].run in s.slots && s.slots[s.ctls[c].run].ctl == c
    ensures s.slots[s.ctls[c].run].gate in s.held && s.held[s.slots[s.ctls[c].run].gate] == Login(c)
    ensures s.slots[s.ctls[c].run].id == s.ctls[c].id
  {
    hide Inv;
    About(s, Login(c));
  }

  /** Who holds a gate and wants the lifecycle lock of a control of that run finds it free. */
  lemma GateKeepsLifeFree(s: State, t: Tid, c: Ref, g: Gate)
    requires Inv(s) && g in s.held && s.held[g] == t && t in s.th && !s.th[t].pc.Writing?
    requires c in s.ctls && (s.ctls[c].run in s.slots && s.slots[s.ctls[c].run].id == s.ctls[c].id ==> s.slots[s.ctls[c].run].gate == g)
    ensures LifeFree(s, c)
  {
    hide Inv;
    if !LifeFree(s, c) { WriterHoldsGate(s, c); }
  }

  lemma SectionIsFree(s: State, t: Tid)
    requires Inv(s) && t in s.th && (s.th[t].pc.AddCommit? || s.th[t].pc.OpAct?)
    ensures CanStep(s, t)
  {
    hide Inv;
    About(s, t);
    var x := s.th[t];
    if x.pc.OpAct? {
      GateKeepsLifeFree(s, t, x.pc.entry.ctl, x.pc.entry.gate);
    } else if x.pc.seen.Some? {
      GateKeepsLifeFree(s, t, x.pc.seen.value.ctl, x.pc.seen.value.gate);
    }
  }

  /**
   The sections that take a lifecycle lock while they hold the manager's own lock never wait for it: Add
   when it commits, and every call let in by lockCurrentRun, can always go on. So the manager's lock is
   never held by a thread that waits, and a section that takes only that lock never waits long.
   */
  lemma ManagerLockNeverWaits(states: seq<State>, actions: seq<Action>, i: nat, t: Tid)
    requires IsRun(states, actions) && i < |states| && t in states[i].th
    requires states[i].th[t].pc.AddCommit? || states[i].th[t].pc.OpAct?
    ensures CanStep(states[i], t)
  {
    hide IsRun;
    RunIsGood(states, actions, i);
    hide Inv;
    SectionIsFree(states[i], t);
  }

  lemma InSectionIsReady(states: seq<State>, actions: seq<Action>, i: nat, t: Tid)
    requires IsRun(states, actions) && i < |states| && t in states[i].th
    requires states[i].th[t].pc.AddCommit? || states[i].th[t].pc.OpAct?
    ensures Ready(states[i], t)
  {
    ManagerLockNeverWaits(states, actions, i, t);
    hide IsRun;
    RunIsGood(states, actions, i);
    hide Inv;
    About(states[i], t);
  }

  /**
   No deadlock: in every reachable state every unfinished thread, unless it is simply serving a
   connected client, can take a step or waits, through at most three others, for a thread that can.
   Whoever is inside a section that holds the manager's lock does not wait at all, so that no thread
   counted as able to step is kept from it by that lock.
   */
  lemma NoDeadlock(states: seq<State>, actions: seq<Action>, i: nat, t: Tid)
    requires IsRun(states, actions) && i < |states|
    requires t in states[i].th && states[i].th[t].pc != Done && !AtWork(states[i], t)
    ensures Released(states[i], t, 3)
    ensures forall u <- states[i].th :: states[i].th[u].pc.AddCommit? || states[i].th[u].pc.OpAct? ==> Ready(states[i], u)
  {
    forall u | u in states[i].th && (states[i].th[u].pc.AddCommit? || states[i].th[u].pc.OpAct?)
      ensures Ready(states[i], u)
    {
      InSectionIsReady(states, actions, i, u);
    }
    hide IsRun;
    RunIsGood(states, actions, i);
    hide Inv;
    hide AllNotified;
    hide Released;
    var s := states[i];
    var pc := s.th[t].pc;
    if pc.AwaitHandoff? { AwaitIsReleased(s, t); }
    else if pc.Serve? { ServeIsReleased(s, t); MoreWaits(s, t, 2); }
    else if pc.AddGate? || pc.OpGate? { GateIsReleased(s, t); MoreWaits(s, t, 2); }
    else { ShortIsReleased(s, t); MoreWaits(s, t, 1); MoreWaits(s, t, 2); }
  }
}
