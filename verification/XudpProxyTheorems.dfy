/** What the XUDP proxy guarantees about its connections, over every run. */
module XudpProxyTheorems {
  import opened Prelude
  import opened XudpProxy

  /** The lifecycle a worker owns, from promotion on. */
  function LcOf(w: Worker): Option<ID> {
    match w
    case Adding(id, _, _) => Some(id)
    case RunLate(id, _, _) => Some(id)
    case Serving(id) => Some(id)
    case Stopping(id) => Some(id)
    case RunClosers(id) => Some(id)
    case Remove(id) => Some(id)
    case Leave(id) => Some(id)
    case Gone(last) => last
    case _ => None
  }

  /** Promoted and not finished: the WaitGroup counts it. */
  predicate IsPromoted(w: Worker) {
    LcOf(w).Some? && !w.Gone?
  }

  /** The id under which the worker's connection may be registered as pending. */
  function PendingIdOf(w: Worker): Option<ID> {
    match w
    case Setup(id) => Some(id)
    case Promote(id, _) => Some(id)
    case Finish(id) => Some(id)
    case _ => None
  }

  function Promoted(s: State): set<nat> {
    set t | t in s.workers && IsPromoted(s.workers[t])
  }

  /** Every closer added is registered, taken, late or has run, and none runs before stop. */
  predicate Balanced(lc: Lifecycle) {
    && lc.added == lc.closers + lc.running + lc.late + lc.ran
    && (lc.stopped ==> lc.closers == multiset{})
    && (!lc.stopped ==> lc.running == multiset{} && lc.late == multiset{} && lc.ran == multiset{})
  }

  predicate Holds(lc: Lifecycle, c: Conn) {
    c in lc.closers || c in lc.running || c in lc.late
  }

  predicate LcOk(s: State, id: ID)
    requires id in s.lcs
  {
    var lc := s.lcs[id];
    && Balanced(lc)
    && lc.owner in s.workers
    && var w := s.workers[lc.owner];
    && LcOf(w) == Some(id)
    && (id in s.active <==> IsPromoted(w) && !w.Leave?)
    && lc.late == (if w.RunLate? then multiset{w.conn} else multiset{})
    && (lc.running != multiset{} ==> w.RunClosers? || (s.closing.RunActive? && s.closing.id == id))
    && (w.RunClosers? || w.Remove? || w.Leave? || w.Gone? ==> lc.stopped)
    && id <= s.nextID
    && id !in s.pending
  }

  predicate WorkerOk(s: State, t: nat)
    requires t in s.workers
  {
    var w := s.workers[t];
    && t <= s.nextConn
    && (LcOf(w).Some? ==> LcOf(w).value in s.lcs && s.lcs[LcOf(w).value].owner == t)
    && match w
       case Setup(id) => id in s.pending && s.pending[id] == Conn(t, 0)
       case Promote(id, extra) => id in s.pending && s.pending[id] == Conn(t, 0) && (extra.Some? ==> extra.value.worker == t)
       case DropExtra(id, extra) => id !in s.lcs && id !in s.pending && id <= s.nextID && (extra.Some? ==> extra.value.worker == t)
       case Finish(id) => id !in s.lcs && id <= s.nextID && (id in s.pending ==> s.pending[id] == Conn(t, 0))
       case Adding(_, conn, rest) => conn.worker == t && forall c <- rest :: c.worker == t
       case RunLate(_, conn, rest) => conn.worker == t && forall c <- rest :: c.worker == t
       case _ => true
  }

  predicate PendingOk(s: State, id: ID)
    requires id in s.pending
  {
    var c := s.pending[id];
    && id <= s.nextID
    && c.n == 0
    && c.worker in s.workers
    && PendingIdOf(s.workers[c.worker]) == Some(id)
    && (s.closed && c in s.open ==> s.closing.ClosePending? && c in s.closing.conns)
  }

  /** Where a worker's connections are while they may be open. */
  predicate Owns(s: State, t: nat, c: Conn)
    requires t in s.workers
  {
    var w := s.workers[t];
    || (!LcOf(w).Some? && !w.Gone? && c == Conn(t, 0))
    || (w.Promote? && w.extra == Some(c))
    || (w.DropExtra? && w.extra == Some(c))
    || (w.Adding? && (c == w.conn || c in w.rest))
    || (w.RunLate? && c in w.rest)
    || (LcOf(w).Some? && LcOf(w).value in s.lcs
        && Holds(s.lcs[LcOf(w).value], c))
  }

  predicate ClosingOk(s: State) {
    && (s.closed <==> s.closing != NotClosing)
    && (s.closing.ClosePending? || s.closing.StopActive? || s.closing.RunActive? ==> s.closing.ids <= s.lcs.Keys)
    && (s.closing.RunActive? ==> s.closing.id in s.lcs && s.lcs[s.closing.id].stopped)
    && (s.closing.Closed? ==> s.wg == 0)
    && s.active <= s.lcs.Keys
  }

  ghost predicate Inv(s: State) {
    && (forall id <- s.lcs :: LcOk(s, id))
    && (forall t <- s.workers :: WorkerOk(s, t))
    && (forall id <- s.pending :: PendingOk(s, id))
    && (forall c <- s.open :: c.worker in s.workers && Owns(s, c.worker, c))
    && s.wg == |Promoted(s)|
    && ClosingOk(s)
  }

  // ---------------------------------------------------------------------------------------
  // A step of one worker

  /** `id` is the registration or lifecycle of worker `t`, or not used yet. */
  predicate Mine(s: State, t: nat, id: ID)
    requires t in s.workers
  {
    && (PendingIdOf(s.workers[t]).Some? ==> PendingIdOf(s.workers[t]).value == id)
    && (LcOf(s.workers[t]).Some? ==> LcOf(s.workers[t]).value == id)
    && ((id in s.lcs && s.lcs[id].owner == t) || (id in s.pending && s.pending[id] == Conn(t, 0)) || id > s.nextID || s.workers[t] == Finish(id))
  }

  predicate SameAt(s: State, s': State, i: ID) {
    && (if i in s.pending then i in s'.pending && s'.pending[i] == s.pending[i] else i !in s'.pending)
    && (if i in s.lcs then i in s'.lcs && s'.lcs[i] == s.lcs[i] else i !in s'.lcs)
    && (i in s.active <==> i in s'.active)
  }

  /** Only worker `t` and what is at `id` change. */
  ghost predicate Local(s: State, s': State, t: nat, id: ID) {
    && t in s.workers && t in s'.workers
    && s'.workers == s.workers[t := s'.workers[t]]
    && s'.closing == s.closing && s'.closed == s.closed
    && s.nextID <= s'.nextID && s.nextConn <= s'.nextConn
    && (forall i | i != id :: SameAt(s, s', i))
    && (id in s.lcs ==> id in s'.lcs && s'.lcs[id].owner == s.lcs[id].owner && (s.lcs[id].stopped ==> s'.lcs[id].stopped))
    && (id !in s.lcs && id in s'.lcs ==> id in s.pending)
    && (id in s'.pending ==> id in s.pending || id > s.nextID)
    && (forall c <- s'.open :: c in s.open || c.worker == t)
  }

  /** What a step has to show of worker `t` itself. `id` is the registration or lifecycle it works on. */
  ghost predicate Own(s: State, s': State, t: nat, id: ID) {
    && t in s'.workers
    && WorkerOk(s', t)
    && (id in s'.lcs ==> LcOk(s', id))
    && (id in s'.active ==> id in s'.lcs)
    && (id in s'.pending ==> PendingOk(s', id))
    && (forall c <- s'.open :: c.worker == t ==> Owns(s', t, c))
    && s'.wg == s.wg + (if IsPromoted(s'.workers[t]) then 1 else 0) - (if t in s.workers && IsPromoted(s.workers[t]) then 1 else 0)
  }

  lemma CountPromoted(s: State, s': State, t: nat)
    requires t in s.workers && t in s'.workers && s'.workers == s.workers[t := s'.workers[t]]
    ensures |Promoted(s')| == |Promoted(s)| + (if IsPromoted(s'.workers[t]) then 1 else 0) - (if IsPromoted(s.workers[t]) then 1 else 0)
  {
    var rest := Promoted(s) - {t};
    assert Promoted(s) == if IsPromoted(s.workers[t]) then rest + {t} else rest;
    assert Promoted(s') == if IsPromoted(s'.workers[t]) then rest + {t} else rest;
  }

  lemma OthersKeep(s: State, s': State, t: nat, id: ID, u: nat)
    requires t in s.workers && Mine(s, t, id) && Local(s, s', t, id)
    requires u in s.workers && u != t && WorkerOk(s, u) && WorkerOk(s, t)
    requires (id in s.pending ==> PendingOk(s, id)) && (id in s.lcs ==> LcOk(s, id))
    ensures WorkerOk(s', u)
  {
    var w := s.workers[u];
    if LcOf(w).Some? && LcOf(w).value != id { assert SameAt(s, s', LcOf(w).value); }
    if PendingIdOf(w).Some? && PendingIdOf(w).value != id { assert SameAt(s, s', PendingIdOf(w).value); }
    if w.DropExtra? && w.id != id { assert SameAt(s, s', w.id); }
  }

  lemma OtherLcsKeep(s: State, s': State, t: nat, id: ID, other: ID)
    requires t in s.workers && Mine(s, t, id) && Local(s, s', t, id)
    requires other in s'.lcs && other != id && (other in s.lcs ==> LcOk(s, other))
    ensures LcOk(s', other)
  {
    assert SameAt(s, s', other);
  }

  lemma OtherPendingKeep(s: State, s': State, t: nat, id: ID, other: ID)
    requires t in s.workers && Mine(s, t, id) && Local(s, s', t, id)
    requires other in s'.pending && other != id && (other in s.pending ==> PendingOk(s, other))
    ensures PendingOk(s', other)
  {
    assert SameAt(s, s', other);
  }

  lemma OtherConnsKeep(s: State, s': State, t: nat, id: ID, c: Conn)
    requires t in s.workers && Mine(s, t, id) && Local(s, s', t, id)
    requires c.worker in s.workers && c.worker != t && Owns(s, c.worker, c) && WorkerOk(s, c.worker) && WorkerOk(s, t)
    requires (id in s.pending ==> PendingOk(s, id)) && (id in s.lcs ==> LcOk(s, id))
    ensures c.worker in s'.workers && Owns(s', c.worker, c)
  {
    var w := s.workers[c.worker];
    if LcOf(w).Some? && LcOf(w).value != id { assert SameAt(s, s', LcOf(w).value); }
  }

  lemma LocalKeeps(s: State, s': State, t: nat, id: ID)
    requires Inv(s) && t in s.workers && Mine(s, t, id) && Local(s, s', t, id) && Own(s, s', t, id)
    requires s.closing.Closed? ==> s'.wg == s.wg
    ensures Inv(s')
  {
    forall u | u in s'.workers ensures WorkerOk(s', u) {
      if u != t { OthersKeep(s, s', t, id, u); }
    }
    forall i | i in s'.lcs ensures LcOk(s', i) {
      if i != id {
        assert SameAt(s, s', i);
        OtherLcsKeep(s, s', t, id, i);
      }
    }
    forall i | i in s'.pending ensures PendingOk(s', i) {
      if i != id {
        assert SameAt(s, s', i);
        OtherPendingKeep(s, s', t, id, i);
      }
    }
    forall c | c in s'.open ensures c.worker in s'.workers && Owns(s', c.worker, c) {
      if c.worker != t { OtherConnsKeep(s, s', t, id, c); }
    }
    CountPromoted(s, s', t);
    LocalClosing(s, s', t, id);
  }

  lemma LocalClosing(s: State, s': State, t: nat, id: ID)
    requires t in s.workers && Local(s, s', t, id) && ClosingOk(s)
    requires s.closing.Closed? ==> s'.wg == s.wg
    requires id in s'.active ==> id in s'.lcs
    ensures ClosingOk(s')
  {
    forall i | i in s'.active ensures i in s'.lcs {
      if i != id { assert SameAt(s, s', i); }
    }
    forall i | i in s.lcs ensures i in s'.lcs && (s.lcs[i].stopped ==> s'.lcs[i].stopped) {
      if i != id { assert SameAt(s, s', i); }
    }
  }

  // ---------------------------------------------------------------------------------------
  // Lifecycles

  lemma AddFacts(lc: Lifecycle, c: Conn)
    requires Balanced(lc) && lc.late == multiset{}
    ensures var lc' := AddCloser(lc, c);
            && Balanced(lc') && Holds(lc', c)
            && lc'.owner == lc.owner && lc'.stopped == lc.stopped && lc'.running == lc.running
            && lc'.late == (if lc.stopped then multiset{c} else multiset{})
            && forall x | Holds(lc, x) :: Holds(lc', x)
  {
  }

  lemma TakeFacts(lc: Lifecycle)
    requires Balanced(lc) && !lc.stopped
    ensures var lc' := TakeClosers(lc);
            && Balanced(lc') && lc'.owner == lc.owner && lc'.stopped && lc'.late == lc.late
            && forall x | Holds(lc, x) :: Holds(lc', x)
  {
  }

  lemma RunFacts(lc: Lifecycle, c: Conn)
    requires Balanced(lc) && c in lc.running
    ensures var lc' := RunCloser(lc, c);
            && Balanced(lc') && lc'.owner == lc.owner && lc'.stopped && lc.stopped && lc'.late == lc.late
            && forall x | x != c && Holds(lc, x) :: Holds(lc', x)
  {
  }

  lemma RunLateFacts(lc: Lifecycle, c: Conn)
    requires Balanced(lc) && lc.late == multiset{c}
    ensures var lc' := RunLateCloser(lc, c);
            && Balanced(lc') && lc'.owner == lc.owner && lc'.stopped && lc.stopped && lc'.running == lc.running
            && lc'.late == multiset{}
            && forall x | x != c && Holds(lc, x) :: Holds(lc', x)
  {
  }

  // ---------------------------------------------------------------------------------------
  // Each step of a worker

  /** The registration or lifecycle a worker's next step is about. */
  function Subject(s: State, t: nat): ID
    requires t in s.workers
  {
    var w := s.workers[t];
    if LcOf(w).Some? then LcOf(w).value
    else if PendingIdOf(w).Some? then PendingIdOf(w).value
    else s.nextID + 1
  }

  lemma About(s: State, t: nat)
    requires Inv(s) && t in s.workers
    ensures WorkerOk(s, t) && Mine(s, t, Subject(s, t))
    ensures Subject(s, t) in s.lcs ==> LcOk(s, Subject(s, t))
    ensures Subject(s, t) in s.pending ==> PendingOk(s, Subject(s, t))
    ensures Subject(s, t) == s.nextID + 1 ==> Subject(s, t) !in s.lcs && Subject(s, t) !in s.pending
    ensures forall c <- s.open :: c.worker == t ==> Owns(s, t, c)
    ensures IsPromoted(s.workers[t]) ==> !s.closing.Closed?
    ensures s.active <= s.lcs.Keys
  {
    var id := Subject(s, t);
    assert id in s.lcs ==> LcOk(s, id);
    assert id in s.pending ==> PendingOk(s, id);
    assert WorkerOk(s, t);
    if IsPromoted(s.workers[t]) {
      assert t in Promoted(s);
      assert Promoted(s) != {};
    }
  }

  lemma ArrivedKeeps(s: State, t: nat, ok: bool, more: bool, c: Conn)
    requires Inv(s) && CanStep(s, t, c) && s.workers[t].Arrived?
    ensures Inv(StepWorker(s, t, ok, more, c))
  {
    hide Inv;
    About(s, t);
    LocalKeeps(s, StepWorker(s, t, ok, more, c), t, s.nextID + 1);
  }

  lemma LeavingKeeps(s: State, t: nat, ok: bool, more: bool, c: Conn)
    requires Inv(s) && CanStep(s, t, c)
    requires s.workers[t].Refused? || s.workers[t].FinishClose? || s.workers[t].DropExtra? || s.workers[t].Finish?
    ensures Inv(StepWorker(s, t, ok, more, c))
  {
    hide Inv;
    About(s, t);
    LocalKeeps(s, StepWorker(s, t, ok, more, c), t, Subject(s, t));
  }

  lemma SetupKeeps(s: State, t: nat, ok: bool, more: bool, c: Conn)
    requires Inv(s) && CanStep(s, t, c) && s.workers[t].Setup?
    ensures Inv(StepWorker(s, t, ok, more, c))
  {
    hide Inv;
    About(s, t);
    LocalKeeps(s, StepWorker(s, t, ok, more, c), t, Subject(s, t));
  }

  lemma PromoteKeeps(s: State, t: nat, ok: bool, more: bool, c: Conn)
    requires Inv(s) && CanStep(s, t, c) && s.workers[t].Promote?
    ensures Inv(StepWorker(s, t, ok, more, c))
  {
    NotLcWhilePending(s, t);
    hide Inv, Balanced, Holds, Own, Local;
    About(s, t);
    if s.closed {
      RefusedOwns(s, t, s.workers[t].id, s.workers[t].extra);
    } else {
      PromotedOwns(s, t, s.workers[t].id, s.workers[t].extra);
    }
    LocalKeeps(s, StepWorker(s, t, ok, more, c), t, s.workers[t].id);
  }

  lemma RefusedOwns(s: State, t: nat, id: ID, extra: Option<Conn>)
    requires t in s.workers && s.workers[t] == Promote(id, extra) && WorkerOk(s, t) && PendingOk(s, id)
    requires id !in s.lcs && s.closed && s.active <= s.lcs.Keys
    requires forall x <- s.open :: x.worker == t ==> Owns(s, t, x)
    ensures CanStep(s, t, Conn(t, 0))
    ensures Own(s, StepWorker(s, t, true, true, Conn(t, 0)), t, id)
    ensures Local(s, StepWorker(s, t, true, true, Conn(t, 0)), t, id)
  {
    hide Balanced, Holds;
  }

  lemma PromotedOwns(s: State, t: nat, id: ID, extra: Option<Conn>)
    requires t in s.workers && s.workers[t] == Promote(id, extra) && WorkerOk(s, t) && PendingOk(s, id)
    requires id !in s.lcs && !s.closed
    requires forall x <- s.open :: x.worker == t ==> Owns(s, t, x)
    ensures CanStep(s, t, Conn(t, 0))
    ensures Own(s, StepWorker(s, t, true, true, Conn(t, 0)), t, id)
    ensures Local(s, StepWorker(s, t, true, true, Conn(t, 0)), t, id)
  {
    assert Balanced(NewLifecycle(t));
    hide Balanced, Holds;
    var s' := StepWorker(s, t, true, true, Conn(t, 0));
    assert s'.workers[t] == Adding(id, Conn(t, 0), if extra.Some? then [extra.value] else []);
    assert LcOk(s', id);
  }

  lemma NotLcWhilePending(s: State, t: nat)
    requires Inv(s) && t in s.workers && s.workers[t].Promote?
    ensures s.workers[t].id !in s.lcs && (s.closing != NotClosing ==> s.closed)
  {
  }

  lemma AddKeeps(s: State, t: nat, ok: bool, more: bool, c: Conn)
    requires Inv(s) && CanStep(s, t, c) && s.workers[t].Adding?
    ensures Inv(StepWorker(s, t, ok, more, c))
  {
    hide Inv, Balanced, Holds, AddCloser;
    About(s, t);
    AddFacts(s.lcs[s.workers[t].id], s.workers[t].conn);
    LocalKeeps(s, StepWorker(s, t, ok, more, c), t, Subject(s, t));
  }

  lemma RunLateKeeps(s: State, t: nat, ok: bool, more: bool, c: Conn)
    requires Inv(s) && CanStep(s, t, c) && s.workers[t].RunLate?
    ensures Inv(StepWorker(s, t, ok, more, c))
  {
    hide Inv, Balanced, Holds, RunLateCloser;
    About(s, t);
    RunLateFacts(s.lcs[s.workers[t].id], s.workers[t].conn);
    LocalKeeps(s, StepWorker(s, t, ok, more, c), t, Subject(s, t));
  }

  lemma ServeKeeps(s: State, t: nat, ok: bool, more: bool, c: Conn)
    requires Inv(s) && CanStep(s, t, c) && s.workers[t].Serving?
    ensures Inv(StepWorker(s, t, ok, more, c))
  {
    hide Inv, Balanced, Holds;
    About(s, t);
    LocalKeeps(s, StepWorker(s, t, ok, more, c), t, Subject(s, t));
  }

  lemma StopKeeps(s: State, t: nat, ok: bool, more: bool, c: Conn)
    requires Inv(s) && CanStep(s, t, c) && s.workers[t].Stopping?
    ensures Inv(StepWorker(s, t, ok, more, c))
  {
    hide Inv, Balanced, Holds, TakeClosers;
    About(s, t);
    var lc := s.lcs[s.workers[t].id];
    if !lc.stopped { TakeFacts(lc); }
    LocalKeeps(s, StepWorker(s, t, ok, more, c), t, Subject(s, t));
  }

  lemma RunClosersKeeps(s: State, t: nat, ok: bool, more: bool, c: Conn)
    requires Inv(s) && CanStep(s, t, c) && s.workers[t].RunClosers?
    ensures Inv(StepWorker(s, t, ok, more, c))
  {
    hide Inv, Balanced, Holds, RunCloser;
    About(s, t);
    var lc := s.lcs[s.workers[t].id];
    if lc.running != multiset{} { RunFacts(lc, c); }
    LocalKeeps(s, StepWorker(s, t, ok, more, c), t, Subject(s, t));
  }

  lemma LeaveKeeps(s: State, t: nat, ok: bool, more: bool, c: Conn)
    requires Inv(s) && CanStep(s, t, c) && (s.workers[t].Remove? || s.workers[t].Leave?)
    ensures Inv(StepWorker(s, t, ok, more, c))
  {
    hide Inv;
    About(s, t);
    LocalKeeps(s, StepWorker(s, t, ok, more, c), t, Subject(s, t));
  }

  lemma WorkerKeeps(s: State, t: nat, ok: bool, more: bool, c: Conn)
    requires Inv(s) && CanStep(s, t, c)
    ensures Inv(StepWorker(s, t, ok, more, c))
  {
    hide Inv, StepWorker;
    match s.workers[t]
    case Arrived => ArrivedKeeps(s, t, ok, more, c);
    case Setup(_) => SetupKeeps(s, t, ok, more, c);
    case Promote(_, _) => PromoteKeeps(s, t, ok, more, c);
    case Adding(_, _, _) => AddKeeps(s, t, ok, more, c);
    case RunLate(_, _, _) => RunLateKeeps(s, t, ok, more, c);
    case Serving(_) => ServeKeeps(s, t, ok, more, c);
    case Stopping(_) => StopKeeps(s, t, ok, more, c);
    case RunClosers(_) => RunClosersKeeps(s, t, ok, more, c);
    case Remove(_) => LeaveKeeps(s, t, ok, more, c);
    case Leave(_) => LeaveKeeps(s, t, ok, more, c);
    case _ => LeavingKeeps(s, t, ok, more, c);
  }

  lemma ArriveKeeps(s: State)
    requires Inv(s)
    ensures Inv(Apply(s, Arrive))
  {
    var s' := Apply(s, Arrive);
    hide LcOk, WorkerOk, PendingOk, Owns, Promoted, ClosingOk, Apply;
    FreshWorker(s);
    ArriveCounts(s);
    ArriveLeaves(s);
    forall id | id in s'.lcs ensures LcOk(s', id) { LcArrives(s, id); }
    forall u | u in s'.workers ensures WorkerOk(s', u) { WorkerArrives(s, u); }
    forall id | id in s'.pending ensures PendingOk(s', id) { PendingArrives(s, id); }
    forall c | c in s'.open ensures c.worker in s'.workers && Owns(s', c.worker, c) { ConnArrives(s, c); }
    Assemble(s');
  }

  lemma ArriveLeaves(s: State)
    ensures var s' := Apply(s, Arrive); s'.lcs == s.lcs && s'.pending == s.pending && s'.wg == s.wg
  {
  }

  lemma Assemble(s: State)
    requires forall id <- s.lcs :: LcOk(s, id)
    requires forall t <- s.workers :: WorkerOk(s, t)
    requires forall id <- s.pending :: PendingOk(s, id)
    requires forall c <- s.open :: c.worker in s.workers && Owns(s, c.worker, c)
    requires s.wg == |Promoted(s)| && ClosingOk(s)
    ensures Inv(s)
  {
  }

  lemma FreshWorker(s: State)
    requires Inv(s)
    ensures s.nextConn + 1 !in s.workers
  {
    assert forall t <- s.workers :: WorkerOk(s, t);
  }

  lemma ArriveCounts(s: State)
    requires s.nextConn + 1 !in s.workers
    ensures Promoted(Apply(s, Arrive)) == Promoted(s)
    ensures ClosingOk(s) ==> ClosingOk(Apply(s, Arrive))
  {
  }

  lemma LcArrives(s: State, id: ID)
    requires s.nextConn + 1 !in s.workers && id in s.lcs && LcOk(s, id)
    ensures LcOk(Apply(s, Arrive), id)
  {
  }

  lemma WorkerArrives(s: State, t: nat)
    requires s.nextConn + 1 !in s.workers && (t in s.workers ==> WorkerOk(s, t)) && t in Apply(s, Arrive).workers
    ensures WorkerOk(Apply(s, Arrive), t)
  {
  }

  lemma PendingArrives(s: State, id: ID)
    requires s.nextConn + 1 !in s.workers && id in s.pending && PendingOk(s, id)
    ensures PendingOk(Apply(s, Arrive), id)
  {
  }

  lemma ConnArrives(s: State, c: Conn)
    requires s.nextConn + 1 !in s.workers && c in Apply(s, Arrive).open
    requires c in s.open ==> c.worker in s.workers && Owns(s, c.worker, c)
    ensures c.worker in Apply(s, Arrive).workers && Owns(Apply(s, Arrive), c.worker, c)
  {
  }

  // ---------------------------------------------------------------------------------------
  // Close

  /** Close closes connections, and takes or runs the closers of one lifecycle. */
  ghost predicate CloseMove(s: State, s': State, id: ID) {
    && s' == s.(closed := true, closing := s'.closing, lcs := s'.lcs, open := s'.open)
    && s'.open <= s.open
    && s'.lcs.Keys == s.lcs.Keys
    && (forall i | i in s.lcs && i != id :: s'.lcs[i] == s.lcs[i])
    && (id in s.lcs ==>
          && s'.lcs[id].owner == s.lcs[id].owner && s'.lcs[id].late == s.lcs[id].late
          && (s.lcs[id].stopped ==> s'.lcs[id].stopped)
          && Balanced(s'.lcs[id])
          && (s'.lcs[id].running != multiset{} ==> s.lcs[id].running != multiset{} || (s'.closing.RunActive? && s'.closing.id == id))
          && forall c <- s'.open :: Holds(s.lcs[id], c) ==> Holds(s'.lcs[id], c))
    && (s.closing.RunActive? ==> s'.closing == s.closing || s.closing.id !in s'.lcs || s'.lcs[s.closing.id].running == multiset{})
    && (forall i <- s.pending :: s.pending[i] in s'.open ==> s'.closing.ClosePending? && s.pending[i] in s'.closing.conns)
    && ClosingOk(s')
  }

  lemma LcMoves(s: State, s': State, id: ID, i: ID)
    requires CloseMove(s, s', id) && i in s.lcs && LcOk(s, i)
    ensures i in s'.lcs && LcOk(s', i)
  {
    hide Balanced, Holds;
  }

  lemma WorkerMoves(s: State, s': State, id: ID, t: nat)
    requires CloseMove(s, s', id) && t in s.workers && WorkerOk(s, t)
    ensures WorkerOk(s', t)
  {
    hide Balanced, Holds;
  }

  lemma PendingMoves(s: State, s': State, id: ID, i: ID)
    requires CloseMove(s, s', id) && i in s.pending && PendingOk(s, i)
    ensures PendingOk(s', i)
  {
    hide Balanced, Holds;
  }

  lemma ConnMoves(s: State, s': State, id: ID, c: Conn)
    requires CloseMove(s, s', id) && c in s'.open && c.worker in s.workers && Owns(s, c.worker, c)
    ensures Owns(s', c.worker, c)
  {
    hide Balanced, Holds;
  }

  lemma CloseMoveKeeps(s: State, s': State, id: ID)
    requires Inv(s) && CloseMove(s, s', id)
    ensures Inv(s')
  {
    hide LcOk, WorkerOk, PendingOk, Owns, Balanced, Holds;
    forall i | i in s'.lcs ensures LcOk(s', i) { LcMoves(s, s', id, i); }
    forall u | u in s'.workers ensures WorkerOk(s', u) { WorkerMoves(s, s', id, u); }
    forall i | i in s'.pending ensures PendingOk(s', i) { PendingMoves(s, s', id, i); }
    forall c | c in s'.open ensures c.worker in s'.workers && Owns(s', c.worker, c) { ConnMoves(s, s', id, c); }
    assert Promoted(s') == Promoted(s);
  }

  /** What Close needs to know of the state it finds. */
  lemma AboutClose(s: State)
    requires Inv(s)
    ensures ClosingOk(s) && s.nextID + 1 !in s.lcs
    ensures forall id <- s.pending :: s.closed && s.pending[id] in s.open ==> s.closing.ClosePending? && s.pending[id] in s.closing.conns
  {
    assert s.nextID + 1 in s.lcs ==> LcOk(s, s.nextID + 1);
    forall id | id in s.pending
      ensures s.closed && s.pending[id] in s.open ==> s.closing.ClosePending? && s.pending[id] in s.closing.conns
    {
      assert PendingOk(s, id);
    }
  }

  lemma LcBalanced(s: State, id: ID)
    requires Inv(s) && id in s.lcs
    ensures Balanced(s.lcs[id])
  {
    assert LcOk(s, id);
  }

  lemma ClosePendingKeeps(s: State, c: Conn, id: ID)
    requires Inv(s) && CanClose(s, c, id) && (s.closing.NotClosing? || s.closing.ClosePending? || s.closing.Await?)
    ensures Inv(StepClose(s, c, id))
  {
    hide Inv;
    var s' := StepClose(s, c, id);
    AboutClose(s);
    forall i | i in s.pending ensures s.pending[i] in s'.open ==> s'.closing.ClosePending? && s.pending[i] in s'.closing.conns {
      assert s.pending[i] in s.pending.Values;
    }
    CloseMoveKeeps(s, s', s.nextID + 1);
  }

  lemma StopActiveKeeps(s: State, c: Conn, id: ID)
    requires Inv(s) && CanClose(s, c, id) && s.closing.StopActive?
    ensures Inv(StepClose(s, c, id))
  {
    hide Inv, Balanced, Holds, TakeClosers;
    AboutClose(s);
    if s.closing.ids == {} || s.lcs[id].stopped {
      CloseMoveKeeps(s, StepClose(s, c, id), s.nextID + 1);
    } else {
      TakeKeeps(s, id);
    }
  }

  lemma TakeKeeps(s: State, id: ID)
    requires Inv(s) && s.closing.StopActive? && id in s.closing.ids && id in s.lcs && !s.lcs[id].stopped
    ensures Inv(SetLc(s, id, TakeClosers(s.lcs[id])).(closing := RunActive(id, s.closing.ids - {id})))
  {
    hide Inv, Balanced, CloseMove, TakeClosers;
    AboutClose(s);
    LcBalanced(s, id);
    TakeMoves(s, id);
    CloseMoveKeeps(s, SetLc(s, id, TakeClosers(s.lcs[id])).(closing := RunActive(id, s.closing.ids - {id})), id);
  }

  lemma TakeMoves(s: State, id: ID)
    requires ClosingOk(s) && s.closing.StopActive? && id in s.closing.ids && id in s.lcs && !s.lcs[id].stopped
    requires Balanced(s.lcs[id])
    requires forall i <- s.pending :: s.pending[i] !in s.open
    ensures CloseMove(s, SetLc(s, id, TakeClosers(s.lcs[id])).(closing := RunActive(id, s.closing.ids - {id})), id)
  {
    TakeFacts(s.lcs[id]);
    hide Balanced, Holds, TakeClosers;
  }

  lemma RunActiveKeeps(s: State, c: Conn, id: ID)
    requires Inv(s) && CanClose(s, c, id) && s.closing.RunActive?
    ensures Inv(StepClose(s, c, id))
  {
    hide Inv, Balanced, Holds, RunCloser;
    AboutClose(s);
    var lc := s.lcs[s.closing.id];
    LcBalanced(s, s.closing.id);
    if lc.running != multiset{} { RunFacts(lc, c); }
    CloseMoveKeeps(s, StepClose(s, c, id), s.closing.id);
  }

  lemma ActionKeeps(s: State, act: Action)
    requires Inv(s) && Enabled(s, act)
    ensures Inv(Apply(s, act))
  {
    hide Inv, StepClose, StepWorker;
    match act
    case Arrive => ArriveKeeps(s);
    case WorkerStep(t, ok, more, c) => WorkerKeeps(s, t, ok, more, c);
    case CloseStep(c, id) =>
      match s.closing
      case StopActive(_) => StopActiveKeeps(s, c, id);
      case RunActive(_, _) => RunActiveKeeps(s, c, id);
      case _ => ClosePendingKeeps(s, c, id);
  }

  lemma {:induction false} RunKeepsInv(states: seq<State>, actions: seq<Action>, i: nat)
    requires IsRun(states, actions) && i < |states|
    ensures Inv(states[i])
  {
    if i != 0 {
      RunKeepsInv(states, actions, i - 1);
      ActionKeeps(states[i - 1], actions[i - 1]);
    }
  }

  // ---------------------------------------------------------------------------------------
  // Theorems

  /** The WaitGroup counts exactly the promoted workers, and never grows once Close has begun. */
  lemma WaitGroupCounts(states: seq<State>, actions: seq<Action>, i: nat)
    requires IsRun(states, actions) && i < |actions|
    ensures states[i].wg == |Promoted(states[i])|
    ensures states[i].closed ==> states[i + 1].closed && states[i + 1].wg <= states[i].wg
  {
    RunKeepsInv(states, actions, i);
    hide Inv;
    if states[i].closed { WgShrinks(states[i], actions[i]); }
  }

  lemma WgShrinks(s: State, act: Action)
    requires Enabled(s, act) && s.closed
    ensures Apply(s, act).closed && Apply(s, act).wg <= s.wg
  {
    hide StepWorker, StepClose;
    match act
    case Arrive =>
    case WorkerStep(t, ok, more, c) => WorkerWg(s, t, ok, more, c);
    case CloseStep(c, id) => CloseWg(s, c, id);
  }

  lemma WorkerWg(s: State, t: nat, ok: bool, more: bool, c: Conn)
    requires CanStep(s, t, c) && s.closed
    ensures StepWorker(s, t, ok, more, c).closed && StepWorker(s, t, ok, more, c).wg <= s.wg
  {
  }

  lemma CloseWg(s: State, c: Conn, id: ID)
    requires CanClose(s, c, id)
    ensures StepClose(s, c, id).closed <==> s.closed || s.closing.NotClosing?
    ensures StepClose(s, c, id).wg == s.wg
  {
  }

  /**
   Every closer given to a lifecycle is registered, being run, or has run, as many times as it was
   given; none runs before stop. Once its worker is gone and Close is not running its closers, each
   has run exactly once.
   */
  lemma ClosersRunOnce(states: seq<State>, actions: seq<Action>, i: nat, id: ID)
    requires IsRun(states, actions) && i < |states| && id in states[i].lcs
    ensures var lc := states[i].lcs[id];
            && lc.added == lc.closers + lc.running + lc.late + lc.ran
            && (!lc.stopped ==> lc.ran == multiset{})
            && lc.owner in states[i].workers
            && (states[i].workers[lc.owner].Gone? && !(states[i].closing.RunActive? && states[i].closing.id == id) ==>
                  lc.stopped && lc.ran == lc.added)
  {
    RunKeepsInv(states, actions, i);
    assert LcOk(states[i], id);
  }

  /** When Close has returned, nothing is active, all closers have run and every pending connection is closed. */
  lemma CloseOwnsAll(states: seq<State>, actions: seq<Action>, i: nat)
    requires IsRun(states, actions) && i < |states| && states[i].closing.Closed?
    ensures states[i].active == {} && states[i].wg == 0
    ensures forall id <- states[i].lcs :: states[i].lcs[id].stopped && states[i].lcs[id].ran == states[i].lcs[id].added
    ensures forall id <- states[i].pending :: states[i].pending[id] !in states[i].open
  {
    hide IsRun, LcOk, WorkerOk, PendingOk, Owns, Promoted;
    RunKeepsInv(states, actions, i);
    var s := states[i];
    assert Promoted(s) == {};
    forall id | id in s.lcs
      ensures id !in s.active && s.lcs[id].stopped && s.lcs[id].ran == s.lcs[id].added
    {
      LeftStopped(s, id);
    }
    forall id | id in s.pending ensures s.pending[id] !in s.open { PendingClosed(s, id); }
  }

  lemma LeftStopped(s: State, id: ID)
    requires id in s.lcs && LcOk(s, id) && Promoted(s) == {} && s.closing.Closed?
    ensures id !in s.active && s.lcs[id].stopped && s.lcs[id].ran == s.lcs[id].added
  {
    assert s.lcs[id].owner !in Promoted(s);
  }

  lemma PendingClosed(s: State, id: ID)
    requires id in s.pending && PendingOk(s, id) && s.closed && s.closing.Closed?
    ensures s.pending[id] !in s.open
  {
  }

  /** What a worker that has gone still owns is with the closers that Close is running. */
  lemma LeftToClose(s: State, c: Conn)
    requires c.worker in s.workers && s.workers[c.worker].Gone? && Owns(s, c.worker, c)
    requires WorkerOk(s, c.worker) && forall id <- s.lcs :: LcOk(s, id)
    ensures s.closing.RunActive? && s.closing.id in s.lcs && c in s.lcs[s.closing.id].running
  {
    var id := LcOf(s.workers[c.worker]).value;
    assert LcOk(s, id) && Holds(s.lcs[id], c);
  }

  /** A worker that has gone leaves no connection open but those whose closers Close is running. */
  lemma NoLeak(states: seq<State>, actions: seq<Action>, i: nat, c: Conn)
    requires IsRun(states, actions) && i < |states| && c in states[i].open
    ensures c.worker in states[i].workers
    ensures states[i].workers[c.worker].Gone? ==>
              && states[i].closing.RunActive? && states[i].closing.id in states[i].lcs
              && c in states[i].lcs[states[i].closing.id].running
  {
    hide LcOk, WorkerOk, PendingOk, Owns, ClosingOk, Promoted, IsRun;
    RunKeepsInv(states, actions, i);
    if states[i].workers[c.worker].Gone? { LeftToClose(states[i], c); }
  }
}
