/** Close of the frpc XUDP proxy returns: every step of its own and of its workers brings it nearer. */
module XudpProxyClose {
  import opened Prelude
  import opened XudpProxy
  import opened XudpProxyTheorems

  /** What others do: work connections arrive, and a connection in service is asked for another socket. */
  predicate Environment(s: State, act: Action) {
    act.Arrive? || (act.WorkerStep? && act.more && act.t in s.workers && s.workers[act.t].Serving?)
  }

  // ---------------------------------------------------------------------------------------
  // The measure

  /** How many moves a worker has before it, once the proxy is closed, not counting the closers it runs. */
  function WorkerRank(w: Worker): nat {
    match w
    case Gone(_) => 0
    case Leave(_) => 1
    case Remove(_) => 2
    case RunClosers(_) => 3
    case Stopping(_) => 4
    case Serving(_) => 5
    case RunLate(_, _, rest) => 6 + 3 * |rest|
    case Adding(_, _, rest) => 8 + 3 * |rest|
    case Refused => 1
    case Arrived => 2
    case FinishClose => 1
    case Finish(_) => 2
    case DropExtra(_, _) => 3
    case Promote(_, _) => 4
    case Setup(_) => 5
  }

  /** Closers registered or taken and not yet run. */
  function Unrun(lc: Lifecycle): nat {
    |lc.closers| + |lc.running|
  }

  /** With the closers of its lifecycle that are still to be run. */
  function Left(s: State, t: nat): nat {
    if t !in s.workers then 0
    else
      var id := LcOf(s.workers[t]);
      WorkerRank(s.workers[t]) + if id.Some? && id.value in s.lcs then Unrun(s.lcs[id.value]) else 0
  }

  /** Of the workers numbered below `n`. */
  function LeftBelow(s: State, n: nat): nat {
    if n == 0 then 0 else LeftBelow(s, n - 1) + Left(s, n - 1)
  }

  function CloseRank(x: Closing): nat {
    match x
    case NotClosing => 0
    case ClosePending(conns, ids) => 3 + |conns| + 2 * |ids|
    case StopActive(ids) => 2 + 2 * |ids|
    case RunActive(_, ids) => 3 + 2 * |ids|
    case Await => 1
    case Closed => 0
  }

  function Measure(s: State): nat {
    CloseRank(s.closing) + LeftBelow(s, s.nextConn + 1)
  }

  lemma {:induction false} SameBelow(s: State, s': State, n: nat)
    requires forall u | 0 <= u < n :: Left(s', u) == Left(s, u)
    ensures LeftBelow(s', n) == LeftBelow(s, n)
  {
    if n != 0 { SameBelow(s, s', n - 1); }
  }

  /** If one worker has less left, or more, so have all together. */
  lemma {:induction false} OneChanges(s: State, s': State, n: nat, t: nat)
    requires t < n && forall u | 0 <= u < n && u != t :: Left(s', u) == Left(s, u)
    ensures LeftBelow(s', n) - Left(s', t) == LeftBelow(s, n) - Left(s, t)
  {
    if t == n - 1 { SameBelow(s, s', t); } else { OneChanges(s, s', n - 1, t); }
  }

  // ---------------------------------------------------------------------------------------
  // Workers

  /** A step of worker `t` leaves other workers and their lifecycles alone. */
  ghost predicate Reaches(s: State, s': State, t: nat) {
    && s'.closed == s.closed && s'.closing == s.closing && t in s.workers
    && s'.workers == s.workers[t := if t in s'.workers then s'.workers[t] else s.workers[t]]
    && s.nextConn <= s'.nextConn <= s.nextConn + 1
    && (s'.lcs == s.lcs
        || (var id := LcOf(s.workers[t]); id.Some? && id.value in s.lcs && id.value in s'.lcs && s'.lcs == s.lcs[id.value := s'.lcs[id.value]]))
  }

  lemma WorkerReaches(s: State, t: nat, ok: bool, more: bool, c: Conn)
    requires CanStep(s, t, c) && s.closed
    ensures Reaches(s, StepWorker(s, t, ok, more, c), t)
  {
    if LcOf(s.workers[t]).Some? { ActiveReaches(s, t, ok, more, c); } else { PendingReaches(s, t, ok, more, c); }
  }

  lemma PendingReaches(s: State, t: nat, ok: bool, more: bool, c: Conn)
    requires CanStep(s, t, c) && s.closed && LcOf(s.workers[t]) == None
    ensures Reaches(s, StepWorker(s, t, ok, more, c), t)
  {
  }

  lemma ActiveReaches(s: State, t: nat, ok: bool, more: bool, c: Conn)
    requires CanStep(s, t, c) && LcOf(s.workers[t]).Some?
    ensures Reaches(s, StepWorker(s, t, ok, more, c), t)
  {
    hide AddCloser, TakeClosers, RunCloser, RunLateCloser;
  }

  lemma OthersLeft(s: State, s': State, t: nat, u: nat)
    requires Inv(s) && Reaches(s, s', t) && u != t
    ensures Left(s', u) == Left(s, u)
  {
    assert t in s.workers ==> WorkerOk(s, t);
    if u in s.workers { assert WorkerOk(s, u); }
    hide Inv, WorkerRank;
  }

  lemma WorkerLowers(s: State, t: nat, ok: bool, more: bool, c: Conn)
    requires CanStep(s, t, c) && s.closed && WorkerOk(s, t)
    ensures var s' := StepWorker(s, t, ok, more, c);
            if more && s.workers[t].Serving? then Left(s', t) == Left(s, t) + 3 else Left(s', t) < Left(s, t)
  {
    if LcOf(s.workers[t]).Some? { ActiveLowers(s, t, ok, more, c); } else { PendingLowers(s, t, ok, more, c); }
  }

  lemma PendingLowers(s: State, t: nat, ok: bool, more: bool, c: Conn)
    requires CanStep(s, t, c) && s.closed && LcOf(s.workers[t]) == None
    ensures Left(StepWorker(s, t, ok, more, c), t) < Left(s, t)
  {
  }

  lemma ActiveLowers(s: State, t: nat, ok: bool, more: bool, c: Conn)
    requires CanStep(s, t, c) && LcOf(s.workers[t]).Some? && LcOf(s.workers[t]).value in s.lcs
    ensures var s' := StepWorker(s, t, ok, more, c);
            if more && s.workers[t].Serving? then Left(s', t) == Left(s, t) + 3 else Left(s', t) < Left(s, t)
  {
    var w := s.workers[t];
    if w.Adding? || w.RunLate? || w.Serving? { AddingLowers(s, t, ok, more, c); } else { StoppingLowers(s, t, ok, more, c); }
  }

  lemma AddingLowers(s: State, t: nat, ok: bool, more: bool, c: Conn)
    requires CanStep(s, t, c) && LcOf(s.workers[t]).Some? && LcOf(s.workers[t]).value in s.lcs
    requires var w := s.workers[t]; w.Adding? || w.RunLate? || w.Serving?
    ensures var s' := StepWorker(s, t, ok, more, c);
            if more && s.workers[t].Serving? then Left(s', t) == Left(s, t) + 3 else Left(s', t) < Left(s, t)
  {
    hide Unrun, AddCloser, TakeClosers, RunCloser, RunLateCloser;
    if !s.workers[t].Serving? { ClosersCount(s.lcs[s.workers[t].id], s.workers[t].conn); }
  }

  lemma StoppingLowers(s: State, t: nat, ok: bool, more: bool, c: Conn)
    requires CanStep(s, t, c) && LcOf(s.workers[t]).Some? && LcOf(s.workers[t]).value in s.lcs
    requires var w := s.workers[t]; !w.Adding? && !w.RunLate? && !w.Serving?
    ensures Left(StepWorker(s, t, ok, more, c), t) < Left(s, t)
  {
    hide Unrun, AddCloser, TakeClosers, RunCloser, RunLateCloser;
    ClosersCount(s.lcs[LcOf(s.workers[t]).value], c);
  }

  /** How many closers are left after each thing done to a lifecycle. */
  lemma ClosersCount(lc: Lifecycle, c: Conn)
    ensures Unrun(AddCloser(lc, c)) <= Unrun(lc) + 1
    ensures Unrun(TakeClosers(lc)) == Unrun(lc)
    ensures c in lc.running ==> Unrun(RunCloser(lc, c)) < Unrun(lc)
    ensures Unrun(RunLateCloser(lc, c)) == Unrun(lc)
  {
  }

  lemma WorkerStepLowers(s: State, t: nat, ok: bool, more: bool, c: Conn)
    requires Inv(s) && CanStep(s, t, c) && s.closed
    ensures var s' := StepWorker(s, t, ok, more, c);
            && s'.closed
            && if Environment(s, WorkerStep(t, ok, more, c)) then Measure(s') == Measure(s) + 3 else Measure(s') < Measure(s)
  {
    assert t in s.workers;
    hide Inv, StepWorker, CanStep, Left, WorkerOk, Measure, Reaches;
    var s' := StepWorker(s, t, ok, more, c);
    Numbered(s, t);
    WorkerReaches(s, t, ok, more, c);
    WorkerLowers(s, t, ok, more, c);
    AllButOne(s, s', t);
    WorkerWg(s, t, ok, more, c);
  }

  /** All together have as much less left, or more, as the worker that moved. */
  lemma AllButOne(s: State, s': State, t: nat)
    requires Inv(s) && Reaches(s, s', t) && t <= s.nextConn
    ensures Measure(s') - Left(s', t) == Measure(s) - Left(s, t)
  {
    var n := s.nextConn + 1;
    Unused(s, n);
    hide Inv, Left, CloseRank;
    forall u | 0 <= u <= n && u != t ensures Left(s', u) == Left(s, u) { OthersLeft(s, s', t, u); }
    OneChanges(s, s', n, t);
    assert s'.nextConn == n ==> LeftBelow(s', n + 1) == LeftBelow(s', n) + Left(s', n);
  }

  lemma Numbered(s: State, t: nat)
    requires Inv(s) && t in s.workers
    ensures WorkerOk(s, t) && t <= s.nextConn
  {
    assert WorkerOk(s, t);
  }

  /** A number is not used before it is given out. */
  lemma Unused(s: State, u: nat)
    requires Inv(s) && u > s.nextConn
    ensures u !in s.workers && Left(s, u) == 0
  {
    assert forall t <- s.workers :: WorkerOk(s, t) && t <= s.nextConn;
    hide Inv;
  }

  // ---------------------------------------------------------------------------------------
  // Close

  lemma CloseReach(s: State, c: Conn, id: ID)
    requires CanClose(s, c, id) && s.closed
    ensures var s' := StepClose(s, c, id);
            && s'.closed && s'.workers == s.workers && s'.nextConn == s.nextConn && s'.lcs.Keys == s.lcs.Keys
            && (forall d <- s.lcs :: Unrun(s'.lcs[d]) <= Unrun(s.lcs[d]))
  {
    hide Unrun, TakeClosers, RunCloser;
    if s.closing.RunActive? { ClosersCount(s.lcs[s.closing.id], c); }
    if s.closing.StopActive? && id in s.lcs { ClosersCount(s.lcs[id], c); }
  }

  lemma {:induction false} FewerBelow(s: State, s': State, n: nat, t: nat)
    requires forall u | 0 <= u < n :: Left(s', u) <= Left(s, u)
    ensures LeftBelow(s', n) <= LeftBelow(s, n)
    ensures t < n && Left(s', t) < Left(s, t) ==> LeftBelow(s', n) < LeftBelow(s, n)
  {
    if n != 0 { FewerBelow(s, s', n - 1, t); }
  }

  /** Close's own place advances, or it has run a closer. */
  lemma CloseAdvances(s: State, c: Conn, id: ID)
    requires CanClose(s, c, id) && s.closed && ClosingOk(s)
    ensures var s' := StepClose(s, c, id);
            || CloseRank(s'.closing) < CloseRank(s.closing)
            || (s'.closing == s.closing && s.closing.RunActive? && s.closing.id in s.lcs && s.closing.id in s'.lcs
                && Unrun(s'.lcs[s.closing.id]) < Unrun(s.lcs[s.closing.id]))
  {
    match s.closing
    case ClosePending(conns, ids) => assert c in conns ==> |conns - {c}| == |conns| - 1;
    case StopActive(ids) => assert id in ids ==> |ids - {id}| == |ids| - 1;
    case RunActive(current, _) => ClosersCount(s.lcs[current], c);
    case _ =>
  }

  lemma ClosingOf(s: State)
    requires Inv(s)
    ensures ClosingOk(s)
  {
  }

  lemma CloseStepLowers(s: State, c: Conn, id: ID)
    requires Inv(s) && CanClose(s, c, id) && s.closed
    ensures StepClose(s, c, id).closed && Measure(StepClose(s, c, id)) < Measure(s)
  {
    ClosingOf(s);
    hide Inv, StepClose, CanClose, ClosingOk, Left, LeftBelow, CloseRank, Unrun;
    var s' := StepClose(s, c, id);
    CloseReach(s, c, id);
    CloseAdvances(s, c, id);
    if CloseRank(s'.closing) < CloseRank(s.closing) {
      FewerInAll(s, s', 0);
    } else {
      OwnerHas(s, s.closing.id);
      OwnerLower(s, s', s.closing.id);
      FewerInAll(s, s', s.lcs[s.closing.id].owner);
    }
  }

  lemma FewerInAll(s: State, s': State, t: nat)
    requires s'.workers == s.workers && s'.lcs.Keys == s.lcs.Keys && forall d <- s.lcs :: Unrun(s'.lcs[d]) <= Unrun(s.lcs[d])
    ensures var n := s.nextConn + 1;
            && LeftBelow(s', n) <= LeftBelow(s, n)
            && (t < n && Left(s', t) < Left(s, t) ==> LeftBelow(s', n) < LeftBelow(s, n))
  {
    hide Left, LeftBelow, Unrun;
    forall u ensures Left(s', u) <= Left(s, u) { LeftFewer(s, s', u); }
    FewerBelow(s, s', s.nextConn + 1, t);
  }

  lemma LeftFewer(s: State, s': State, u: nat)
    requires s'.workers == s.workers && s'.lcs.Keys == s.lcs.Keys && forall d <- s.lcs :: Unrun(s'.lcs[d]) <= Unrun(s.lcs[d])
    ensures Left(s', u) <= Left(s, u)
  {
    hide Unrun, WorkerRank;
  }

  lemma OwnerLower(s: State, s': State, id: ID)
    requires s'.workers == s.workers && id in s.lcs && id in s'.lcs && Unrun(s'.lcs[id]) < Unrun(s.lcs[id])
    requires var t := s.lcs[id].owner; t in s.workers && LcOf(s.workers[t]) == Some(id)
    ensures Left(s', s.lcs[id].owner) < Left(s, s.lcs[id].owner)
  {
    hide Unrun, WorkerRank;
  }

  lemma OwnerHas(s: State, id: ID)
    requires Inv(s) && id in s.lcs
    ensures var t := s.lcs[id].owner; t in s.workers && t <= s.nextConn && LcOf(s.workers[t]) == Some(id)
  {
    assert LcOk(s, id) && WorkerOk(s, s.lcs[id].owner);
    hide Inv;
  }

  // ---------------------------------------------------------------------------------------
  // Theorems

  lemma ArriveRaises(s: State)
    requires Inv(s)
    ensures Measure(Apply(s, Arrive)) == Measure(s) + 2
  {
    Unused(s, s.nextConn + 1);
    hide Inv;
    var s', n := Apply(s, Arrive), s.nextConn + 1;
    forall u | 0 <= u < n ensures Left(s', u) == Left(s, u) {}
    SameBelow(s, s', n);
    assert LeftBelow(s', n + 1) == LeftBelow(s', n) + Left(s', n);
  }

  /** Once Close has begun every step of the proxy's own lowers the measure, and what others do raises it by at most three. */
  lemma StepLowers(s: State, act: Action)
    requires Inv(s) && s.closed && Enabled(s, act)
    ensures Apply(s, act).closed
    ensures if Environment(s, act) then Measure(Apply(s, act)) <= Measure(s) + 3 else Measure(Apply(s, act)) < Measure(s)
  {
    hide Inv, Measure, StepWorker, StepClose, CanStep, CanClose;
    match act
    case Arrive => ArriveRaises(s);
    case WorkerStep(t, ok, more, c) => WorkerStepLowers(s, t, ok, more, c);
    case CloseStep(c, id) => CloseStepLowers(s, c, id);
  }

  function OwnSteps(states: seq<State>, actions: seq<Action>, i: nat, j: nat): nat
    requires |states| == |actions| + 1 && i <= j <= |actions|
    decreases j - i
  {
    if i == j then 0 else OwnSteps(states, actions, i, j - 1) + Bit(!Environment(states[j - 1], actions[j - 1]))
  }

  /**
   Once Close has begun, Close and all workers take together no more steps than the measure of that
   moment, plus three for each thing others do: in a run of `j - i` actions of which `n` are own,
   `n` is at most the measure plus three times the rest.
   */
  lemma {:induction false} CloseIsBounded(states: seq<State>, actions: seq<Action>, i: nat, j: nat)
    requires IsRun(states, actions) && |states| == |actions| + 1 && i <= j <= |actions| && states[i].closed
    ensures states[j].closed
    ensures OwnSteps(states, actions, i, j) <= j - i
    ensures OwnSteps(states, actions, i, j) + Measure(states[j]) <= Measure(states[i]) + 3 * (j - i - OwnSteps(states, actions, i, j))
    decreases j - i
  {
    hide Environment, Measure, Apply, Enabled, Inv;
    if i < j {
      CloseIsBounded(states, actions, i, j - 1);
      RunKeepsInv(states, actions, j - 1);
      StepLowers(states[j - 1], actions[j - 1]);
    }
  }

  /** A step of Close, or of a worker that Close waits for. */
  predicate Awaited(s: State, act: Action) {
    act.CloseStep? || (act.WorkerStep? && act.t in Promoted(s) && s.closing.Await?)
  }

  /** And until Close has returned there is such a step to take, by Close or by a worker it waits for. */
  lemma CloseProgresses(states: seq<State>, actions: seq<Action>, i: nat)
    requires IsRun(states, actions) && i < |states| && states[i].closed && !states[i].closing.Closed?
    ensures exists act: Action :: Enabled(states[i], act) && !Environment(states[i], act) && Awaited(states[i], act)
  {
    RunKeepsInv(states, actions, i);
    var s := states[i];
    assert ClosingOk(s) && s.wg == |Promoted(s)|;
    if s.closing.Await? && s.wg != 0 {
      var t :| t in Promoted(s);
      Numbered(s, t);
      hide Inv;
      WorkerCanStep(s, t);
    } else {
      hide Inv;
      CloseCanStep(s);
    }
  }

  lemma WorkerCanStep(s: State, t: nat)
    requires t in s.workers && WorkerOk(s, t) && IsPromoted(s.workers[t]) && s.closing.Await?
    ensures exists act: Action :: Enabled(s, act) && !Environment(s, act) && Awaited(s, act)
  {
    var w := s.workers[t];
    var c := if w.RunClosers? then AnyOf(s.lcs[w.id].running) else Conn(t, 0);
    assert Enabled(s, WorkerStep(t, true, false, c));
  }

  lemma CloseCanStep(s: State)
    requires ClosingOk(s) && s.closed && !s.closing.Closed? && !(s.closing.Await? && s.wg != 0)
    ensures exists act: Action :: Enabled(s, act) && !Environment(s, act) && Awaited(s, act)
  {
    match s.closing
    case ClosePending(conns, _) =>
      var c :| conns == {} || c in conns;
      assert Enabled(s, CloseStep(c, 0));
    case StopActive(ids) =>
      var id: ID :| ids == {} || id in ids;
      assert Enabled(s, CloseStep(Conn(0, 0), id));
    case RunActive(current, _) =>
      assert Enabled(s, CloseStep(AnyOf(s.lcs[current].running), 0));
    case Await =>
      assert Enabled(s, CloseStep(Conn(0, 0), 0));
    case _ =>
  }

  /** A closer of `m`, if there is any. */
  ghost function AnyOf(m: multiset<Conn>): (c: Conn)
    ensures m == multiset{} || c in m
  {
    var c :| m == multiset{} || c in m; c
  }
}
