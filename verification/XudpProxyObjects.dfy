/**
 The XUDP proxy and its connection lifecycles as the objects they are (client/proxy/xudp.go), one
 method per critical section, each proved to do what the step system of XudpProxy does.
 */
module XudpProxyObjects {
  import opened Prelude
  import opened XudpProxy

  class ConnLifecycle {
    const id: ID
    var stopped: bool
    var closers: seq<Conn>

    ghost predicate Shows(lc: Lifecycle)
      reads this
    {
      stopped == lc.stopped && multiset(closers) == lc.closers
    }

    constructor (id: ID)
      ensures this.id == id && forall t :: Shows(NewLifecycle(t))
    {
      this.id := id;
      stopped, closers := false, [];
    }

    /** After stop the caller runs the closer itself. */
    method AddCloser(closer: Conn, ghost lc: Lifecycle) returns (runNow: bool)
      requires Shows(lc)
      modifies this
      ensures Shows(XudpProxy.AddCloser(lc, closer))
      ensures runNow == lc.stopped
    {
      if !stopped {
        closers := closers + [closer];
        return false;
      }
      return true;
    }

    /** The closers to run; a second stop has none. */
    method Stop(ghost lc: Lifecycle) returns (run: seq<Conn>)
      requires Shows(lc)
      modifies this
      ensures lc.stopped ==> run == [] && Shows(lc)
      ensures !lc.stopped ==> multiset(run) == lc.closers && Shows(TakeClosers(lc))
    {
      if stopped { return []; }
      stopped := true;
      run, closers := closers, [];
    }
  }

  class Proxy {
    var closed: bool
    var nextConnID: ID
    var pendingConns: map<ID, Conn>
    var activeConns: map<ID, ConnLifecycle>
    var activeWG: int

    ghost predicate Shows(s: State)
      reads this
    {
      && closed == s.closed && nextConnID == s.nextID && pendingConns == s.pending
      && activeConns.Keys == s.active && activeWG == s.wg
    }

    constructor ()
      ensures Shows(Init)
    {
      closed, nextConnID, pendingConns, activeConns, activeWG := false, 0, map[], map[], 0;
    }

    method RegisterPending(conn: Conn, ghost s: State, ghost t: nat) returns (r: Option<ID>)
      requires Shows(s) && t in s.workers && s.workers[t] == Arrived && conn == Conn(t, 0)
      modifies this
      ensures CanStep(s, t, conn) && Shows(StepWorker(s, t, true, false, conn))
      ensures StepWorker(s, t, true, false, conn).workers[t] == if r.Some? then Setup(r.value) else Refused
    {
      if closed { return None; }
      nextConnID := nextConnID + 1;
      pendingConns := pendingConns[nextConnID := conn];
      return Some(nextConnID);
    }

    method FinishPending(id: ID, conn: Conn, ghost s: State, ghost t: nat)
      requires Shows(s) && t in s.workers && s.workers[t] == Finish(id) && conn == Conn(t, 0)
      modifies this
      ensures CanStep(s, t, conn) && Shows(StepWorker(s, t, true, false, conn))
    {
      if id in pendingConns && pendingConns[id] == conn { pendingConns := pendingConns - {id}; }
    }

    method PromotePending(id: ID, conn: Conn, ghost s: State, ghost t: nat, ghost extra: Option<Conn>) returns (r: Option<ConnLifecycle>)
      requires Shows(s) && t in s.workers && s.workers[t] == Promote(id, extra) && conn == Conn(t, 0)
      modifies this
      ensures CanStep(s, t, conn)
      ensures var s' := StepWorker(s, t, true, false, conn);
              && Shows(s')
              && (r.Some? <==> s'.workers[t].Adding?)
              && (r.Some? ==> fresh(r.value) && activeConns[id] == r.value && id in s'.lcs && r.value.Shows(s'.lcs[id]))
    {
      if id !in pendingConns || pendingConns[id] != conn { return None; }
      pendingConns := pendingConns - {id};
      if closed { return None; }
      var lc := new ConnLifecycle(id);
      activeWG := activeWG + 1;
      activeConns := activeConns[id := lc];
      assert lc.Shows(NewLifecycle(t));
      return Some(lc);
    }

    /** The part of finishActive under the lock. */
    method RemoveActive(lc: ConnLifecycle, ghost s: State, ghost t: nat)
      requires Shows(s) && t in s.workers && s.workers[t] == Remove(lc.id)
      requires lc.id in activeConns ==> activeConns[lc.id] == lc
      modifies this
      ensures CanStep(s, t, Conn(t, 0)) && Shows(StepWorker(s, t, true, false, Conn(t, 0)))
    {
      if lc.id in activeConns && activeConns[lc.id] == lc { activeConns := activeConns - {lc.id}; }
    }

    /** The part of Close under the lock: what is pending and what is active from then on only shrinks. */
    method BeginClose(ghost s: State) returns (pending: set<Conn>, active: set<ID>)
      requires Shows(s) && s.closing == NotClosing
      modifies this`closed
      ensures var s' := StepClose(s, Conn(0, 0), 0); Shows(s') && s'.closing == ClosePending(pending, active)
    {
      closed := true;
      pending, active := pendingConns.Values, activeConns.Keys;
    }
  }
}
