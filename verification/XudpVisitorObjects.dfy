/**
 The objects the XUDP visitor's goroutines share: the epoch machine (pkg/xudp/state/state.go) and the
 register of active transports (client/visitor/xudp.go), one method per critical section, each proved
 to do what the step system of XudpVisitor does.
 */
module XudpVisitorObjects {
  import opened Prelude
  import V = XudpVisitor

  class Machine {
    var generation: nat
    var transportEpoch: nat

    ghost predicate Shows(s: V.State)
      reads this
    {
      generation == s.generation && transportEpoch == s.epoch
    }

    constructor ()
      ensures Shows(V.Init)
    {
      generation, transportEpoch := 0, 0;
    }

    method BeginSession(ghost s: V.State) returns (g: nat)
      requires Shows(s)
      modifies this
      ensures Shows(V.BeginSession(s)) && g == V.BeginSession(s).generation
    {
      transportEpoch := 0;
      generation := generation + 1;
      return generation;
    }

    /** A stale generation gets no epoch, and changes nothing. */
    method BeginTransport(g: nat, ghost s: V.State, ghost conn: V.Conn, ghost pending: Option<V.Packet>, ghost d: V.Dispatcher)
      returns (epoch: Option<nat>)
      requires Shows(s)
      modifies this
      ensures epoch.Some? <==> g == s.generation
      ensures Shows(if epoch.Some? then V.Launch(s, g, conn, pending, d) else s)
      ensures epoch.Some? ==> epoch.value > s.epoch && V.Launch(s, g, conn, pending, d).acts[s.nextAct].epoch == epoch.value
    {
      if g != generation { return None; }
      transportEpoch := transportEpoch + 1;
      return Some(transportEpoch);
    }

    method IsCurrent(g: nat, epoch: nat, ghost s: V.State) returns (current: bool)
      requires Shows(s)
      ensures current <==> V.IsCurrent(s, g, epoch)
    {
      return g == generation && epoch == transportEpoch;
    }
  }

  class Visitor {
    var closed: bool
    var activeClosers: set<V.ActID>

    ghost predicate Shows(s: V.State)
      reads this
    {
      && closed == s.closed
      && (!closed ==> forall a :: a in activeClosers <==> a in s.acts && s.acts[a].registered)
    }

    constructor ()
      ensures Shows(V.Init)
    {
      closed, activeClosers := false, {};
    }

    /** registerActiveCloser under the lock: refused once the visitor is closed. */
    method Register(a: V.ActID, ghost s: V.State) returns (ok: bool)
      requires Shows(s) && a in s.acts && s.acts[a].runner == V.Register
      modifies this
      ensures Shows(V.Run(s, a, V.Sent))
      ensures V.Run(s, a, V.Sent).acts[a].runner == if ok then V.FirstGuard else V.Returned(s.acts[a].first)
    {
      if closed { return false; }
      activeClosers := activeClosers + {a};
      return true;
    }

    /** Close under the lock: the transports registered so far are closed next, and none can be added. */
    method BeginClose(ghost s: V.State) returns (left: set<V.ActID>)
      requires Shows(s) && s.closing == V.NotClosing && !s.closed
      modifies this
      ensures var s' := V.Apply(s, V.BeginClose); Shows(s') && s'.closing == V.RunClosers(left)
    {
      closed := true;
      left, activeClosers := activeClosers, {};
      assert left == set a | a in s.acts && s.acts[a].registered;
    }
  }
}
