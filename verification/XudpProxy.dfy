/**
 Ownership of work connections in the frpc XUDP proxy (client/proxy/xudp.go).

 A work connection is registered as pending while it is set up, and then promoted: its lifecycle
 object owns the closers of its resources, and the proxy's WaitGroup counts it. Close cancels what
 is pending, stops what is active and waits. One action is one critical section, one closer run,
 one connection closed, or one move of a worker between them.
 */
module XudpProxy {
  import opened Prelude

  type ID = nat

  /** A connection or socket: number `n` of those opened on behalf of a worker; the work connection is number 0. */
  datatype Conn = Conn(worker: nat, n: nat)

  /** One lifecycle: closers registered, taken by stop, or given too late and run by whoever gave them. */
  datatype Lifecycle = Lifecycle(
    owner: nat,
    stopped: bool,
    closers: multiset<Conn>,
    running: multiset<Conn>,
    late: multiset<Conn>,
    // history
    added: multiset<Conn>,
    ran: multiset<Conn>)

  datatype Worker =
    | Arrived
    | Refused
    | Setup(id: ID)
    | Promote(id: ID, extra: Option<Conn>)
    | DropExtra(id: ID, extra: Option<Conn>)
    | Finish(id: ID)
    | FinishClose
    | Adding(id: ID, conn: Conn, rest: seq<Conn>)
    | RunLate(id: ID, conn: Conn, rest: seq<Conn>)
    | Serving(id: ID)
    | Stopping(id: ID)
    | RunClosers(id: ID)
    | Remove(id: ID)
    | Leave(id: ID)
    | Gone(last: Option<ID>)

  datatype Closing =
    | NotClosing
    | ClosePending(conns: set<Conn>, ids: set<ID>)
    | StopActive(ids: set<ID>)
    | RunActive(id: ID, ids: set<ID>)
    | Await
    | Closed

  datatype State = State(
    closed: bool,
    nextID: ID,
    pending: map<ID, Conn>,
    active: set<ID>,
    wg: int,
    lcs: map<ID, Lifecycle>,
    workers: map<nat, Worker>,
    closing: Closing,
    nextConn: nat,
    open: set<Conn>)

  const Init := State(false, 0, map[], {}, 0, map[], map[], NotClosing, 0, {})

  // ---------------------------------------------------------------------------------------
  // Lifecycle

  function NewLifecycle(owner: nat): Lifecycle {
    Lifecycle(owner, false, multiset{}, multiset{}, multiset{}, multiset{}, multiset{})
  }

  function AddCloser(lc: Lifecycle, c: Conn): Lifecycle {
    if lc.stopped then lc.(late := lc.late + multiset{c}, added := lc.added + multiset{c})
    else lc.(closers := lc.closers + multiset{c}, added := lc.added + multiset{c})
  }

  /** The critical section of stop: the first caller takes the closers. */
  function TakeClosers(lc: Lifecycle): Lifecycle {
    lc.(stopped := true, running := lc.running + lc.closers, closers := multiset{})
  }

  function RunCloser(lc: Lifecycle, c: Conn): Lifecycle {
    lc.(running := lc.running - multiset{c}, ran := lc.ran + multiset{c})
  }

  function RunLateCloser(lc: Lifecycle, c: Conn): Lifecycle {
    lc.(late := lc.late - multiset{c}, ran := lc.ran + multiset{c})
  }

  // ---------------------------------------------------------------------------------------
  // Workers

  function Go(s: State, t: nat, w: Worker): State {
    s.(workers := s.workers[t := w])
  }

  function SetLc(s: State, id: ID, lc: Lifecycle): State {
    s.(lcs := s.lcs[id := lc])
  }

  function AddNext(id: ID, rest: seq<Conn>): Worker {
    if rest == [] then Serving(id) else Adding(id, rest[0], rest[1..])
  }

  predicate HasLc(s: State, t: nat) {
    t in s.workers &&
    match s.workers[t]
    case Adding(id, _, _) => id in s.lcs
    case RunLate(id, _, _) => id in s.lcs
    case Stopping(id) => id in s.lcs
    case RunClosers(id) => id in s.lcs
    case _ => true
  }

  predicate CanStep(s: State, t: nat, c: Conn) {
    && HasLc(s, t)
    && match s.workers[t]
       case RunClosers(id) => s.lcs[id].running == multiset{} || c in s.lcs[id].running
       case Gone(_) => false
       case _ => true
  }

  /** `ok`: setup goes on rather than fails; `more`: another socket is opened; `c`: the closer run next. */
  function StepWorker(s: State, t: nat, ok: bool, more: bool, c: Conn): State
    requires CanStep(s, t, c)
  {
    var work := Conn(t, 0);
    match s.workers[t]
    case Arrived =>
      if s.closed then Go(s, t, Refused)
      else Go(s.(nextID := s.nextID + 1, pending := s.pending[s.nextID + 1 := work]), t, Setup(s.nextID + 1))
    case Refused => Go(s.(open := s.open - {work}), t, Gone(None))
    case Setup(id) =>
      if !ok then Go(s, t, Finish(id))
      else if more then
        Go(s.(nextConn := s.nextConn + 1, open := s.open + {Conn(t, s.nextConn + 1)}), t, Promote(id, Some(Conn(t, s.nextConn + 1))))
      else Go(s, t, Promote(id, None))
    case Promote(id, extra) =>
      if id !in s.pending || s.pending[id] != work then Go(s, t, DropExtra(id, extra))
      else if s.closed then Go(s.(pending := s.pending - {id}), t, DropExtra(id, extra))
      else
        Go(s.(pending := s.pending - {id}, wg := s.wg + 1, active := s.active + {id}, lcs := s.lcs[id := NewLifecycle(t)]),
           t, Adding(id, work, if extra.Some? then [extra.value] else []))
    case DropExtra(id, extra) => Go(if extra.Some? then s.(open := s.open - {extra.value}) else s, t, Finish(id))
    case Finish(id) =>
      Go(if id in s.pending && s.pending[id] == work then s.(pending := s.pending - {id}) else s, t, FinishClose)
    case FinishClose => Go(s.(open := s.open - {work}), t, Gone(None))
    case Adding(id, conn, rest) =>
      Go(SetLc(s, id, AddCloser(s.lcs[id], conn)), t, if s.lcs[id].stopped then RunLate(id, conn, rest) else AddNext(id, rest))
    case RunLate(id, conn, rest) =>
      Go(SetLc(s, id, RunLateCloser(s.lcs[id], conn)).(open := s.open - {conn}), t, AddNext(id, rest))
    case Serving(id) =>
      if more then
        Go(s.(nextConn := s.nextConn + 1, open := s.open + {Conn(t, s.nextConn + 1)}), t, Adding(id, Conn(t, s.nextConn + 1), []))
      else Go(s, t, Stopping(id))
    case Stopping(id) =>
      if s.lcs[id].stopped then Go(s, t, Remove(id))
      else Go(SetLc(s, id, TakeClosers(s.lcs[id])), t, RunClosers(id))
    case RunClosers(id) =>
      if s.lcs[id].running == multiset{} then Go(s, t, Remove(id))
      else SetLc(s, id, RunCloser(s.lcs[id], c)).(open := s.open - {c})
    case Remove(id) => Go(s.(active := s.active - {id}), t, Leave(id))
    case Leave(id) => Go(s.(wg := s.wg - 1), t, Gone(Some(id)))
  }

  // ---------------------------------------------------------------------------------------
  // Close

  /** `c` and `id` are the connection, closer or lifecycle the loop takes next. */
  predicate CanClose(s: State, c: Conn, id: ID) {
    match s.closing
    case NotClosing => true
    case ClosePending(conns, _) => conns == {} || c in conns
    case StopActive(ids) => ids == {} || (id in ids && id in s.lcs)
    case RunActive(current, _) => current in s.lcs && (s.lcs[current].running == multiset{} || c in s.lcs[current].running)
    case Await => s.wg == 0
    case Closed => false
  }

  function StepClose(s: State, c: Conn, id: ID): State
    requires CanClose(s, c, id)
  {
    match s.closing
    case NotClosing => s.(closed := true, closing := ClosePending(s.pending.Values, s.active))
    case ClosePending(conns, ids) =>
      if conns == {} then s.(closing := StopActive(ids))
      else s.(open := s.open - {c}, closing := ClosePending(conns - {c}, ids))
    case StopActive(ids) =>
      if ids == {} then s.(closing := Await)
      else if s.lcs[id].stopped then s.(closing := StopActive(ids - {id}))
      else SetLc(s, id, TakeClosers(s.lcs[id])).(closing := RunActive(id, ids - {id}))
    case RunActive(current, ids) =>
      if s.lcs[current].running == multiset{} then s.(closing := StopActive(ids))
      else SetLc(s, current, RunCloser(s.lcs[current], c)).(open := s.open - {c})
    case Await => s.(closing := Closed)
  }

  // ---------------------------------------------------------------------------------------
  // Actions

  datatype Action =
    | Arrive
    | WorkerStep(t: nat, ok: bool, more: bool, c: Conn)
    | CloseStep(c: Conn, id: ID)

  predicate Enabled(s: State, act: Action) {
    match act
    case Arrive => true
    case WorkerStep(t, _, _, c) => CanStep(s, t, c)
    case CloseStep(c, id) => CanClose(s, c, id)
  }

  function Apply(s: State, act: Action): State
    requires Enabled(s, act)
  {
    match act
    case Arrive =>
      Go(s.(nextConn := s.nextConn + 1, open := s.open + {Conn(s.nextConn + 1, 0)}), s.nextConn + 1, Arrived)
    case WorkerStep(t, ok, more, c) => StepWorker(s, t, ok, more, c)
    case CloseStep(c, id) => StepClose(s, c, id)
  }

  ghost predicate IsRun(states: seq<State>, actions: seq<Action>) {
    && |states| == |actions| + 1
    && states[0] == Init
    && forall i | 0 <= i < |actions| :: Enabled(states[i], actions[i]) && states[i + 1] == Apply(states[i], actions[i])
  }
}
