/**
 The SUDP visitor (client/visitor/sudp.go): its lifecycle under any number of concurrent Run and
 Close calls, and the packets its dispatcher and workers write.

 One action is one critical section under lifecycleMu, one channel operation, or one call that opens,
 closes or writes to a socket or connection.
 */
module SudpVisitor {
  import opened Prelude

  type Packet = nat
  type Sock = nat

  const SEND_CAPACITY := 1024

  // ---------------------------------------------------------------------------------------
  // Calls

  datatype Lifecycle = NotStarted | Starting | Running | Closed

  datatype Caller =
    | RunEnter
    | RunOpen
    | RunCommit(sock: Sock)
    | RunAbort(sock: Sock)
    | RunFail
    | RunFailBase
    | CloseEnter
    | CloseBase(taken: Option<Sock>)
    | CloseSock(taken: Option<Sock>)
    | CloseWait
    | Returned

  // ---------------------------------------------------------------------------------------
  // Data plane

  /** What became of a packet taken from the queue: one write was attempted on it, or none ever was. */
  datatype Fate = Attempted(packet: Packet, accepted: bool) | Unwritten(packet: Packet)

  datatype Sender = First(packet: Packet) | Select | Holding(packet: Packet) | SenderDone

  /** The dispatcher goroutine; in `Serve` its worker is running a connection. */
  datatype Dispatcher =
    | NotSpawned
    | Idle
    | Dial(pending: Packet)
    | Retry(pending: Packet)
    | Boundary(first: Packet)
    | Serve(sender: Sender, readerDone: bool)
    | Recycle
    | Stopped

  datatype State = State(
    lifecycle: Lifecycle,
    closes: nat,
    baseCloses: nat,
    published: Option<Sock>,
    nextSock: Sock,
    open: set<Sock>,
    workers: nat,
    callers: map<nat, Caller>,
    nextCaller: nat,
    // data plane
    sendCh: seq<Packet>,
    d: Dispatcher,
    forwarding: bool,
    conns: int,
    // history
    enqueued: seq<Packet>,
    fates: seq<Fate>)

  const Init := State(NotStarted, 0, 0, None, 0, {}, 0, map[], 0, [], NotSpawned, false, 0, [], [])

  /** checkCloseCh is closed. */
  predicate Shut(s: State) {
    s.closes > 0
  }

  function Go(s: State, t: nat, c: Caller): State {
    s.(callers := s.callers[t := c])
  }

  predicate CanCall(s: State, t: nat) {
    t in s.callers &&
    match s.callers[t]
    case CloseWait => s.workers == 0
    case Returned => false
    case _ => true
  }

  /** `ok`: resolving the address or opening the socket succeeds. */
  function StepCaller(s: State, t: nat, ok: bool): State
    requires CanCall(s, t)
  {
    match s.callers[t]
    case RunEnter =>
      if s.lifecycle != NotStarted then Go(s, t, Returned) else Go(s.(lifecycle := Starting), t, RunOpen)
    case RunOpen =>
      if ok then Go(s.(nextSock := s.nextSock + 1, open := s.open + {s.nextSock}), t, RunCommit(s.nextSock))
      else Go(s, t, RunFail)
    case RunCommit(sock) =>
      if s.lifecycle != Starting then Go(s, t, RunAbort(sock))
      else Go(s.(lifecycle := Running, published := Some(sock), workers := s.workers + 2, d := Idle, forwarding := true), t, Returned)
    case RunAbort(sock) => Go(s.(open := s.open - {sock}), t, Returned)
    case RunFail =>
      if s.lifecycle == Starting then Go(s.(lifecycle := Closed, closes := s.closes + 1), t, RunFailBase)
      else Go(s, t, Returned)
    case RunFailBase => Go(s.(baseCloses := s.baseCloses + 1), t, Returned)
    case CloseEnter =>
      if s.lifecycle == Closed then Go(s, t, CloseWait)
      else Go(s.(lifecycle := Closed, closes := s.closes + 1), t, CloseBase(s.published))
    case CloseBase(sock) => Go(s.(baseCloses := s.baseCloses + 1), t, CloseSock(sock))
    case CloseSock(sock) => Go(if sock.Some? then s.(open := s.open - {sock.value}) else s, t, CloseWait)
    case CloseWait => Go(s, t, Returned)
  }

  // ---------------------------------------------------------------------------------------
  // Dispatcher, with the sender of its worker

  /** How a choice turns out: a packet, connection, timer or write succeeds (`Yes`) or fails (`No`), or the visitor closes (`Over`). */
  datatype Pick = Yes | No | Over

  predicate CanDispatch(s: State, pick: Pick) {
    && (pick == Over ==> Shut(s))
    && match s.d
       case NotSpawned => false
       case Idle => pick != No && (pick == Yes ==> s.sendCh != [])
       // a request prefers shutdown to its result
       case Dial(_) => Shut(s) ==> pick == Over
       case Serve(sender, readerDone) => sender.SenderDone? && readerDone
       case Stopped => false
       case _ => true
  }

  function Settle(s: State, f: Fate): State {
    s.(fates := s.fates + [f])
  }

  function Leave(s: State): State {
    s.(workers := if s.workers > 0 then s.workers - 1 else 0)
  }

  function Dispatch(s: State, pick: Pick): State
    requires CanDispatch(s, pick)
  {
    match s.d
    case Idle =>
      if pick == Over then Leave(s.(d := Stopped))
      else s.(sendCh := s.sendCh[1..], d := Dial(s.sendCh[0]))
    case Dial(p) =>
      (match pick
       case Yes => s.(conns := s.conns + 1, d := Boundary(p))
       case No => s.(d := Retry(p))
       case Over => Leave(Settle(s, Unwritten(p)).(d := Stopped)))
    case Retry(p) => if pick == Over then Leave(Settle(s, Unwritten(p)).(d := Stopped)) else s.(d := Dial(p))
    // The packet now belongs to the worker, which may fail before it writes anything.
    case Boundary(p) =>
      if pick == No then Settle(s, Unwritten(p)).(d := Recycle) else s.(d := Serve(First(p), false))
    case Serve(_, _) => s.(d := Recycle)
    case Recycle => if Shut(s) then Leave(s.(conns := s.conns - 1, d := Stopped)) else s.(conns := s.conns - 1, d := Idle)
  }

  predicate CanSend(s: State, pick: Pick) {
    s.d.Serve? &&
    match s.d.sender
    case Select => if pick == Yes then s.sendCh != [] else s.d.readerDone || Shut(s)
    case SenderDone => false
    case _ => true
  }

  function Send(s: State, pick: Pick): State
    requires CanSend(s, pick)
  {
    match s.d.sender
    case First(p) => Settle(s, Attempted(p, pick == Yes)).(d := s.d.(sender := if pick == Yes then Select else SenderDone))
    case Select =>
      if pick == Yes then s.(sendCh := s.sendCh[1..], d := s.d.(sender := Holding(s.sendCh[0])))
      else s.(d := s.d.(sender := SenderDone))
    case Holding(p) => Settle(s, Attempted(p, pick == Yes)).(d := s.d.(sender := if pick == Yes then Select else SenderDone))
  }

  // ---------------------------------------------------------------------------------------
  // Actions

  datatype Action =
    | CallRun
    | CallClose
    | CallStep(t: nat, ok: bool)
    | Enqueue(packet: Packet)
    | StopForwarding
    | DispatchStep(pick: Pick)
    | SendStep(pick: Pick)
    | ReaderEnds

  predicate Enabled(s: State, act: Action) {
    match act
    case CallRun => true
    case CallClose => true
    case CallStep(t, _) => CanCall(s, t)
    case Enqueue(_) => s.forwarding && |s.sendCh| < SEND_CAPACITY
    case StopForwarding => s.forwarding
    case DispatchStep(pick) => CanDispatch(s, pick)
    case SendStep(pick) => CanSend(s, pick)
    case ReaderEnds => s.d.Serve? && !s.d.readerDone
  }

  function Apply(s: State, act: Action): State
    requires Enabled(s, act)
  {
    match act
    case CallRun => Go(s.(nextCaller := s.nextCaller + 1), s.nextCaller, RunEnter)
    case CallClose => Go(s.(nextCaller := s.nextCaller + 1), s.nextCaller, CloseEnter)
    case CallStep(t, ok) => StepCaller(s, t, ok)
    case Enqueue(p) => s.(sendCh := s.sendCh + [p], enqueued := s.enqueued + [p])
    case StopForwarding => Leave(s.(forwarding := false))
    case DispatchStep(pick) => Dispatch(s, pick)
    case SendStep(pick) => Send(s, pick)
    case ReaderEnds => s.(d := s.d.(readerDone := true))
  }

  ghost predicate IsRun(states: seq<State>, actions: seq<Action>) {
    && |states| == |actions| + 1
    && states[0] == Init
    && forall i | 0 <= i < |actions| :: Enabled(states[i], actions[i]) && states[i + 1] == Apply(states[i], actions[i])
  }

  // ---------------------------------------------------------------------------------------
  // Invariant

  /** The packet that has left the queue and was neither attempted nor given up. */
  function InFlight(d: Dispatcher): Option<Packet> {
    match d
    case Dial(p) => Some(p)
    case Retry(p) => Some(p)
    case Boundary(p) => Some(p)
    case Serve(First(p), _) => Some(p)
    case Serve(Holding(p), _) => Some(p)
    case _ => None
  }

  function Settled(fates: seq<Fate>): seq<Packet> {
    seq(|fates|, i requires 0 <= i < |fates| => fates[i].packet)
  }

  predicate Accounted(s: State) {
    Settled(s.fates) + ToSeq(InFlight(s.d)) + s.sendCh == s.enqueued
  }

  /** A caller that is going to close `sock`. */
  predicate Closes(c: Caller, sock: Sock) {
    c == RunCommit(sock) || c == RunAbort(sock) || c == CloseBase(Some(sock)) || c == CloseSock(Some(sock))
  }

  ghost predicate Owned(s: State, sock: Sock) {
    || (s.published == Some(sock) && s.lifecycle == Running)
    || exists t :: t in s.callers && Closes(s.callers[t], sock)
  }

  /** A caller that is going to close the base visitor. */
  predicate ClosesBase(c: Caller) {
    c.RunFailBase? || c.CloseBase?
  }

  predicate CallerOk(s: State, c: Caller) {
    && (c.RunOpen? || c.RunCommit? || c.RunFail? ==> s.lifecycle != NotStarted)
    && (c.RunFailBase? || c.CloseBase? || c.CloseSock? || c.CloseWait? ==> s.lifecycle == Closed)
    && (ClosesBase(c) ==> s.baseCloses == 0)
  }

  predicate LifecycleOk(s: State) {
    && s.closes == Bit(s.lifecycle == Closed)
    && s.baseCloses <= s.closes
    && s.workers == Bit(!s.d.NotSpawned? && !s.d.Stopped?) + Bit(s.forwarding)
    && (s.lifecycle == NotStarted || s.lifecycle == Starting ==> s.d.NotSpawned? && !s.forwarding && s.published == None)
    && (s.published == None ==> s.d.NotSpawned? && !s.forwarding)
    && s.conns == Bit(s.d.Boundary? || s.d.Serve? || s.d.Recycle?)
  }

  ghost predicate CallersOk(s: State) {
    && (forall t <- s.callers :: t < s.nextCaller && CallerOk(s, s.callers[t]))
    && (forall t, u | t in s.callers && u in s.callers && ClosesBase(s.callers[t]) && ClosesBase(s.callers[u]) :: t == u)
    && (forall sock <- s.open :: sock < s.nextSock && Owned(s, sock))
  }

  ghost predicate Inv(s: State) {
    Accounted(s) && LifecycleOk(s) && CallersOk(s)
  }

  // ---------------------------------------------------------------------------------------
  // Every action keeps it

  lemma SettledAppend(fates: seq<Fate>, f: Fate)
    ensures Settled(fates + [f]) == Settled(fates) + [f.packet]
  {
  }

  /** The data plane leaves the callers and their sockets alone. */
  lemma CallersUntouched(s: State, s': State)
    requires CallersOk(s)
    requires s' == s.(d := s'.d, sendCh := s'.sendCh, forwarding := s'.forwarding, workers := s'.workers,
                      conns := s'.conns, enqueued := s'.enqueued, fates := s'.fates)
    ensures CallersOk(s')
  {
    forall sock | sock in s'.open ensures Owned(s', sock) {
      assert Owned(s, sock);
    }
  }

  lemma DispatchKeeps(s: State, pick: Pick)
    requires Inv(s) && CanDispatch(s, pick)
    ensures Inv(Dispatch(s, pick))
  {
    hide CallersOk, Accounted;
    DispatchAccounts(s, pick);
    CallersUntouched(s, Dispatch(s, pick));
  }

  lemma DispatchAccounts(s: State, pick: Pick)
    requires Accounted(s) && CanDispatch(s, pick)
    ensures Accounted(Dispatch(s, pick))
  {
    var p := InFlight(s.d);
    if p.Some? { SettledAppend(s.fates, Unwritten(p.value)); }
    if s.d.Idle? && pick == Yes { assert [s.sendCh[0]] + s.sendCh[1..] == s.sendCh; }
  }

  lemma SendKeeps(s: State, pick: Pick)
    requires Inv(s) && CanSend(s, pick)
    ensures Inv(Send(s, pick))
  {
    hide CallersOk, Accounted;
    SendAccounts(s, pick);
    CallersUntouched(s, Send(s, pick));
  }

  lemma SendAccounts(s: State, pick: Pick)
    requires Accounted(s) && CanSend(s, pick)
    ensures Accounted(Send(s, pick))
  {
    var p := InFlight(s.d);
    if p.Some? { SettledAppend(s.fates, Attempted(p.value, pick == Yes)); }
    if s.d.sender.Select? && pick == Yes { assert [s.sendCh[0]] + s.sendCh[1..] == s.sendCh; }
  }

  lemma CallerKeeps(s: State, t: nat, ok: bool)
    requires Inv(s) && CanCall(s, t)
    ensures Inv(StepCaller(s, t, ok))
  {
    hide Accounted;
    CallerAccounts(s, t, ok);
    CallerLifecycle(s, t, ok);
    CallerCallers(s, t, ok);
  }

  lemma CallerAccounts(s: State, t: nat, ok: bool)
    requires Accounted(s) && LifecycleOk(s) && CanCall(s, t)
    ensures Accounted(StepCaller(s, t, ok))
  {
  }

  lemma CallerLifecycle(s: State, t: nat, ok: bool)
    requires LifecycleOk(s) && CanCall(s, t) && CallerOk(s, s.callers[t])
    ensures LifecycleOk(StepCaller(s, t, ok))
  {
  }

  lemma CallerCallers(s: State, t: nat, ok: bool)
    requires LifecycleOk(s) && CallersOk(s) && CanCall(s, t)
    ensures CallersOk(StepCaller(s, t, ok))
  {
    var s' := StepCaller(s, t, ok);
    hide CallersOk;
    forall u | u in s'.callers ensures u < s'.nextCaller && CallerOk(s', s'.callers[u]) { OneCaller(s, t, ok, u); }
    forall u, v | u in s'.callers && v in s'.callers && ClosesBase(s'.callers[u]) && ClosesBase(s'.callers[v])
      ensures u == v
    {
      OneBaseCloser(s, t, ok, u, v);
    }
    forall sock | sock in s'.open ensures sock < s'.nextSock && Owned(s', sock) { OneSock(s, t, ok, sock); }
    Assemble(s');
  }

  lemma Assemble(s: State)
    requires forall t <- s.callers :: t < s.nextCaller && CallerOk(s, s.callers[t])
    requires forall t, u | t in s.callers && u in s.callers && ClosesBase(s.callers[t]) && ClosesBase(s.callers[u]) :: t == u
    requires forall sock <- s.open :: sock < s.nextSock && Owned(s, sock)
    ensures CallersOk(s)
  {
  }

  lemma OneCaller(s: State, t: nat, ok: bool, u: nat)
    requires LifecycleOk(s) && CallersOk(s) && CanCall(s, t) && u in s.callers
    ensures var s' := StepCaller(s, t, ok); u < s'.nextCaller && CallerOk(s', s'.callers[u])
  {
    assert CallerOk(s, s.callers[t]) && CallerOk(s, s.callers[u]);
  }

  lemma OneBaseCloser(s: State, t: nat, ok: bool, u: nat, v: nat)
    requires LifecycleOk(s) && CallersOk(s) && CanCall(s, t) && u in s.callers && v in s.callers
    requires var s' := StepCaller(s, t, ok); ClosesBase(s'.callers[u]) && ClosesBase(s'.callers[v])
    ensures u == v
  {
    assert CallerOk(s, s.callers[u]) && CallerOk(s, s.callers[v]);
  }

  lemma OneSock(s: State, t: nat, ok: bool, sock: Sock)
    requires LifecycleOk(s) && CallersOk(s) && CanCall(s, t) && sock in StepCaller(s, t, ok).open
    ensures var s' := StepCaller(s, t, ok); sock < s'.nextSock && Owned(s', sock)
  {
    var s' := StepCaller(s, t, ok);
    if sock in s.open {
      assert sock < s.nextSock && Owned(s, sock);
      SockPassedOn(s, t, ok, sock);
      hide LifecycleOk, CallersOk, StepCaller, Closes;
      if !(s.published == Some(sock) && s.lifecycle == Running) {
        var u :| u in s.callers && Closes(s.callers[u], sock);
        assert u != t ==> u in s'.callers && Closes(s'.callers[u], sock);
      }
    } else {
      assert Closes(s'.callers[t], sock);
    }
  }

  /** Whoever was to close a socket still is, or has published it. */
  lemma SockPassedOn(s: State, t: nat, ok: bool, sock: Sock)
    requires LifecycleOk(s) && CanCall(s, t) && sock in StepCaller(s, t, ok).open && sock in s.open
    ensures var s' := StepCaller(s, t, ok);
            && s.nextSock <= s'.nextSock && t in s'.callers
            && (forall u <- s.callers | u != t :: u in s'.callers && s'.callers[u] == s.callers[u])
            && ((s.published == Some(sock) && s.lifecycle == Running) || Closes(s.callers[t], sock) ==>
                  (s'.published == Some(sock) && s'.lifecycle == Running) || Closes(s'.callers[t], sock))
  {
  }

  lemma NewCallerKeeps(s: State, c: Caller)
    requires Inv(s) && (c == RunEnter || c == CloseEnter)
    ensures Inv(Go(s.(nextCaller := s.nextCaller + 1), s.nextCaller, c))
  {
    var s' := Go(s.(nextCaller := s.nextCaller + 1), s.nextCaller, c);
    assert s.nextCaller !in s.callers;
    forall sock | sock in s'.open ensures Owned(s', sock) {
      assert Owned(s, sock);
      if !(s.published == Some(sock) && s.lifecycle == Running) {
        var u :| u in s.callers && Closes(s.callers[u], sock);
        assert Closes(s'.callers[u], sock);
      }
    }
  }

  lemma ActionKeeps(s: State, act: Action)
    requires Inv(s) && Enabled(s, act)
    ensures Inv(Apply(s, act))
  {
    match act
    case CallRun => NewCallerKeeps(s, RunEnter);
    case CallClose => NewCallerKeeps(s, CloseEnter);
    case CallStep(t, ok) => CallerKeeps(s, t, ok);
    case DispatchStep(pick) => DispatchKeeps(s, pick);
    case SendStep(pick) => SendKeeps(s, pick);
    case _ => ForwardKeeps(s, act);
  }

  lemma ForwardKeeps(s: State, act: Action)
    requires Inv(s) && Enabled(s, act) && (act.Enqueue? || act.StopForwarding? || act.ReaderEnds?)
    ensures Inv(Apply(s, act))
  {
    hide CallersOk;
    CallersUntouched(s, Apply(s, act));
    if act.Enqueue? {
      assert Settled(s.fates) + ToSeq(InFlight(s.d)) + (s.sendCh + [act.packet]) == s.enqueued + [act.packet];
    }
  }

  lemma {:induction false} RunKeepsInv(states: seq<State>, actions: seq<Action>, i: nat)
    requires IsRun(states, actions) && i < |states|
    ensures Inv(states[i])
  {
    if i != 0 {
      RunKeepsInv(states, actions, i - 1);
      ActionKeeps(states[i - 1], actions[i - 1]);
    }
  }

  // ---------------------------------------------------------------------------------------
  // Theorems

  /**
   However Run, failed startups and Close interleave, the close channel and the base visitor are each
   closed at most once, the channel exactly when the lifecycle is Closed, and no worker is added once
   it is.
   */
  lemma ClosedOnce(states: seq<State>, actions: seq<Action>, i: nat)
    requires IsRun(states, actions) && i < |actions|
    ensures states[i].closes <= 1 && states[i].baseCloses <= 1
    ensures states[i].closes == 1 <==> states[i].lifecycle == Closed
    ensures states[i].lifecycle == Closed ==> states[i + 1].lifecycle == Closed && states[i + 1].workers <= states[i].workers
  {
    RunKeepsInv(states, actions, i);
    hide Inv;
    if states[i].lifecycle == Closed { StaysClosed(states[i], actions[i]); }
  }

  lemma StaysClosed(s: State, act: Action)
    requires Enabled(s, act) && s.lifecycle == Closed
    ensures Apply(s, act).lifecycle == Closed && Apply(s, act).workers <= s.workers
  {
    match act
    case CallStep(t, ok) =>
    case DispatchStep(pick) =>
    case _ =>
  }

  /**
   An open socket is the published one of a running visitor, or one call is still going to close it.
   So when the visitor is closed and every call has returned or only waits, no socket is left open.
   */
  lemma NoSocketEscapes(states: seq<State>, actions: seq<Action>, i: nat)
    requires IsRun(states, actions) && i < |states|
    ensures forall sock <- states[i].open :: Owned(states[i], sock)
    ensures states[i].lifecycle == Closed
            && (forall t <- states[i].callers :: states[i].callers[t].Returned? || states[i].callers[t].CloseWait?)
            ==> states[i].open == {}
  {
    RunKeepsInv(states, actions, i);
    assert forall sock <- states[i].open :: Owned(states[i], sock);
  }

  /** Workers are counted exactly; a Close that returns leaves none running. */
  lemma CloseWaitsForWorkers(states: seq<State>, actions: seq<Action>, i: nat, t: nat, ok: bool)
    requires IsRun(states, actions) && i < |actions| && actions[i] == CallStep(t, ok) && states[i].callers[t].CloseWait?
    ensures states[i].workers == 0 && !states[i].forwarding && (states[i].d.NotSpawned? || states[i].d.Stopped?)
    ensures states[i].conns == 0
  {
    RunKeepsInv(states, actions, i);
  }

  /**
   Packets are settled in the order they were enqueued and each once: the k-th settled is the k-th
   enqueued. So write attempts are a subsequence of the input without duplicates.
   */
  lemma AttemptsInOrder(states: seq<State>, actions: seq<Action>, i: nat)
    requires IsRun(states, actions) && i < |states|
    ensures Settled(states[i].fates) + ToSeq(InFlight(states[i].d)) + states[i].sendCh == states[i].enqueued
    ensures |states[i].fates| <= |states[i].enqueued|
    ensures forall k | 0 <= k < |states[i].fates| :: states[i].fates[k].packet == states[i].enqueued[k]
  {
    RunKeepsInv(states, actions, i);
    var s := states[i];
    var rest := ToSeq(InFlight(s.d)) + s.sendCh;
    assert Settled(s.fates) + rest == s.enqueued;
    forall k | 0 <= k < |s.fates| ensures s.fates[k].packet == s.enqueued[k] {
      assert (Settled(s.fates) + rest)[k] == Settled(s.fates)[k];
    }
  }

  /**
   A packet is dialled for again only while no connection exists. A write is attempted only on a
   connection, and a packet is given up without one only when the visitor is closed or the connection
   it was handed to could not be set up.
   */
  lemma RetriesPrecedeConnection(states: seq<State>, actions: seq<Action>, i: nat)
    requires IsRun(states, actions) && i < |actions|
    ensures states[i].d.Dial? || states[i].d.Retry? ==> states[i].conns == 0
    ensures states[i + 1].fates != states[i].fates ==>
              exists f :: states[i + 1].fates == states[i].fates + [f]
                          && (if f.Attempted? then states[i].conns == 1 else Shut(states[i]) || states[i].d.Boundary?)
  {
    RunKeepsInv(states, actions, i);
    SettleStep(states[i], actions[i]);
  }

  lemma SettleStep(s: State, act: Action)
    requires LifecycleOk(s) && Enabled(s, act)
    ensures Apply(s, act).fates != s.fates ==>
              exists f :: Apply(s, act).fates == s.fates + [f]
                          && (if f.Attempted? then s.conns == 1 else Shut(s) || s.d.Boundary?)
  {
    var p := InFlight(s.d);
    match act
    case DispatchStep(pick) =>
      if p.Some? && Apply(s, act).fates != s.fates { assert Apply(s, act).fates == s.fates + [Unwritten(p.value)]; }
    case SendStep(pick) =>
      if p.Some? && Apply(s, act).fates != s.fates { assert Apply(s, act).fates == s.fates + [Attempted(p.value, pick == Yes)]; }
    case _ =>
  }

  // ---------------------------------------------------------------------------------------
  // The visitor object

  class Visitor {
    var state: Lifecycle
    var closeCalls: nat
    var udpConn: Option<Sock>
    var workerCount: nat

    ghost predicate Shows(s: State)
      reads this
    {
      state == s.lifecycle && closeCalls == s.closes && udpConn == s.published && workerCount == s.workers
    }

    constructor ()
      ensures Shows(Init)
    {
      state, closeCalls, udpConn, workerCount := NotStarted, 0, None, 0;
    }

    /** The first section of Run. */
    method Enter(ghost s: State, ghost t: nat) returns (ok: bool)
      requires Shows(s) && t in s.callers && s.callers[t] == RunEnter
      modifies this
      ensures CanCall(s, t) && Shows(StepCaller(s, t, true)) && StepCaller(s, t, true).callers[t] == if ok then RunOpen else Returned
    {
      if state != NotStarted { return false; }
      state := Starting;
      return true;
    }

    /** The commit of Run: false when the visitor was closed meanwhile, and the socket is the caller's to close. */
    method Commit(sock: Sock, ghost s: State, ghost t: nat) returns (ok: bool)
      requires Shows(s) && t in s.callers && s.callers[t] == RunCommit(sock)
      modifies this
      ensures CanCall(s, t) && Shows(StepCaller(s, t, true)) && StepCaller(s, t, true).callers[t] == if ok then Returned else RunAbort(sock)
    {
      if state != Starting { return false; }
      udpConn := Some(sock);
      workerCount := workerCount + 2;
      state := Running;
      return true;
    }

    method FailStartup(ghost s: State, ghost t: nat) returns (closeBase: bool)
      requires Shows(s) && t in s.callers && s.callers[t] == RunFail
      modifies this
      ensures CanCall(s, t) && Shows(StepCaller(s, t, true)) && StepCaller(s, t, true).callers[t] == if closeBase then RunFailBase else Returned
    {
      if state != Starting { return false; }
      state := Closed;
      closeCalls := closeCalls + 1;
      return true;
    }

    /** The section of Close; none when the visitor is closed already. */
    method BeginClose(ghost s: State, ghost t: nat) returns (first: bool, taken: Option<Sock>)
      requires Shows(s) && t in s.callers && s.callers[t] == CloseEnter
      modifies this
      ensures CanCall(s, t) && Shows(StepCaller(s, t, true)) && StepCaller(s, t, true).callers[t] == if first then CloseBase(taken) else CloseWait
    {
      if state == Closed { return false, None; }
      state := Closed;
      closeCalls := closeCalls + 1;
      return true, udpConn;
    }
  }
}
