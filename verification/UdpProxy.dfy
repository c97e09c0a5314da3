/**
 The data plane of the frps UDP proxy (server/proxy/udp.go).

 The dispatcher runs one connection cycle after another. In each cycle a reader and a sender share a
 work connection; the sender moves packets from `sendCh` to it and hands an unsent packet back. The
 reader asks for the next cycle through `reconnectCh`. One action is one channel operation, one
 critical section or one call on a connection, which succeeds or fails as the environment likes.
 */
module UdpProxy {
  import opened Prelude

  type Packet = nat
  type Conn = nat

  const SEND_CAPACITY := 1024
  const RECONNECT_CAPACITY := 1

  datatype Reader = Reading | Delivering | CloseConn | Notify | Quit | ReaderDone

  datatype Sender =
    | Ask
    | Check(packet: Packet)
    | Write(packet: Packet)
    | Return(pending: Option<Packet>)
    | SenderDone(pending: Option<Packet>)

  /** One connection cycle. `canceled` is its context. */
  datatype Cycle = Cycle(conn: Conn, canceled: bool, reader: Reader, sender: Sender)

  datatype Dispatcher =
    | Sleep
    | Top(pending: Option<Packet>)
    | Request(pending: Option<Packet>)
    | Retry(pending: Option<Packet>)
    | Publish(pending: Option<Packet>, conn: Conn)
    | CloseOld(pending: Option<Packet>, conn: Conn, previous: Conn)
    | Spawn(pending: Option<Packet>, conn: Conn)
    | Watch
    | Cancel(shuttingDown: bool)
    | Join(shuttingDown: bool)
    | Stopped(lost: Option<Packet>)

  /** Progress of initiateShutdown, which runs once. */
  datatype Shutdown = Open | Closing(conn: Option<Conn>) | Shut

  datatype State = State(
    sendCh: seq<Packet>,
    reconnectCh: nat,
    d: Dispatcher,
    cycle: Option<Cycle>,
    workConn: Option<Conn>,
    nextConn: Conn,
    open: set<Conn>,
    forwarding: bool,
    shutdown: Shutdown,
    workers: nat,
    closed: bool,
    releases: nat,
    // history
    enqueued: seq<Packet>,
    accepted: seq<Packet>)

  const Init := State([], 0, Sleep, None, None, 0, {}, true, Open, 2, false, 0, [], [])

  /** doneCh is closed. */
  predicate Done(s: State) {
    !s.shutdown.Open?
  }

  // ---------------------------------------------------------------------------------------
  // Dispatcher

  /** How a choice turns out: a result, timer or token (`Yes`), a failure (`No`), or doneCh (`Over`). */
  datatype Pick = Yes | No | Over

  predicate CanDispatch(s: State, pick: Pick) {
    && (pick == Over ==> Done(s))
    && match s.d
       case Watch => pick != No && (pick == Yes ==> s.reconnectCh > 0)
       case Join(_) => s.cycle.Some? && s.cycle.value.reader.ReaderDone? && s.cycle.value.sender.SenderDone?
       case Cancel(_) => s.cycle.Some?
       case Stopped(_) => false
       case _ => true
  }

  function Stop(s: State, lost: Option<Packet>): State {
    s.(d := Stopped(lost), workers := if s.workers > 0 then s.workers - 1 else 0)
  }

  function Dispatch(s: State, pick: Pick): State
    requires CanDispatch(s, pick)
  {
    match s.d
    case Sleep => if pick == Over then Stop(s, None) else s.(d := Top(None))
    case Top(p) => if Done(s) then Stop(s, p) else s.(d := Request(p))
    case Request(p) =>
      (match pick
       case Over => Stop(s, p)
       case No => s.(d := Retry(p))
       case Yes => s.(d := Publish(p, s.nextConn), nextConn := s.nextConn + 1, open := s.open + {s.nextConn}))
    case Retry(p) => if pick == Over then Stop(s, p) else s.(d := Top(p))
    // The stream may fail to be wrapped; replaceWorkConn refuses once the proxy is closed.
    case Publish(p, conn) =>
      if pick == No then s.(open := s.open - {conn}, d := Top(p))
      else if Done(s) then Stop(s.(open := s.open - {conn}), p)
      else s.(workConn := Some(conn), d := if s.workConn.Some? then CloseOld(p, conn, s.workConn.value) else Spawn(p, conn))
    case CloseOld(p, conn, previous) => s.(open := s.open - {previous}, d := Spawn(p, conn))
    case Spawn(p, conn) =>
      s.(cycle := Some(Cycle(conn, false, Reading, if p.Some? then Check(p.value) else Ask)),
         workers := s.workers + 2, d := Watch)
    case Watch =>
      if pick == Yes then s.(reconnectCh := s.reconnectCh - 1, d := Cancel(false)) else s.(d := Cancel(true))
    case Cancel(b) =>
      s.(cycle := Some(s.cycle.value.(canceled := true)), open := s.open - {s.cycle.value.conn}, d := Join(b))
    case Join(b) =>
      var p := s.cycle.value.sender.pending;
      if b then Stop(s.(cycle := None), p) else s.(cycle := None, d := Top(p))
  }

  // ---------------------------------------------------------------------------------------
  // Reader and sender of the cycle

  predicate CanRead(s: State, pick: Pick) {
    && s.cycle.Some?
    && !s.cycle.value.reader.ReaderDone?
    && (s.cycle.value.reader.Notify? ==> if pick == Yes then s.reconnectCh < RECONNECT_CAPACITY else Done(s))
    && (s.cycle.value.reader.Delivering? && pick != Yes ==> Done(s))
  }

  function Read(s: State, pick: Pick): State
    requires CanRead(s, pick)
  {
    var x := s.cycle.value;
    match x.reader
    case Reading => s.(cycle := Some(x.(reader := if pick == Yes then Delivering else if pick == No then CloseConn else Reading)))
    case Delivering => s.(cycle := Some(x.(reader := if pick == Yes then Reading else Quit)))
    case CloseConn => s.(cycle := Some(x.(reader := Notify)), open := s.open - {x.conn})
    case Quit => Leave(s.(cycle := Some(x.(reader := ReaderDone)), open := s.open - {x.conn}))
    case Notify =>
      Leave(s.(cycle := Some(x.(reader := ReaderDone)), reconnectCh := if pick == Yes then s.reconnectCh + 1 else s.reconnectCh))
  }

  /** A worker leaves the WaitGroup. */
  function Leave(s: State): State {
    s.(workers := if s.workers > 0 then s.workers - 1 else 0)
  }

  predicate SenderStops(s: State) {
    s.cycle.Some? && (s.cycle.value.canceled || Done(s))
  }

  predicate CanSend(s: State, pick: Pick) {
    && s.cycle.Some?
    && !s.cycle.value.sender.SenderDone?
    && (s.cycle.value.sender.Ask? ==> if pick == Yes then s.sendCh != [] else SenderStops(s))
  }

  function Send(s: State, pick: Pick): State
    requires CanSend(s, pick)
  {
    var x := s.cycle.value;
    match x.sender
    case Ask =>
      if pick == Yes then s.(sendCh := s.sendCh[1..], cycle := Some(x.(sender := Check(s.sendCh[0]))))
      else s.(cycle := Some(x.(sender := Return(None))))
    case Check(p) => s.(cycle := Some(x.(sender := if SenderStops(s) then Return(Some(p)) else Write(p))))
    case Write(p) =>
      if pick == Yes then s.(accepted := s.accepted + [p], cycle := Some(x.(sender := Ask)))
      else s.(open := s.open - {x.conn}, cycle := Some(x.(sender := Return(Some(p)))))
    case Return(p) => Leave(s.(cycle := Some(x.(sender := SenderDone(p)))))
  }

  // ---------------------------------------------------------------------------------------
  // Actions

  datatype Action =
    | Enqueue(packet: Packet)
    | StopForwarding
    | DispatchStep(pick: Pick)
    | ReadStep(pick: Pick)
    | SendStep(pick: Pick)
    | InitiateShutdown
    | CloseConns
    | CloseReturns

  predicate Enabled(s: State, act: Action) {
    match act
    case Enqueue(_) => s.forwarding && |s.sendCh| < SEND_CAPACITY
    case StopForwarding => s.forwarding
    case DispatchStep(pick) => CanDispatch(s, pick)
    case ReadStep(pick) => CanRead(s, pick)
    case SendStep(pick) => CanSend(s, pick)
    case InitiateShutdown => s.shutdown.Open?
    case CloseConns => s.shutdown.Closing?
    case CloseReturns => s.shutdown.Shut? && s.workers == 0
  }

  function Apply(s: State, act: Action): State
    requires Enabled(s, act)
  {
    match act
    case Enqueue(p) => s.(sendCh := s.sendCh + [p], enqueued := s.enqueued + [p])
    case StopForwarding => Leave(s.(forwarding := false))
    case DispatchStep(pick) => Dispatch(s, pick)
    case ReadStep(pick) => Read(s, pick)
    case SendStep(pick) => Send(s, pick)
    case InitiateShutdown => s.(shutdown := Closing(s.workConn), workConn := None)
    case CloseConns =>
      s.(shutdown := Shut, open := if s.shutdown.conn.Some? then s.open - {s.shutdown.conn.value} else s.open)
    // releasePort runs once however many callers Close has
    case CloseReturns => s.(closed := true, releases := if s.releases == 0 then 1 else s.releases)
  }

  ghost predicate IsRun(states: seq<State>, actions: seq<Action>) {
    && |states| == |actions| + 1
    && states[0] == Init
    && forall i | 0 <= i < |actions| :: Enabled(states[i], actions[i]) && states[i + 1] == Apply(states[i], actions[i])
  }

  // ---------------------------------------------------------------------------------------
  // Invariant

  function HeldBy(x: Sender): Option<Packet> {
    match x
    case Ask => None
    case Check(p) => Some(p)
    case Write(p) => Some(p)
    case Return(p) => p
    case SenderDone(p) => p
  }

  function PendingOf(d: Dispatcher): Option<Packet> {
    match d
    case Top(p) => p
    case Request(p) => p
    case Retry(p) => p
    case Publish(p, _) => p
    case CloseOld(p, _, _) => p
    case Spawn(p, _) => p
    case Stopped(p) => p
    case _ => None
  }

  /** The packet that is neither queued nor accepted. */
  function InFlight(s: State): Option<Packet> {
    if s.cycle.Some? then HeldBy(s.cycle.value.sender) else PendingOf(s.d)
  }

  /** Goroutines the WaitGroup counts. */
  function Live(s: State): nat {
    Bit(!s.d.Stopped?) + Bit(s.forwarding)
    + (if s.cycle.Some? then Bit(!s.cycle.value.reader.ReaderDone?) + Bit(!s.cycle.value.sender.SenderDone?) else 0)
  }

  predicate InCycle(d: Dispatcher) {
    d.Watch? || d.Cancel? || d.Join?
  }

  /** The connection dialled for the next cycle. */
  function NextConn(d: Dispatcher): set<Conn> {
    match d
    case Publish(_, conn) => {conn}
    case CloseOld(_, conn, previous) => {conn, previous}
    case Spawn(_, conn) => {conn}
    case _ => {}
  }

  /** Who is going to close each open connection. */
  function Owned(s: State): set<Conn> {
    NextConn(s.d)
    + (if s.cycle.Some? && (s.d.Watch? || s.d.Cancel?) then {s.cycle.value.conn} else {})
    + (if s.workConn.Some? then {s.workConn.value} else {})
    + (if s.shutdown.Closing? && s.shutdown.conn.Some? then {s.shutdown.conn.value} else {})
  }

  predicate Accounted(s: State) {
    s.accepted + ToSeq(InFlight(s)) + s.sendCh == s.enqueued
  }

  predicate Inv(s: State) {
    Accounted(s) && Orderly(s)
  }

  predicate Orderly(s: State) {
    && (s.cycle.Some? <==> InCycle(s.d))
    && s.workers == Live(s)
    && Tokens(s)
    && s.open <= Owned(s)
    && (s.d.Stopped? ==> Done(s))
    && (Done(s) ==> s.workConn == None)
    && (s.closed ==> s.d.Stopped? && s.shutdown.Shut? && !s.forwarding)
    && s.releases == Bit(s.closed)
  }

  /** A token in the channel is this cycle's own, and the cycle it ends has lost its reader. */
  predicate Tokens(s: State) {
    && s.reconnectCh <= RECONNECT_CAPACITY
    && (s.reconnectCh > 0 ==> s.d.Watch? || s.d == Cancel(true) || s.d == Join(true) || s.d.Stopped?)
    && (s.cycle.Some? && s.reconnectCh > 0 ==> s.cycle.value.reader.ReaderDone?)
    && (s.cycle.Some? && (s.d == Cancel(false) || s.d == Join(false)) ==> s.cycle.value.reader.ReaderDone?)
    && (s.d == Cancel(true) || s.d == Join(true) ==> Done(s))
  }

  lemma DispatchKeeps(s: State, pick: Pick)
    requires Orderly(s) && CanDispatch(s, pick)
    ensures Orderly(Dispatch(s, pick))
  {
    if InCycle(s.d) { CycleEndKeeps(s, pick); } else { BetweenKeeps(s, pick); }
  }

  lemma CycleEndKeeps(s: State, pick: Pick)
    requires Orderly(s) && CanDispatch(s, pick) && InCycle(s.d)
    ensures Orderly(Dispatch(s, pick))
  {
  }

  lemma BetweenKeeps(s: State, pick: Pick)
    requires Orderly(s) && CanDispatch(s, pick) && !InCycle(s.d)
    ensures Orderly(Dispatch(s, pick))
  {
  }

  lemma DispatchAccounts(s: State, pick: Pick)
    requires Accounted(s) && CanDispatch(s, pick) && (s.cycle.Some? <==> InCycle(s.d))
    ensures Accounted(Dispatch(s, pick))
  {
    DispatchCarries(s, pick);
    hide CanDispatch, Dispatch, InFlight;
  }

  /** The dispatcher touches no queue, and hands the packet in flight on. */
  lemma DispatchCarries(s: State, pick: Pick)
    requires CanDispatch(s, pick) && (s.cycle.Some? <==> InCycle(s.d))
    ensures var s' := Dispatch(s, pick);
            InFlight(s') == InFlight(s) && s'.sendCh == s.sendCh && s'.accepted == s.accepted && s'.enqueued == s.enqueued
  {
    hide Dispatch, InFlight;
    if InCycle(s.d) { CycleEndCarries(s, pick); } else { BetweenCarries(s, pick); }
  }

  lemma CycleEndCarries(s: State, pick: Pick)
    requires CanDispatch(s, pick) && s.cycle.Some? && InCycle(s.d)
    ensures var s' := Dispatch(s, pick);
            InFlight(s') == InFlight(s) && s'.sendCh == s.sendCh && s'.accepted == s.accepted && s'.enqueued == s.enqueued
  {
  }

  lemma BetweenCarries(s: State, pick: Pick)
    requires CanDispatch(s, pick) && s.cycle == None && !InCycle(s.d)
    ensures var s' := Dispatch(s, pick);
            InFlight(s') == InFlight(s) && s'.sendCh == s.sendCh && s'.accepted == s.accepted && s'.enqueued == s.enqueued
  {
  }

  lemma ReadKeeps(s: State, pick: Pick)
    requires Orderly(s) && CanRead(s, pick)
    ensures Orderly(Read(s, pick))
    ensures Accounted(s) ==> Accounted(Read(s, pick))
  {
  }

  lemma SenderMoves(s: State, s': State)
    requires Orderly(s) && s.cycle.Some? && s'.cycle.Some?
    requires s' == s.(cycle := s'.cycle, open := s'.open, workers := s'.workers, sendCh := s'.sendCh, accepted := s'.accepted)
    requires s'.cycle.value == s.cycle.value.(sender := s'.cycle.value.sender)
    requires !s.cycle.value.sender.SenderDone?
    requires s'.workers == if s'.cycle.value.sender.SenderDone? then s.workers - 1 else s.workers
    requires s'.open <= s.open
    ensures Orderly(s')
  {
  }

  lemma SendKeeps(s: State, pick: Pick)
    requires Orderly(s) && CanSend(s, pick)
    ensures Orderly(Send(s, pick))
  {
    assert s.workers > 0;
    hide Orderly;
    SenderMoves(s, Send(s, pick));
  }

  lemma SendAccounts(s: State, pick: Pick)
    requires Accounted(s) && CanSend(s, pick)
    ensures Accounted(Send(s, pick))
  {
    var s' := Send(s, pick);
    match s.cycle.value.sender
    case Ask =>
      if pick == Yes {
        assert ToSeq(InFlight(s)) + s.sendCh == ToSeq(InFlight(s')) + s'.sendCh;
      }
    case Write(p) =>
      if pick == Yes {
        assert s.accepted + ToSeq(InFlight(s)) == s'.accepted + ToSeq(InFlight(s'));
      }
    case _ =>
  }

  lemma InCycleIffCycle(s: State)
    requires Orderly(s)
    ensures s.cycle.Some? <==> InCycle(s.d)
  {
  }

  lemma EnqueueKeeps(s: State, p: Packet)
    requires Inv(s)
    ensures Inv(s.(sendCh := s.sendCh + [p], enqueued := s.enqueued + [p]))
  {
    assert s.accepted + ToSeq(InFlight(s)) + (s.sendCh + [p]) == s.enqueued + [p];
  }

  lemma ShutdownKeeps(s: State, act: Action)
    requires Orderly(s) && Enabled(s, act)
    requires act.StopForwarding? || act.InitiateShutdown? || act.CloseConns? || act.CloseReturns?
    ensures Orderly(Apply(s, act))
    ensures Accounted(s) ==> Accounted(Apply(s, act))
  {
  }

  lemma ActionKeeps(s: State, act: Action)
    requires Inv(s) && Enabled(s, act)
    ensures Inv(Apply(s, act))
  {
    hide Orderly, Accounted;
    match act
    case Enqueue(p) => EnqueueKeeps(s, p);
    case DispatchStep(pick) => InCycleIffCycle(s); DispatchKeeps(s, pick); DispatchAccounts(s, pick);
    case ReadStep(pick) => ReadKeeps(s, pick);
    case SendStep(pick) => SendKeeps(s, pick); SendAccounts(s, pick);
    case _ => ShutdownKeeps(s, act);
  }

  lemma {:induction false} RunKeepsInv(states: seq<State>, actions: seq<Action>, i: nat)
    requires IsRun(states, actions) && i < |states|
    ensures Inv(states[i])
  {
    if i != 0 {
      RunKeepsInv(states, actions, i - 1);
      ActionKeeps(states[i - 1], actions[i - 1]);
    }
  }

  // ---------------------------------------------------------------------------------------
  // Theorems

  /**
   Over any number of reconnects, accepted writes, the packet in flight and the queue are the packets
   enqueued, in order. A packet in flight is given up only by a dispatcher that stops at shutdown.
   */
  lemma Delivery(states: seq<State>, actions: seq<Action>, i: nat)
    requires IsRun(states, actions) && i < |states|
    ensures states[i].accepted + ToSeq(InFlight(states[i])) + states[i].sendCh == states[i].enqueued
    ensures states[i].accepted <= states[i].enqueued
    ensures states[i].d.Stopped? ==> Done(states[i])
  {
    RunKeepsInv(states, actions, i);
    var s := states[i];
    assert s.accepted + (ToSeq(InFlight(s)) + s.sendCh) == s.enqueued;
  }

  /** A step of anyone but the dispatcher starts no cycle. */
  lemma StartsCycle(s: State, act: Action)
    requires Orderly(s) && Enabled(s, act) && Apply(s, act).cycle.Some?
    requires s.cycle == None || s.cycle.value.conn != Apply(s, act).cycle.value.conn
    ensures s.cycle == None && s.d.Spawn? && act.DispatchStep?
  {
  }

  /** A cycle begins only after the one before has ended, with both its workers gone and no stale token. */
  lemma CyclesAreExclusive(states: seq<State>, actions: seq<Action>, i: nat)
    requires IsRun(states, actions) && i < |actions|
    requires states[i + 1].cycle.Some?
    requires states[i].cycle == None || states[i].cycle.value.conn != states[i + 1].cycle.value.conn
    ensures states[i].cycle == None && states[i].d.Spawn?
    ensures states[i].reconnectCh == 0
    ensures states[i].workers == 1 + Bit(states[i].forwarding)
    ensures states[i + 1].cycle.value.sender == if states[i].d.pending.Some? then Check(states[i].d.pending.value) else Ask
  {
    RunKeepsInv(states, actions, i);
    StartsCycle(states[i], actions[i]);
  }

  /** The dispatcher leaves its wait for a cycle only when the cycle's reader has left or at shutdown. */
  lemma WakesAreGenuine(states: seq<State>, actions: seq<Action>, i: nat)
    requires IsRun(states, actions) && i < |actions|
    requires states[i].d.Watch? && states[i + 1].d != states[i].d
    ensures states[i].cycle.Some?
    ensures states[i].cycle.value.reader.ReaderDone? || Done(states[i])
    ensures states[i + 1].d == Cancel(false) ==> states[i].cycle.value.reader.ReaderDone? && states[i + 1].reconnectCh == 0
  {
    RunKeepsInv(states, actions, i);
    LeavesWatch(states[i], actions[i]);
  }

  lemma LeavesWatch(s: State, act: Action)
    requires Enabled(s, act) && s.d.Watch? && Apply(s, act).d != s.d
    ensures act.DispatchStep? && act.pick != No
  {
  }

  /** When Close has returned no worker runs, no connection is open, and the port was released once. */
  lemma CloseIsFinal(states: seq<State>, actions: seq<Action>, i: nat)
    requires IsRun(states, actions) && i < |states| && states[i].closed
    ensures states[i].workers == 0 && states[i].cycle == None && states[i].open == {} && states[i].releases == 1
  {
    RunKeepsInv(states, actions, i);
  }

  /** Workers are counted exactly, so the count cannot reach zero while one may still add another. */
  lemma WorkersCounted(states: seq<State>, actions: seq<Action>, i: nat)
    requires IsRun(states, actions) && i < |actions|
    ensures states[i].workers == Live(states[i])
    ensures states[i + 1].workers > states[i].workers ==> states[i].workers > 0 && !states[i].closed
  {
    RunKeepsInv(states, actions, i);
  }

  // ---------------------------------------------------------------------------------------
  // The proxy object

  class Proxy {
    var currentConn: Option<Conn>
    var isClosed: bool

    /** doneCh is closed in the section that sets isClosed. */
    ghost predicate Shows(s: State)
      reads this
    {
      currentConn == s.workConn && isClosed == Done(s)
    }

    constructor ()
      ensures Shows(Init)
    {
      currentConn, isClosed := None, false;
    }

    /** replaceWorkConn under the lock: the connection to close afterwards is the new one or the one before it. */
    method ReplaceWorkConn(conn: Conn, ghost s: State, ghost p: Option<Packet>) returns (ok: bool, previous: Option<Conn>)
      requires Shows(s) && s.d == Publish(p, conn)
      modifies this
      ensures Shows(Dispatch(s, Yes))
      ensures Dispatch(s, Yes).d ==
                if !ok then Stopped(p) else if previous.Some? then CloseOld(p, conn, previous.value) else Spawn(p, conn)
    {
      if isClosed { return false, None; }
      previous := currentConn;
      currentConn := Some(conn);
      return true, previous;
    }

    /** The section of initiateShutdown under the lock, and the connection to close after it. */
    method ShutDown(ghost s: State) returns (conn: Option<Conn>)
      requires Shows(s) && s.shutdown.Open?
      modifies this
      ensures Shows(Apply(s, InitiateShutdown)) && Apply(s, InitiateShutdown).shutdown == Closing(conn)
    {
      isClosed := true;
      conn := currentConn;
      currentConn := None;
    }
  }
}
