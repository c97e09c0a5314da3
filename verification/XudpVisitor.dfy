/**
 The data plane of the XUDP visitor (client/visitor/xudp.go, pkg/xudp/state/state.go).

 Application packets queue in `sendCh`. The dispatcher opens a session on the first of them and
 moves the queue over P2P and relay transports in turn; each transport runs with a reader and a
 sender of its own, and a packet taken from the queue but not sent is handed to the next one.

 The step system has one action per channel operation, critical section or call on a transport.
 Sending, receiving and dialling succeed or fail as the environment likes.
 */
module XudpVisitor {
  import opened Prelude

  type Packet = nat
  type Conn = nat
  type ActID = nat

  const SEND_CAPACITY := 1024

  /** What became of a packet that left the queue for good. */
  datatype Fate =
    | Accepted(packet: Packet, generation: nat, epoch: nat)
    | Oversized(packet: Packet)
    | Abandoned(packet: Packet)

  datatype Outcome = Sent | TooLarge | Failed

  datatype Runner =
    | Register
    | FirstGuard
    | FirstSend
    | FirstSent
    | Watch
    | Join
    | Returned(pending: Option<Packet>)

  datatype Reader = NotReading | ReadGuard | Receive | Received(got: Packet) | Deliver(got: Packet) | ReadDone

  datatype Sender =
    | NotSending
    | Select
    | Taken(packet: Packet)
    | Guarded(packet: Packet)
    | Sending(packet: Packet)
    | Posted
    | SendDone

  /** One call of runActiveTransport. `ctxDone` is set when its transport is closed. */
  datatype Act = Act(
    conn: Conn, generation: nat, epoch: nat, first: Option<Packet>,
    canceled: bool, ctxDone: bool, registered: bool,
    runner: Runner, reader: Reader, sender: Sender, handoff: Option<Packet>)

  /** Where the dispatcher goroutine is. */
  datatype Dispatcher =
    | Idle
    | Top(g: nat, pending: Option<Packet>)
    | DialP2P(g: nat, pending: Option<Packet>)
    | BeginP2P(g: nat, pending: Option<Packet>, conn: Conn)
    | RunP2P(g: nat, act: ActID, recovered: bool)
    | Between(g: nat, pending: Option<Packet>)
    | DialRelay(g: nat, pending: Option<Packet>)
    | RelayWait(g: nat, act: ActID)
    | Probe(g: nat, act: ActID)
    | JoinRelay(g: nat, act: ActID, candidate: Option<Conn>)
    | Switch(g: nat, pending: Option<Packet>, conn: Conn)
    | SwitchBegin(g: nat, pending: Option<Packet>, conn: Conn)
    | Backoff(g: nat, pending: Option<Packet>)
    | Stopped

  /** Where Close is. */
  datatype Closing = NotClosing | RunClosers(left: set<ActID>) | AwaitWorkers | CloseReturned

  datatype State = State(
    sendCh: seq<Packet>,
    readCh: seq<(Packet, nat, nat)>,
    generation: nat,
    epoch: nat,
    d: Dispatcher,
    acts: map<ActID, Act>,
    nextAct: ActID,
    nextConn: Conn,
    open: set<Conn>,
    closed: bool,
    forwarding: bool,
    closing: Closing,
    // history
    enqueued: seq<Packet>,
    fates: seq<Fate>)

  const Init := State([], [], 0, 0, Idle, map[], 0, 0, {}, false, true, NotClosing, [], [])

  // ---------------------------------------------------------------------------------------
  // The epoch machine (pkg/xudp/state)

  predicate IsCurrent(s: State, generation: nat, epoch: nat) {
    generation == s.generation && epoch == s.epoch
  }

  function BeginSession(s: State): State {
    s.(generation := s.generation + 1, epoch := 0)
  }

  // ---------------------------------------------------------------------------------------
  // Helpers

  function Settle(s: State, f: Fate): State {
    s.(fates := s.fates + [f])
  }

  /** The session ends with the visitor; a packet still pending goes with it. */
  function EndSession(s: State, pending: Option<Packet>): State {
    (if pending.Some? then Settle(s, Abandoned(pending.value)) else s).(d := Idle)
  }

  function Put(s: State, a: ActID, x: Act): State {
    s.(acts := s.acts[a := x])
  }

  /** closeTransport. */
  function CloseAct(s: State, a: ActID): State
    requires a in s.acts
  {
    Put(s, a, s.acts[a].(ctxDone := true)).(open := s.open - {s.acts[a].conn})
  }

  /** BeginTransport for `conn`, and the call of runActiveTransport on it. */
  function Launch(s: State, g: nat, conn: Conn, pending: Option<Packet>, d: Dispatcher): State {
    s.(epoch := s.epoch + 1, nextAct := s.nextAct + 1, d := d,
       acts := s.acts[s.nextAct :=
         Act(conn, g, s.epoch + 1, pending, false, false, false, Register, NotReading, NotSending, None)])
  }

  function Dialled(s: State): State {
    s.(nextConn := s.nextConn + 1, open := s.open + {s.nextConn})
  }

  // ---------------------------------------------------------------------------------------
  // Dispatcher

  /**
   How a choice that is not the dispatcher's own turns out: a dial succeeds or not, a select takes a
   packet or a result (`Yes`), the close signal (`Shut`), or the recovery timer (`No`).
   */
  datatype Pick = Yes | No | Shut

  predicate CanDispatch(s: State, pick: Pick) {
    match s.d
    case Idle => (pick == Yes && s.sendCh != []) || (pick == Shut && s.closed)
    case Top(_, _) => true
    case DialP2P(_, _) => true
    case BeginP2P(_, _, _) => true
    case RunP2P(_, a, _) => a in s.acts && s.acts[a].runner.Returned?
    case Between(_, _) => true
    case DialRelay(_, _) => true
    case RelayWait(_, a) => a in s.acts && (pick == Yes ==> s.acts[a].runner.Returned?) && (pick == Shut ==> s.closed)
    case Probe(_, a) => a in s.acts
    case JoinRelay(_, a, _) => a in s.acts && s.acts[a].runner.Returned?
    case Switch(_, _, _) => true
    case SwitchBegin(_, _, _) => true
    case Backoff(_, _) => true
    case Stopped => false
  }

  function Dispatch(s: State, pick: Pick): State
    requires CanDispatch(s, pick)
  {
    match s.d
    case Idle =>
      if pick == Shut then s.(d := Stopped)
      else BeginSession(s).(sendCh := s.sendCh[1..], d := Top(s.generation + 1, Some(s.sendCh[0])))
    case Top(g, p) => if s.closed then EndSession(s, p) else s.(d := DialP2P(g, p))
    case DialP2P(g, p) => if pick == Yes then Dialled(s).(d := BeginP2P(g, p, s.nextConn)) else s.(d := Between(g, p))
    case BeginP2P(g, p, conn) =>
      if g != s.generation then EndSession(s.(open := s.open - {conn}), p)
      else Launch(s, g, conn, p, RunP2P(g, s.nextAct, false))
    case RunP2P(g, a, recovered) =>
      var p := s.acts[a].runner.pending;
      s.(acts := s.acts - {a}, d := if recovered then Top(g, p) else Between(g, p))
    case Between(g, p) => if s.closed then EndSession(s, p) else s.(d := DialRelay(g, p))
    case DialRelay(g, p) =>
      if pick != Yes then s.(d := Backoff(g, p))
      else if g != s.generation then s.(d := Backoff(g, p))
      else Launch(Dialled(s), g, s.nextConn, p, RelayWait(g, s.nextAct))
    case RelayWait(g, a) =>
      (match pick
       case Yes => s.(acts := s.acts - {a}, d := Backoff(g, s.acts[a].runner.pending))
       case Shut => Put(s, a, s.acts[a].(canceled := true)).(d := JoinRelay(g, a, None))
       case No => s.(d := Probe(g, a)))
    case Probe(g, a) =>
      if pick != Yes then s.(d := RelayWait(g, a))
      else Put(Dialled(s), a, s.acts[a].(canceled := true)).(d := JoinRelay(g, a, Some(s.nextConn)))
    case JoinRelay(g, a, candidate) =>
      var p := s.acts[a].runner.pending;
      s.(acts := s.acts - {a}, d := if candidate.Some? then Switch(g, p, candidate.value) else Backoff(g, p))
    case Switch(g, p, conn) =>
      if s.closed then s.(open := s.open - {conn}, d := Backoff(g, p)) else s.(d := SwitchBegin(g, p, conn))
    case SwitchBegin(g, p, conn) =>
      if g != s.generation then s.(open := s.open - {conn}, d := Backoff(g, p))
      else Launch(s, g, conn, p, RunP2P(g, s.nextAct, true))
    case Backoff(g, p) => if s.closed then EndSession(s, p) else s.(d := Top(g, p))
  }

  // ---------------------------------------------------------------------------------------
  // One transport

  predicate Stopping(s: State, x: Act) {
    x.canceled || x.ctxDone || s.closed
  }

  predicate CanRun(s: State, a: ActID) {
    a in s.acts &&
    match s.acts[a].runner
    case Register => true
    case FirstGuard => true
    case FirstSend => s.acts[a].first.Some?
    case FirstSent => true
    case Watch => Stopping(s, s.acts[a]) || s.acts[a].reader.ReadDone? || s.acts[a].sender.SendDone?
    case Join => s.acts[a].reader.ReadDone? && s.acts[a].sender.SendDone?
    case Returned(_) => false
  }

  function Start(s: State, a: ActID): State
    requires a in s.acts
  {
    Put(s, a, s.acts[a].(first := None, runner := Watch, reader := ReadGuard, sender := Select))
  }

  /** closeTransport and return `pending` to the dispatcher. */
  function Return(s: State, a: ActID, pending: Option<Packet>): State
    requires a in s.acts
  {
    var s1 := CloseAct(s, a);
    Put(s1, a, s1.acts[a].(runner := Returned(pending), first := None, handoff := None, registered := false))
  }

  function Run(s: State, a: ActID, outcome: Outcome): State
    requires CanRun(s, a)
  {
    var x := s.acts[a];
    match x.runner
    case Register =>
      if s.closed then Return(s, a, x.first) else Put(s, a, x.(registered := true, runner := FirstGuard))
    case FirstGuard =>
      if x.first == None then Start(s, a)
      else if !IsCurrent(s, x.generation, x.epoch) then Return(s, a, x.first)
      else Put(s, a, x.(runner := FirstSend))
    case FirstSend =>
      (match outcome
       case Sent => Put(Settle(s, Accepted(x.first.value, x.generation, x.epoch)), a, x.(runner := FirstSent, first := None))
       case TooLarge => Start(Settle(s, Oversized(x.first.value)), a)
       case Failed => Return(s, a, x.first))
    case FirstSent => if IsCurrent(s, x.generation, x.epoch) then Start(s, a) else Return(s, a, None)
    case Watch =>
      var s1 := CloseAct(s, a);
      Put(s1, a, s1.acts[a].(runner := Join))
    case Join => Return(s, a, x.handoff)
  }

  predicate CanRead(s: State, a: ActID) {
    a in s.acts && !s.acts[a].reader.NotReading? && !s.acts[a].reader.ReadDone?
  }

  /** `got` is what the transport delivers, if anything; `room` whether readCh takes it before the context ends. */
  function Read(s: State, a: ActID, got: Option<Packet>, room: bool): State
    requires CanRead(s, a)
  {
    var x := s.acts[a];
    match x.reader
    case ReadGuard => Put(s, a, x.(reader := if IsCurrent(s, x.generation, x.epoch) then Receive else ReadDone))
    case Receive => Put(s, a, x.(reader := if got.Some? then Received(got.value) else ReadDone))
    case Received(p) => Put(s, a, x.(reader := if IsCurrent(s, x.generation, x.epoch) then Deliver(p) else ReadDone))
    case Deliver(p) =>
      if room then Put(s, a, x.(reader := ReadGuard)).(readCh := s.readCh + [(p, x.generation, x.epoch)])
      else if x.ctxDone || s.closed then Put(s, a, x.(reader := ReadGuard))
      else s
  }

  /** The sender must stop rather than go on with the transport. */
  predicate SenderStops(s: State, x: Act) {
    Stopping(s, x) || x.reader.ReadDone?
  }

  predicate CanSend(s: State, a: ActID, take: bool) {
    a in s.acts &&
    var x := s.acts[a];
    match x.sender
    case NotSending => false
    case Select => if take then s.sendCh != [] else SenderStops(s, x)
    case Taken(_) => true
    case Guarded(_) => true
    case Sending(_) => true
    case Posted => true
    case SendDone => false
  }

  function Send(s: State, a: ActID, take: bool, outcome: Outcome): State
    requires CanSend(s, a, take)
  {
    var x := s.acts[a];
    match x.sender
    case Select =>
      if take then Put(s.(sendCh := s.sendCh[1..]), a, x.(sender := Taken(s.sendCh[0])))
      else Put(s, a, x.(sender := SendDone))
    case Taken(p) =>
      Put(s, a, if SenderStops(s, x) then x.(sender := SendDone, handoff := Some(p)) else x.(sender := Guarded(p)))
    case Guarded(p) =>
      Put(s, a, if IsCurrent(s, x.generation, x.epoch) then x.(sender := Sending(p))
      else x.(sender := SendDone, handoff := Some(p)))
    case Sending(p) =>
      (match outcome
       case Sent => Put(Settle(s, Accepted(p, x.generation, x.epoch)), a, x.(sender := Posted))
       case TooLarge => Put(Settle(s, Oversized(p)), a, x.(sender := Select))
       case Failed => Put(s, a, x.(sender := SendDone, handoff := Some(p))))
    case Posted => Put(s, a, x.(sender := if IsCurrent(s, x.generation, x.epoch) then Select else SendDone))
  }

  // ---------------------------------------------------------------------------------------
  // Actions

  datatype Action =
    | Enqueue(packet: Packet)
    | StopForwarding
    | DispatchStep(pick: Pick)
    | RunStep(a: ActID, outcome: Outcome)
    | ReadStep(a: ActID, got: Option<Packet>, room: bool)
    | SendStep(a: ActID, take: bool, outcome: Outcome)
    | Watchdog(a: ActID)
    | BeginClose
    | CloserStep(a: ActID)
    | CloseStep

  predicate Enabled(s: State, act: Action) {
    match act
    case Enqueue(_) => s.forwarding && |s.sendCh| < SEND_CAPACITY
    case StopForwarding => s.forwarding
    case DispatchStep(pick) => CanDispatch(s, pick)
    case RunStep(a, _) => CanRun(s, a)
    case ReadStep(a, _, _) => CanRead(s, a)
    case SendStep(a, take, _) => CanSend(s, a, take)
    case Watchdog(a) => a in s.acts && !s.acts[a].runner.Returned? && !s.acts[a].runner.Register? && Stopping(s, s.acts[a])
    case BeginClose => s.closing == NotClosing
    case CloserStep(a) => s.closing.RunClosers? && a in s.closing.left
    case CloseStep =>
      || (s.closing.RunClosers? && s.closing.left == {})
      || (s.closing == AwaitWorkers && s.d == Stopped && !s.forwarding)
  }

  function Apply(s: State, act: Action): State
    requires Enabled(s, act)
  {
    match act
    case Enqueue(p) => s.(sendCh := s.sendCh + [p], enqueued := s.enqueued + [p])
    case StopForwarding => s.(forwarding := false)
    case DispatchStep(pick) => Dispatch(s, pick)
    case RunStep(a, outcome) => Run(s, a, outcome)
    case ReadStep(a, got, room) => Read(s, a, got, room)
    case SendStep(a, take, outcome) => Send(s, a, take, outcome)
    case Watchdog(a) => CloseAct(s, a)
    case BeginClose =>
      s.(closed := true, closing := RunClosers(set a | a in s.acts && s.acts[a].registered))
    case CloserStep(a) =>
      (if a in s.acts then CloseAct(s, a) else s).(closing := RunClosers(s.closing.left - {a}))
    case CloseStep => s.(closing := if s.closing.RunClosers? then AwaitWorkers else CloseReturned)
  }

  ghost predicate IsRun(states: seq<State>, actions: seq<Action>) {
    && |states| == |actions| + 1
    && states[0] == Init
    && forall i | 0 <= i < |actions| :: Enabled(states[i], actions[i]) && states[i + 1] == Apply(states[i], actions[i])
  }
}
