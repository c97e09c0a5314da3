/** What the XUDP visitor guarantees about its packets and transports, over every run. */
module XudpVisitorTheorems {
  import opened Prelude
  import opened XudpVisitor

  /** The transport the dispatcher is waiting on. */
  function ActOf(d: Dispatcher): Option<ActID> {
    match d
    case RunP2P(_, a, _) => Some(a)
    case RelayWait(_, a) => Some(a)
    case Probe(_, a) => Some(a)
    case JoinRelay(_, a, _) => Some(a)
    case _ => None
  }

  /** A dialled connection the dispatcher holds and has not launched. */
  function Candidate(d: Dispatcher): Option<Conn> {
    match d
    case BeginP2P(_, _, conn) => Some(conn)
    case JoinRelay(_, _, candidate) => candidate
    case Switch(_, _, conn) => Some(conn)
    case SwitchBegin(_, _, conn) => Some(conn)
    case _ => None
  }

  function PendingOf(d: Dispatcher): Option<Packet> {
    match d
    case Top(_, p) => p
    case DialP2P(_, p) => p
    case BeginP2P(_, p, _) => p
    case Between(_, p) => p
    case DialRelay(_, p) => p
    case Switch(_, p, _) => p
    case SwitchBegin(_, p, _) => p
    case Backoff(_, p) => p
    case _ => None
  }

  predicate InSession(d: Dispatcher) {
    !d.Idle? && !d.Stopped?
  }

  /** The packet a transport has taken from the queue, or was handed, and not yet settled. */
  function Carried(x: Act): Option<Packet> {
    match x.runner
    case Returned(p) => p
    case Watch => Held(x)
    case Join => Held(x)
    case _ => x.first
  }

  function Held(x: Act): Option<Packet> {
    match x.sender
    case Taken(p) => Some(p)
    case Guarded(p) => Some(p)
    case Sending(p) => Some(p)
    case _ => x.handoff
  }

  /** The packet that is neither queued nor settled, wherever it is. */
  function InFlight(s: State): Option<Packet> {
    var a := ActOf(s.d);
    if a.Some? && a.value in s.acts then Carried(s.acts[a.value]) else PendingOf(s.d)
  }

  function Settled(fates: seq<Fate>): seq<Packet> {
    seq(|fates|, i requires 0 <= i < |fates| => fates[i].packet)
  }

  /** A transport in progress is at one consistent point of runActiveTransport. */
  predicate ActOk(s: State, x: Act) {
    && x.generation == s.generation && x.epoch == s.epoch
    && x.conn < s.nextConn
    && (x.ctxDone <==> x.conn !in s.open)
    && match x.runner
       case Watch => x.first == None && !x.reader.NotReading? && !x.sender.NotSending? && (x.handoff.Some? ==> x.sender.SendDone?)
       case Join => x.first == None && !x.reader.NotReading? && !x.sender.NotSending? && (x.handoff.Some? ==> x.sender.SendDone?)
       case Returned(_) => x.ctxDone && (x.reader.NotReading? || x.reader.ReadDone?) && (x.sender.NotSending? || x.sender.SendDone?)
       case FirstSent => x.first == None && x.reader.NotReading? && x.sender.NotSending? && x.handoff == None
       case FirstSend => x.first.Some? && x.reader.NotReading? && x.sender.NotSending? && x.handoff == None
       case _ => x.reader.NotReading? && x.sender.NotSending? && x.handoff == None
  }

  /** At most the one transport the dispatcher waits on exists, and it is current. */
  predicate OneTransport(s: State) {
    && s.acts.Keys == (var a := ActOf(s.d); if a.Some? then {a.value} else {})
    && (ActOf(s.d).Some? ==> ActOk(s, s.acts[ActOf(s.d).value]) && ActOf(s.d).value < s.nextAct)
    && (InSession(s.d) ==> s.d.g == s.generation)
  }

  /** Open connections are those of the transport and the candidate. */
  predicate ConnsOk(s: State) {
    && (forall c <- s.open ::
          Candidate(s.d) == Some(c)
          || (ActOf(s.d).Some? && ActOf(s.d).value in s.acts && s.acts[ActOf(s.d).value].conn == c))
    && (Candidate(s.d).Some? ==> Candidate(s.d).value in s.open && Candidate(s.d).value < s.nextConn)
    && (Candidate(s.d).Some? && ActOf(s.d).Some? && ActOf(s.d).value in s.acts ==>
          Candidate(s.d).value != s.acts[ActOf(s.d).value].conn)
  }

  /** Every packet is accounted for, in order. */
  predicate Accounted(s: State) {
    Settled(s.fates) + ToSeq(InFlight(s)) + s.sendCh == s.enqueued
  }

  predicate ClosingOk(s: State) {
    && (forall f <- s.fates :: f.Abandoned? ==> s.closed)
    && (s.closed <==> s.closing != NotClosing)
    && (s.d.Stopped? ==> s.closed)
    && (s.closing == CloseReturned ==> s.d.Stopped? && !s.forwarding)
  }

  predicate Inv(s: State) {
    OneTransport(s) && ConnsOk(s) && Accounted(s) && ClosingOk(s)
  }

  lemma SettledAppend(fates: seq<Fate>, f: Fate)
    ensures Settled(fates + [f]) == Settled(fates) + [f.packet]
  {
  }

  // ---------------------------------------------------------------------------------------
  // Steps of a transport

  /** Transport `a` goes from `x` to `y`: it takes a packet, settles one, or keeps what it has. */
  predicate Carries(s: State, s': State, x: Act, y: Act) {
    || (Carried(y) == Carried(x) && s'.fates == s.fates && s'.sendCh == s.sendCh)
    || (Carried(x) == None && s.sendCh != [] && Carried(y) == Some(s.sendCh[0]) && s'.sendCh == s.sendCh[1..] && s'.fates == s.fates)
    || (Carried(y) == None && s'.sendCh == s.sendCh && s'.fates != [] && s'.fates == s.fates + [s'.fates[|s'.fates| - 1]]
        && var f := s'.fates[|s'.fates| - 1]; Carried(x) == Some(f.packet) && !f.Abandoned?)
  }

  lemma ActStep(s: State, s': State, a: ActID, y: Act)
    requires Inv(s) && a in s.acts
    requires s' == s.(acts := s.acts[a := y], open := s'.open, fates := s'.fates, sendCh := s'.sendCh, readCh := s'.readCh)
    requires y.conn == s.acts[a].conn && ActOk(s', y)
    requires s'.open == s.open || s'.open == s.open - {y.conn}
    requires Carries(s, s', s.acts[a], y)
    ensures Inv(s')
  {
    assert ActOf(s.d) == Some(a);
    assert Accounted(s') by {
      var x := s.acts[a];
      if s'.fates != s.fates {
        var f := s'.fates[|s'.fates| - 1];
        SettledAppend(s.fates, f);
      }
      assert InFlight(s) == Carried(x) && InFlight(s') == Carried(y);
    }
    assert ConnsOk(s');
    assert OneTransport(s');
    assert ClosingOk(s');
  }

  lemma TheAct(s: State, a: ActID)
    requires Inv(s) && a in s.acts
    ensures ActOf(s.d) == Some(a) && ActOk(s, s.acts[a])
  {
  }

  lemma ReturnKeeps(s: State, a: ActID)
    requires Inv(s) && a in s.acts
    requires var x := s.acts[a];
             (x.reader.NotReading? || x.reader.ReadDone?) && (x.sender.NotSending? || x.sender.SendDone?)
    ensures Inv(Return(s, a, Carried(s.acts[a])))
  {
    hide Inv;
    TheAct(s, a);
    var s' := Return(s, a, Carried(s.acts[a]));
    ActStep(s, s', a, s'.acts[a]);
  }

  lemma StartKeeps(s: State, s0: State, a: ActID)
    requires Inv(s) && a in s.acts && s0 == s.(fates := s0.fates)
    requires s.acts[a].reader.NotReading? && s.acts[a].sender.NotSending? && s.acts[a].handoff == None
    requires Carries(s, s0, s.acts[a], s.acts[a].(first := None, runner := FirstSent))
    ensures Inv(Start(s0, a))
  {
    hide Inv;
    TheAct(s, a);
    var s' := Start(s0, a);
    ActStep(s, s', a, s'.acts[a]);
  }

  lemma BeforeStartKeeps(s: State, a: ActID)
    requires Inv(s) && a in s.acts && (s.acts[a].runner.Register? || s.acts[a].runner.FirstGuard?)
    ensures Inv(Run(s, a, Sent))
  {
    hide Inv;
    TheAct(s, a);
    var x := s.acts[a];
    var s' := Run(s, a, Sent);
    if s'.acts[a].runner.Returned? { ReturnKeeps(s, a); }
    else if s'.acts[a].runner.Watch? { StartKeeps(s, s, a); }
    else { ActStep(s, s', a, s'.acts[a]); }
  }

  lemma WatchKeeps(s: State, a: ActID)
    requires Inv(s) && CanRun(s, a) && s.acts[a].runner.Watch?
    ensures Inv(Run(s, a, Sent))
  {
    hide Inv;
    TheAct(s, a);
    var s' := Run(s, a, Sent);
    ActStep(s, s', a, s'.acts[a]);
  }

  lemma RunKeeps(s: State, a: ActID, outcome: Outcome)
    requires Inv(s) && CanRun(s, a)
    ensures Inv(Run(s, a, outcome))
  {
    hide Inv;
    match s.acts[a].runner
    case Register => BeforeStartKeeps(s, a);
    case FirstGuard => BeforeStartKeeps(s, a);
    case FirstSend => FirstSendKeeps(s, a, outcome);
    case FirstSent => TheAct(s, a); StartKeeps(s, s, a);
    case Watch => WatchKeeps(s, a);
    case Join => TheAct(s, a); ReturnKeeps(s, a);
  }

  lemma FirstSendKeeps(s: State, a: ActID, outcome: Outcome)
    requires Inv(s) && a in s.acts && s.acts[a].runner.FirstSend? && s.acts[a].first.Some?
    ensures Inv(Run(s, a, outcome))
  {
    hide Inv;
    TheAct(s, a);
    var s' := Run(s, a, outcome);
    match outcome
    case Sent => ActStep(s, s', a, s'.acts[a]);
    case TooLarge => StartKeeps(s, Settle(s, Oversized(s.acts[a].first.value)), a);
    case Failed => ReturnKeeps(s, a);
  }

  /** Reader and sender are only there while the transport is watched or joined. */
  predicate Working(x: Act) {
    x.runner.Watch? || x.runner.Join?
  }

  lemma ReaderMoves(s: State, s': State, a: ActID, r: Reader)
    requires Inv(s) && a in s.acts && !s.acts[a].reader.NotReading? && !s.acts[a].reader.ReadDone? && !r.NotReading?
    requires s' == Put(s, a, s.acts[a].(reader := r)).(readCh := s'.readCh)
    ensures Inv(s')
  {
    hide Inv;
    TheAct(s, a);
    assert Working(s.acts[a]);
    ActStep(s, s', a, s'.acts[a]);
  }

  lemma ReadKeeps(s: State, a: ActID, got: Option<Packet>, room: bool)
    requires Inv(s) && CanRead(s, a)
    ensures Inv(Read(s, a, got, room))
  {
    hide Inv;
    var s' := Read(s, a, got, room);
    ReaderMoves(s, s', a, s'.acts[a].reader);
  }

  lemma SenderMoves(s: State, s': State, a: ActID, y: Act)
    requires Inv(s) && a in s.acts && !s.acts[a].sender.NotSending? && !s.acts[a].sender.SendDone? && !y.sender.NotSending?
    requires y == s.acts[a].(sender := y.sender, handoff := y.handoff) && (y.handoff.Some? ==> y.sender.SendDone?)
    requires s' == Put(s, a, y).(fates := s'.fates, sendCh := s'.sendCh)
    requires Working(s.acts[a]) ==> Carries(s, s', s.acts[a], y)
    ensures Inv(s')
  {
    hide Inv;
    TheAct(s, a);
    assert Working(s.acts[a]);
    hide Carried;
    ActStep(s, s', a, y);
  }

  lemma SenderHoldsNothingElse(s: State, a: ActID)
    requires Inv(s) && a in s.acts && !s.acts[a].sender.NotSending? && !s.acts[a].sender.SendDone?
    ensures Working(s.acts[a]) && s.acts[a].handoff == None
  {
    hide Inv;
    TheAct(s, a);
  }

  /** The sender settles the packet it holds, or gives it up for the next transport. */
  lemma SendingKeeps(s: State, a: ActID, take: bool, outcome: Outcome)
    requires Inv(s) && a in s.acts && s.acts[a].sender.Sending?
    ensures Inv(Send(s, a, take, outcome))
  {
    hide Inv;
    SenderHoldsNothingElse(s, a);
    var s' := Send(s, a, take, outcome);
    match outcome
    case Sent => SenderMoves(s, s', a, s.acts[a].(sender := Posted));
    case TooLarge => SenderMoves(s, s', a, s.acts[a].(sender := Select));
    case Failed => SenderMoves(s, s', a, s.acts[a].(sender := SendDone, handoff := Some(s.acts[a].sender.packet)));
  }

  lemma SelectKeeps(s: State, a: ActID, take: bool, outcome: Outcome)
    requires Inv(s) && CanSend(s, a, take) && s.acts[a].sender.Select?
    ensures Inv(Send(s, a, take, outcome))
  {
    hide Inv;
    SenderHoldsNothingElse(s, a);
    SenderMoves(s, Send(s, a, take, outcome), a, s.acts[a].(sender := if take then Taken(s.sendCh[0]) else SendDone));
  }

  lemma GuardKeeps(s: State, a: ActID, take: bool, outcome: Outcome)
    requires Inv(s) && a in s.acts
    requires var t := s.acts[a].sender; t.Taken? || t.Guarded? || t.Posted?
    ensures Inv(Send(s, a, take, outcome))
  {
    hide Inv;
    SenderHoldsNothingElse(s, a);
    hide IsCurrent;
    hide SenderStops;
    var s' := Send(s, a, take, outcome);
    SenderMoves(s, s', a, s'.acts[a]);
  }

  lemma SendKeeps(s: State, a: ActID, take: bool, outcome: Outcome)
    requires Inv(s) && CanSend(s, a, take)
    ensures Inv(Send(s, a, take, outcome))
  {
    hide Inv;
    hide Send;
    if s.acts[a].sender.Sending? { SendingKeeps(s, a, take, outcome); }
    else if s.acts[a].sender.Select? { SelectKeeps(s, a, take, outcome); }
    else { GuardKeeps(s, a, take, outcome); }
  }

  lemma CloseActKeeps(s: State, a: ActID)
    requires Inv(s) && a in s.acts
    ensures Inv(CloseAct(s, a))
  {
    hide Inv;
    TheAct(s, a);
    var s' := CloseAct(s, a);
    ActStep(s, s', a, s'.acts[a]);
  }

  // ---------------------------------------------------------------------------------------
  // Steps of the dispatcher

  /** Between transports: the packet stays with the dispatcher, and a candidate is kept or closed. */
  lemma QuietKeeps(s: State, s': State)
    requires Inv(s) && ActOf(s.d) == None && ActOf(s'.d) == None
    requires s' == s.(d := s'.d, open := s'.open, nextConn := s'.nextConn)
    requires PendingOf(s'.d) == PendingOf(s.d) && (InSession(s'.d) ==> InSession(s.d) && s'.d.g == s.d.g)
    requires s.nextConn <= s'.nextConn && !s'.d.Stopped? && !s.d.Stopped?
    requires s'.open == (var c := Candidate(s'.d); if c.Some? then {c.value} else {})
    requires Candidate(s'.d).Some? ==> Candidate(s'.d).value < s'.nextConn
    ensures Inv(s')
  {
  }

  lemma OpenIs(s: State)
    requires Inv(s) && ActOf(s.d) == None
    ensures s.open == (var c := Candidate(s.d); if c.Some? then {c.value} else {})
  {
  }

  lemma EndSessionKeeps(s: State)
    requires Inv(s) && ActOf(s.d) == None && Candidate(s.d) == None && s.closed && InSession(s.d)
    ensures Inv(EndSession(s, PendingOf(s.d)))
  {
    var p := PendingOf(s.d);
    if p.Some? { SettledAppend(s.fates, Abandoned(p.value)); }
  }

  lemma LaunchKeeps(s: State, conn: Conn, d: Dispatcher)
    requires Inv(s) && ActOf(s.d) == None && InSession(s.d)
    requires s.open == {conn} && conn < s.nextConn
    requires ActOf(d) == Some(s.nextAct) && Candidate(d) == None && d.g == s.d.g
    ensures Inv(Launch(s, s.d.g, conn, PendingOf(s.d), d))
  {
  }

  lemma CollectKeeps(s: State, a: ActID, d: Dispatcher)
    requires Inv(s) && ActOf(s.d) == Some(a) && s.acts[a].runner.Returned?
    requires ActOf(d) == None && InSession(d) && d.g == s.d.g
    requires PendingOf(d) == s.acts[a].runner.pending && Candidate(d) == Candidate(s.d)
    ensures Inv(s.(acts := s.acts - {a}, d := d))
  {
  }

  /** The dispatcher lets the transport run on, or cancels it for a candidate it has just dialled. */
  lemma WaitKeeps(s: State, s': State, a: ActID)
    requires Inv(s) && ActOf(s.d) == Some(a) && Candidate(s.d) == None
    requires ActOf(s'.d) == Some(a) && InSession(s'.d) && s'.d.g == s.d.g
    requires a in s'.acts && s'.acts[a] == s.acts[a].(canceled := s'.acts[a].canceled)
    requires s' == s.(d := s'.d, acts := s.acts[a := s'.acts[a]], open := s'.open, nextConn := s'.nextConn)
    requires if Candidate(s'.d).Some?
             then Candidate(s'.d).value == s.nextConn < s'.nextConn && s'.open == s.open + {s.nextConn}
             else s'.open == s.open && s'.nextConn == s.nextConn
    ensures Inv(s')
  {
  }

  lemma BeginKeeps(s: State)
    requires Inv(s) && s.d == Idle && s.sendCh != []
    ensures Inv(Dispatch(s, Yes))
  {
    var s' := Dispatch(s, Yes);
    assert s.sendCh == [s.sendCh[0]] + s.sendCh[1..];
    assert ToSeq(InFlight(s')) + s'.sendCh == s.sendCh;
  }

  lemma StopKeeps(s: State)
    requires Inv(s) && s.d == Idle && s.closed
    ensures Inv(s.(d := Stopped))
  {
  }

  lemma DispatchKeeps(s: State, pick: Pick)
    requires Inv(s) && CanDispatch(s, pick)
    ensures Inv(Dispatch(s, pick))
  {
    hide Inv;
    match s.d
    case Idle => if pick == Yes { BeginKeeps(s); } else { StopKeeps(s); }
    case Top(g, p) => DecideKeeps(s, pick);
    case Between(g, p) => DecideKeeps(s, pick);
    case Backoff(g, p) => DecideKeeps(s, pick);
    case DialP2P(g, p) => DialKeeps(s, pick);
    case Switch(g, p, conn) => DialKeeps(s, pick);
    case BeginP2P(g, p, conn) => LaunchP2PKeeps(s, pick);
    case SwitchBegin(g, p, conn) => LaunchP2PKeeps(s, pick);
    case RunP2P(g, a, recovered) => CollectedKeeps(s, pick);
    case JoinRelay(g, a, candidate) => CollectedKeeps(s, pick);
    case DialRelay(g, p) => DialRelayKeeps(s, pick);
    case RelayWait(g, a) => RelayWaitKeeps(s, pick);
    case Probe(g, a) => ProbeKeeps(s, pick);
  }

  lemma DecideKeeps(s: State, pick: Pick)
    requires Inv(s) && CanDispatch(s, pick) && (s.d.Top? || s.d.Between? || s.d.Backoff?)
    ensures Inv(Dispatch(s, pick))
  {
    OpenIs(s);
    if s.closed { EndSessionKeeps(s); } else { QuietKeeps(s, Dispatch(s, pick)); }
  }

  lemma DialKeeps(s: State, pick: Pick)
    requires Inv(s) && CanDispatch(s, pick) && (s.d.DialP2P? || s.d.Switch?)
    ensures Inv(Dispatch(s, pick))
  {
    OpenIs(s);
    QuietKeeps(s, Dispatch(s, pick));
  }

  lemma LaunchP2PKeeps(s: State, pick: Pick)
    requires Inv(s) && CanDispatch(s, pick) && (s.d.BeginP2P? || s.d.SwitchBegin?)
    ensures Inv(Dispatch(s, pick))
  {
    OpenIs(s);
    LaunchKeeps(s, s.d.conn, RunP2P(s.d.g, s.nextAct, s.d.SwitchBegin?));
  }

  lemma CollectedKeeps(s: State, pick: Pick)
    requires Inv(s) && CanDispatch(s, pick) && (s.d.RunP2P? || s.d.JoinRelay?)
    ensures Inv(Dispatch(s, pick))
  {
    CollectKeeps(s, s.d.act, Dispatch(s, pick).d);
  }

  lemma ProbeKeeps(s: State, pick: Pick)
    requires Inv(s) && CanDispatch(s, pick) && s.d.Probe?
    ensures Inv(Dispatch(s, pick))
  {
    WaitKeeps(s, Dispatch(s, pick), s.d.act);
  }

  lemma DialRelayKeeps(s: State, pick: Pick)
    requires Inv(s) && s.d.DialRelay?
    ensures Inv(Dispatch(s, pick))
  {
    OpenIs(s);
    if pick == Yes {
      DialledKeeps(s);
      assert LaunchOf(s) == Dispatch(s, pick);
    } else {
      QuietKeeps(s, Dispatch(s, pick));
    }
  }

  function LaunchOf(s: State): State
    requires s.d.DialRelay?
  {
    Launch(Dialled(s), s.d.g, s.nextConn, s.d.pending, RelayWait(s.d.g, s.nextAct))
  }

  lemma DialledKeeps(s: State)
    requires Inv(s) && s.d.DialRelay? && s.open == {}
    ensures Inv(LaunchOf(s))
  {
    var s1 := Dialled(s).(d := BeginP2P(s.d.g, s.d.pending, s.nextConn));
    QuietKeeps(s, s1);
    LaunchKeeps(s1, s.nextConn, RelayWait(s.d.g, s.nextAct));
  }

  lemma RelayWaitKeeps(s: State, pick: Pick)
    requires Inv(s) && CanDispatch(s, pick) && s.d.RelayWait?
    ensures Inv(Dispatch(s, pick))
  {
    var s' := Dispatch(s, pick);
    if pick == Yes { CollectKeeps(s, s.d.act, s'.d); } else { WaitKeeps(s, s', s.d.act); }
  }

  // ---------------------------------------------------------------------------------------
  // Every action

  lemma EnqueueKeeps(s: State, p: Packet)
    requires Inv(s)
    ensures Inv(s.(sendCh := s.sendCh + [p], enqueued := s.enqueued + [p]))
  {
    assert Settled(s.fates) + ToSeq(InFlight(s)) + (s.sendCh + [p]) == s.enqueued + [p];
  }

  lemma CloseProgressKeeps(s: State, s': State)
    requires Inv(s) && s' == s.(closed := s'.closed, closing := s'.closing, forwarding := s'.forwarding)
    requires s.closed ==> s'.closed
    requires s'.closed <==> s'.closing != NotClosing
    requires s'.forwarding ==> s.forwarding
    requires s'.closing == CloseReturned ==> s.d.Stopped? && !s'.forwarding
    ensures Inv(s')
  {
  }

  lemma CloserKeeps(s: State, a: ActID)
    requires Inv(s) && s.closing.RunClosers? && a in s.closing.left
    ensures Inv(Apply(s, CloserStep(a)))
  {
    var s1 := if a in s.acts then CloseAct(s, a) else s;
    if a in s.acts { CloseActKeeps(s, a); }
    CloseProgressKeeps(s1, s1.(closing := RunClosers(s.closing.left - {a})));
  }

  lemma ActionKeeps(s: State, act: Action)
    requires Inv(s) && Enabled(s, act)
    ensures Inv(Apply(s, act))
  {
    hide Inv;
    match act
    case Enqueue(p) => EnqueueKeeps(s, p);
    case DispatchStep(pick) => DispatchKeeps(s, pick);
    case RunStep(a, outcome) => RunKeeps(s, a, outcome);
    case ReadStep(a, got, room) => ReadKeeps(s, a, got, room);
    case SendStep(a, take, outcome) => SendKeeps(s, a, take, outcome);
    case Watchdog(a) => CloseActKeeps(s, a);
    case CloserStep(a) => CloserKeeps(s, a);
    case StopForwarding => CloseMovesKeep(s, act);
    case BeginClose => CloseMovesKeep(s, act);
    case CloseStep => CloseMovesKeep(s, act);
  }

  lemma CloseMovesKeep(s: State, act: Action)
    requires Inv(s) && Enabled(s, act) && (act.StopForwarding? || act.BeginClose? || act.CloseStep?)
    ensures Inv(Apply(s, act))
  {
    CloseProgressKeeps(s, Apply(s, act));
  }

  lemma {:induction false} RunKeepsInv(states: seq<State>, actions: seq<Action>, i: nat)
    requires IsRun(states, actions) && i < |states|
    ensures Inv(states[i])
  {
    if i != 0 {
      RunKeepsInv(states, actions, i - 1);
      ActionKeeps(states[i - 1], actions[i - 1]);
    }
  }

  // ---------------------------------------------------------------------------------------
  // Theorems

  /**
   Across any switches, failures and cancellations, the packets settled so far, the one in flight
   and the queue are the packets enqueued, in order. So the k-th packet to be settled is the k-th
   packet enqueued: none is reordered, duplicated or skipped, and none is given up before close.
   */
  lemma Delivery(states: seq<State>, actions: seq<Action>, i: nat)
    requires IsRun(states, actions) && i < |states|
    ensures Settled(states[i].fates) + ToSeq(InFlight(states[i])) + states[i].sendCh == states[i].enqueued
    ensures |states[i].fates| <= |states[i].enqueued|
    ensures forall k | 0 <= k < |states[i].fates| :: states[i].fates[k].packet == states[i].enqueued[k]
    ensures !states[i].closed ==> forall f <- states[i].fates :: !f.Abandoned?
  {
    RunKeepsInv(states, actions, i);
    var s := states[i];
    var rest := ToSeq(InFlight(s)) + s.sendCh;
    assert Settled(s.fates) + rest == s.enqueued;
    forall k | 0 <= k < |s.fates|
      ensures s.fates[k].packet == s.enqueued[k]
    {
      assert (Settled(s.fates) + rest)[k] == Settled(s.fates)[k];
    }
  }

  /** A goroutine that waits on the queue. */
  datatype Consumer = TheDispatcher | TheSender(act: ActID)

  predicate Consuming(s: State, c: Consumer) {
    match c
    case TheDispatcher => s.d.Idle?
    case TheSender(a) => a in s.acts && !s.acts[a].sender.NotSending? && !s.acts[a].sender.SendDone?
  }

  /** The goroutine an action is a step of, if it is one that may consume. */
  function Acting(act: Action): Option<Consumer> {
    match act
    case DispatchStep(_) => Some(TheDispatcher)
    case SendStep(a, _, _) => Some(TheSender(a))
    case _ => None
  }

  /** At most one goroutine consumes the queue, and whoever shortens it is that one. */
  lemma OneConsumer(states: seq<State>, actions: seq<Action>, i: nat)
    requires IsRun(states, actions) && i < |states|
    ensures forall c, c' :: Consuming(states[i], c) && Consuming(states[i], c') ==> c == c'
    ensures i < |actions| && |states[i + 1].sendCh| < |states[i].sendCh| ==>
              Acting(actions[i]).Some? && Consuming(states[i], Acting(actions[i]).value)
  {
    RunKeepsInv(states, actions, i);
    if i < |actions| && |states[i + 1].sendCh| < |states[i].sendCh| { OnlyConsumerTakes(states[i], actions[i]); }
  }

  lemma OnlyConsumerTakes(s: State, act: Action)
    requires Enabled(s, act) && |Apply(s, act).sendCh| < |s.sendCh|
    ensures Acting(act).Some? && Consuming(s, Acting(act).value)
  {
    hide Run, Read, Dispatch, Send;
    match act
    case DispatchStep(pick) =>
      DispatcherTakes(s, pick);
    case SendStep(a, take, outcome) =>
    case RunStep(a, outcome) => RunnerTakesNone(s, a, outcome);
    case ReadStep(a, got, room) => ReaderTakesNone(s, a, got, room);
    case _ =>
  }

  lemma DispatcherTakes(s: State, pick: Pick)
    requires CanDispatch(s, pick)
    ensures !s.d.Idle? ==> Dispatch(s, pick).sendCh == s.sendCh
  {
  }

  lemma RunnerTakesNone(s: State, a: ActID, outcome: Outcome)
    requires CanRun(s, a)
    ensures Run(s, a, outcome).sendCh == s.sendCh
  {
  }

  lemma ReaderTakesNone(s: State, a: ActID, got: Option<Packet>, room: bool)
    requires CanRead(s, a)
    ensures Read(s, a, got, room).sendCh == s.sendCh
  {
  }

  /**
   Every transport whose goroutines are alive is of the current generation and epoch: the epoch moves
   only when no transport exists. What a transport delivers to the application or has accepted by its
   peer is therefore never of a superseded epoch.
   */
  lemma EpochsAreExclusive(states: seq<State>, actions: seq<Action>, i: nat)
    requires IsRun(states, actions) && i < |actions|
    ensures forall a <- states[i].acts :: IsCurrent(states[i], states[i].acts[a].generation, states[i].acts[a].epoch)
    ensures !IsCurrent(states[i], states[i + 1].generation, states[i + 1].epoch) ==> states[i].acts == map[]
    ensures states[i + 1].readCh != states[i].readCh ==>
              exists p :: states[i + 1].readCh == states[i].readCh + [(p, states[i].generation, states[i].epoch)]
    ensures states[i + 1].fates != states[i].fates ==>
              exists f :: states[i + 1].fates == states[i].fates + [f]
                          && (f.Accepted? ==> IsCurrent(states[i], f.generation, f.epoch))
  {
    RunKeepsInv(states, actions, i);
    StepIsCurrent(states[i], actions[i]);
  }

  lemma StepIsCurrent(s: State, act: Action)
    requires Inv(s) && Enabled(s, act)
    ensures var s' := Apply(s, act);
            && (!IsCurrent(s, s'.generation, s'.epoch) ==> s.acts == map[])
            && (s'.readCh != s.readCh ==> exists p :: s'.readCh == s.readCh + [(p, s.generation, s.epoch)])
            && (s'.fates != s.fates ==>
                  exists f :: s'.fates == s.fates + [f] && (f.Accepted? ==> IsCurrent(s, f.generation, f.epoch)))
  {
    match act
    case DispatchStep(pick) => DispatchIsCurrent(s, pick);
    case ReadStep(a, got, room) =>
      if s.acts[a].reader.Deliver? && room {
        assert Apply(s, act).readCh == s.readCh + [(s.acts[a].reader.got, s.generation, s.epoch)];
      }
    case RunStep(a, outcome) => RunSettlesCurrent(s, a, outcome);
    case SendStep(a, take, outcome) => SendSettlesCurrent(s, a, take, outcome);
    case _ =>
  }

  lemma DispatchIsCurrent(s: State, pick: Pick)
    requires Inv(s) && CanDispatch(s, pick)
    ensures var s' := Dispatch(s, pick);
            && (!IsCurrent(s, s'.generation, s'.epoch) ==> s.acts == map[])
            && s'.readCh == s.readCh
            && (s'.fates != s.fates ==> exists f :: s'.fates == s.fates + [f] && f.Abandoned?)
  {
    var p := PendingOf(s.d);
    if p.Some? {
      assert Dispatch(s, pick).fates != s.fates ==> Dispatch(s, pick).fates == s.fates + [Abandoned(p.value)];
    }
  }

  lemma RunSettlesCurrent(s: State, a: ActID, outcome: Outcome)
    requires Inv(s) && CanRun(s, a)
    ensures var s' := Run(s, a, outcome);
            && IsCurrent(s, s'.generation, s'.epoch) && s'.readCh == s.readCh
            && (s'.fates != s.fates ==>
                  exists f :: s'.fates == s.fates + [f] && (f.Accepted? ==> IsCurrent(s, f.generation, f.epoch)))
  {
    TheAct(s, a);
    hide Inv;
    var p := s.acts[a].first;
    if p.Some? && Run(s, a, outcome).fates != s.fates {
      var f := if outcome == Sent then Accepted(p.value, s.generation, s.epoch) else Oversized(p.value);
      assert Run(s, a, outcome).fates == s.fates + [f];
    }
  }

  lemma SendSettlesCurrent(s: State, a: ActID, take: bool, outcome: Outcome)
    requires Inv(s) && CanSend(s, a, take)
    ensures var s' := Send(s, a, take, outcome);
            && IsCurrent(s, s'.generation, s'.epoch) && s'.readCh == s.readCh
            && (s'.fates != s.fates ==>
                  exists f :: s'.fates == s.fates + [f] && (f.Accepted? ==> IsCurrent(s, f.generation, f.epoch)))
  {
    TheAct(s, a);
    hide Inv;
    var p := Held(s.acts[a]);
    if p.Some? && Send(s, a, take, outcome).fates != s.fates {
      var f := if outcome == Sent then Accepted(p.value, s.generation, s.epoch) else Oversized(p.value);
      assert Send(s, a, take, outcome).fates == s.fates + [f];
    }
  }

  /** When Close has returned no transport is left, no connection is open, and nothing can happen any more. */
  lemma CloseIsFinal(states: seq<State>, actions: seq<Action>, i: nat)
    requires IsRun(states, actions) && i < |states| && states[i].closing == CloseReturned
    ensures states[i].acts == map[] && states[i].open == {} && states[i].d == Stopped
    ensures i == |actions|
  {
    RunKeepsInv(states, actions, i);
  }
}
