/**
 Control generations in frps (server/control.go, and the order of calls in server/service.go).

 A client that logs in again with the same run ID gets a new control while the old one may
 still be tearing down. The model is a step system with any number of login threads, control
 workers, manager closers, incoming work connections and visitors. Each thread has a program counter
 and one action is one critical section or one channel operation:

  - `runMu` of an entry is a `Gate`, held across actions;
  - `lifecycleMu` is held inside one action, except during the login response write (`Writing`);
  - `cm.mu` and the registry lock are only ever held inside one action. Some of these sections take a
    lifecycle lock inside `cm.mu`; HandoffTheorems proves that they never wait for it.
 */
module Handoff {
  import opened Prelude
  import Registry

  /** Identity of a control object. */
  type Ref = nat
  type Gate = nat
  type Conn = nat

  const POOL_CAPACITY_OFFSET := 10

  datatype Life = Created | Pending | Running | Closing | Closed

  /** A control. Its `doneCh` is closed exactly when it is `Closed`; a barrier is another control's `doneCh`. */
  datatype Ctl = Ctl(
    run: string, user: string, clientID: string, poolCount: nat,
    id: nat, life: Life, activated: bool, barrier: Option<Ref>, interrupted: bool,
    proxies: set<string>, pool: seq<Conn>, poolClosed: bool)

  /** controlEntry. Entries are told apart by `id`. */
  datatype Entry = Entry(ctl: Ref, id: nat, gate: Gate, online: bool, onlineID: nat)

  datatype Tid = Login(ctl: Ref) | Worker(ctl: Ref) | Closer(no: nat) | Presenter(conn: Conn) | Visitor(no: nat)

  /** The manager calls that start with lockCurrentRun. */
  datatype Op = Activate | Complete | Remove | Find | Offer | AdmitVisitor

  datatype Pc =
    // Add
    | AddRead
    | AddGate(want: Entry)
    | AddCommit(seen: Option<Entry>)
    | AddNotify(replaced: Ref)
    | AwaitHandoff
    // lockCurrentRun, then the call itself
    | OpRead(op: Op)
    | OpGate(op: Op, gate: Gate)
    | OpCheck(op: Op, gate: Gate)
    | OpAct(op: Op, entry: Entry)
    | Writing(entry: Entry)
    | CloseCtl
    // worker
    | Serve
    | MarkClosing
    | ClosePool
    | DrainPool
    | CloseProxies
    | Finish
    // an incoming work connection nobody took
    | DropConn
    | Done

  datatype Thread = Thread(pc: Pc, run: string, ctl: Ref, rest: seq<Ref>)

  datatype State = State(
    ctls: map<Ref, Ctl>,
    slots: map<string, Entry>,
    held: map<Gate, Tid>,
    th: map<Tid, Thread>,
    closed: bool,
    nextID: nat,
    nextGate: Gate,
    reg: Registry.Index,
    handed: set<Conn>,
    dropped: set<Conn>)

  const Init := State(map[], map[], map[], map[], false, 1, 0, Registry.Index(map[], map[]), {}, {})

  // ---------------------------------------------------------------------------------------
  // The lifecycle of one control

  function Finished(c: Ctl): Ctl {
    c.(life := Closed)
  }

  /** markReplaced: the control afterwards, and the barrier its replacement must wait for. */
  function MarkReplaced(c: Ctl, self: Ref): (Ctl, Option<Ref>) {
    match c.life
    case Created => (Finished(c), None)
    case Pending => (Finished(c), c.barrier)
    case Running => (c.(life := Closing), Some(self))
    case Closing => (c, Some(self))
    case Closed => (c, Some(self))
  }

  /** Control.Close, with the interruption of its connection. */
  function ClosedBy(c: Ctl): Ctl {
    var d := match c.life
      case Created => Finished(c)
      case Pending => Finished(c)
      case Running => c.(life := Closing)
      case Closing => c
      case Closed => c;
    d.(interrupted := true)
  }

  // ---------------------------------------------------------------------------------------
  // Thread steps

  /** The gate a program counter holds. */
  function Holding(pc: Pc): Option<Gate> {
    match pc
    case AddCommit(seen) => if seen.Some? then Some(seen.value.gate) else None
    case OpCheck(_, g) => Some(g)
    case OpAct(_, e) => Some(e.gate)
    case Writing(e) => Some(e.gate)
    case _ => None
  }

  function Go(s: State, t: Tid, pc: Pc): State
    requires t in s.th
  {
    s.(th := s.th[t := s.th[t].(pc := pc)])
  }

  /** Releases whatever gate `t` holds and moves it to `pc`. */
  function Leave(s: State, t: Tid, pc: Pc): State
    requires t in s.th
  {
    var g := Holding(s.th[t].pc);
    Go(if g.Some? then s.(held := s.held - {g.value}) else s, t, pc)
  }

  function SetCtl(s: State, c: Ref, x: Ctl): State {
    s.(ctls := s.ctls[c := x])
  }

  /** Nobody is writing a login response under `c`'s lifecycle lock. */
  predicate LifeFree(s: State, c: Ref) {
    Login(c) in s.th ==> !s.th[Login(c)].pc.Writing?
  }

  /** The slot still holds the entry read earlier (or is still empty). */
  predicate SameSlot(s: State, run: string, seen: Option<Entry>) {
    if seen.Some? then run in s.slots && s.slots[run].id == seen.value.id else run !in s.slots
  }

  /** Where a thread continues when Remove has returned. */
  function AfterRemove(t: Tid): Pc {
    if t.Worker? then Finish else CloseCtl
  }

  /** Where a thread continues when lockCurrentRun, or the call after it, did not succeed. */
  function AfterFailure(t: Tid, op: Op): Pc {
    match op
    case Activate => OpRead(Remove)
    case Complete => OpRead(Remove)
    case Remove => AfterRemove(t)
    case Find => DropConn
    case Offer => DropConn
    case AdmitVisitor => Done
  }

  function StepAddRead(s: State, t: Tid): State
    requires t in s.th
  {
    var run := s.th[t].run;
    Go(s, t, if run in s.slots then AddGate(s.slots[run]) else AddCommit(None))
  }

  function StepAddGate(s: State, t: Tid, want: Entry): State
    requires t in s.th
  {
    Go(s, t, AddCommit(Some(want))).(held := s.held[want.gate := t])
  }

  /** The admission of a control into an empty slot, or in place of the entry there. */
  function Admit(s: State, c: Ref): State
    requires c in s.ctls
    requires var run := s.ctls[c].run; run in s.slots ==> s.slots[run].ctl in s.ctls
  {
    var run := s.ctls[c].run;
    var id := s.nextID;
    if run in s.slots then
      var prior := s.slots[run];
      var (replaced, barrier) := MarkReplaced(s.ctls[prior.ctl], prior.ctl);
      s.(nextID := id + 1,
         ctls := s.ctls[prior.ctl := replaced][c := s.ctls[c].(id := id, life := Pending, barrier := barrier)],
         slots := s.slots[run := Entry(c, id, prior.gate, prior.online, prior.onlineID)])
    else
      s.(nextID := id + 1, nextGate := s.nextGate + 1,
         ctls := s.ctls[c := s.ctls[c].(id := id, life := Pending)],
         slots := s.slots[run := Entry(c, id, s.nextGate, false, 0)])
  }

  function StepAddCommit(s: State, t: Tid, seen: Option<Entry>): State
    requires t in s.th && s.th[t].ctl in s.ctls
    requires var run := s.ctls[s.th[t].ctl].run; run in s.slots ==> s.slots[run].ctl in s.ctls
  {
    var c := s.th[t].ctl;
    if s.closed then Leave(s, t, OpRead(Remove))
    else if !SameSlot(s, s.th[t].run, seen) then Leave(s, t, AddRead)
    else if s.ctls[c].life != Created then Leave(s, t, OpRead(Remove)).(nextID := s.nextID + 1)
    else Leave(Admit(s, c), t, if seen.Some? then AddNotify(seen.value.ctl) else AwaitHandoff)
  }

  function StepAddNotify(s: State, t: Tid, replaced: Ref): State
    requires t in s.th && replaced in s.ctls
  {
    Go(SetCtl(s, replaced, MarkReplaced(s.ctls[replaced], replaced).0.(interrupted := true)), t, AwaitHandoff)
  }

  /** The entry lockCurrentRun finds for `op`: after Close, only Remove still finds one. */
  predicate Finds(s: State, run: string, op: Op) {
    run in s.slots && (!s.closed || op == Remove)
  }

  function StepOpRead(s: State, t: Tid, op: Op): State
    requires t in s.th
  {
    var run := s.th[t].run;
    Go(s, t, if Finds(s, run, op) then OpGate(op, s.slots[run].gate) else AfterFailure(t, op))
  }

  function StepOpGate(s: State, t: Tid, op: Op, g: Gate): State
    requires t in s.th
  {
    Go(s, t, OpCheck(op, g)).(held := s.held[g := t])
  }

  function StepOpCheck(s: State, t: Tid, op: Op, g: Gate): State
    requires t in s.th
  {
    var run := s.th[t].run;
    if Finds(s, run, op) && s.slots[run].gate == g then Go(s, t, OpAct(op, s.slots[run]))
    else Leave(s, t, AfterFailure(t, op))
  }

  /** The entry `t` locked belongs to the control `t` acts for. */
  predicate Mine(s: State, t: Tid, e: Entry)
    requires t in s.th && s.th[t].ctl in s.ctls
  {
    e.ctl == s.th[t].ctl && e.id == s.ctls[e.ctl].id
  }

  /** `c`, the current control of its run, goes online in the registry. */
  function GoOnline(s: State, c: Ref, r: Registry.Registered): State
    requires c in s.ctls && s.ctls[c].run in s.slots
  {
    var run := s.ctls[c].run;
    s.(reg := r.after,
       slots := s.slots[run := s.slots[run].(online := true, onlineID := s.ctls[c].id)],
       ctls := s.ctls[c := s.ctls[c].(activated := true)])
  }

  function StepActivate(s: State, t: Tid, e: Entry, now: int): State
    requires t in s.th && s.th[t].ctl in s.ctls && s.th[t].run == s.ctls[s.th[t].ctl].run
  {
    var c := s.th[t].ctl;
    var run := s.th[t].run;
    if s.closed || !SameSlot(s, run, Some(e)) || !Mine(s, t, e) || s.ctls[c].life != Pending then
      Leave(s, t, OpRead(Remove))
    else if s.ctls[c].activated then Leave(s, t, OpRead(Complete))
    else
      var r := Registry.Register(s.reg, s.ctls[c].user, s.ctls[c].clientID, run, e.id, now);
      if r.conflict then Leave(s, t, OpRead(Remove))
      else GoOnline(Leave(s, t, OpRead(Complete)), c, r)
  }

  function StepComplete(s: State, t: Tid, e: Entry): State
    requires t in s.th && s.th[t].ctl in s.ctls
  {
    var c := s.th[t].ctl;
    if Mine(s, t, e) && s.ctls[c].life == Pending && s.ctls[c].activated then Go(s, t, Writing(e))
    else Leave(s, t, OpRead(Remove))
  }

  /** startLocked. */
  function Start(s: State, c: Ref): State
    requires c in s.ctls
  {
    SetCtl(s, c, s.ctls[c].(life := Running)).(th := s.th[Worker(c) := Thread(Serve, s.ctls[c].run, c, [])])
  }

  /** The login response was written (`ok`), and the worker started; or it was not. */
  function StepWriting(s: State, t: Tid, ok: bool): State
    requires t in s.th && s.th[t].ctl in s.ctls
  {
    var c := s.th[t].ctl;
    if ok && s.ctls[c].life == Pending && s.ctls[c].activated then Start(Leave(s, t, Done), c)
    else Leave(s, t, OpRead(Remove))
  }

  /** The entry of `run` leaves the map, and the registry if it was online. */
  function DropSlot(s: State, run: string, now: int): State
    requires run in s.slots
  {
    var e := s.slots[run];
    s.(slots := s.slots - {run},
       reg := if e.online then Registry.MarkOffline(s.reg, run, Registry.Exactly(e.onlineID), now) else s.reg)
  }

  function StepRemove(s: State, t: Tid, e: Entry, now: int): State
    requires t in s.th && s.th[t].ctl in s.ctls
  {
    var run := s.th[t].run;
    if SameSlot(s, run, Some(e)) && Mine(s, t, e) then Leave(DropSlot(s, run, now), t, AfterRemove(t))
    else Leave(s, t, AfterRemove(t))
  }

  /** GetByID; `ok` is the outcome of the plugin and authentication checks that follow. */
  function StepFind(s: State, t: Tid, e: Entry, ok: bool): State
    requires t in s.th && e.ctl in s.ctls
  {
    var s1 := Leave(s, t, if s.ctls[e.ctl].life == Running && ok then OpRead(Offer) else DropConn);
    s1.(th := s1.th[t := s1.th[t].(ctl := e.ctl)])
  }

  function Capacity(c: Ctl): nat {
    c.poolCount + POOL_CAPACITY_OFFSET
  }

  /** RegisterWorkConn. */
  function StepOffer(s: State, t: Tid, e: Entry): State
    requires t in s.th && t.Presenter? && s.th[t].ctl in s.ctls
  {
    var c := s.th[t].ctl;
    if Mine(s, t, e) && s.ctls[c].life == Running && |s.ctls[c].pool| < Capacity(s.ctls[c]) then
      Leave(SetCtl(s, c, s.ctls[c].(pool := s.ctls[c].pool + [t.conn])), t, Done)
    else Leave(s, t, DropConn)
  }

  /** admitVisitorByRunID lets a visitor in while it holds the gate and the lifecycle lock, and changes nothing of the control. */
  predicate Admits(s: State, t: Tid) {
    && t in s.th && s.th[t].pc.OpAct? && s.th[t].pc.op == AdmitVisitor
    && s.th[t].pc.entry.ctl in s.ctls && s.ctls[s.th[t].pc.entry.ctl].life == Running
  }

  function StepDropConn(s: State, t: Tid): State
    requires t in s.th && t.Presenter?
  {
    Go(s, t, Done).(dropped := s.dropped + {t.conn})
  }

  /** A closing manager goes on with the next control; a failed login is over. */
  function NextCtl(s: State, t: Tid): State
    requires t in s.th && forall c <- s.th[t].rest :: c in s.ctls
  {
    var rest := s.th[t].rest;
    if rest == [] then Go(s, t, Done)
    else s.(th := s.th[t := Thread(OpRead(Remove), s.ctls[rest[0]].run, rest[0], rest[1..])])
  }

  function StepCloseCtl(s: State, t: Tid): State
    requires t in s.th && s.th[t].ctl in s.ctls
    requires forall c <- s.th[t].rest :: c in s.ctls
  {
    var c := s.th[t].ctl;
    NextCtl(SetCtl(s, c, ClosedBy(s.ctls[c])), t)
  }

  function StepMarkClosing(s: State, t: Tid): State
    requires t in s.th && s.th[t].ctl in s.ctls
  {
    var c := s.th[t].ctl;
    var x := s.ctls[c];
    Go(SetCtl(s, c, x.(life := if x.life == Running then Closing else x.life, interrupted := true)), t, ClosePool)
  }

  function StepClosePool(s: State, t: Tid): State
    requires t in s.th && s.th[t].ctl in s.ctls
  {
    var c := s.th[t].ctl;
    Go(SetCtl(s, c, s.ctls[c].(poolClosed := true)), t, DrainPool)
  }

  function StepDrainPool(s: State, t: Tid): State
    requires t in s.th && s.th[t].ctl in s.ctls
  {
    var c := s.th[t].ctl;
    var x := s.ctls[c];
    if x.pool == [] then Go(s, t, CloseProxies)
    else SetCtl(s, c, x.(pool := x.pool[1..])).(dropped := s.dropped + {x.pool[0]})
  }

  /** Closes the proxies in any order, one at a time. */
  function StepCloseProxies(s: State, t: Tid, name: string): State
    requires t in s.th && s.th[t].ctl in s.ctls
  {
    var c := s.th[t].ctl;
    var x := s.ctls[c];
    if x.proxies == {} then Go(s, t, OpRead(Remove))
    else SetCtl(s, c, x.(proxies := x.proxies - {name}))
  }

  function StepFinish(s: State, t: Tid): State
    requires t in s.th && s.th[t].ctl in s.ctls
  {
    var c := s.th[t].ctl;
    Go(SetCtl(s, c, Finished(s.ctls[c])), t, Done)
  }

  /** The controls a thread's next step needs the lifecycle lock of are free, and what it waits for has come. */
  predicate CanStep(s: State, t: Tid)
    requires t in s.th
  {
    var x := s.th[t];
    match x.pc
    case AddRead => true
    case AddGate(want) => want.gate !in s.held
    case AddCommit(seen) => LifeFree(s, x.ctl) && (seen.Some? ==> LifeFree(s, seen.value.ctl))
    case AddNotify(c) => LifeFree(s, c)
    case AwaitHandoff =>
      && LifeFree(s, x.ctl)
      && x.ctl in s.ctls
      && (var b := s.ctls[x.ctl].barrier; b.Some? ==> b.value in s.ctls && s.ctls[b.value].life == Closed)
    case OpRead(_) => true
    case OpGate(_, g) => g !in s.held
    case OpCheck(_, _) => true
    case OpAct(_, e) => LifeFree(s, e.ctl)
    case Writing(_) => true
    case CloseCtl => LifeFree(s, x.ctl)
    case Serve => true
    case MarkClosing => LifeFree(s, x.ctl)
    case ClosePool => true
    case DrainPool => true
    case CloseProxies => true
    case Finish => LifeFree(s, x.ctl)
    case DropConn => true
    case Done => false
  }

  /** Which program counters each kind of thread goes through. */
  predicate KindOk(t: Tid, pc: Pc) {
    match pc
    case AddRead => t.Login?
    case AddGate(_) => t.Login?
    case AddCommit(_) => t.Login?
    case AddNotify(_) => t.Login?
    case AwaitHandoff => t.Login?
    case OpRead(op) => OpOk(t, op)
    case OpGate(op, _) => OpOk(t, op)
    case OpCheck(op, _) => OpOk(t, op)
    case OpAct(op, _) => OpOk(t, op)
    case Writing(_) => t.Login?
    case CloseCtl => t.Login? || t.Closer?
    case Serve => t.Worker?
    case MarkClosing => t.Worker?
    case ClosePool => t.Worker?
    case DrainPool => t.Worker?
    case CloseProxies => t.Worker?
    case Finish => t.Worker?
    case DropConn => t.Presenter?
    case Done => true
  }

  predicate OpOk(t: Tid, op: Op) {
    match op
    case Activate => t.Login?
    case Complete => t.Login?
    case Remove => !t.Presenter? && !t.Visitor?
    case Find => t.Presenter?
    case Offer => t.Presenter?
    case AdmitVisitor => t.Visitor?
  }

  predicate Offering(pc: Pc) {
    (pc.OpRead? || pc.OpGate? || pc.OpCheck? || pc.OpAct?) && pc.op == Offer
  }

  /** The controls a thread refers to exist, and its run is that of the control it acts for. */
  predicate RefsOk(s: State, t: Tid)
    requires t in s.th
  {
    var x := s.th[t];
    && ((t.Login? || t.Worker?) ==> x.ctl == t.ctl && x.rest == [])
    && (t.Login? || t.Worker? || (t.Closer? && x.pc != Done) ==> x.ctl in s.ctls && x.run == s.ctls[x.ctl].run)
    && (forall c <- x.rest :: c in s.ctls)
    && (x.pc.AddNotify? ==> x.pc.replaced in s.ctls)
    && (x.pc.OpAct? ==> x.pc.entry.ctl in s.ctls)
    && (Offering(x.pc) ==> x.ctl in s.ctls)
  }

  predicate WellKinded(s: State, t: Tid)
    requires t in s.th
  {
    KindOk(t, s.th[t].pc) && RefsOk(s, t)
  }

  /** Every slot names a known control. */
  predicate SlotsKnown(s: State) {
    forall r <- s.slots :: s.slots[r].ctl in s.ctls
  }

  /**
   The next step of thread `t`: `ok` is the outcome of any input or output it does, `now` the clock,
   `name` the proxy it closes.
   */
  function StepThread(s: State, t: Tid, ok: bool, now: int, name: string): State
    requires t in s.th && CanStep(s, t) && WellKinded(s, t) && SlotsKnown(s)
  {
    match s.th[t].pc
    case AddRead => StepAddRead(s, t)
    case AddGate(want) => StepAddGate(s, t, want)
    case AddCommit(seen) => StepAddCommit(s, t, seen)
    case AddNotify(c) => StepAddNotify(s, t, c)
    case AwaitHandoff => Go(s, t, OpRead(Activate))
    case OpRead(op) => StepOpRead(s, t, op)
    case OpGate(op, g) => StepOpGate(s, t, op, g)
    case OpCheck(op, g) => StepOpCheck(s, t, op, g)
    case OpAct(Activate, e) => StepActivate(s, t, e, now)
    case OpAct(Complete, e) => StepComplete(s, t, e)
    case OpAct(Remove, e) => StepRemove(s, t, e, now)
    case OpAct(Find, e) => StepFind(s, t, e, ok)
    case OpAct(Offer, e) => StepOffer(s, t, e)
    case OpAct(AdmitVisitor, _) => Leave(s, t, Done)
    case Writing(_) => StepWriting(s, t, ok)
    case CloseCtl => StepCloseCtl(s, t)
    case Serve => Go(s, t, MarkClosing)
    case MarkClosing => StepMarkClosing(s, t)
    case ClosePool => StepClosePool(s, t)
    case DrainPool => StepDrainPool(s, t)
    case CloseProxies => StepCloseProxies(s, t, name)
    case Finish => StepFinish(s, t)
    case DropConn => StepDropConn(s, t)
    case Done => s
  }

  // ---------------------------------------------------------------------------------------
  // Actions

  datatype Action =
    | NewLogin(c: Ref, run: string, user: string, clientID: string, poolCount: nat)
    | NewWorkConn(conn: Conn, run: string)
    | NewVisitor(no: nat, run: string)
    | CloseManager(no: nat, order: seq<Ref>)
    | Step(t: Tid, ok: bool, now: int, name: string)
    | Heartbeat(c: Ref)
    | RegisterProxy(c: Ref, name: string)
    | CloseProxy(c: Ref, name: string)
    | TakeConn(c: Ref)

  /** The worker of `c` still has its message dispatcher running. */
  predicate Serving(s: State, c: Ref) {
    Worker(c) in s.th && s.th[Worker(c)].pc == Serve
  }

  predicate Enabled(s: State, a: Action) {
    SlotsKnown(s) &&
    match a
    case NewLogin(c, run, _, _, _) => c !in s.ctls && Login(c) !in s.th && run != ""
    case NewWorkConn(k, _) => Presenter(k) !in s.th
    case NewVisitor(k, _) => Visitor(k) !in s.th
    case CloseManager(k, order) =>
      && Closer(k) !in s.th
      && (forall r <- s.slots :: s.slots[r].ctl in order)
      && (forall c <- order :: exists r <- s.slots :: s.slots[r].ctl == c)
    case Step(t, _, _, _) => t in s.th && CanStep(s, t) && WellKinded(s, t)
    case Heartbeat(c) => Worker(c) in s.th && c in s.ctls && LifeFree(s, c)
    case RegisterProxy(c, _) => Serving(s, c) && c in s.ctls
    case CloseProxy(c, _) => Serving(s, c) && c in s.ctls
    case TakeConn(c) => c in s.ctls && s.ctls[c].pool != []
  }

  function Apply(s: State, a: Action): State
    requires Enabled(s, a)
  {
    match a
    case NewLogin(c, run, user, clientID, poolCount) =>
      s.(ctls := s.ctls[c := Ctl(run, user, clientID, poolCount, 0, Created, false, None, false, {}, [], false)],
         th := s.th[Login(c) := Thread(AddRead, run, c, [])])
    case NewWorkConn(k, run) => s.(th := s.th[Presenter(k) := Thread(OpRead(Find), run, 0, [])])
    case NewVisitor(k, run) => s.(th := s.th[Visitor(k) := Thread(OpRead(AdmitVisitor), run, 0, [])])
    case CloseManager(k, order) =>
      s.(closed := true, th := s.th[Closer(k) :=
        if order == [] then Thread(Done, "", 0, [])
        else assert order[0] in order; Thread(OpRead(Remove), s.ctls[order[0]].run, order[0], order[1..])])
    case Step(t, ok, now, name) => StepThread(s, t, ok, now, name)
    case Heartbeat(c) => SetCtl(s, c, ClosedBy(s.ctls[c]))
    case RegisterProxy(c, name) => SetCtl(s, c, s.ctls[c].(proxies := s.ctls[c].proxies + {name}))
    case CloseProxy(c, name) => SetCtl(s, c, s.ctls[c].(proxies := s.ctls[c].proxies - {name}))
    case TakeConn(c) =>
      var x := s.ctls[c];
      SetCtl(s, c, x.(pool := x.pool[1..])).(handed := s.handed + {x.pool[0]})
  }

  /** States some run of the system reaches. */
  ghost predicate IsRun(states: seq<State>, actions: seq<Action>) {
    && |states| == |actions| + 1
    && states[0] == Init
    && forall i | 0 <= i < |actions| :: Enabled(states[i], actions[i]) && states[i + 1] == Apply(states[i], actions[i])
  }
}
