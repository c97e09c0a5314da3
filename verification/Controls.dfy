/**
 The control and its manager as the objects they are (server/control.go), one method per critical
 section. Each is proved to do to the objects what the step system of Handoff does to its state, so
 that what is proved there over all interleavings is about these sections.
 */
module Controls {
  import opened Prelude
  import opened Handoff
  import Registry

  class Control {
    const self: Ref
    const runID: string
    const user: string
    const clientID: string
    const poolCount: nat
    var controlID: nat
    var state: Life
    var activated: bool
    var handoffBarrier: Option<Ref>
    var interrupted: bool
    var proxies: set<string>
    var workConnCh: seq<Conn>
    var workConnChClosed: bool

    /** The control as a value. Its done channel is closed exactly when it is Closed. */
    ghost function View(): Ctl
      reads this
    {
      Ctl(runID, user, clientID, poolCount, controlID, state, activated, handoffBarrier, interrupted, proxies, workConnCh, workConnChClosed)
    }

    constructor (self: Ref, runID: string, user: string, clientID: string, poolCount: nat)
      ensures this.self == self && View() == Ctl(runID, user, clientID, poolCount, 0, Created, false, None, false, {}, [], false)
    {
      this.self, this.runID, this.user, this.clientID, this.poolCount := self, runID, user, clientID, poolCount;
      controlID, state, activated, handoffBarrier := 0, Created, false, None;
      interrupted, proxies, workConnCh, workConnChClosed := false, {}, [], false;
    }

    method Admit(id: nat) returns (ok: bool)
      modifies this
      ensures ok <==> old(state) == Created
      ensures View() == if ok then old(View()).(id := id, life := Pending) else old(View())
    {
      if state != Created { return false; }
      controlID, state := id, Pending;
      return true;
    }

    method FinishLocked()
      modifies this
      ensures View() == Finished(old(View()))
    {
      if state == Closed { return; }
      state := Closed;
    }

    /** The barrier returned is named by the control whose done channel it is. */
    method MarkReplaced() returns (barrier: Option<Ref>)
      modifies this
      ensures (View(), barrier) == Handoff.MarkReplaced(old(View()), self)
    {
      match state
      case Created =>
        state := Closing;
        FinishLocked();
        return None;
      case Pending =>
        barrier := handoffBarrier;
        state := Closing;
        FinishLocked();
      case Running =>
        state := Closing;
        return Some(self);
      case Closing => return Some(self);
      case Closed => return Some(self);
    }

    /** Admission in place of `prior`, whose barrier it inherits. */
    method Succeed(prior: Control, id: nat) returns (ok: bool)
      requires prior != this
      modifies this, prior
      ensures ok <==> old(state) == Created
      ensures !ok ==> View() == old(View()) && prior.View() == old(prior.View())
      ensures ok ==> (prior.View(), View().barrier) == Handoff.MarkReplaced(old(prior.View()), prior.self)
      ensures ok ==> View() == old(View()).(id := id, life := Pending, barrier := View().barrier)
    {
      ok := Admit(id);
      if !ok { return; }
      var barrier := prior.MarkReplaced();
      handoffBarrier := barrier;
    }

    method Close()
      modifies this
      ensures View() == ClosedBy(old(View()))
    {
      match state {
        case Created =>
          state := Closing;
          FinishLocked();
        case Pending =>
          state := Closing;
          FinishLocked();
        case Running => state := Closing;
        case Closing =>
        case Closed =>
      }
      interrupted := true;
    }

    method StartLocked() returns (ok: bool)
      modifies this
      ensures ok <==> old(state) == Pending && activated
      ensures View() == if ok then old(View()).(life := Running) else old(View())
    {
      if state != Pending || !activated { return false; }
      state := Running;
      return true;
    }

    /** Sending on the pool's channel without blocking; it must not be closed. */
    method Pool(conn: Conn) returns (ok: bool)
      requires !workConnChClosed
      modifies this
      ensures ok <==> old(|workConnCh|) < Capacity(old(View()))
      ensures View() == if ok then old(View()).(pool := old(workConnCh) + [conn]) else old(View())
    {
      if |workConnCh| >= poolCount + POOL_CAPACITY_OFFSET { return false; }
      workConnCh := workConnCh + [conn];
      return true;
    }

    /** The worker's clean-up: the pool is closed and emptied and the proxies given up, everything in it closed once. */
    method CleanUp() returns (conns: seq<Conn>, names: set<string>)
      modifies this
      ensures conns == old(workConnCh) && names == old(proxies)
      ensures View() == old(View()).(pool := [], poolClosed := true, proxies := {})
    {
      workConnChClosed := true;
      conns := [];
      while workConnCh != []
        invariant conns + workConnCh == old(workConnCh)
        invariant View() == old(View()).(pool := workConnCh, poolClosed := true)
        decreases |workConnCh|
      {
        conns, workConnCh := conns + [workConnCh[0]], workConnCh[1..];
      }
      names, proxies := proxies, {};
    }
  }

  /** What the manager's lock protects, besides the controls and the registry. */
  class ControlManager {
    var ctlsByRunID: map<string, Entry>
    var closed: bool
    var nextControlID: nat
    var nextGate: Gate
    const registry: Registry.ClientRegistry

    constructor (registry: Registry.ClientRegistry)
      ensures this.registry == registry
      ensures ctlsByRunID == Init.slots && closed == Init.closed && nextControlID == Init.nextID && nextGate == Init.nextGate
    {
      ctlsByRunID, closed, nextControlID, nextGate := map[], false, 1, 0;
      this.registry := registry;
    }

    /** The manager agrees with a state of the step system in which `ctl` stands for itself. */
    ghost predicate Shows(s: State, ctl: Control)
      reads this, ctl, registry
    {
      && ctlsByRunID == s.slots && closed == s.closed && nextControlID == s.nextID && nextGate == s.nextGate
      && registry.View() == s.reg && ctl.self in s.ctls && s.ctls[ctl.self] == ctl.View()
    }

    /** The section of Add that commits a control to an empty slot. */
    method CommitFirst(ctl: Control, ghost s: State) returns (ok: bool)
      requires Shows(s, ctl) && ctl.runID !in ctlsByRunID
      modifies this, ctl
      ensures ok <==> old(ctl.state) == Created
      ensures Shows(if ok then Admit(s, ctl.self) else s.(nextID := s.nextID + 1), ctl)
    {
      var id := nextControlID;
      nextControlID := nextControlID + 1;
      ok := ctl.Admit(id);
      if !ok { return; }
      ctlsByRunID := ctlsByRunID[ctl.runID := Entry(ctl.self, id, nextGate, false, 0)];
      nextGate := nextGate + 1;
    }

    /** The section of Add that commits a control in place of the one in its slot. */
    method CommitReplacing(ctl: Control, prior: Control, ghost s: State) returns (ok: bool)
      requires Shows(s, ctl) && Shows(s, prior) && prior.self != ctl.self
      requires ctl.runID in ctlsByRunID && ctlsByRunID[ctl.runID].ctl == prior.self
      modifies this, ctl, prior
      ensures ok <==> old(ctl.state) == Created
      ensures Shows(if ok then Admit(s, ctl.self) else s.(nextID := s.nextID + 1), ctl)
      ensures Shows(if ok then Admit(s, ctl.self) else s.(nextID := s.nextID + 1), prior)
    {
      hide Handoff.MarkReplaced;
      var entry := ctlsByRunID[ctl.runID];
      var id := nextControlID;
      nextControlID := nextControlID + 1;
      ok := ctl.Succeed(prior, id);
      if !ok { return; }
      ctlsByRunID := ctlsByRunID[ctl.runID := Entry(ctl.self, id, entry.gate, entry.online, entry.onlineID)];
    }

    /** The entry is still the current one, and belongs to this generation of the control. */
    predicate Current(ctl: Control, entry: Entry)
      reads this, ctl
    {
      && ctl.runID in ctlsByRunID && ctlsByRunID[ctl.runID].id == entry.id
      && entry.ctl == ctl.self && entry.id == ctl.controlID
    }

    /** The section of Activate under the manager's lock. */
    method ActivateLocked(ctl: Control, entry: Entry, now: int, ghost s: State) returns (active: bool, conflict: bool)
      requires Shows(s, ctl) && Registry.Consistent(s.reg)
      modifies this, ctl, registry
      ensures active <==> old(!closed && Current(ctl, entry) && ctl.state == Pending)
      ensures var r := Registry.Register(s.reg, ctl.user, ctl.clientID, ctl.runID, entry.id, now);
              && (conflict <==> active && !old(ctl.activated) && r.conflict)
              && Shows(if !active || old(ctl.activated) || conflict then s else GoOnline(s, ctl.self, r), ctl)
    {
      hide Registry.Consistent, Registry.Register;
      if closed || !Current(ctl, entry) { return false, false; }
      if ctl.state != Pending { return false, false; }
      if ctl.activated { return true, false; }
      var key;
      key, conflict := registry.RegisterWithControlID(ctl.user, ctl.clientID, ctl.runID, entry.id, now);
      if conflict {
        ConflictKeeps(s.reg, ctl.user, ctl.clientID, ctl.runID, entry.id, now);
        return true, true;
      }
      ctlsByRunID := ctlsByRunID[ctl.runID := ctlsByRunID[ctl.runID].(online := true, onlineID := entry.id)];
      ctl.activated := true;
      return true, false;
    }

    /** The section of Remove under the manager's lock; `entry` was read under the gate that protects the slot. */
    method RemoveLocked(ctl: Control, entry: Entry, now: int, ghost s: State) returns (removed: bool)
      requires Shows(s, ctl) && Registry.Consistent(s.reg)
      requires ctl.runID in ctlsByRunID && ctlsByRunID[ctl.runID].id == entry.id ==> ctlsByRunID[ctl.runID] == entry
      modifies this, registry
      ensures removed <==> old(Current(ctl, entry))
      ensures Shows(if removed then DropSlot(s, ctl.runID, now) else s, ctl)
    {
      hide Registry.Consistent, Registry.MarkOffline;
      if !Current(ctl, entry) { return false; }
      ctlsByRunID := ctlsByRunID - {ctl.runID};
      if entry.online { registry.MarkOfflineByRunID(ctl.runID, Registry.Exactly(entry.onlineID), now); }
      return true;
    }

    /** The section of RegisterWorkConn under the run gate and the lifecycle lock. */
    method OfferLocked(ctl: Control, entry: Entry, conn: Conn) returns (ok: bool)
      requires ctl.state == Running ==> !ctl.workConnChClosed
      modifies ctl
      ensures ok <==> entry.ctl == ctl.self && entry.id == ctl.controlID && ctl.state == Running && old(|ctl.workConnCh|) < Capacity(old(ctl.View()))
      ensures ctl.View() == if ok then old(ctl.View()).(pool := old(ctl.workConnCh) + [conn]) else old(ctl.View())
    {
      if entry.ctl != ctl.self || entry.id != ctl.controlID { return false; }
      if ctl.state != Running { return false; }
      ok := ctl.Pool(conn);
    }

    /** The controls Close goes on to remove and close, in any order. */
    method CloseLocked() returns (order: seq<Ref>)
      modifies this`closed
      ensures closed
      ensures (forall run <- ctlsByRunID :: ctlsByRunID[run].ctl in order)
      ensures (forall c <- order :: exists run <- ctlsByRunID :: ctlsByRunID[run].ctl == c)
    {
      closed := true;
      order := [];
      var todo := ctlsByRunID.Keys;
      while todo != {}
        invariant todo <= ctlsByRunID.Keys
        invariant forall run <- ctlsByRunID :: run in todo || ctlsByRunID[run].ctl in order
        invariant forall c <- order :: exists run <- ctlsByRunID :: ctlsByRunID[run].ctl == c
        decreases |todo|
      {
        var run :| run in todo;
        order := order + [ctlsByRunID[run].ctl];
        todo := todo - {run};
      }
    }
  }

  lemma ConflictKeeps(index: Registry.Index, user: string, clientID: string, run: string, id: nat, now: int)
    requires Registry.Register(index, user, clientID, run, id, now).conflict
    ensures Registry.Register(index, user, clientID, run, id, now).after == index
  {
  }
}
