/**
 TCP groups of frps (server/group/tcp.go, base.go, registry.go) with the port manager they share
 (server/ports/ports.go): proxies of one group share one real listener on one port. Any number of
 callers join and leave concurrently.

 A caller looks its group up in the registry, or creates it, and then listens on it under the group's
 lock; in between the group may be emptied and leave the registry, which the caller finds out and
 starts over. Under the lock of its own group only, the first listener acquires a port and then binds
 it, and the last one releases it and then takes the group out of the registry: each is an action, and
 callers of other groups come in between.
 */
module TcpGroup {
  import opened Prelude
  import Ports

  type GroupID = nat
  type ListenerID = nat

  datatype Group = Group(
    name: string, key: string, addr: string, port: int, realPort: int,
    lns: set<ListenerID>,
    // the caller inside the group's lock across actions
    locked: Option<nat>,
    // the port has been acquired for the listeners and not released
    holds: bool,
    // history: the name it was created under
    born: string)

  datatype GroupError = ParamsInvalid | DifferentPort | AuthFailed | PortFailed | ListenFailed

  datatype Request = Request(proxy: string, group: string, key: string, addr: string, port: int)

  datatype Caller =
    | Lookup(req: Request)
    | Listen(req: Request, g: GroupID)
    | Binding(req: Request, g: GroupID, acquired: int)
    | Joined(req: Request, g: GroupID, ln: ListenerID, realPort: int)
    | Releasing(req: Request, g: GroupID)
    | Unregistering(req: Request, g: GroupID)
    | Failed(req: Request, error: GroupError)
    | Left(req: Request)

  datatype State = State(
    registry: map<string, GroupID>,
    groups: map<GroupID, Group>,
    nextGroup: GroupID,
    nextListener: ListenerID,
    ports: Ports.Table,
    // ports with a real listener of a group
    bound: set<int>,
    callers: map<nat, Caller>)

  function Init(allowed: set<int>): State {
    State(map[], map[], 0, 0, Ports.Table(allowed, {}, map[]), {}, map[])
  }

  function EmptyGroup(name: string): Group {
    Group("", "", "", 0, 0, {}, None, false, name)
  }

  function Go(s: State, t: nat, c: Caller): State {
    s.(callers := s.callers[t := c])
  }

  function SetGroup(s: State, g: GroupID, group: Group): State {
    s.(groups := s.groups[g := group])
  }

  predicate IsCurrent(s: State, name: string, g: GroupID) {
    name in s.registry && s.registry[name] == g
  }

  // ---------------------------------------------------------------------------------------
  // Joining

  function Created(s: State, name: string): State {
    s.(registry := s.registry[name := s.nextGroup], groups := s.groups[s.nextGroup := EmptyGroup(name)], nextGroup := s.nextGroup + 1)
  }

  function GetOrCreate(s: State, t: nat, req: Request): State {
    if req.group in s.registry then Go(s, t, Listen(req, s.registry[req.group]))
    else Go(Created(s, req.group), t, Listen(req, s.nextGroup))
  }

  /** Why a group that has listeners does not take another. */
  function Refusal(group: Group, req: Request): Option<GroupError> {
    if group.name != req.group || group.addr != req.addr then Some(ParamsInvalid)
    else if group.port != req.port then Some(DifferentPort)
    else if group.key != req.key then Some(AuthFailed)
    else None
  }

  /** The group with its first listener, on the port acquired and bound for it. */
  function Opened(group: Group, req: Request, port: int, ln: ListenerID): Group {
    group.(name := req.group, key := req.key, addr := req.addr, port := req.port, realPort := port, lns := group.lns + {ln},
           holds := true, locked := None)
  }

  /** What the port manager answers a caller's group, when the system can bind `available` and free ports are tried in `order`. */
  function AcquireFor(s: State, req: Request, available: set<int>, order: seq<int>): (Ports.Table, Result<int, Ports.PortError>) {
    Ports.Acquired(s.ports, req.proxy, req.port, available, order)
  }

  function ListenOn(s: State, t: nat, req: Request, g: GroupID, available: set<int>, order: seq<int>): State
    requires g in s.groups
  {
    var group := s.groups[g];
    if !IsCurrent(s, req.group, g) then Go(s, t, Lookup(req))
    else if group.lns == {} then
      var (table, r) := AcquireFor(s, req, available, order);
      match r
      case Ok(p) => Go(SetGroup(s, g, group.(locked := Some(t))), t, Binding(req, g, p)).(ports := table)
      case Err(_) => Go(s, t, Failed(req, PortFailed)).(ports := table)
    else
      match Refusal(group, req)
      case Some(error) => Go(s, t, Failed(req, error))
      case None =>
        Go(SetGroup(s, g, group.(lns := group.lns + {s.nextListener})).(nextListener := s.nextListener + 1),
           t, Joined(req, g, s.nextListener, group.realPort))
  }

  function Bind(s: State, t: nat, req: Request, g: GroupID, port: int, ok: bool): State
    requires g in s.groups
  {
    if ok then
      Go(SetGroup(s, g, Opened(s.groups[g], req, port, s.nextListener)).(nextListener := s.nextListener + 1, bound := s.bound + {port}),
         t, Joined(req, g, s.nextListener, port))
    else
      Go(SetGroup(s, g, s.groups[g].(locked := None)).(ports := Ports.Released(s.ports, port)), t, Failed(req, ListenFailed))
  }

  // ---------------------------------------------------------------------------------------
  // Leaving

  /** closeListener: the last one closes the real listener, and goes on to release and unregister. */
  function Close(s: State, t: nat, req: Request, g: GroupID, ln: ListenerID): State
    requires g in s.groups
  {
    var group := s.groups[g].(lns := s.groups[g].lns - {ln});
    if group.lns != {} then Go(SetGroup(s, g, group), t, Left(req))
    else Go(SetGroup(s, g, group.(locked := Some(t))).(bound := s.bound - {group.realPort}), t, Releasing(req, g))
  }

  function Release(s: State, t: nat, req: Request, g: GroupID): State
    requires g in s.groups
  {
    Go(SetGroup(s, g, s.groups[g].(holds := false)).(ports := Ports.Released(s.ports, s.groups[g].realPort)), t, Unregistering(req, g))
  }

  function Unregister(s: State, t: nat, req: Request, g: GroupID): State
    requires g in s.groups
  {
    var name := s.groups[g].name;
    Go(SetGroup(s, g, s.groups[g].(locked := None)).(registry := if IsCurrent(s, name, g) then s.registry - {name} else s.registry), t, Left(req))
  }

  // ---------------------------------------------------------------------------------------
  // Actions

  datatype Action =
    | Call(t: nat, req: Request)
    | LookupStep(t: nat)
    | ListenStep(t: nat, available: set<int>, order: seq<int>)
    | BindStep(t: nat, ok: bool)
    | CloseStep(t: nat)
    | ReleaseStep(t: nat)
    | UnregisterStep(t: nat)
    | Expire(name: string)

  predicate Free(s: State, g: GroupID) {
    g in s.groups && s.groups[g].locked == None
  }

  predicate Enabled(s: State, act: Action) {
    match act
    case Call(t, _) => t !in s.callers
    case LookupStep(t) => t in s.callers && s.callers[t].Lookup?
    // the system does not report a port free on which a group listens
    case ListenStep(t, available, order) =>
      t in s.callers && s.callers[t].Listen? && Free(s, s.callers[t].g) && available !! s.bound && Ports.IsOrder(order, s.ports.free)
    // and lets nobody listen on it a second time
    case BindStep(t, ok) =>
      t in s.callers && s.callers[t].Binding? && s.callers[t].g in s.groups && (ok ==> s.callers[t].acquired !in s.bound)
    case CloseStep(t) => t in s.callers && s.callers[t].Joined? && Free(s, s.callers[t].g)
    case ReleaseStep(t) => t in s.callers && s.callers[t].Releasing? && s.callers[t].g in s.groups
    case UnregisterStep(t) => t in s.callers && s.callers[t].Unregistering? && s.callers[t].g in s.groups
    case Expire(name) => name in s.ports.reserved
  }

  function Apply(s: State, act: Action): State
    requires Enabled(s, act)
  {
    match act
    case Call(t, req) => Go(s, t, Lookup(req))
    case LookupStep(t) => GetOrCreate(s, t, s.callers[t].req)
    case ListenStep(t, available, order) => ListenOn(s, t, s.callers[t].req, s.callers[t].g, available, order)
    case BindStep(t, ok) => Bind(s, t, s.callers[t].req, s.callers[t].g, s.callers[t].acquired, ok)
    case CloseStep(t) => Close(s, t, s.callers[t].req, s.callers[t].g, s.callers[t].ln)
    case ReleaseStep(t) => Release(s, t, s.callers[t].req, s.callers[t].g)
    case UnregisterStep(t) => Unregister(s, t, s.callers[t].req, s.callers[t].g)
    case Expire(name) => s.(ports := s.ports.(reserved := s.ports.reserved - {name}))
  }

  ghost predicate IsRun(states: seq<State>, actions: seq<Action>, allowed: set<int>) {
    && |states| == |actions| + 1
    && states[0] == Init(allowed)
    && forall i | 0 <= i < |actions| :: Enabled(states[i], actions[i]) && states[i + 1] == Apply(states[i], actions[i])
  }
}
