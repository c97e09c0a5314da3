/**
 The port manager of frps (server/ports/ports.go).

 A port that was handed out is recorded twice, as used and as reserved for its proxy, and both
 records are one and the same object. The system's answer whether a port can be bound, the clock and
 the order in which the free ports are tried are parameters of the calls.
 */
module Ports {
  import opened Prelude

  const MIN_PORT := 1
  const MAX_PORT := 65535
  const MAX_TRY_TIMES := 5

  /** In hours. */
  const MAX_RESERVED_DURATION := 24

  datatype PortError = AlreadyUsed | NotAllowed | Unavailable | NoAvailablePort

  datatype PortsRange = PortsRange(start: int, end: int, single: int)

  predicate InRange(r: PortsRange, port: int) {
    if r.single > 0 then port == r.single else r.start <= port <= r.end
  }

  /** What the configuration allows; nothing configured means every port number. */
  predicate Allows(ranges: seq<PortsRange>, port: int) {
    if ranges == [] then MIN_PORT <= port <= MAX_PORT else exists r <- ranges :: InRange(r, port)
  }

  /** A port is found among the first tries. */
  predicate FirstAvailable(order: seq<int>, available: set<int>, port: int) {
    exists i | 0 <= i < |order| && i < MAX_TRY_TIMES :: order[i] == port && port in available && forall j | 0 <= j < i :: order[j] !in available
  }

  predicate NoneAvailable(order: seq<int>, available: set<int>) {
    forall i | 0 <= i < |order| && i < MAX_TRY_TIMES :: order[i] !in available
  }

  /** `order` goes through the free ports, each once. */
  predicate IsOrder(order: seq<int>, free: set<int>) {
    && (forall i | 0 <= i < |order| :: order[i] in free)
    && (forall p <- free :: p in order)
    && (forall i, j | 0 <= i < j < |order| :: order[i] != order[j])
  }

  // ---------------------------------------------------------------------------------------
  // The manager's table as a value

  /** Free and used ports, and the port each proxy name has reserved. */
  datatype Table = Table(free: set<int>, used: set<int>, reserved: map<string, int>)

  function FindFirst(order: seq<int>, available: set<int>, tries: nat): Option<int> {
    if order == [] || tries == 0 then None
    else if order[0] in available then Some(order[0])
    else FindFirst(order[1..], available, tries - 1)
  }

  function Take(t: Table, name: string, port: int): Table {
    Table(t.free - {port}, t.used + {port}, t.reserved[name := port])
  }

  /** Acquire on the table. */
  function Acquired(t: Table, name: string, port: int, available: set<int>, order: seq<int>): (Table, Result<int, PortError>) {
    if port == 0 && name in t.reserved && t.reserved[name] in available then (Take(t, name, t.reserved[name]), Ok(t.reserved[name]))
    else if port == 0 then
      match FindFirst(order, available, MAX_TRY_TIMES)
      case Some(p) => (Take(t, name, p), if p == 0 then Err(NoAvailablePort) else Ok(p))
      case None => (t, Err(NoAvailablePort))
    else if port in t.free then if port in available then (Take(t, name, port), Ok(port)) else (t, Err(Unavailable))
    else (t, Err(if port in t.used then AlreadyUsed else NotAllowed))
  }

  /** Release on the table. The reservation stays. */
  function Released(t: Table, port: int): Table {
    if port in t.used then t.(free := t.free + {port}, used := t.used - {port}) else t
  }

  lemma {:induction false} FindFirstIs(order: seq<int>, available: set<int>, tries: nat)
    ensures match FindFirst(order, available, tries)
            case Some(p) => exists i | 0 <= i < |order| && i < tries :: order[i] == p && p in available && forall j | 0 <= j < i :: order[j] !in available
            case None => forall i | 0 <= i < |order| && i < tries :: order[i] !in available
  {
    if order != [] && tries != 0 && order[0] !in available {
      FindFirstIs(order[1..], available, tries - 1);
      if FindFirst(order[1..], available, tries - 1).Some? {
        var p := FindFirst(order[1..], available, tries - 1).value;
        var i :| 0 <= i < |order[1..]| && i < tries - 1 && order[1..][i] == p && p in available && forall j | 0 <= j < i :: order[1..][j] !in available;
        assert order[i + 1] == p;
        forall j | 0 <= j < i + 1 ensures order[j] !in available {
          if j > 0 { assert order[j] == order[1..][j - 1]; }
        }
      } else {
        forall i | 0 <= i < |order| && i < tries ensures order[i] !in available {
          if i > 0 { assert order[i] == order[1..][i - 1]; }
        }
      }
    }
  }

  /** Goes through the ports in order, a few times at most, for one that can be bound. */
  method FindPort(order: seq<int>, available: set<int>) returns (found: Option<int>)
    ensures found == FindFirst(order, available, MAX_TRY_TIMES)
    ensures if found.Some? then forall p :: FirstAvailable(order, available, p) <==> p == found.value else NoneAvailable(order, available)
    ensures found == None ==> forall p :: !FirstAvailable(order, available, p)
    ensures found.Some? ==> found.value in order && found.value in available
  {
    for i := 0 to |order|
      invariant i <= MAX_TRY_TIMES
      invariant forall j | 0 <= j < i :: order[j] !in available
    {
      if i == MAX_TRY_TIMES { break; }
      if order[i] in available {
        assert FirstAvailable(order, available, order[i]);
        FirstIsFound(order, available, order[i]);
        forall p | FirstAvailable(order, available, p) ensures p == order[i] { OnlyOneFirst(order, available, p, order[i]); }
        return Some(order[i]);
      }
    }
    NoneIsFound(order, available);
    return None;
  }

  /** Going through the keys and removing some: one more key is done. */
  lemma Swept<T>(was: map<string, T>, gone: set<string>, todo: set<string>, n: string)
    requires n in todo && todo <= was.Keys
    ensures var m := was - (gone - todo);
            n in m && m[n] == was[n] && was - (gone - (todo - {n})) == if n in gone then m - {n} else m
  {
    assert gone - (todo - {n}) == if n in gone then (gone - todo) + {n} else gone - todo;
  }

  lemma MovesOver(free: set<int>, used: set<int>, allowed: set<int>, port: int)
    requires free !! used && free + used == allowed && port in allowed
    ensures (free - {port}) !! (used + {port}) && (free - {port}) + (used + {port}) == allowed
  {
  }

  class PortCtx {
    const proxyName: string
    var port: int
    var closed: bool
    var updateTime: int

    constructor (proxyName: string, now: int)
      ensures this.proxyName == proxyName && port == 0 && !closed && updateTime == now
    {
      this.proxyName := proxyName;
      port, closed, updateTime := 0, false, now;
    }
  }

  class Manager {
    var reservedPorts: map<string, PortCtx>
    var usedPorts: map<int, PortCtx>
    var freePorts: set<int>
    ghost const allowed: set<int>

    ghost predicate Valid()
      reads this, usedPorts.Values, reservedPorts.Values
    {
      && freePorts !! usedPorts.Keys
      && freePorts + usedPorts.Keys == allowed
      && (forall p <- usedPorts :: usedPorts[p].port == p)
      && (forall n <- reservedPorts :: reservedPorts[n].port in allowed && reservedPorts[n].proxyName == n)
    }

    /** The table the maps amount to. */
    ghost function View(): Table
      reads this, reservedPorts.Values
    {
      Table(freePorts, usedPorts.Keys, map n | n in reservedPorts :: reservedPorts[n].port)
    }

    constructor (ranges: seq<PortsRange>)
      ensures Valid() && usedPorts == map[] && reservedPorts == map[]
      ensures forall p :: p in freePorts <==> Allows(ranges, p)
    {
      var free: set<int> := {};
      for i := 0 to |ranges|
        invariant forall p :: p in free <==> exists j | 0 <= j < i :: InRange(ranges[j], p)
      {
        var r := ranges[i];
        ghost var before := free;
        if r.single > 0 {
          free := free + {r.single};
        } else {
          var k := r.start;
          while k <= r.end
            invariant r.start <= k
            invariant forall p :: p in free <==> p in before || (r.start <= p < k && p <= r.end)
          {
            free := free + {k};
            k := k + 1;
          }
        }
        assert forall p :: p in free <==> p in before || InRange(r, p);
      }
      if ranges == [] {
        for k := MIN_PORT to MAX_PORT + 1
          invariant forall p :: p in free <==> MIN_PORT <= p < k
        {
          free := free + {k};
        }
      }
      freePorts, usedPorts, reservedPorts, allowed := free, map[], map[], free;
    }

    /** The reservation is honoured without a look at who uses the port. */
    predicate Sticky(name: string, port: int, available: set<int>)
      reads this, reservedPorts.Values
    {
      port == 0 && name in reservedPorts && reservedPorts[name].port in available
    }

    /** A random port is asked for, and the one found is numbered 0. */
    predicate FindsZero(name: string, port: int, available: set<int>, order: seq<int>)
      reads this, reservedPorts.Values
    {
      port == 0 && !Sticky(name, port, available) && FirstAvailable(order, available, 0)
    }

    /** The port is recorded for the name: used, reserved and no longer free, in one record; the partition is kept. */
    method MarkPortAcquired(name: string, port: int, ctx: PortCtx)
      requires Valid() && port in allowed && ctx.proxyName == name
      requires (forall p <- usedPorts :: usedPorts[p] != ctx) && forall n <- reservedPorts :: reservedPorts[n] != ctx
      modifies this, ctx`port
      ensures Valid() && View() == Take(old(View()), name, port)
      ensures usedPorts == old(usedPorts)[port := ctx] && reservedPorts == old(reservedPorts)[name := ctx] && freePorts == old(freePorts) - {port}
    {
      usedPorts := usedPorts[port := ctx];
      reservedPorts := reservedPorts[name := ctx];
      freePorts := freePorts - {port};
      ctx.port := port;
      MovesOver(old(freePorts), old(usedPorts.Keys), allowed, port);
      assert usedPorts.Keys == old(usedPorts.Keys) + {port};
      assert View().reserved == old(View().reserved)[name := port];
    }

    method Acquire(name: string, port: int, now: int, available: set<int>, order: seq<int>) returns (r: Result<int, PortError>)
      requires Valid() && IsOrder(order, freePorts)
      modifies this
      ensures Valid()
      // success: one allowed port that can be bound is recorded for the proxy, and nothing else changes
      ensures r.Ok? ==>
                && r.value in allowed && r.value in available && (port != 0 ==> r.value == port)
                && r.value in usedPorts && usedPorts[r.value].proxyName == name && !usedPorts[r.value].closed
                && fresh(usedPorts[r.value])
                && usedPorts == old(usedPorts)[r.value := usedPorts[r.value]]
                && reservedPorts == old(reservedPorts)[name := usedPorts[r.value]]
                && freePorts == old(freePorts) - {r.value}
      // a port in use is handed out again exactly when it is the proxy's reservation and the system can bind it
      ensures r.Ok? && r.value in old(usedPorts) <==> old(Sticky(name, port, available)) && old(reservedPorts[name].port in usedPorts)
      ensures r.Ok? && available !! old(usedPorts.Keys) ==> r.value !in old(usedPorts)
      ensures old(Sticky(name, port, available)) ==> r == Ok(old(reservedPorts[name].port))
      // a port asked for by number: each error has its own cause
      ensures port != 0 ==>
                r == if port in old(freePorts) then (if port in available then Ok(port) else Err(Unavailable))
                     else if port in old(usedPorts) then Err(AlreadyUsed) else Err(NotAllowed)
      // any port: the first of a few that can be bound
      ensures port == 0 && !old(Sticky(name, port, available)) && r.Ok? ==> r.value != 0 && FirstAvailable(order, available, r.value)
      ensures port == 0 && r.Err? ==> r == Err(NoAvailablePort) && (NoneAvailable(order, available) || FirstAvailable(order, available, 0))
      // the maps do what the table does
      ensures (View(), r) == Acquired(old(View()), name, port, available, order)
      // a failed call changes nothing, unless the port it found is number 0
      ensures r.Err? && !old(FindsZero(name, port, available, order)) ==>
                usedPorts == old(usedPorts) && reservedPorts == old(reservedPorts) && freePorts == old(freePorts)
      ensures old(FindsZero(name, port, available, order)) ==> r == Err(NoAvailablePort) && 0 in usedPorts && 0 in old(freePorts) && 0 !in freePorts
    {
      var ctx := new PortCtx(name, now);
      if port == 0 && name in reservedPorts && reservedPorts[name].port in available {
        var realPort := reservedPorts[name].port;
        MarkPortAcquired(name, realPort, ctx);
        return Ok(realPort);
      }
      if port == 0 {
        var found := FindPort(order, available);
        if found == None { return Err(NoAvailablePort); }
        MarkPortAcquired(name, found.value, ctx);
        if found.value == 0 { return Err(NoAvailablePort); }
        return Ok(found.value);
      }
      if port in freePorts {
        if port !in available { return Err(Unavailable); }
        MarkPortAcquired(name, port, ctx);
        return Ok(port);
      }
      if port in usedPorts { return Err(AlreadyUsed); }
      return Err(NotAllowed);
    }

    method Release(port: int, now: int)
      requires Valid()
      modifies this, if port in usedPorts then {usedPorts[port]} else {}
      ensures Valid()
      ensures View() == Released(old(View()), port)
      ensures reservedPorts == old(reservedPorts)
      ensures port !in old(usedPorts) ==> usedPorts == old(usedPorts) && freePorts == old(freePorts)
      ensures port in old(usedPorts) ==>
                && usedPorts == old(usedPorts) - {port} && freePorts == old(freePorts) + {port}
                && old(usedPorts[port]).closed && old(usedPorts[port]).updateTime == now
                && old(usedPorts[port]).port == port
    {
      if port in usedPorts {
        var ctx := usedPorts[port];
        freePorts := freePorts + {port};
        usedPorts := usedPorts - {port};
        ctx.closed := true;
        ctx.updateTime := now;
      }
    }

    predicate Expired(ctx: PortCtx, now: int)
      reads ctx
    {
      ctx.closed && now - ctx.updateTime > MAX_RESERVED_DURATION
    }

    method CleanReservedPorts(now: int)
      requires Valid()
      modifies this`reservedPorts
      ensures Valid()
      ensures reservedPorts == map n | n in old(reservedPorts) && !Expired(old(reservedPorts)[n], now) :: old(reservedPorts)[n]
    {
      ghost var expired := set n | n in reservedPorts && Expired(reservedPorts[n], now);
      Sweep(now, expired);
    }

    /** The loop over the reservations. */
    method Sweep(now: int, ghost expired: set<string>)
      requires expired == set n | n in reservedPorts && Expired(reservedPorts[n], now)
      modifies this`reservedPorts
      ensures reservedPorts == old(reservedPorts) - expired
    {
      var todo := reservedPorts.Keys;
      while todo != {}
        invariant todo <= old(reservedPorts).Keys && reservedPorts == old(reservedPorts) - (expired - todo)
        decreases |todo|
      {
        var n :| n in todo;
        Swept(old(reservedPorts), expired, todo, n);
        if Expired(reservedPorts[n], now) { reservedPorts := reservedPorts - {n}; }
        todo := todo - {n};
      }
    }
  }

  // ---------------------------------------------------------------------------------------
  // Runs of calls

  /**
   A port acquired from the free ones and released again leaves the manager as it was, except that it
   stays reserved: the next random request of the same proxy gets it back if it can still be bound,
   whatever other ports are free.
   */
  method ReservedAcrossRelease(m: Manager, name: string, port: int, now: int, available: set<int>, order: seq<int>, order': seq<int>)
    returns (first: Result<int, PortError>, again: Result<int, PortError>)
    requires m.Valid() && IsOrder(order, m.freePorts) && IsOrder(order', m.freePorts)
    requires port in m.freePorts && port != 0 && port in available
    modifies m
    ensures first == again == Ok(port)
    ensures m.Valid() && m.freePorts == old(m.freePorts) - {port} && m.usedPorts.Keys == old(m.usedPorts.Keys) + {port}
  {
    first := m.Acquire(name, port, now, available, order);
    m.Release(port, now);
    assert m.freePorts == old(m.freePorts);
    again := m.Acquire(name, 0, now, available, order');
  }

  /** Range 0 to 0 is allowed by the configuration; a request for any port then fails and still loses the port. */
  method ZeroPortIsLost(name: string) returns (m: Manager, r: Result<int, PortError>)
    ensures r == Err(NoAvailablePort) && 0 in m.usedPorts && m.freePorts == {}
  {
    var ranges := [PortsRange(0, 0, 0)];
    m := new Manager(ranges);
    forall p ensures p in m.freePorts <==> p == 0 { assert Allows(ranges, p) <==> InRange(ranges[0], p); }
    assert m.freePorts == {0};
    assert [0][0] == 0;
    r := m.Acquire(name, 0, 0, {0}, [0]);
  }

  /** A proxy that asks twice before anything listens gets its own port twice. */
  method ReservedPortTwice(name: string) returns (m: Manager, r: Result<int, PortError>, again: Result<int, PortError>)
    ensures r == again == Ok(7)
  {
    var ranges := [PortsRange(0, 0, 7), PortsRange(0, 0, 8)];
    m := new Manager(ranges);
    forall p ensures p in m.freePorts <==> p == 7 || p == 8 {
      assert Allows(ranges, p) <==> InRange(ranges[0], p) || InRange(ranges[1], p);
    }
    assert m.freePorts == {7, 8};
    assert [7, 8][0] == 7 && [7, 8][1] == 8;
    r := m.Acquire(name, 7, 0, {7, 8}, [7, 8]);
    assert m.freePorts == {8};
    assert [8][0] == 8;
    again := m.Acquire(name, 0, 0, {7, 8}, [8]);
  }

  /** The configurations under which no call can find port 0, and so no failed call loses a port. */
  lemma PositiveIff(ranges: seq<PortsRange>)
    ensures !Allows(ranges, 0) <==> forall r <- ranges :: r.single > 0 || r.start > 0 || r.end < 0
  {
    if exists r <- ranges :: !(r.single > 0 || r.start > 0 || r.end < 0) {
      var r :| r in ranges && !(r.single > 0 || r.start > 0 || r.end < 0);
      assert InRange(r, 0);
    }
  }

  lemma OnlyOneFirst(order: seq<int>, available: set<int>, p: int, q: int)
    requires FirstAvailable(order, available, p) && FirstAvailable(order, available, q)
    ensures p == q
  {
  }

  lemma FirstIsFound(order: seq<int>, available: set<int>, p: int)
    requires FirstAvailable(order, available, p)
    ensures FindFirst(order, available, MAX_TRY_TIMES) == Some(p)
  {
    FindFirstIs(order, available, MAX_TRY_TIMES);
    var i :| 0 <= i < |order| && i < MAX_TRY_TIMES && order[i] == p && p in available && forall j | 0 <= j < i :: order[j] !in available;
    assert order[i] in available;
  }

  lemma NoneIsFound(order: seq<int>, available: set<int>)
    requires NoneAvailable(order, available)
    ensures FindFirst(order, available, MAX_TRY_TIMES) == None
  {
    FindFirstIs(order, available, MAX_TRY_TIMES);
  }
}
