/** What every action of the TCP groups keeps. */
module TcpGroupInvariant {
  import opened Prelude
  import opened TcpGroup
  import Ports

  // ---------------------------------------------------------------------------------------
  // Invariant

  /** The group whose lock a caller holds across actions. */
  function Section(c: Caller): Option<GroupID> {
    match c
    case Binding(_, g, _) => Some(g)
    case Releasing(_, g) => Some(g)
    case Unregistering(_, g) => Some(g)
    case _ => None
  }

  predicate GroupOk(s: State, g: GroupID)
    requires g in s.groups
  {
    var group := s.groups[g];
    && g < s.nextGroup
    && (group.locked.Some? ==> group.lns == {} && group.locked.value in s.callers && Section(s.callers[group.locked.value]) == Some(g))
    && (group.lns != {} ==> group.holds && IsCurrent(s, group.name, g) && group.name == group.born && group.realPort in s.bound)
    && (group.holds && group.lns == {} ==> group.locked.Some? && s.callers[group.locked.value].Releasing?)
  }

  predicate CallerOk(s: State, t: nat)
    requires t in s.callers
  {
    match s.callers[t]
    case Listen(req, g) => g in s.groups && s.groups[g].born == req.group
    case Binding(req, g, _) =>
      g in s.groups && s.groups[g].locked == Some(t) && s.groups[g].born == req.group && IsCurrent(s, req.group, g) && !s.groups[g].holds
    case Joined(req, g, ln, realPort) =>
      && g in s.groups && ln in s.groups[g].lns && ln < s.nextListener
      && Refusal(s.groups[g], req) == None && s.groups[g].realPort == realPort
    case Releasing(_, g) =>
      g in s.groups && s.groups[g].locked == Some(t) && s.groups[g].name == s.groups[g].born && IsCurrent(s, s.groups[g].name, g) && s.groups[g].holds
    case Unregistering(_, g) =>
      g in s.groups && s.groups[g].locked == Some(t) && s.groups[g].name == s.groups[g].born && IsCurrent(s, s.groups[g].name, g) && !s.groups[g].holds
    case _ => true
  }

  predicate RegistryOk(s: State) {
    forall n <- s.registry :: s.registry[n] in s.groups && s.groups[s.registry[n]].born == n
  }

  predicate Apart(s: State, t: nat, u: nat)
    requires t in s.callers && u in s.callers
  {
    t != u && s.callers[t].Joined? && s.callers[u].Joined? ==> s.callers[t].ln != s.callers[u].ln
  }

  ghost predicate Owned(s: State, g: GroupID, ln: ListenerID) {
    exists t :: t in s.callers && s.callers[t].Joined? && s.callers[t].g == g && s.callers[t].ln == ln
  }

  predicate Listening(s: State, g: GroupID, p: int) {
    g in s.groups && s.groups[g].lns != {} && s.groups[g].realPort == p
  }

  ghost predicate BoundOk(s: State) {
    && (forall p <- s.bound :: exists g :: Listening(s, g, p))
    && (forall g, h, p | Listening(s, g, p) && Listening(s, h, p) :: g == h)
  }

  ghost predicate Inv(s: State) {
    && (forall g <- s.groups :: GroupOk(s, g))
    && (forall t <- s.callers :: CallerOk(s, t))
    && RegistryOk(s)
    && (forall t <- s.callers, u <- s.callers :: Apart(s, t, u))
    && (forall g <- s.groups, ln <- s.groups[g].lns :: Owned(s, g, ln))
    && BoundOk(s)
    && s.ports.free !! s.ports.used
  }

  lemma Assemble(s: State)
    requires forall g <- s.groups :: GroupOk(s, g)
    requires forall t <- s.callers :: CallerOk(s, t)
    requires RegistryOk(s) && BoundOk(s) && s.ports.free !! s.ports.used
    requires forall t <- s.callers, u <- s.callers :: Apart(s, t, u)
    requires forall g <- s.groups, ln <- s.groups[g].lns :: Owned(s, g, ln)
    ensures Inv(s)
  {
  }

  // ---------------------------------------------------------------------------------------
  // A step of caller `t` on group `g`

  function Gone(s: State, t: nat): set<ListenerID> {
    if t in s.callers && s.callers[t].Joined? then {s.callers[t].ln} else {}
  }

  predicate SameGroup(s: State, s': State, h: GroupID) {
    if h in s.groups then h in s'.groups && s'.groups[h] == s.groups[h] else h !in s'.groups
  }

  /** The group keeps its parameters while it has listeners, and loses no listener but the caller's own. */
  predicate Grows(x: Group, y: Group, gone: set<ListenerID>) {
    && y.born == x.born
    && x.lns - gone <= y.lns
    && (x.lns != {} ==> y.name == x.name && y.key == x.key && y.addr == x.addr && y.port == x.port && y.realPort == x.realPort)
  }

  ghost predicate Touches(s: State, s': State, t: nat, g: GroupID) {
    && t in s'.callers && s'.callers == s.callers[t := s'.callers[t]]
    && g in s'.groups && (forall h | h != g :: SameGroup(s, s', h))
    && (t in s.callers && Section(s.callers[t]).Some? ==> Section(s.callers[t]) == Some(g))
    && (g in s.groups ==> (s.groups[g].locked == None || s.groups[g].locked == Some(t)) && Grows(s.groups[g], s'.groups[g], Gone(s, t)))
    && s.nextGroup <= s'.nextGroup && s.nextListener <= s'.nextListener
    && (forall n <- s.registry | s.registry[n] != g :: n in s'.registry && s'.registry[n] == s.registry[n])
    && (forall n <- s'.registry :: (n in s.registry && s'.registry[n] == s.registry[n]) || (s'.registry[n] == g && s'.groups[g].born == n))
    && (forall h, p | h != g && Listening(s, h, p) :: p in s'.bound)
    && s'.ports.free !! s'.ports.used
  }

  lemma OtherGroup(s: State, s': State, t: nat, g: GroupID, h: GroupID)
    requires Touches(s, s', t, g) && h != g && h in s'.groups && (h in s.groups ==> GroupOk(s, h))
    ensures GroupOk(s', h)
  {
    assert SameGroup(s, s', h);
    assert s.groups[h].lns != {} ==> Listening(s, h, s.groups[h].realPort);
  }

  lemma OtherCaller(s: State, s': State, t: nat, g: GroupID, u: nat)
    requires Touches(s, s', t, g) && u != t && u in s.callers && CallerOk(s, u)
    requires t in s.callers ==> Apart(s, t, u)
    ensures CallerOk(s', u)
  {
    var c := s.callers[u];
    if (c.Listen? || c.Binding? || c.Joined? || c.Releasing? || c.Unregistering?) && c.g != g { assert SameGroup(s, s', c.g); }
  }

  lemma RegistryStays(s: State, s': State, t: nat, g: GroupID)
    requires Touches(s, s', t, g) && RegistryOk(s)
    ensures RegistryOk(s')
  {
    forall n | n in s'.registry ensures s'.registry[n] in s'.groups && s'.groups[s'.registry[n]].born == n {
      if s'.registry[n] != g { assert SameGroup(s, s', s'.registry[n]); }
    }
  }

  lemma OtherOwned(s: State, s': State, t: nat, g: GroupID, h: GroupID, ln: ListenerID)
    requires Touches(s, s', t, g) && Owned(s, h, ln) && ln !in Gone(s, t)
    ensures Owned(s', h, ln)
  {
    var u :| u in s.callers && s.callers[u].Joined? && s.callers[u].g == h && s.callers[u].ln == ln;
    assert s'.callers[u] == s.callers[u];
  }

  /** What a step shows of the caller's and the group's listeners: the new one is new, and none is left without its caller. */
  ghost predicate ListenersOk(s: State, s': State, t: nat, g: GroupID)
    requires t in s'.callers && g in s'.groups
  {
    && (s'.callers[t].Joined? ==> s'.callers[t].ln == s.nextListener < s'.nextListener && s'.callers[t].g == g)
    && forall ln <- s'.groups[g].lns :: (s'.callers[t].Joined? && ln == s'.callers[t].ln) || (g in s.groups && ln in s.groups[g].lns && ln !in Gone(s, t))
  }

  lemma ListenersStay(s: State, s': State, t: nat, g: GroupID, h: GroupID, ln: ListenerID)
    requires Touches(s, s', t, g) && t in s'.callers && g in s'.groups && ListenersOk(s, s', t, g)
    requires h in s'.groups && ln in s'.groups[h].lns
    requires h in s.groups && ln in s.groups[h].lns ==> Owned(s, h, ln)
    requires t in s.callers && s.callers[t].Joined? ==> s.callers[t].g == g
    requires forall u <- s.callers, v <- s.callers :: Apart(s, u, v)
    ensures Owned(s', h, ln)
  {
    if h == g {
      if s'.callers[t].Joined? && ln == s'.callers[t].ln { assert Owned(s', g, ln); } else { OtherOwned(s, s', t, g, g, ln); }
    } else {
      assert SameGroup(s, s', h);
      var u :| u in s.callers && s.callers[u].Joined? && s.callers[u].g == h && s.callers[u].ln == ln;
      assert s'.callers[u] == s.callers[u];
    }
  }

  lemma ApartStays(s: State, s': State, t: nat, g: GroupID, u: nat, v: nat)
    requires Touches(s, s', t, g) && ListenersOk(s, s', t, g) && u in s'.callers && v in s'.callers
    requires u in s.callers && v in s.callers ==> Apart(s, u, v)
    requires (u in s.callers ==> CallerOk(s, u)) && (v in s.callers ==> CallerOk(s, v))
    ensures Apart(s', u, v)
  {
  }

  lemma TouchKeeps(s: State, s': State, t: nat, g: GroupID)
    requires Inv(s) && Touches(s, s', t, g) && GroupOk(s', g) && CallerOk(s', t) && ListenersOk(s, s', t, g) && BoundOk(s')
    requires t in s.callers && s.callers[t].Joined? ==> s.callers[t].g == g
    ensures Inv(s')
  {
    hide GroupOk, CallerOk, Apart, Owned, BoundOk, ListenersOk;
    forall h | h in s'.groups ensures GroupOk(s', h) {
      if h != g {
        assert SameGroup(s, s', h);
        OtherGroup(s, s', t, g, h);
      }
    }
    forall u | u in s'.callers ensures CallerOk(s', u) {
      if u != t { OtherCaller(s, s', t, g, u); }
    }
    RegistryStays(s, s', t, g);
    forall u, v | u in s'.callers && v in s'.callers ensures Apart(s', u, v) { ApartStays(s, s', t, g, u, v); }
    forall h, ln | h in s'.groups && ln in s'.groups[h].lns ensures Owned(s', h, ln) { ListenersStay(s, s', t, g, h, ln); }
    hide Touches, RegistryOk;
    Assemble(s');
  }

  // ---------------------------------------------------------------------------------------
  // Every action keeps it

  /** A caller moves that has no listener and no lock, before or after. */
  lemma MoveKeeps(s: State, t: nat, c: Caller)
    requires Inv(s) && !c.Joined? && Section(c) == None && (c.Listen? ==> c.g in s.groups && s.groups[c.g].born == c.req.group)
    requires t in s.callers ==> !s.callers[t].Joined? && Section(s.callers[t]) == None
    ensures Inv(Go(s, t, c))
  {
    var s' := Go(s, t, c);
    forall g, ln | g in s'.groups && ln in s'.groups[g].lns ensures Owned(s', g, ln) {
      assert Owned(s, g, ln);
      var u :| u in s.callers && s.callers[u].Joined? && s.callers[u].g == g && s.callers[u].ln == ln;
      assert s'.callers[u] == s.callers[u];
    }
    forall g | g in s'.groups ensures GroupOk(s', g) { assert GroupOk(s, g); }
    forall u | u in s'.callers ensures CallerOk(s', u) { assert u != t ==> CallerOk(s, u); }
    forall u, v | u in s'.callers && v in s'.callers ensures Apart(s', u, v) { assert u != t && v != t ==> Apart(s, u, v); }
    BoundStays(s, s');
    hide GroupOk, CallerOk, Apart, Owned, BoundOk;
    Assemble(s');
  }

  lemma BoundStays(s: State, s': State)
    requires BoundOk(s) && s'.bound == s.bound && s'.groups == s.groups
    ensures BoundOk(s')
  {
    forall p | p in s'.bound ensures exists g :: Listening(s', g, p) {
      var g :| Listening(s, g, p);
      assert Listening(s', g, p);
    }
    forall g, h, p | Listening(s', g, p) && Listening(s', h, p) ensures g == h {
      assert Listening(s, g, p) && Listening(s, h, p);
    }
  }

  lemma TableKeeps(s: State, table: Ports.Table)
    requires Inv(s) && table.free !! table.used
    ensures Inv(s.(ports := table))
  {
    var s' := s.(ports := table);
    forall g | g in s'.groups ensures GroupOk(s', g) { assert GroupOk(s, g); }
    forall u | u in s'.callers ensures CallerOk(s', u) { assert CallerOk(s, u); }
    forall u, v | u in s'.callers && v in s'.callers ensures Apart(s', u, v) { assert Apart(s, u, v); }
    forall g, ln | g in s'.groups && ln in s'.groups[g].lns ensures Owned(s', g, ln) { assert Owned(s, g, ln); }
    BoundStays(s, s');
    hide GroupOk, CallerOk, Apart, Owned, BoundOk;
    Assemble(s');
  }

  lemma AcquiredApart(t: Ports.Table, name: string, port: int, available: set<int>, order: seq<int>)
    requires t.free !! t.used
    ensures var r := Ports.Acquired(t, name, port, available, order).0; r.free !! r.used
  {
  }

  /** What the invariant says of a caller and the group it works on. */
  lemma About(s: State, t: nat)
    requires Inv(s) && t in s.callers
    ensures CallerOk(s, t) && BoundOk(s) && RegistryOk(s) && s.ports.free !! s.ports.used
    ensures (s.callers[t].Listen? || s.callers[t].Joined? || Section(s.callers[t]).Some?) ==> s.callers[t].g in s.groups && GroupOk(s, s.callers[t].g)
    ensures forall h, p | Listening(s, h, p) :: p in s.bound
  {
    assert CallerOk(s, t);
    forall h, p | Listening(s, h, p) ensures p in s.bound { assert GroupOk(s, h); }
  }

  lemma LookupKeeps(s: State, t: nat)
    requires Inv(s) && Enabled(s, LookupStep(t))
    ensures Inv(Apply(s, LookupStep(t)))
  {
    About(s, t);
    var req := s.callers[t].req;
    if req.group in s.registry {
      hide Inv;
      MoveKeeps(s, t, Listen(req, s.registry[req.group]));
    } else {
      CreateKeeps(s, t, req);
    }
  }

  lemma CreateKeeps(s: State, t: nat, req: Request)
    requires Inv(s) && t in s.callers && s.callers[t].Lookup? && req.group !in s.registry
    ensures Inv(Go(Created(s, req.group), t, Listen(req, s.nextGroup)))
  {
    About(s, t);
    var s' := Go(Created(s, req.group), t, Listen(req, s.nextGroup));
    assert s.nextGroup !in s.groups by { assert s.nextGroup in s.groups ==> GroupOk(s, s.nextGroup); }
    hide Inv;
    SameBound(s, s', s.nextGroup);
    hide BoundOk;
    TouchKeeps(s, s', t, s.nextGroup);
  }

  /** Nothing is bound or unbound, and the group in question listens as before, if at all. */
  lemma SameBound(s: State, s': State, g: GroupID)
    requires BoundOk(s) && s'.bound == s.bound && g in s'.groups && (forall h | h != g :: SameGroup(s, s', h))
    requires forall p :: Listening(s', g, p) <==> Listening(s, g, p)
    ensures BoundOk(s')
  {
    forall h, p ensures Listening(s', h, p) <==> Listening(s, h, p) {
      if h != g { assert SameGroup(s, s', h); }
    }
    forall p | p in s'.bound ensures exists h :: Listening(s', h, p) {
      var h :| Listening(s, h, p);
      assert Listening(s', h, p);
    }
    forall h, k, p | Listening(s', h, p) && Listening(s', k, p) ensures h == k {
      assert Listening(s, h, p) && Listening(s, k, p);
    }
  }

  lemma AcquireKeeps(s: State, t: nat, table: Ports.Table, p: int)
    requires Inv(s) && t in s.callers && s.callers[t].Listen? && Free(s, s.callers[t].g) && table.free !! table.used
    requires var g := s.callers[t].g; s.groups[g].lns == {} && IsCurrent(s, s.callers[t].req.group, g)
    ensures var g, req := s.callers[t].g, s.callers[t].req;
            Inv(Go(SetGroup(s, g, s.groups[g].(locked := Some(t))), t, Binding(req, g, p)).(ports := table))
  {
    hide Inv;
    About(s, t);
    var g, req := s.callers[t].g, s.callers[t].req;
    var s' := Go(SetGroup(s, g, s.groups[g].(locked := Some(t))), t, Binding(req, g, p)).(ports := table);
    SameBound(s, s', g);
    hide BoundOk;
    TouchKeeps(s, s', t, g);
  }

  lemma JoinKeeps(s: State, t: nat)
    requires Inv(s) && t in s.callers && s.callers[t].Listen? && Free(s, s.callers[t].g)
    requires s.groups[s.callers[t].g].lns != {} && Refusal(s.groups[s.callers[t].g], s.callers[t].req) == None
    ensures var g, req := s.callers[t].g, s.callers[t].req;
            Inv(Go(SetGroup(s, g, s.groups[g].(lns := s.groups[g].lns + {s.nextListener})).(nextListener := s.nextListener + 1),
                   t, Joined(req, g, s.nextListener, s.groups[g].realPort)))
  {
    hide Inv;
    About(s, t);
    var g, req := s.callers[t].g, s.callers[t].req;
    var s' := Go(SetGroup(s, g, s.groups[g].(lns := s.groups[g].lns + {s.nextListener})).(nextListener := s.nextListener + 1),
                 t, Joined(req, g, s.nextListener, s.groups[g].realPort));
    assert s.nextListener in s'.groups[g].lns;
    SameBound(s, s', g);
    hide BoundOk;
    TouchKeeps(s, s', t, g);
  }

  lemma ListenKeeps(s: State, t: nat, available: set<int>, order: seq<int>)
    requires Inv(s) && Enabled(s, ListenStep(t, available, order))
    ensures Inv(Apply(s, ListenStep(t, available, order)))
  {
    About(s, t);
    hide Inv, GroupOk, BoundOk, Ports.Acquired;
    var req, g := s.callers[t].req, s.callers[t].g;
    var group := s.groups[g];
    if !IsCurrent(s, req.group, g) {
      MoveKeeps(s, t, Lookup(req));
    } else if group.lns == {} {
      AcquiredApart(s.ports, req.proxy, req.port, available, order);
      var r := AcquireFor(s, req, available, order);
      if r.1.Ok? {
        AcquireKeeps(s, t, r.0, r.1.value);
      } else {
        MoveKeeps(s, t, Failed(req, PortFailed));
        TableKeeps(Go(s, t, Failed(req, PortFailed)), r.0);
      }
    } else if Refusal(group, req).Some? {
      MoveKeeps(s, t, Failed(req, Refusal(group, req).value));
    } else {
      JoinKeeps(s, t);
    }
  }

  lemma BindKeeps(s: State, t: nat, ok: bool)
    requires Inv(s) && Enabled(s, BindStep(t, ok))
    ensures Inv(Apply(s, BindStep(t, ok)))
  {
    hide Inv;
    About(s, t);
    var s' := Apply(s, BindStep(t, ok));
    var g := s.callers[t].g;
    if ok {
      assert s.nextListener in s'.groups[g].lns;
      NewlyBound(s, s', g, s.callers[t].acquired);
    } else {
      SameBound(s, s', g);
    }
    hide BoundOk;
    TouchKeeps(s, s', t, g);
  }

  lemma NewlyBound(s: State, s': State, g: GroupID, p: int)
    requires BoundOk(s) && g in s.groups && s.groups[g].lns == {} && g in s'.groups && (forall h | h != g :: SameGroup(s, s', h))
    requires Listening(s', g, p) && p !in s.bound && s'.bound == s.bound + {p} && (forall h, q | Listening(s, h, q) :: q in s.bound)
    ensures BoundOk(s')
  {
    forall h, q | h != g ensures Listening(s', h, q) <==> Listening(s, h, q) { assert SameGroup(s, s', h); }
    forall q | q in s'.bound ensures exists h :: Listening(s', h, q) {
      if q in s.bound {
        var h :| Listening(s, h, q);
        assert Listening(s', h, q);
      }
    }
    forall h, k, q | Listening(s', h, q) && Listening(s', k, q) ensures h == k {
      assert h != g ==> Listening(s, h, q);
      assert k != g ==> Listening(s, k, q);
    }
  }

  lemma Unbound(s: State, s': State, g: GroupID)
    requires BoundOk(s) && g in s.groups && s.groups[g].lns != {} && g in s'.groups && s'.groups[g].lns == {}
    requires (forall h | h != g :: SameGroup(s, s', h)) && s'.bound == s.bound - {s.groups[g].realPort}
    ensures BoundOk(s')
  {
    var p := s.groups[g].realPort;
    assert Listening(s, g, p);
    forall h, q ensures Listening(s', h, q) <==> h != g && Listening(s, h, q) {
      if h != g { assert SameGroup(s, s', h); }
    }
    forall q | q in s'.bound ensures exists h :: Listening(s', h, q) {
      var h :| Listening(s, h, q);
      assert Listening(s', h, q);
    }
    forall h, k, q | Listening(s', h, q) && Listening(s', k, q) ensures h == k {
      assert Listening(s, h, q) && Listening(s, k, q);
    }
  }

  predicate IsLast(s: State, t: nat)
    requires Enabled(s, CloseStep(t))
  {
    s.groups[s.callers[t].g].lns == {s.callers[t].ln}
  }

  lemma CloseLastKeeps(s: State, t: nat)
    requires Inv(s) && Enabled(s, CloseStep(t)) && IsLast(s, t)
    ensures Inv(Apply(s, CloseStep(t)))
  {
    hide Inv;
    var s' := Apply(s, CloseStep(t));
    var g := s.callers[t].g;
    assert s.groups[g].lns - {s.callers[t].ln} == {};
    About(s, t);
    Unbound(s, s', g);
    OthersStayBound(s, s', g);
    hide BoundOk;
    TouchKeeps(s, s', t, g);
  }

  lemma CloseOneKeeps(s: State, t: nat)
    requires Inv(s) && Enabled(s, CloseStep(t)) && !IsLast(s, t)
    ensures Inv(Apply(s, CloseStep(t)))
  {
    hide Inv;
    var s' := Apply(s, CloseStep(t));
    var g := s.callers[t].g;
    About(s, t);
    assert s.callers[t].ln in s.groups[g].lns;
    assert s.groups[g].lns == (s.groups[g].lns - {s.callers[t].ln}) + {s.callers[t].ln};
    SameBound(s, s', g);
    hide BoundOk;
    TouchKeeps(s, s', t, g);
  }

  lemma OthersStayBound(s: State, s': State, g: GroupID)
    requires BoundOk(s) && g in s.groups && s.groups[g].lns != {} && s'.bound == s.bound - {s.groups[g].realPort}
    requires forall h, p | Listening(s, h, p) :: p in s.bound
    ensures forall h, p | h != g && Listening(s, h, p) :: p in s'.bound
  {
    assert Listening(s, g, s.groups[g].realPort);
  }

  lemma ReleaseKeeps(s: State, t: nat)
    requires Inv(s) && Enabled(s, ReleaseStep(t))
    ensures Inv(Apply(s, ReleaseStep(t)))
  {
    hide Inv;
    About(s, t);
    var s' := Apply(s, ReleaseStep(t));
    SameBound(s, s', s.callers[t].g);
    hide BoundOk;
    TouchKeeps(s, s', t, s.callers[t].g);
  }

  lemma UnregisterKeeps(s: State, t: nat)
    requires Inv(s) && Enabled(s, UnregisterStep(t))
    ensures Inv(Apply(s, UnregisterStep(t)))
  {
    hide Inv;
    About(s, t);
    var s' := Apply(s, UnregisterStep(t));
    SameBound(s, s', s.callers[t].g);
    hide BoundOk;
    TouchKeeps(s, s', t, s.callers[t].g);
  }

  lemma ActionKeeps(s: State, act: Action)
    requires Inv(s) && Enabled(s, act)
    ensures Inv(Apply(s, act))
  {
    match act
    case Call(t, req) => MoveKeeps(s, t, Lookup(req));
    case LookupStep(t) => LookupKeeps(s, t);
    case ListenStep(t, available, order) => ListenKeeps(s, t, available, order);
    case BindStep(t, ok) => BindKeeps(s, t, ok);
    case CloseStep(t) => if IsLast(s, t) { CloseLastKeeps(s, t); } else { CloseOneKeeps(s, t); }
    case ReleaseStep(t) => ReleaseKeeps(s, t);
    case UnregisterStep(t) => UnregisterKeeps(s, t);
    case Expire(name) => TableKeeps(s, s.ports.(reserved := s.ports.reserved - {name}));
  }

  lemma {:induction false} RunKeepsInv(states: seq<State>, actions: seq<Action>, allowed: set<int>, i: nat)
    requires IsRun(states, actions, allowed) && i < |states|
    ensures Inv(states[i])
  {
    if i != 0 {
      RunKeepsInv(states, actions, allowed, i - 1);
      ActionKeeps(states[i - 1], actions[i - 1]);
    }
  }
}
