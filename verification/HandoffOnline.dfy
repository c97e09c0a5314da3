/** Exactly when a map entry that is marked online is online in the registry. */
module HandoffOnline {
  import opened Prelude
  import opened Handoff
  import opened HandoffInvariant
  import opened HandoffTheorems
  import Registry

  /** The entry of `run` says that control `id` registered it. */
  predicate Recorded(s: State, run: string, id: nat) {
    run in s.slots && s.slots[run].online && s.slots[run].onlineID == id
  }

  /** The step in which `c` registers itself in the registry. */
  predicate Registers(s: State, a: Action, c: Ref) {
    && a.Step? && a.t in s.th && s.th[a.t].ctl == c && c in s.ctls
    && s.th[a.t].pc.OpAct? && s.th[a.t].pc.op == Activate
    && var e := s.th[a.t].pc.entry;
    && !s.closed && SameSlot(s, s.th[a.t].run, Some(e)) && Mine(s, a.t, e)
    && s.ctls[c].life == Pending && !s.ctls[c].activated
    && !Registry.Register(s.reg, s.ctls[c].user, s.ctls[c].clientID, s.th[a.t].run, e.id, a.now).conflict
  }

  /** The step registers control `id` for `run`. */
  predicate RegistersFor(s: State, a: Action, run: string, id: nat) {
    a.Step? && a.t in s.th && Registers(s, a, s.th[a.t].ctl) && s.th[a.t].run == run && s.ctls[s.th[a.t].ctl].id == id
  }

  /** The step registers a client that did not name itself, under the key that `run` is online with. */
  predicate DisplacesAt(s: State, a: Action, run: string) {
    && a.Step? && a.t in s.th && Registers(s, a, s.th[a.t].ctl)
    && var c := s.ctls[s.th[a.t].ctl];
    Registry.Displaces(s.reg, c.user, c.clientID, s.th[a.t].run, run)
  }

  // ---------------------------------------------------------------------------------------
  // What a step does to the registry

  lemma RegisterStep(s: State, a: Action)
    requires Inv(s) && Enabled(s, a) && a.Step? && Registers(s, a, s.th[a.t].ctl)
    ensures var c := s.ctls[s.th[a.t].ctl];
            && c.run == s.th[a.t].run && c.run != "" && s.th[a.t].pc.entry.id == c.id
            && Apply(s, a).reg == Registry.Register(s.reg, c.user, c.clientID, c.run, c.id, a.now).after
            && Recorded(Apply(s, a), c.run, c.id)
            && forall r | r != c.run :: (r in Apply(s, a).slots <==> r in s.slots) && (r in s.slots ==> Apply(s, a).slots[r] == s.slots[r])
  {
    hide Inv;
    About(s, a.t);
    hide Registry.Register;
  }

  predicate Removes(s: State, a: Action) {
    a.Step? && a.t in s.th && s.th[a.t].pc.OpAct? && s.th[a.t].pc.op == Remove
  }

  lemma RemoveStep(s: State, a: Action, run: string)
    requires Inv(s) && Enabled(s, a) && Removes(s, a)
    ensures var s' := Apply(s, a);
            || (s'.reg == s.reg && s'.slots == s.slots)
            || (s.th[a.t].run in s.slots && s'.slots == s.slots - {s.th[a.t].run} && s.th[a.t].run != ""
                && (s'.reg == s.reg || exists id :: s'.reg == Registry.MarkOffline(s.reg, s.th[a.t].run, Registry.Exactly(id), a.now)))
  {
    hide Inv;
    About(s, a.t);
    hide Registry.MarkOffline;
  }

  lemma OtherStep(s: State, a: Action)
    requires Enabled(s, a) && !(a.Step? && Registers(s, a, s.th[a.t].ctl)) && !Removes(s, a)
    ensures Apply(s, a).reg == s.reg
  {
    hide Registers, Removes;
    if a.Step? {
      if s.th[a.t].pc.OpAct? { OtherOp(s, a); } else { NoCall(s, a); }
    } else {
      hide StepThread;
    }
  }

  lemma OtherOp(s: State, a: Action)
    requires Enabled(s, a) && a.Step? && s.th[a.t].pc.OpAct? && !Registers(s, a, s.th[a.t].ctl) && !Removes(s, a)
    ensures Apply(s, a).reg == s.reg
  {
    if s.th[a.t].pc.op == Activate { ActivateInVain(s, a); }
  }

  /** Only a call let in by lockCurrentRun touches the registry. */
  lemma NoCall(s: State, a: Action)
    requires Enabled(s, a) && a.Step? && !s.th[a.t].pc.OpAct?
    ensures Apply(s, a).reg == s.reg
  {
    var t := a.t;
    hide StepThread;
    if s.th[t].pc.AddCommit? {
      CommitOffRegistry(s, t, a.ok, a.now, a.name);
    } else if s.th[t].pc.CloseCtl? {
      CloseOffRegistry(s, t, a.ok, a.now, a.name);
    } else {
      RestOffRegistry(s, t, a.ok, a.now, a.name);
    }
  }

  lemma CommitOffRegistry(s: State, t: Tid, ok: bool, now: int, name: string)
    requires t in s.th && CanStep(s, t) && WellKinded(s, t) && SlotsKnown(s) && s.th[t].pc.AddCommit?
    ensures StepThread(s, t, ok, now, name).reg == s.reg
  {
    hide CanStep, SameSlot, MarkReplaced, Holding;
  }

  lemma CloseOffRegistry(s: State, t: Tid, ok: bool, now: int, name: string)
    requires t in s.th && CanStep(s, t) && WellKinded(s, t) && SlotsKnown(s) && s.th[t].pc.CloseCtl?
    ensures StepThread(s, t, ok, now, name).reg == s.reg
  {
    hide CanStep, ClosedBy;
  }

  lemma RestOffRegistry(s: State, t: Tid, ok: bool, now: int, name: string)
    requires t in s.th && CanStep(s, t) && WellKinded(s, t) && SlotsKnown(s)
    requires var pc := s.th[t].pc; !pc.OpAct? && !pc.AddCommit? && !pc.CloseCtl?
    ensures StepThread(s, t, ok, now, name).reg == s.reg
  {
    hide CanStep, WellKinded, MarkReplaced, Holding, StepAddCommit, StepCloseCtl;
  }

  lemma ActivateInVain(s: State, a: Action)
    requires Enabled(s, a) && a.Step? && s.th[a.t].pc.OpAct? && s.th[a.t].pc.op == Activate && !Registers(s, a, s.th[a.t].ctl)
    ensures Apply(s, a).reg == s.reg
  {
    hide Registry.Register;
  }

  /** One step: a run is online afterwards exactly when its entry records it and it just registered, or was online and not displaced. */
  lemma OnlineStep(s: State, a: Action, run: string, id: nat)
    requires Inv(s) && Enabled(s, a) && Inv(Apply(s, a))
    ensures Registry.Online(Apply(s, a).reg, run, id) <==>
              && Recorded(Apply(s, a), run, id)
              && (RegistersFor(s, a, run, id) || (Registry.Online(s.reg, run, id) && !DisplacesAt(s, a, run)))
  {
    var s' := Apply(s, a);
    assert Agree(s) && Agree(s');
    hide Inv;
    hide Apply;
    if a.Step? && Registers(s, a, s.th[a.t].ctl) {
      OnlineAfterRegister(s, a, run, id);
    } else if Removes(s, a) {
      OnlineAfterRemove(s, a, run, id);
    } else {
      OtherStep(s, a);
    }
  }

  lemma OnlineAfterRegister(s: State, a: Action, run: string, id: nat)
    requires Inv(s) && Enabled(s, a) && Agree(s) && Agree(Apply(s, a)) && a.Step? && Registers(s, a, s.th[a.t].ctl)
    ensures Registry.Online(Apply(s, a).reg, run, id) <==>
              && Recorded(Apply(s, a), run, id)
              && (RegistersFor(s, a, run, id) || (Registry.Online(s.reg, run, id) && !DisplacesAt(s, a, run)))
  {
    RegisterStep(s, a);
    hide Inv;
    hide Apply;
    var c := s.ctls[s.th[a.t].ctl];
    Registry.RegisterEffect(s.reg, c.user, c.clientID, c.run, c.id, a.now);
    if run != c.run && Registry.Online(s.reg, run, id) {
      OnlineNamed(s.reg, run, id);
      Registry.DisplacedIff(s.reg, c.user, c.clientID, c.run, c.id, a.now, run, id);
    }
    hide Registry.Register;
    hide Registry.Displaces;
  }

  lemma OnlineNamed(reg: Registry.Index, run: string, id: nat)
    requires Registry.Consistent(reg) && Registry.Online(reg, run, id)
    ensures run != ""
  {
  }

  lemma OnlineAfterRemove(s: State, a: Action, run: string, id: nat)
    requires Inv(s) && Enabled(s, a) && Agree(s) && Agree(Apply(s, a)) && Removes(s, a)
    ensures Registry.Online(Apply(s, a).reg, run, id) <==> Recorded(Apply(s, a), run, id) && Registry.Online(s.reg, run, id)
  {
    RemoveStep(s, a, run);
    hide Inv;
    hide Apply;
    var s' := Apply(s, a);
    var r := s.th[a.t].run;
    if s'.reg != s.reg && r != "" {
      var k :| s'.reg == Registry.MarkOffline(s.reg, r, Registry.Exactly(k), a.now);
      Registry.MarkOfflineEffect(s.reg, r, Registry.Exactly(k), a.now);
    }
    hide Registry.MarkOffline;
  }

  // ---------------------------------------------------------------------------------------
  // Theorem

  /** Step `k` leaves `id` recorded for `run`, and does not displace the run. */
  predicate Keeps(states: seq<State>, actions: seq<Action>, k: nat, run: string, id: nat)
    requires |states| == |actions| + 1 && k < |actions|
  {
    Recorded(states[k + 1], run, id) && !DisplacesAt(states[k], actions[k], run)
  }

  /** The run was registered at position `j`, and every step between then and `i` kept it. */
  ghost predicate OnlineSince(states: seq<State>, actions: seq<Action>, j: nat, i: nat, run: string, id: nat)
    requires |states| == |actions| + 1 && j < i < |states|
  {
    RegistersFor(states[j], actions[j], run, id) && forall k | j < k < i :: Keeps(states, actions, k, run, id)
  }

  ghost predicate Kept(states: seq<State>, actions: seq<Action>, i: nat, run: string, id: nat)
    requires |states| == |actions| + 1 && i < |states|
  {
    exists j: nat :: j < i && OnlineSince(states, actions, j, i, run, id)
  }

  /**
   The converse of RegistryFollowsManager: the registry shows a run online for a control exactly when
   that control registered it, and since then the map has recorded it without a break and no client that
   did not name itself registered under its key.
   */
  lemma {:induction false} OnlineIff(states: seq<State>, actions: seq<Action>, i: nat, run: string, id: nat)
    requires IsRun(states, actions) && |states| == |actions| + 1 && i < |states|
    ensures Registry.Online(states[i].reg, run, id) <==> Kept(states, actions, i, run, id)
  {
    hide IsRun;
    hide RegistersFor;
    hide DisplacesAt;
    hide Recorded;
    hide Registry.Online;
    if i == 0 {
      NobodyYet(states, actions, run, id);
    } else {
      hide Kept;
      OnlineIff(states, actions, i - 1, run, id);
      OneStepOnline(states, actions, i - 1, run, id);
      SinceStep(states, actions, i, run, id);
    }
  }

  lemma NobodyYet(states: seq<State>, actions: seq<Action>, run: string, id: nat)
    requires IsRun(states, actions)
    ensures |states| == |actions| + 1 && !Registry.Online(states[0].reg, run, id)
  {
  }

  lemma OneStepOnline(states: seq<State>, actions: seq<Action>, i: nat, run: string, id: nat)
    requires IsRun(states, actions) && i < |actions|
    ensures Registry.Online(states[i + 1].reg, run, id) <==>
              && Recorded(states[i + 1], run, id)
              && (RegistersFor(states[i], actions[i], run, id) || (Registry.Online(states[i].reg, run, id) && !DisplacesAt(states[i], actions[i], run)))
    ensures RegistersFor(states[i], actions[i], run, id) ==> Recorded(states[i + 1], run, id)
  {
    RunIsGood(states, actions, i);
    RunIsGood(states, actions, i + 1);
    hide Inv;
    hide Conserved;
    hide AllNotified;
    hide Apply;
    OnlineStep(states[i], actions[i], run, id);
    if RegistersFor(states[i], actions[i], run, id) { RegisterStep(states[i], actions[i]); }
  }

  lemma SinceStep(states: seq<State>, actions: seq<Action>, i: nat, run: string, id: nat)
    requires |states| == |actions| + 1 && 0 < i < |states|
    requires RegistersFor(states[i - 1], actions[i - 1], run, id) ==> Recorded(states[i], run, id)
    ensures Kept(states, actions, i, run, id) <==>
              && Recorded(states[i], run, id)
              && (RegistersFor(states[i - 1], actions[i - 1], run, id)
                  || (Kept(states, actions, i - 1, run, id) && !DisplacesAt(states[i - 1], actions[i - 1], run)))
  {
    hide RegistersFor;
    hide DisplacesAt;
    hide Recorded;
    if RegistersFor(states[i - 1], actions[i - 1], run, id) {
      assert OnlineSince(states, actions, i - 1, i, run, id);
    } else {
      if Kept(states, actions, i, run, id) {
        var j: nat :| j < i && OnlineSince(states, actions, j, i, run, id);
        assert Keeps(states, actions, i - 1, run, id);
        assert OnlineSince(states, actions, j, i - 1, run, id);
      }
      if Kept(states, actions, i - 1, run, id) && Keeps(states, actions, i - 1, run, id) {
        var j: nat :| j < i - 1 && OnlineSince(states, actions, j, i - 1, run, id);
        assert OnlineSince(states, actions, j, i, run, id);
      }
    }
  }
}
