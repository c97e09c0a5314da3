/**
 The client registry of frps (server/registry/registry.go).

 Clients are kept under a key composed from the user and the client ID (the run ID when
 the client sent no ID), and a second index maps each run ID to the key it is online under.
 A registration is tagged with the ID of the control generation that made it.

 The pure functions below say what each call does to the two maps; the class at the end is
 the registry itself, with each method proved to do exactly that.
 */
module Registry {

  datatype ClientInfo = ClientInfo(
    user: string,
    rawClientID: string,
    runID: string,
    controlID: nat,
    online: bool,
    firstConnectedAt: int,
    lastConnectedAt: int,
    disconnectedAt: int)

  /** The zero time, which the source tests with `IsZero`. */
  const ZERO_TIME := 0

  datatype Index = Index(clients: map<string, ClientInfo>, runIndex: map<string, string>)

  datatype Registered = Registered(after: Index, key: string, conflict: bool)

  function ComposeKey(user: string, id: string): string {
    if user == "" then id
    else if id == "" then user
    else user + "." + id
  }

  function KeyFor(user: string, rawClientID: string, runID: string): string {
    ComposeKey(user, if rawClientID == "" then runID else rawClientID)
  }

  function SetOffline(info: ClientInfo, now: int): ClientInfo {
    info.(runID := "", controlID := 0, online := false, disconnectedAt := now)
  }

  /** A client leaves `key`: forgotten when it never named itself, kept as an offline record otherwise. */
  function Leave(clients: map<string, ClientInfo>, key: string, now: int): map<string, ClientInfo>
    requires key in clients
  {
    if clients[key].rawClientID == "" then clients - {key}
    else clients[key := SetOffline(clients[key], now)]
  }

  /** The key another online run holds and refuses to share. */
  predicate Conflicts(s: Index, key: string, rawClientID: string, runID: string) {
    && rawClientID != ""
    && key in s.clients
    && s.clients[key].online
    && s.clients[key].runID != ""
    && s.clients[key].runID != runID
  }

  /** Frees `runID` from any other key it is online under. */
  function Vacate(s: Index, key: string, runID: string, now: int): Index {
    if runID in s.runIndex && s.runIndex[runID] != key then
      var previous := s.runIndex[runID];
      Index(
        if previous in s.clients && s.clients[previous].runID == runID
        then Leave(s.clients, previous, now) else s.clients,
        s.runIndex - {runID})
    else s
  }

  function Entered(info: ClientInfo, rawClientID: string, runID: string, controlID: nat, now: int): ClientInfo {
    info.(rawClientID := rawClientID, runID := runID, controlID := controlID, online := true,
      firstConnectedAt := if info.firstConnectedAt == ZERO_TIME then now else info.firstConnectedAt,
      lastConnectedAt := now, disconnectedAt := ZERO_TIME)
  }

  /** RegisterWithControlID. */
  function Register(s: Index, user: string, rawClientID: string, runID: string, controlID: nat, now: int): Registered {
    if runID == "" then Registered(s, "", false)
    else
      var key := KeyFor(user, rawClientID, runID);
      if Conflicts(s, key, rawClientID, runID) then Registered(s, key, true)
      else
        var v := Vacate(s, key, runID, now);
        var created := ClientInfo(user, "", "", 0, false, now, ZERO_TIME, ZERO_TIME);
        var info := if key in s.clients then s.clients[key] else created;
        var index := if key in s.clients && info.runID != "" then v.runIndex - {info.runID} else v.runIndex;
        Registered(
          Index(v.clients[key := Entered(info, rawClientID, runID, controlID, now)], index[runID := key]),
          key, false)
  }

  /** markOfflineByRunID; `expected` is the control ID the caller insists on, if any. */
  datatype Expected = Anyone | Exactly(controlID: nat)

  predicate Owns(info: ClientInfo, runID: string, expected: Expected) {
    info.runID == runID && (expected.Exactly? ==> info.controlID == expected.controlID)
  }

  function MarkOffline(s: Index, runID: string, expected: Expected, now: int): Index {
    if runID !in s.runIndex then s
    else
      var key := s.runIndex[runID];
      var clients := if key in s.clients && Owns(s.clients[key], runID, expected)
        then Leave(s.clients, key, now) else s.clients;
      Index(clients,
            if key !in clients || clients[key].runID != runID then s.runIndex - {runID} else s.runIndex)
  }

  // ---------------------------------------------------------------------------------------
  // What every call keeps

  /** The two maps are inverse to each other on online clients, and no anonymous client lingers offline. */
  ghost predicate Consistent(s: Index) {
    && (forall k <- s.clients :: s.clients[k].online <==> s.clients[k].runID != "")
    && (forall k <- s.clients :: !s.clients[k].online ==> s.clients[k].rawClientID != "")
    && (forall k <- s.clients | s.clients[k].runID != "" ::
          s.clients[k].runID in s.runIndex && s.runIndex[s.clients[k].runID] == k)
    && (forall r <- s.runIndex ::
          r != "" && s.runIndex[r] in s.clients && s.clients[s.runIndex[r]].runID == r)
  }

  /** Run `r` is shown online, on behalf of control `c`. */
  ghost predicate Online(s: Index, r: string, c: nat) {
    exists k <- s.clients :: s.clients[k].online && s.clients[k].runID == r && s.clients[k].controlID == c
  }

  lemma VacateKeepsConsistent(s: Index, key: string, runID: string, now: int)
    requires Consistent(s)
    ensures var v := Vacate(s, key, runID, now);
            && Consistent(v)
            && (key in v.clients <==> key in s.clients)
            && (key in s.clients ==> v.clients[key] == s.clients[key])
            && (forall k <- v.clients | v.clients[k].runID == runID && runID != "" :: k == key)
  {
  }

  lemma RegisterKeepsConsistent(s: Index, user: string, rawClientID: string, runID: string, controlID: nat, now: int)
    requires Consistent(s)
    ensures Consistent(Register(s, user, rawClientID, runID, controlID, now).after)
  {
    var key := KeyFor(user, rawClientID, runID);
    VacateKeepsConsistent(s, key, runID, now);
  }

  lemma MarkOfflineKeepsConsistent(s: Index, runID: string, expected: Expected, now: int)
    requires Consistent(s)
    ensures Consistent(MarkOffline(s, runID, expected, now))
  {
  }

  lemma RegisterSpares(
      s: Index, user: string, rawClientID: string, runID: string, controlID: nat, now: int, q: string, c: nat)
    requires Consistent(s) && runID != "" && q != runID
    requires var key := KeyFor(user, rawClientID, runID); key in s.clients ==> s.clients[key].runID != q
    requires Online(s, q, c)
    ensures Online(Register(s, user, rawClientID, runID, controlID, now).after, q, c)
  {
    var t := Register(s, user, rawClientID, runID, controlID, now).after;
    var k :| k in s.clients && s.clients[k].online && s.clients[k].runID == q && s.clients[k].controlID == c;
    assert k in t.clients && t.clients[k] == s.clients[k];
  }

  lemma RegisterAddsOnly(
      s: Index, user: string, rawClientID: string, runID: string, controlID: nat, now: int, q: string, c: nat)
    requires Consistent(s) && runID != ""
    requires var r := Register(s, user, rawClientID, runID, controlID, now); !r.conflict && Online(r.after, q, c)
    ensures if q == runID then c == controlID else Online(s, q, c)
  {
    var r := Register(s, user, rawClientID, runID, controlID, now);
    VacateKeepsConsistent(s, r.key, runID, now);
    var v := Vacate(s, r.key, runID, now);
    var k :| k in r.after.clients && r.after.clients[k].online
             && r.after.clients[k].runID == q && r.after.clients[k].controlID == c;
    if k != r.key {
      assert k in v.clients && v.clients[k] == s.clients[k];
    }
  }

  /**
   What a registration changes, for any two clients whose user and ID compose to the same key
   as much as for any others: it is refused, changing nothing, exactly when another run is online
   under the key and this client named itself; otherwise this run is online under the key for
   this control, and no run but this one, and the one that held the key, sees any difference.
   */
  lemma RegisterEffect(s: Index, user: string, rawClientID: string, runID: string, controlID: nat, now: int)
    requires Consistent(s) && runID != ""
    ensures var key := KeyFor(user, rawClientID, runID);
            var r := Register(s, user, rawClientID, runID, controlID, now);
            && r.key == key
            && (r.conflict <==> rawClientID != "" && key in s.clients && s.clients[key].runID !in {"", runID})
            && (r.conflict ==> r.after == s)
            && (!r.conflict ==>
                  && Online(r.after, runID, controlID)
                  && (forall q, c | q != runID && !(key in s.clients && s.clients[key].runID == q) ::
                        Online(r.after, q, c) <==> Online(s, q, c))
                  && (forall q, c | Online(r.after, q, c) ::
                        if q == runID then c == controlID else Online(s, q, c)))
  {
    var r := Register(s, user, rawClientID, runID, controlID, now);
    if !r.conflict {
      assert r.after.clients[r.key].online;
      forall q, c | q != runID && !(r.key in s.clients && s.clients[r.key].runID == q) && Online(s, q, c)
        ensures Online(r.after, q, c)
      {
        RegisterSpares(s, user, rawClientID, runID, controlID, now, q, c);
      }
      forall q, c | Online(r.after, q, c)
        ensures if q == runID then c == controlID else Online(s, q, c)
      {
        RegisterAddsOnly(s, user, rawClientID, runID, controlID, now, q, c);
      }
    }
  }

  /** A registration takes another run offline exactly when it is under that run's key and names no client itself. */
  predicate Displaces(s: Index, user: string, rawClientID: string, runID: string, q: string) {
    && q != "" && q != runID && rawClientID == ""
    && var key := KeyFor(user, rawClientID, runID); key in s.clients && s.clients[key].runID == q
  }

  lemma DisplacedIff(s: Index, user: string, rawClientID: string, runID: string, controlID: nat, now: int, q: string, c: nat)
    requires Consistent(s) && runID != "" && q != runID && Online(s, q, c)
    ensures Online(Register(s, user, rawClientID, runID, controlID, now).after, q, c) <==> !Displaces(s, user, rawClientID, runID, q)
  {
    var key := KeyFor(user, rawClientID, runID);
    var r := Register(s, user, rawClientID, runID, controlID, now);
    RegisterEffect(s, user, rawClientID, runID, controlID, now);
    if !r.conflict && key in s.clients && s.clients[key].runID == q { DisplacedIsOffline(s, user, rawClientID, runID, controlID, now, q, c); }
  }

  lemma DisplacedIsOffline(s: Index, user: string, rawClientID: string, runID: string, controlID: nat, now: int, q: string, c: nat)
    requires Consistent(s) && runID != "" && q != runID && q != ""
    requires var key := KeyFor(user, rawClientID, runID);
             !Register(s, user, rawClientID, runID, controlID, now).conflict && key in s.clients && s.clients[key].runID == q
    ensures !Online(Register(s, user, rawClientID, runID, controlID, now).after, q, c)
  {
    var r := Register(s, user, rawClientID, runID, controlID, now);
    VacateKeepsConsistent(s, r.key, runID, now);
    var v := Vacate(s, r.key, runID, now);
    assert v.runIndex[q] == r.key;
    assert forall k <- r.after.clients | k != r.key :: k in v.clients && r.after.clients[k] == v.clients[k];
  }

  /**
   An offline call by the wrong generation changes nothing; by the right one, it takes that run
   offline and leaves every other run as it was.
   */
  lemma MarkOfflineEffect(s: Index, runID: string, expected: Expected, now: int)
    requires Consistent(s) && runID != ""
    ensures var t := MarkOffline(s, runID, expected, now);
            var mine := exists c :: Online(s, runID, c) && (expected.Exactly? ==> c == expected.controlID);
            && (!mine ==> t == s)
            && (mine ==> forall c :: !Online(t, runID, c))
            && (forall q, c | q != runID :: Online(t, q, c) <==> Online(s, q, c))
  {
    var t := MarkOffline(s, runID, expected, now);
    if runID in s.runIndex {
      var key := s.runIndex[runID];
      assert Online(s, runID, s.clients[key].controlID);
      forall q, c | q != runID && Online(s, q, c) ensures Online(t, q, c) {
        var k :| k in s.clients && s.clients[k].online && s.clients[k].runID == q && s.clients[k].controlID == c;
        assert k in t.clients && t.clients[k] == s.clients[k];
      }
    }
  }

  // ---------------------------------------------------------------------------------------
  // Every run of the registry

  datatype Call =
    | CallRegister(user: string, rawClientID: string, runID: string, controlID: nat, now: int)
    | CallOffline(runID: string, expected: Expected, now: int)

  function Perform(s: Index, call: Call): Index {
    match call
    case CallRegister(user, raw, run, c, now) => Register(s, user, raw, run, c, now).after
    case CallOffline(run, expected, now) => MarkOffline(s, run, expected, now)
  }

  function PerformAll(calls: seq<Call>): Index {
    if calls == [] then Index(map[], map[])
    else Perform(PerformAll(calls[..|calls| - 1]), calls[|calls| - 1])
  }

  lemma {:induction false} EveryRunConsistent(calls: seq<Call>)
    ensures Consistent(PerformAll(calls))
  {
    if calls != [] {
      var before := calls[..|calls| - 1];
      EveryRunConsistent(before);
      match calls[|calls| - 1]
      case CallRegister(user, raw, run, c, now) => RegisterKeepsConsistent(PerformAll(before), user, raw, run, c, now);
      case CallOffline(run, expected, now) => MarkOfflineKeepsConsistent(PerformAll(before), run, expected, now);
    }
  }

  // ---------------------------------------------------------------------------------------
  // The registry object

  class ClientRegistry {
    var clients: map<string, ClientInfo>
    var runIndex: map<string, string>

    ghost function View(): Index
      reads this
    {
      Index(clients, runIndex)
    }

    constructor ()
      ensures View() == PerformAll([])
    {
      clients, runIndex := map[], map[];
    }

    method RegisterWithControlID(user: string, rawClientID: string, runID: string, controlID: nat, now: int)
      returns (key: string, conflict: bool)
      requires Consistent(View())
      modifies this
      ensures Consistent(View())
      ensures Registered(View(), key, conflict) == Register(old(View()), user, rawClientID, runID, controlID, now)
    {
      RegisterKeepsConsistent(View(), user, rawClientID, runID, controlID, now);
      if runID == "" {
        return "", false;
      }
      var effectiveID := rawClientID;
      if effectiveID == "" {
        effectiveID := runID;
      }
      key := ComposeKey(user, effectiveID);
      conflict := false;
      var known := key in clients;
      var info := ClientInfo(user, "", "", 0, false, now, ZERO_TIME, ZERO_TIME);
      if known {
        info := clients[key];
      }
      if rawClientID != "" && known && info.online && info.runID != "" && info.runID != runID {
        return key, true;
      }
      if runID in runIndex && runIndex[runID] != key {
        var previousKey := runIndex[runID];
        if previousKey in clients && clients[previousKey].runID == runID {
          if clients[previousKey].rawClientID == "" {
            clients := clients - {previousKey};
          } else {
            clients := clients[previousKey := SetOffline(clients[previousKey], now)];
          }
        }
        runIndex := runIndex - {runID};
      }
      if known && info.runID != "" {
        runIndex := runIndex - {info.runID};
      }
      clients := clients[key := Entered(info, rawClientID, runID, controlID, now)];
      runIndex := runIndex[runID := key];
    }

    method MarkOfflineByRunID(runID: string, expected: Expected, now: int)
      requires Consistent(View())
      modifies this
      ensures Consistent(View())
      ensures View() == MarkOffline(old(View()), runID, expected, now)
    {
      MarkOfflineKeepsConsistent(View(), runID, expected, now);
      if runID !in runIndex {
        return;
      }
      var key := runIndex[runID];
      if key in clients && clients[key].runID == runID
         && (expected.Anyone? || clients[key].controlID == expected.controlID) {
        if clients[key].rawClientID == "" {
          clients := clients - {key};
        } else {
          clients := clients[key := SetOffline(clients[key], now)];
        }
      }
      if key !in clients || clients[key].runID != runID {
        runIndex := runIndex - {runID};
      }
    }
  }
}
