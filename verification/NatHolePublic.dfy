/**
 Which side sends between two EasyNAT peers when one of them is on a public network
 (pkg/nathole/analysis.go): only mode 0 is tried, its ten rows first by score and then in turn.
 */
module NatHolePublic {
  import opened NatHole

  /** Rows before `r` have been tried once more than the others. */
  function InTurn(score: int, r: nat): seq<Score>
    requires r < 10
  {
    seq(10, i requires 0 <= i < 10 => Score(0, i, if i < r then score - 1 else score))
  }

  lemma TurnStep(score: int, r: nat)
    requires r < 10
    ensures FirstMax(InTurn(score, r)) == r
    ensures Tried(InTurn(score, r)) == if r < 9 then InTurn(score, r + 1) else InTurn(score - 1, 0)
  {
    var s := InTurn(score, r);
    var k := FirstMax(s);
    assert s[k].score <= s[r].score <= s[k].score;
  }

  lemma {:induction false} TriedOnceMore(s: seq<Score>, n: nat)
    ensures TriedTimes(s, n + 1) == Tried(TriedTimes(s, n))
    decreases n
  {
    if n != 0 { TriedOnceMore(Tried(s), n - 1); }
  }

  /** From equal scores the rows take turns. */
  lemma {:induction false} RoundRobin(score: int, round: nat, r: nat)
    requires r < 10
    ensures TriedTimes(InTurn(score, 0), 10 * round + r) == InTurn(score - round, r)
    decreases round, r
  {
    hide InTurn, Tried;
    if r != 0 {
      RoundRobin(score, round, r - 1);
      TriedOnceMore(InTurn(score, 0), 10 * round + r - 1);
      TurnStep(score - round, r - 1);
    } else if round != 0 {
      RoundRobin(score, round - 1, 9);
      TriedOnceMore(InTurn(score, 0), 10 * (round - 1) + 9);
      TurnStep(score - (round - 1), 9);
    }
  }

  lemma {:induction false} TriedTogether(s: seq<Score>, m: nat, n: nat)
    ensures TriedTimes(s, m + n) == TriedTimes(TriedTimes(s, m), n)
    decreases m
  {
    if m != 0 { TriedTogether(Tried(s), m - 1, n); }
  }

  predicate Increasing(rows: seq<nat>) {
    (forall i | 0 <= i < |rows| :: rows[i] < 10) && forall i, j | 0 <= i < j < |rows| :: rows[i] < rows[j]
  }

  /** The rows from place `m` of `first` on are one ahead. */
  function Ahead(first: seq<nat>, m: nat): seq<Score>
    requires m <= |first|
  {
    seq(10, i requires 0 <= i < 10 => Score(0, i, if i in first[m..] then 1 else 0))
  }

  lemma AheadStep(first: seq<nat>, m: nat)
    requires Increasing(first) && m < |first|
    ensures FirstMax(Ahead(first, m)) == first[m] && Tried(Ahead(first, m)) == Ahead(first, m + 1)
  {
    var s := Ahead(first, m);
    var k := first[m];
    assert first[m..] == [k] + first[m + 1..];
    assert s[k].score == 1;
    assert s[FirstMax(s)].score == 1;
    assert forall r <- first[m..] :: r >= k;
    assert k !in first[m + 1..];
  }

  lemma {:induction false} AheadTimes(first: seq<nat>, m: nat)
    requires Increasing(first) && m <= |first|
    ensures TriedTimes(Ahead(first, 0), m) == Ahead(first, m)
  {
    if m != 0 {
      AheadTimes(first, m - 1);
      TriedOnceMore(Ahead(first, 0), m - 1);
      AheadStep(first, m - 1);
    }
  }

  lemma NoneAhead(first: seq<nat>)
    ensures Ahead(first, |first|) == InTurn(0, 0)
  {
  }

  /** The row recommended after `n` failures, when the rows `first` lead by one. */
  function RowAfter(first: seq<nat>, n: nat): nat {
    if n < |first| then first[n] else (n - |first|) % 10
  }

  lemma AheadThenInTurn(first: seq<nat>, n: nat)
    requires Increasing(first)
    ensures FirstMax(TriedTimes(Ahead(first, 0), n)) == RowAfter(first, n)
  {
    hide Ahead, InTurn, Tried, TriedTimes, FirstMax, Increasing;
    var m := |first|;
    if n < m {
      AheadTimes(first, n);
      AheadStep(first, n);
    } else {
      AheadTimes(first, m);
      NoneAhead(first);
      TriedTogether(Ahead(first, 0), m, n - m);
      var round, r := (n - m) / 10, (n - m) % 10;
      RoundRobin(0, round, r);
      TurnStep(0 - round, r);
    }
  }

  /** Rows in which the client receives, and in which it sends. */
  const CLIENT_RECEIVES: seq<nat> := [1, 3, 5, 8, 9]
  const CLIENT_SENDS: seq<nat> := [0, 2, 4, 6, 7]

  lemma RolesByRow(k: nat)
    requires k < 10
    ensures Table(0)[k].0.role == Receiver <==> k in CLIENT_RECEIVES
    ensures Table(0)[k].0.role == Sender <==> k in CLIENT_SENDS
    ensures OneSender(Table(0)[k])
  {
  }

  lemma InitiallyAhead()
    ensures ScoresOf(0, 0, 1) == Ahead(CLIENT_RECEIVES, 0) && ScoresOf(0, 1, 0) == Ahead(CLIENT_SENDS, 0)
  {
    assert CLIENT_RECEIVES[0..] == CLIENT_RECEIVES && CLIENT_SENDS[0..] == CLIENT_SENDS;
    forall k | 0 <= k < 10
      ensures ScoresOf(0, 0, 1)[k] == Ahead(CLIENT_RECEIVES, 0)[k] && ScoresOf(0, 1, 0)[k] == Ahead(CLIENT_SENDS, 0)[k]
    {
      RolesByRow(k);
    }
  }

  /** The rows that go first: those in which the client receives if it is public, else those in which it sends. */
  function First(c: NatFeature): seq<nat> {
    if c.publicNetwork then CLIENT_RECEIVES else CLIENT_SENDS
  }

  lemma RecommendedRow(c: NatFeature, v: NatFeature, n: nat)
    requires c.natType == EasyNAT && v.natType == EasyNAT && (c.publicNetwork || v.publicNetwork)
    ensures var s := TriedTimes(InitialScores(c, v), n);
            s != [] && s[FirstMax(s)].mode == 0 && s[FirstMax(s)].index == RowAfter(First(c), n)
  {
    hide Table, ScoresOf, RowAfter, TriedTimes, FirstMax;
    InitiallyAhead();
    AheadThenInTurn(First(c), n);
    SameRows(Ahead(First(c), 0), n);
  }

  lemma {:induction false} SameRows(s: seq<Score>, n: nat)
    ensures forall i | 0 <= i < |s| :: TriedTimes(s, n)[i].mode == s[i].mode && TriedTimes(s, n)[i].index == s[i].index
    decreases n
  {
    if n != 0 { SameRows(Tried(s), n - 1); }
  }

  // ---------------------------------------------------------------------------------------
  // Theorems

  /** The behaviours of client and visitor in the recommendation after `n` without a success. */
  function Recommended(c: NatFeature, v: NatFeature, n: nat): Row
    requires InitialScores(c, v) != []
  {
    var s := TriedTimes(InitialScores(c, v), n);
    Assign(s[FirstMax(s)].mode, s[FirstMax(s)].index, c, v)
  }

  lemma RecommendedRoles(c: NatFeature, v: NatFeature, n: nat)
    requires c.natType == EasyNAT && v.natType == EasyNAT && (c.publicNetwork || v.publicNetwork)
    ensures InitialScores(c, v) != []
    ensures Recommended(c, v, n).0.role == Receiver <==> RowAfter(First(c), n) in CLIENT_RECEIVES
    ensures Recommended(c, v, n).1.role == Receiver <==> RowAfter(First(c), n) in CLIENT_SENDS
    ensures OneSender(Recommended(c, v, n))
  {
    hide InitialScores, TriedTimes, FirstMax;
    RecommendedRow(c, v, n);
    RolesByRow(RowAfter(First(c), n));
  }

  /**
   The source says that a peer on a public network always receives. Between EasyNAT peers a public
   client does in the first five recommendations, and then in half of each ten.
   */
  lemma PublicClientReceivesIff(c: NatFeature, v: NatFeature, n: nat)
    requires c.natType == EasyNAT && v.natType == EasyNAT && c.publicNetwork
    ensures InitialScores(c, v) != []
    ensures Recommended(c, v, n).0.role == Receiver <==> n < 5 || (n - 5) % 10 in {1, 3, 5, 8, 9}
  {
    hide Recommended, InitialScores, Table;
    RecommendedRoles(c, v, n);
  }

  /** A public visitor does likewise, but if the client is public too it starts by sending five times. */
  lemma PublicVisitorReceivesIff(c: NatFeature, v: NatFeature, n: nat)
    requires c.natType == EasyNAT && v.natType == EasyNAT && v.publicNetwork
    ensures InitialScores(c, v) != []
    ensures Recommended(c, v, n).1.role == Receiver <==>
              (n < 5 && !c.publicNetwork) || (n >= 5 && (n - 5) % 10 in {0, 2, 4, 6, 7})
  {
    hide Recommended, InitialScores, Table;
    RecommendedRoles(c, v, n);
  }

  /** With both peers public the visitor sends in the very first recommendation. */
  lemma BothPublic(c: NatFeature, v: NatFeature)
    requires c == v == NatFeature(EasyNAT, false, true)
    ensures InitialScores(c, v) != [] && Recommended(c, v, 0).1.role == Sender
  {
    hide Recommended, InitialScores, Table;
    RecommendedRoles(c, v, 0);
    PublicVisitorReceivesIff(c, v, 0);
  }

  /** So "always" holds for a public client exactly through the first five recommendations. */
  lemma AlwaysReceivesIff(c: NatFeature, v: NatFeature, n: nat)
    requires c.natType == EasyNAT && v.natType == EasyNAT && c.publicNetwork
    ensures InitialScores(c, v) != []
    ensures (forall k | 0 <= k < n :: Recommended(c, v, k).0.role == Receiver) <==> n <= 5
  {
    hide Recommended, InitialScores, Table;
    PublicClientReceivesIff(c, v, 5);
    forall k | 0 <= k < n && k < 5 ensures Recommended(c, v, k).0.role == Receiver { PublicClientReceivesIff(c, v, k); }
  }

  // ---------------------------------------------------------------------------------------
  // After any history

  /** Row `i` is recommended rather than row `j`: it scores more, or as much and is listed first. */
  predicate Beats(s: seq<Score>, i: nat, j: nat)
    requires i < |s| && j < |s|
  {
    s[i].score > s[j].score || (s[i].score == s[j].score && i < j)
  }

  /** Some row of `these` is recommended rather than any of `those`. */
  predicate Leading(s: seq<Score>, these: seq<nat>, those: seq<nat>)
    requires (forall k <- these :: k < |s|) && forall k <- those :: k < |s|
  {
    exists i <- these :: forall j <- those :: Beats(s, i, j)
  }

  lemma {:induction false} RowsStay(s: seq<Score>, events: seq<Event>)
    ensures forall i | 0 <= i < |s| :: After(s, events)[i].mode == s[i].mode && After(s, events)[i].index == s[i].index
  {
    if events != [] { RowsStay(s, events[..|events| - 1]); }
  }

  lemma EasyRows(c: NatFeature, v: NatFeature)
    requires c.natType == EasyNAT && v.natType == EasyNAT
    ensures var s := InitialScores(c, v); |s| == 10 && forall i | 0 <= i < |s| :: s[i].mode == 0 && s[i].index == i
  {
  }

  lemma AssignedAsListed(k: nat, c: NatFeature, v: NatFeature)
    requires k < 10
    ensures Assign(0, k, c, v) == Table(0)[k]
  {
  }

  lemma BestLeads(s: seq<Score>, these: seq<nat>, those: seq<nat>)
    requires s != [] && (forall k <- these :: k < |s|) && (forall k <- those :: k < |s|)
    requires FirstMax(s) in these && FirstMax(s) !in those
    ensures Leading(s, these, those) && !Leading(s, those, these)
  {
    var k := FirstMax(s);
    assert forall j <- those :: Beats(s, k, j) && !Beats(s, j, k);
  }

  lemma LeadingIff(s: seq<Score>)
    requires |s| == 10
    ensures FirstMax(s) in CLIENT_RECEIVES <==> Leading(s, CLIENT_RECEIVES, CLIENT_SENDS)
    ensures FirstMax(s) in CLIENT_SENDS <==> Leading(s, CLIENT_SENDS, CLIENT_RECEIVES)
  {
    var k := FirstMax(s);
    hide FirstMax, Leading;
    if k in CLIENT_RECEIVES {
      BestLeads(s, CLIENT_RECEIVES, CLIENT_SENDS);
    } else {
      assert k in CLIENT_SENDS;
      BestLeads(s, CLIENT_SENDS, CLIENT_RECEIVES);
    }
  }

  /**
   After any history of recommendations and successes, and whoever is public, the client receives
   between EasyNAT peers exactly when the best row in which it does is better than the best in which it
   sends; and the visitor the other way round.
   */
  lemma ReceivesAfterIff(c: NatFeature, v: NatFeature, events: seq<Event>)
    requires c.natType == EasyNAT && v.natType == EasyNAT
    ensures var s := After(InitialScores(c, v), events);
            && |s| == 10
            && var row := Assign(s[FirstMax(s)].mode, s[FirstMax(s)].index, c, v);
            && (row.0.role == Receiver <==> Leading(s, CLIENT_RECEIVES, CLIENT_SENDS))
            && (row.1.role == Receiver <==> Leading(s, CLIENT_SENDS, CLIENT_RECEIVES))
  {
    hide InitialScores, Leading, Table, RowAt;
    EasyRows(c, v);
    RowsStay(InitialScores(c, v), events);
    var s := After(InitialScores(c, v), events);
    LeadingIff(s);
    RolesByRow(FirstMax(s));
    AssignedAsListed(FirstMax(s), c, v);
  }
}
