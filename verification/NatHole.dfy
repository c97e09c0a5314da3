/**
 The NAT-hole behaviour recommender of frps (pkg/nathole/analysis.go): a table of behaviours for each
 detection mode, and for each pair of peers a score for every row, from which the best is tried next.
 */
module NatHole {
  import opened Prelude

  datatype Role = Sender | Receiver | NoRole

  datatype Behavior = Behavior(
    role: Role, ttl: nat, sendDelayMs: nat, portsRangeNumber: nat, portsRandomNumber: nat, listenRandomPorts: nat)

  datatype NatType = EasyNAT | HardNAT

  datatype NatFeature = NatFeature(natType: NatType, regularPortsChange: bool, publicNetwork: bool)

  const MAX_SCORE := 10

  // ---------------------------------------------------------------------------------------
  // Tables

  type Row = (Behavior, Behavior)

  function Sends(delay: nat, range: nat, random: nat): Behavior { Behavior(Sender, 0, delay, range, random, 0) }

  function Receives(ttl: nat, range: nat, listen: nat): Behavior { Behavior(Receiver, ttl, 0, range, 0, listen) }

  const MODE0: seq<Row> := [
    (Sends(0, 0, 0), Receives(7, 0, 0)),
    (Receives(7, 0, 0), Sends(0, 0, 0)),
    (Sends(0, 0, 0), Receives(4, 0, 0)),
    (Receives(4, 0, 0), Sends(0, 0, 0)),
    (Sends(0, 0, 0), Receives(0, 0, 0)),
    (Receives(0, 0, 0), Sends(0, 0, 0)),
    (Sends(5000, 0, 0), Receives(0, 0, 0)),
    (Sends(10000, 0, 0), Receives(0, 0, 0)),
    (Receives(0, 0, 0), Sends(5000, 0, 0)),
    (Receives(0, 0, 0), Sends(10000, 0, 0))]

  const MODE1: seq<Row> := [
    (Sends(0, 0, 0), Receives(7, 10, 0)),
    (Sends(2000, 0, 0), Receives(7, 10, 0)),
    (Sends(0, 0, 0), Receives(4, 10, 0)),
    (Sends(2000, 0, 0), Receives(4, 10, 0)),
    (Sends(0, 0, 0), Receives(0, 10, 0)),
    (Sends(2000, 0, 0), Receives(0, 10, 0))]

  const MODE2: seq<Row> := [
    (Sends(3000, 0, 1000), Receives(7, 0, 256)),
    (Sends(3000, 0, 1000), Receives(4, 0, 256)),
    (Sends(3000, 0, 1000), Receives(0, 0, 256))]

  const MODE3: seq<Row> := [
    (Sends(0, 10, 0), Receives(7, 10, 0)),
    (Sends(0, 10, 0), Receives(4, 10, 0)),
    (Sends(0, 10, 0), Receives(0, 10, 0)),
    (Receives(7, 10, 0), Sends(0, 10, 0)),
    (Receives(4, 10, 0), Sends(0, 10, 0)),
    (Receives(0, 10, 0), Sends(0, 10, 0))]

  const MODE4: seq<Row> := [
    (Sends(3000, 0, 1000), Receives(7, 2, 256)),
    (Sends(3000, 0, 1000), Receives(4, 2, 256)),
    (Sends(3000, 0, 1000), Receives(0, 2, 256))]

  function Table(mode: int): seq<Row> {
    if mode == 1 then MODE1 else if mode == 2 then MODE2 else if mode == 3 then MODE3 else if mode == 4 then MODE4 else MODE0
  }

  const NO_BEHAVIOR := Behavior(NoRole, 0, 0, 0, 0, 0)

  function RowAt(mode: int, index: nat): Row {
    if index >= |Table(mode)| then (NO_BEHAVIOR, NO_BEHAVIOR) else Table(mode)[index]
  }

  predicate OneSender(row: Row) {
    (row.0.role == Sender && row.1.role == Receiver) || (row.0.role == Receiver && row.1.role == Sender)
  }

  /** Every row has one sender and one receiver; in modes 1, 2 and 4 the sender comes first. */
  lemma RowsHaveOneSender(mode: int, index: nat)
    requires index < |Table(mode)|
    ensures OneSender(Table(mode)[index])
    ensures mode == 1 || mode == 2 || mode == 4 ==> Table(mode)[index].0.role == Sender
  {
  }

  // ---------------------------------------------------------------------------------------
  // Scores

  datatype Score = Score(mode: int, index: nat, score: int)

  /** The place of the first row with the highest score. */
  function FirstMax(s: seq<Score>): (k: nat)
    requires s != []
    ensures k < |s|
    ensures forall i | 0 <= i < |s| :: s[i].score <= s[k].score && (i < k ==> s[i].score < s[k].score)
  {
    if |s| == 1 then 0
    else
      var k := FirstMax(s[..|s| - 1]);
      if s[k].score < s[|s| - 1].score then |s| - 1 else k
  }

  function Lower(s: seq<Score>, k: nat): seq<Score>
    requires k < |s|
  {
    s[k := s[k].(score := s[k].score - 1)]
  }

  /** The scores after a recommendation. */
  function Tried(s: seq<Score>): (r: seq<Score>)
    ensures |r| == |s|
  {
    if s == [] then s else Lower(s, FirstMax(s))
  }

  function Min(a: int, b: int): int { if a < b then a else b }

  /** The place of the first row with this mode and index. */
  function Find(s: seq<Score>, mode: int, index: nat): Option<nat> {
    if s == [] then None
    else if s[0].mode == mode && s[0].index == index then Some(0)
    else
      var r := Find(s[1..], mode, index);
      if r.Some? then Some(r.value + 1) else None
  }

  lemma {:induction false} FindIs(s: seq<Score>, mode: int, index: nat)
    ensures match Find(s, mode, index)
            case Some(k) => k < |s| && s[k].mode == mode && s[k].index == index && forall i | 0 <= i < k :: s[i].mode != mode || s[i].index != index
            case None => forall i | 0 <= i < |s| :: s[i].mode != mode || s[i].index != index
  {
    if s != [] { FindIs(s[1..], mode, index); }
  }

  /** The scores after a success: two up, to at most ten. */
  function Succeeded(s: seq<Score>, mode: int, index: nat): (r: seq<Score>)
    ensures |r| == |s|
  {
    FindIs(s, mode, index);
    match Find(s, mode, index)
    case Some(k) => s[k := s[k].(score := Min(s[k].score + 2, MAX_SCORE))]
    case None => s
  }

  function ScoresOf(mode: int, senderScore: int, receiverScore: int): (r: seq<Score>)
    ensures |r| == |Table(mode)|
  {
    seq(|Table(mode)|, i requires 0 <= i < |Table(mode)| =>
      Score(mode, i, if Table(mode)[i].0.role == Sender then senderScore else receiverScore))
  }

  function Mode0Scores(c: NatFeature, v: NatFeature): seq<Score> {
    if c.publicNetwork then ScoresOf(0, 0, 1) else if v.publicNetwork then ScoresOf(0, 1, 0) else ScoresOf(0, 0, 0)
  }

  /** EasyNAT peers, and HardNAT peers whose ports change regularly. */
  function EasyCount(c: NatFeature, v: NatFeature): nat {
    Bit(c.natType == EasyNAT) + Bit(v.natType == EasyNAT)
  }

  function RegularCount(c: NatFeature, v: NatFeature): nat {
    Bit(c.natType == HardNAT && c.regularPortsChange) + Bit(v.natType == HardNAT && v.regularPortsChange)
  }

  function InitialScores(c: NatFeature, v: NatFeature): seq<Score> {
    var easy, regular := EasyCount(c, v), RegularCount(c, v);
    var hard := 2 - easy;
    if easy == 2 then Mode0Scores(c, v)
    else if hard == 1 && regular == 1 then ScoresOf(1, 0, 0) + ScoresOf(2, 0, 0) + Mode0Scores(c, v)
    else if hard == 1 && regular == 0 then ScoresOf(2, 0, 0) + ScoresOf(1, 0, 0) + Mode0Scores(c, v)
    else if hard == 2 && regular == 2 then ScoresOf(3, 0, 0) + ScoresOf(4, 0, 0)
    else if hard == 2 && regular == 1 then ScoresOf(4, 0, 0)
    else ScoresOf(0, 1, 1) + ScoresOf(1, 1, 1) + ScoresOf(3, 1, 1)
  }

  // ---------------------------------------------------------------------------------------
  // What every run keeps

  /** Rows exist in their tables, are listed once, and score at most ten. */
  predicate RecordsOk(s: seq<Score>) {
    && s != []
    && (forall i | 0 <= i < |s| :: 0 <= s[i].mode <= 4 && s[i].index < |Table(s[i].mode)| && s[i].score <= MAX_SCORE)
    && (forall i, j | 0 <= i < j < |s| :: s[i].mode != s[j].mode || s[i].index != s[j].index)
  }

  predicate OfMode(s: seq<Score>, mode: int) {
    forall i | 0 <= i < |s| :: s[i].mode == mode
  }

  lemma ScoresOfOk(mode: int, senderScore: int, receiverScore: int)
    requires 0 <= mode <= 4 && senderScore <= MAX_SCORE && receiverScore <= MAX_SCORE
    ensures RecordsOk(ScoresOf(mode, senderScore, receiverScore)) && OfMode(ScoresOf(mode, senderScore, receiverScore), mode)
  {
  }

  lemma ConcatOk(a: seq<Score>, b: seq<Score>, mode: int)
    requires RecordsOk(a) && RecordsOk(b) && OfMode(b, mode) && forall i | 0 <= i < |a| :: a[i].mode != mode
    ensures RecordsOk(a + b)
  {
  }

  lemma InitialOk(c: NatFeature, v: NatFeature)
    ensures RecordsOk(InitialScores(c, v))
  {
    hide ScoresOf, RecordsOk;
    forall mode, x, y | 0 <= mode <= 4 && 0 <= x <= 1 && 0 <= y <= 1
      ensures RecordsOk(ScoresOf(mode, x, y)) && OfMode(ScoresOf(mode, x, y), mode)
    {
      ScoresOfOk(mode, x, y);
    }
    var m0 := Mode0Scores(c, v);
    ConcatOk(ScoresOf(1, 0, 0), ScoresOf(2, 0, 0), 2);
    ConcatOk(ScoresOf(1, 0, 0) + ScoresOf(2, 0, 0), m0, 0);
    ConcatOk(ScoresOf(2, 0, 0), ScoresOf(1, 0, 0), 1);
    ConcatOk(ScoresOf(2, 0, 0) + ScoresOf(1, 0, 0), m0, 0);
    ConcatOk(ScoresOf(3, 0, 0), ScoresOf(4, 0, 0), 4);
    ConcatOk(ScoresOf(0, 1, 1), ScoresOf(1, 1, 1), 1);
    ConcatOk(ScoresOf(0, 1, 1) + ScoresOf(1, 1, 1), ScoresOf(3, 1, 1), 3);
  }

  lemma TriedOk(s: seq<Score>)
    requires RecordsOk(s)
    ensures RecordsOk(Tried(s))
  {
  }

  lemma SucceededOk(s: seq<Score>, mode: int, index: nat)
    requires RecordsOk(s)
    ensures RecordsOk(Succeeded(s, mode, index))
  {
  }

  datatype Event = Recommended | Reported(mode: int, index: nat)

  function After(s: seq<Score>, events: seq<Event>): (r: seq<Score>)
    ensures |r| == |s|
  {
    if events == [] then s
    else
      var s1 := After(s, events[..|events| - 1]);
      match events[|events| - 1]
      case Recommended => Tried(s1)
      case Reported(mode, index) => Succeeded(s1, mode, index)
  }

  /** Over every run of recommendations and successes, scores stay at most ten and rows stay real. */
  lemma {:induction false} EveryRunOk(c: NatFeature, v: NatFeature, events: seq<Event>)
    ensures RecordsOk(After(InitialScores(c, v), events))
  {
    if events == [] {
      InitialOk(c, v);
    } else {
      EveryRunOk(c, v, events[..|events| - 1]);
      var s1 := After(InitialScores(c, v), events[..|events| - 1]);
      match events[|events| - 1]
      case Recommended => TriedOk(s1);
      case Reported(mode, index) => SucceededOk(s1, mode, index);
    }
  }

  // ---------------------------------------------------------------------------------------
  // How soon a row is tried

  function Positive(x: int): nat { if x > 0 then x else 0 }

  /** How far row `i` is ahead of row `j`: the times it is tried before `j`. Ties go to the row listed first. */
  function Lead(s: seq<Score>, i: nat, j: nat): nat
    requires i < |s| && j < |s|
  {
    if i == j then 0 else if i < j then Positive(s[i].score - s[j].score + 1) else Positive(s[i].score - s[j].score)
  }

  /** The leads of the first `n` rows together. */
  function Leads(s: seq<Score>, j: nat, n: nat): nat
    requires j < |s| && n <= |s|
  {
    if n == 0 then 0 else Leads(s, j, n - 1) + Lead(s, n - 1, j)
  }

  function TriedTimes(s: seq<Score>, n: nat): (r: seq<Score>)
    ensures |r| == |s|
    decreases n
  {
    if n == 0 then s else TriedTimes(Tried(s), n - 1)
  }

  lemma {:induction false} LeadsDrop(s: seq<Score>, j: nat, k: nat, n: nat)
    requires j < |s| && k < |s| && k != j && n <= |s| && Lead(s, k, j) > 0
    ensures Leads(Lower(s, k), j, n) == if k < n then Leads(s, j, n) - 1 else Leads(s, j, n)
  {
    if n != 0 { LeadsDrop(s, j, k, n - 1); }
  }

  lemma {:induction false} LeadsZero(s: seq<Score>, j: nat, n: nat)
    requires j < |s| && n <= |s|
    ensures Leads(s, j, n) == 0 <==> forall i | 0 <= i < n :: Lead(s, i, j) == 0
  {
    if n != 0 { LeadsZero(s, j, n - 1); }
  }

  /** The row tried next is the one nobody leads. */
  lemma NextIff(s: seq<Score>, j: nat)
    requires j < |s|
    ensures FirstMax(s) == j <==> Leads(s, j, |s|) == 0
  {
    LeadsZero(s, j, |s|);
    if FirstMax(s) != j {
      assert Lead(s, FirstMax(s), j) > 0;
    }
  }

  /**
   Without successes, row `j` is tried for the first time after exactly as many other recommendations as
   the other rows lead it by.
   */
  lemma {:induction false} TriedAfterLeads(s: seq<Score>, j: nat, n: nat)
    requires j < |s| && n <= Leads(s, j, |s|)
    ensures FirstMax(TriedTimes(s, n)) == j <==> n == Leads(s, j, |s|)
    decreases n
  {
    NextIff(s, j);
    if n != 0 {
      LeadsDrop(s, j, FirstMax(s), |s|);
      TriedAfterLeads(Tried(s), j, n - 1);
    }
  }

  /** The sum over the other rows of how far each scores above row `j`, counting ties against it. */
  function Excess(s: seq<Score>, j: nat, n: nat): nat
    requires j < |s| && n <= |s|
  {
    if n == 0 then 0 else Excess(s, j, n - 1) + if n - 1 == j then 0 else Positive(s[n - 1].score - s[j].score + 1)
  }

  lemma {:induction false} LeadsBounded(s: seq<Score>, j: nat, n: nat)
    requires j < |s| && n <= |s|
    ensures Leads(s, j, n) <= Excess(s, j, n)
  {
    if n != 0 { LeadsBounded(s, j, n - 1); }
  }

  /** So every row is tried within one more recommendation than that sum. */
  lemma RetriedWithin(s: seq<Score>, j: nat)
    requires j < |s|
    ensures exists n :: 0 <= n < 1 + Excess(s, j, |s|) && FirstMax(TriedTimes(s, n)) == j
  {
    LeadsBounded(s, j, |s|);
    TriedAfterLeads(s, j, Leads(s, j, |s|));
  }

  function Total(s: seq<Score>): int {
    if s == [] then 0 else Total(s[..|s| - 1]) + s[|s| - 1].score
  }

  lemma {:induction false} TotalDrops(s: seq<Score>, k: nat)
    requires k < |s|
    ensures Total(Lower(s, k)) == Total(s) - 1
  {
    var init := s[..|s| - 1];
    if k == |s| - 1 {
      assert Lower(s, k)[..|s| - 1] == init;
    } else {
      assert Lower(s, k)[..|s| - 1] == Lower(init, k);
      TotalDrops(init, k);
    }
  }

  lemma {:induction false} TotalAfter(s: seq<Score>, n: nat)
    requires s != []
    ensures Total(TriedTimes(s, n)) == Total(s) - n
    decreases n
  {
    if n != 0 {
      TotalDrops(s, FirstMax(s));
      TotalAfter(Tried(s), n - 1);
    }
  }

  lemma {:induction false} TotalBelow(s: seq<Score>, low: int)
    requires forall i | 0 <= i < |s| :: s[i].score >= low
    ensures Total(s) >= low * |s|
  {
    if s != [] { TotalBelow(s[..|s| - 1], low); }
  }

  /**
   Scores have no lower bound, although the source calls them "between -10 and 10": whatever the scores
   and the bound, enough recommendations without a success bring one below it.
   */
  lemma NoLowerBound(s: seq<Score>, low: int)
    requires s != []
    ensures exists n: nat, i :: 0 <= i < |s| && TriedTimes(s, n)[i].score < low
  {
    var n: nat := Positive(Total(s) - low * |s| + 1);
    TotalAfter(s, n);
    if forall i | 0 <= i < |s| :: TriedTimes(s, n)[i].score >= low {
      TotalBelow(TriedTimes(s, n), low);
      assert false;
    }
  }

  predicate AtLeast(s: seq<Score>, low: int) {
    forall i | 0 <= i < |s| :: s[i].score >= low
  }

  /** One recommendation keeps a floor exactly when the scores are on or above it and the best is above. */
  lemma FloorIff(s: seq<Score>, low: int)
    requires s != []
    ensures AtLeast(Tried(s), low) <==> AtLeast(s, low) && s[FirstMax(s)].score > low
  {
    var k := FirstMax(s);
    if AtLeast(Tried(s), low) {
      forall i | 0 <= i < |s| ensures s[i].score >= low { assert Tried(s)[i].score >= low; }
      assert Tried(s)[k].score >= low;
    }
  }

  /** A success never breaks a floor. */
  lemma SuccessKeepsFloor(s: seq<Score>, mode: int, index: nat, low: int)
    requires AtLeast(s, low) && low <= MAX_SCORE
    ensures AtLeast(Succeeded(s, mode, index), low)
  {
    FindIs(s, mode, index);
  }

  lemma {:induction false} TotalOnFloor(s: seq<Score>, low: int)
    requires AtLeast(s, low) && forall i | 0 <= i < |s| :: s[i].score <= low
    ensures Total(s) == low * |s|
  {
    if s != [] { TotalOnFloor(s[..|s| - 1], low); }
  }

  /**
   Without successes a floor is kept for exactly as many recommendations as the scores are above it
   together: for so many and no more.
   */
  lemma {:induction false} FloorKeptFor(s: seq<Score>, low: int, n: nat)
    requires s != [] && AtLeast(s, low)
    ensures AtLeast(TriedTimes(s, n), low) <==> n <= Total(s) - low * |s|
    decreases n
  {
    TotalBelow(s, low);
    if AtLeast(TriedTimes(s, n), low) {
      TotalAfter(s, n);
      TotalBelow(TriedTimes(s, n), low);
    }
    if 0 < n <= Total(s) - low * |s| {
      FloorIff(s, low);
      TotalDrops(s, FirstMax(s));
      if s[FirstMax(s)].score <= low { TotalOnFloor(s, low); }
      FloorKeptFor(Tried(s), low, n - 1);
    }
  }

  /** Over any run, successes included, a floor is kept throughout exactly when no recommendation finds the best score on it. */
  lemma {:induction false} FloorKeptIff(s: seq<Score>, low: int, events: seq<Event>)
    requires s != [] && AtLeast(s, low) && low <= MAX_SCORE
    ensures (forall k | 0 <= k <= |events| :: AtLeast(After(s, events[..k]), low)) <==>
              forall k | 0 <= k < |events| && events[k] == Recommended :: BestAbove(After(s, events[..k]), low)
  {
    if events == [] {
      assert events[..0] == events;
    } else {
      hide After, AtLeast, BestAbove;
      var n := |events| - 1;
      var init := events[..n];
      FloorKeptIff(s, low, init);
      assert forall k | 0 <= k <= n :: init[..k] == events[..k];
      assert forall k | 0 <= k < n :: init[k] == events[k];
      assert events[..n + 1] == events;
      if AtLeast(After(s, init), low) { LastKeepsIff(s, low, events); }
    }
  }

  lemma LastKeepsIff(s: seq<Score>, low: int, events: seq<Event>)
    requires events != [] && s != [] && low <= MAX_SCORE && AtLeast(After(s, events[..|events| - 1]), low)
    ensures AtLeast(After(s, events), low) <==>
              (events[|events| - 1] == Recommended ==> BestAbove(After(s, events[..|events| - 1]), low))
  {
    var s1 := After(s, events[..|events| - 1]);
    match events[|events| - 1]
    case Recommended => FloorIff(s1, low);
    case Reported(mode, index) => SuccessKeepsFloor(s1, mode, index, low);
  }

  predicate BestAbove(s: seq<Score>, low: int) {
    s != [] && s[FirstMax(s)].score > low
  }

  // ---------------------------------------------------------------------------------------
  // Roles

  /** The behaviours handed to client and visitor for a row. */
  function Assign(mode: int, index: nat, c: NatFeature, v: NatFeature): Row {
    var row := RowAt(mode, index);
    if (mode == 1 && c.natType == EasyNAT) || (mode == 2 && c.natType == HardNAT) || (mode == 4 && !c.regularPortsChange)
    then (row.1, row.0) else row
  }

  /**
   Whatever was recommended and reported before, and whatever the peers look like now, one side sends
   and the other receives. When only one side is HardNAT it sends in mode 1 and receives in mode 2; when
   only one side changes ports regularly it sends in mode 4.
   */
  lemma RolesAssigned(c0: NatFeature, v0: NatFeature, events: seq<Event>, c: NatFeature, v: NatFeature)
    ensures var s := After(InitialScores(c0, v0), events);
            && s != []
            && var best := s[FirstMax(s)];
            && best.index < |Table(best.mode)|
            && OneSender(Assign(best.mode, best.index, c, v))
            && (best.mode == 1 && c.natType != v.natType ==>
                  (if c.natType == HardNAT then Assign(1, best.index, c, v).0 else Assign(1, best.index, c, v).1).role == Sender)
            && (best.mode == 2 && c.natType != v.natType ==>
                  (if c.natType == HardNAT then Assign(2, best.index, c, v).0 else Assign(2, best.index, c, v).1).role == Receiver)
            && (best.mode == 4 && c.regularPortsChange != v.regularPortsChange ==>
                  (if c.regularPortsChange then Assign(4, best.index, c, v).0 else Assign(4, best.index, c, v).1).role == Sender)
  {
    EveryRunOk(c0, v0, events);
    var s := After(InitialScores(c0, v0), events);
    var best := s[FirstMax(s)];
    RowsHaveOneSender(best.mode, best.index);
    hide Table;
  }
}
