/**
 The recommender's records, which it changes in place (pkg/nathole/analysis.go), and the loops that
 classify a NAT from the addresses observed for it (pkg/nathole/classify.go).
 */
module NatHoleRecords {
  import opened Prelude
  import opened NatHole

  // ---------------------------------------------------------------------------------------
  // Records

  method BehaviorScores(mode: int, senderScore: int, receiverScore: int) returns (scores: seq<Score>)
    ensures scores == ScoresOf(mode, senderScore, receiverScore)
  {
    scores := [];
    for i := 0 to |Table(mode)|
      invariant scores == ScoresOf(mode, senderScore, receiverScore)[..i]
    {
      ghost var all := ScoresOf(mode, senderScore, receiverScore);
      assert all[..i + 1] == all[..i] + [all[i]];
      var score := receiverScore;
      if Table(mode)[i].0.role == Sender { score := senderScore; }
      scores := scores + [Score(mode, i, score)];
    }
  }

  function EasyIn(features: seq<NatFeature>): nat {
    if features == [] then 0 else EasyIn(features[..|features| - 1]) + Bit(features[|features| - 1].natType == EasyNAT)
  }

  function RegularIn(features: seq<NatFeature>): nat {
    if features == [] then 0
    else
      var last := features[|features| - 1];
      RegularIn(features[..|features| - 1]) + Bit(last.natType == HardNAT && last.regularPortsChange)
  }

  /** Regular port changes count for HardNAT only. */
  method ClassifyFeatureCount(features: seq<NatFeature>) returns (easy: nat, hard: nat, regular: nat)
    ensures easy == EasyIn(features) && regular == RegularIn(features) && easy + hard == |features| && regular <= hard
  {
    easy, hard, regular := 0, 0, 0;
    for i := 0 to |features|
      invariant easy == EasyIn(features[..i]) && regular == RegularIn(features[..i]) && easy + hard == i && regular <= hard
    {
      assert features[..i + 1][..i] == features[..i];
      if features[i].natType == EasyNAT {
        easy := easy + 1;
        continue;
      }
      hard := hard + 1;
      if features[i].regularPortsChange { regular := regular + 1; }
    }
    assert features[..|features|] == features;
  }

  /** The counts the initial scores are chosen by. */
  lemma CountsOfPair(c: NatFeature, v: NatFeature)
    ensures EasyIn([c, v]) == EasyCount(c, v) && RegularIn([c, v]) == RegularCount(c, v)
  {
    var one, two := [c], [c, v];
    assert one[..|one| - 1] == [] && two[..|two| - 1] == one;
    assert EasyIn([]) == 0 && RegularIn([]) == 0;
    assert EasyIn(one) == Bit(c.natType == EasyNAT);
  }

  /** The scores of mode 0, in which a public side had better receive. */
  method Mode0(c: NatFeature, v: NatFeature) returns (scores: seq<Score>)
    ensures scores == Mode0Scores(c, v)
  {
    if c.publicNetwork {
      scores := BehaviorScores(0, 0, 1);
    } else if v.publicNetwork {
      scores := BehaviorScores(0, 1, 0);
    } else {
      scores := BehaviorScores(0, 0, 0);
    }
  }

  /** The modes worth trying for a pair, by how many sides are hard and change ports regularly. */
  method NewScores(c: NatFeature, v: NatFeature) returns (scores: seq<Score>)
    ensures scores == InitialScores(c, v)
  {
    hide ScoresOf, Mode0Scores;
    CountsOfPair(c, v);
    var easy, hard, regular := ClassifyFeatureCount([c, v]);
    var mode0 := Mode0(c, v);
    if easy == 2 {
      return mode0;
    } else if hard == 1 && regular == 1 {
      var first := BehaviorScores(1, 0, 0);
      var second := BehaviorScores(2, 0, 0);
      return first + second + mode0;
    } else if hard == 1 && regular == 0 {
      var first := BehaviorScores(2, 0, 0);
      var second := BehaviorScores(1, 0, 0);
      return first + second + mode0;
    } else if hard == 2 && regular == 2 {
      var first := BehaviorScores(3, 0, 0);
      var second := BehaviorScores(4, 0, 0);
      return first + second;
    } else if hard == 2 && regular == 1 {
      scores := BehaviorScores(4, 0, 0);
    } else {
      var first := BehaviorScores(0, 1, 1);
      var second := BehaviorScores(1, 1, 1);
      var third := BehaviorScores(3, 1, 1);
      return first + second + third;
    }
  }

  class MakeHoleRecords {
    var scores: seq<Score>
    var lastUpdateTime: int

    constructor (c: NatFeature, v: NatFeature, now: int)
      ensures scores == InitialScores(c, v) && RecordsOk(scores) && lastUpdateTime == now
    {
      InitialOk(c, v);
      var initial := NewScores(c, v);
      scores, lastUpdateTime := initial, now;
    }

    method ReportSuccess(mode: int, index: nat, now: int)
      modifies this
      ensures scores == Succeeded(old(scores), mode, index) && lastUpdateTime == now
      ensures old(RecordsOk(scores)) ==> RecordsOk(scores)
    {
      lastUpdateTime := now;
      ghost var s := scores;
      if RecordsOk(s) { SucceededOk(s, mode, index); }
      FindIs(s, mode, index);
      for i := 0 to |scores|
        invariant scores == s
        invariant forall k | 0 <= k < i :: s[k].mode != mode || s[k].index != index
      {
        if scores[i].mode != mode || scores[i].index != index { continue; }
        scores := scores[i := scores[i].(score := Min(scores[i].score + 2, MAX_SCORE))];
        return;
      }
    }

    method Recommend(now: int) returns (mode: int, index: nat)
      modifies this
      ensures scores == Tried(old(scores))
      ensures old(scores) != [] ==> var best := old(scores)[FirstMax(old(scores))]; mode == best.mode && index == best.index && lastUpdateTime == now
      ensures old(scores) == [] ==> mode == 0 && index == 0 && lastUpdateTime == old(lastUpdateTime)
      ensures old(RecordsOk(scores)) ==> RecordsOk(scores)
    {
      if scores == [] { return 0, 0; }
      if RecordsOk(scores) { TriedOk(scores); }
      var best := 0;
      for i := 1 to |scores|
        invariant best < i <= |scores|
        invariant forall k | 0 <= k < i :: scores[k].score <= scores[best].score && (k < best ==> scores[k].score < scores[best].score)
      {
        if scores[i].score > scores[best].score { best := i; }
      }
      mode, index := scores[best].mode, scores[best].index;
      scores := scores[best := scores[best].(score := scores[best].score - 1)];
      lastUpdateTime := now;
    }
  }

  lemma RealRow(s: seq<Score>)
    requires RecordsOk(s)
    ensures s != [] && s[FirstMax(s)].index < |Table(s[FirstMax(s)].mode)|
  {
  }

  /** Which side gets which half of the row. */
  method BehaviorsFor(mode: int, index: nat, c: NatFeature, v: NatFeature) returns (forC: Behavior, forV: Behavior)
    requires index < |Table(mode)|
    ensures (forC, forV) == Assign(mode, index, c, v) && OneSender((forC, forV))
  {
    RowsHaveOneSender(mode, index);
    hide Table;
    var row := RowAt(mode, index);
    forC, forV := row.0, row.1;
    if mode == 1 {
      if c.natType == EasyNAT { forC, forV := forV, forC; }
    } else if mode == 2 {
      if c.natType == HardNAT { forC, forV := forV, forC; }
    } else if mode == 4 {
      if !c.regularPortsChange { forC, forV := forV, forC; }
    }
  }

  class Analyzer {
    var records: map<string, MakeHoleRecords>
    const dataReserveDuration: int

    constructor (dataReserveDuration: int)
      ensures records == map[] && this.dataReserveDuration == dataReserveDuration
    {
      records := map[];
      this.dataReserveDuration := dataReserveDuration;
    }

    ghost predicate Valid()
      reads this, records.Values
    {
      && (forall k <- records :: RecordsOk(records[k].scores))
      && (forall k, l | k in records && l in records && k != l :: records[k] != records[l])
    }

    /** The records of a pair of peers, made when there are none. */
    method RecordsFor(key: string, c: NatFeature, v: NatFeature, now: int) returns (r: MakeHoleRecords)
      requires Valid()
      modifies this`records
      ensures Valid()
      ensures key in records && r == records[key]
      ensures key in old(records) ==> records == old(records)
      ensures key !in old(records) ==> records == old(records)[key := r] && fresh(r) && r.scores == InitialScores(c, v)
    {
      hide Table, InitialScores, RecordsOk;
      if key !in records {
        r := new MakeHoleRecords(c, v, now);
        records := records[key := r];
      }
      r := records[key];
    }

    method GetRecommendBehaviors(key: string, c: NatFeature, v: NatFeature, now: int)
      returns (mode: int, index: nat, forC: Behavior, forV: Behavior)
      requires Valid()
      modifies this, if key in records then {records[key]} else {}
      ensures Valid()
      ensures records.Keys == old(records.Keys) + {key}
      ensures forall k <- old(records) :: records[k] == old(records[k])
      ensures forall k <- old(records) :: k != key ==> records[k].scores == old(records[k].scores)
      // the best row is tried next; a new pair of peers starts from the scores its features give
      ensures var was := if key in old(records) then old(if key in records then records[key].scores else []) else InitialScores(c, v);
              && was != [] && mode == was[FirstMax(was)].mode && index == was[FirstMax(was)].index
              && records[key].scores == Tried(was)
      // the row exists and gives one sender and one receiver
      ensures index < |Table(mode)| && (forC, forV) == Assign(mode, index, c, v) && OneSender((forC, forV))
    {
      hide Table, InitialScores, Tried, Assign, OneSender, RecordsOk, FirstMax;
      var r := RecordsFor(key, c, v, now);
      RealRow(r.scores);
      mode, index := r.Recommend(now);
      forC, forV := BehaviorsFor(mode, index, c, v);
    }

    method ReportSuccess(key: string, mode: int, index: nat, now: int)
      requires Valid()
      modifies if key in records then {records[key]} else {}
      ensures Valid() && records == old(records)
      ensures key in records ==> records[key].scores == Succeeded(old(if key in records then records[key].scores else []), mode, index)
    {
      if key in records { records[key].ReportSuccess(mode, index, now); }
    }

    method Clean(now: int) returns (count: nat, total: nat)
      requires Valid()
      modifies this`records
      ensures Valid()
      ensures records == map k | k in old(records) && now - old(records)[k].lastUpdateTime <= dataReserveDuration :: old(records)[k]
      ensures total == |old(records)| && count == total - |records|
    {
      hide RecordsOk;
      total, count := |records|, 0;
      var todo := records.Keys;
      while todo != {}
        invariant todo <= records.Keys <= old(records).Keys
        invariant forall k <- records :: records[k] == old(records)[k]
        invariant forall k <- old(records) :: k !in todo ==> (k in records <==> now - old(records)[k].lastUpdateTime <= dataReserveDuration)
        invariant count == total - |records|
        decreases |todo|
      {
        var k :| k in todo;
        if now - records[k].lastUpdateTime > dataReserveDuration {
          assert (records - {k}).Keys == records.Keys - {k};
          assert |(records - {k}).Keys| == |records.Keys| - 1;
          records := records - {k};
          count := count + 1;
        }
        todo := todo - {k};
      }
    }
  }

  // ---------------------------------------------------------------------------------------
  // Classification

  /** An address as split and parsed. */
  datatype Address = Address(ip: string, port: string, portNum: int)

  datatype ClassifyError = NotEnoughAddresses | BadAddress(i: nat)

  datatype Change = NoChange | IPChanged | PortChanged | BothChanged

  datatype Classified = Classified(natType: NatType, change: Change, portsDifference: int, regularPortsChange: bool, publicNetwork: bool)

  /** The address the others are compared with: the first that has a host, or else the last. */
  function Base(a: seq<Address>): (b: nat)
    requires a != []
    ensures b < |a|
    ensures a[b].ip == "" ==> b == |a| - 1
    ensures forall i | 0 <= i < b :: a[i].ip == ""
  {
    if a[0].ip != "" || |a| == 1 then 0 else 1 + Base(a[1..])
  }

  predicate IPsDiffer(a: seq<Address>, b: nat)
    requires b < |a|
  {
    exists i | b < i < |a| :: a[i].ip != a[b].ip
  }

  predicate PortsDiffer(a: seq<Address>, b: nat)
    requires b < |a|
  {
    exists i | b < i < |a| :: a[i].port != a[b].port
  }

  predicate PortBounds(a: seq<Address>, b: nat, low: int, high: int)
    requires b < |a|
  {
    && (forall i | b <= i < |a| :: low <= a[i].portNum <= high)
    && (exists i | b <= i < |a| :: a[i].portNum == low)
    && (exists i | b <= i < |a| :: a[i].portNum == high)
  }

  function ChangeOf(ips: bool, ports: bool): Change {
    if ips && ports then BothChanged else if ips then IPChanged else if ports then PortChanged else NoChange
  }

  lemma {:induction false} BaseGrows(a: seq<Address>, x: Address)
    requires a != []
    ensures Base(a + [x]) == if a[Base(a)].ip == "" then |a| else Base(a)
  {
    if a[0].ip == "" && |a| > 1 {
      assert (a + [x])[1..] == a[1..] + [x];
      BaseGrows(a[1..], x);
    } else {
      assert a[0].ip == "" ==> (a + [x])[1..] == [x];
    }
  }

  /** What the loop knows after the addresses `a`. */
  predicate Seen(a: seq<Address>, base: Address, ips: bool, ports: bool, low: int, high: int)
    requires a != []
  {
    && base == a[Base(a)]
    && ips == IPsDiffer(a, Base(a)) && ports == PortsDiffer(a, Base(a))
    && PortBounds(a, Base(a), low, high)
  }

  lemma SeenFirst(x: Address)
    ensures Seen([x], x, false, false, x.portNum, x.portNum)
  {
    assert [x][0].portNum == x.portNum;
  }

  lemma SeenNext(a: seq<Address>, x: Address, base: Address, ips: bool, ports: bool, low: int, high: int)
    requires a != [] && Seen(a, base, ips, ports, low, high)
    ensures base.ip == "" ==> Seen(a + [x], x, false, false, x.portNum, x.portNum)
    ensures base.ip != "" ==>
              Seen(a + [x], base, ips || x.ip != base.ip, ports || x.port != base.port,
                   if x.portNum < low then x.portNum else low, if x.portNum > high then x.portNum else high)
  {
    BaseGrows(a, x);
    var c := a + [x];
    assert c[|a|] == x;
    if base.ip != "" {
      NextFlags(a, x, Base(a));
      NextBounds(a, x, Base(a), low, high);
    }
  }

  lemma NextFlags(a: seq<Address>, x: Address, b: nat)
    requires b < |a|
    ensures IPsDiffer(a + [x], b) <==> IPsDiffer(a, b) || x.ip != a[b].ip
    ensures PortsDiffer(a + [x], b) <==> PortsDiffer(a, b) || x.port != a[b].port
  {
    var c := a + [x];
    assert c[|a|] == x && forall i | 0 <= i < |a| :: c[i] == a[i];
  }

  lemma NextBounds(a: seq<Address>, x: Address, b: nat, low: int, high: int)
    requires b < |a| && PortBounds(a, b, low, high)
    ensures PortBounds(a + [x], b, if x.portNum < low then x.portNum else low, if x.portNum > high then x.portNum else high)
  {
    var c := a + [x];
    assert c[|a|] == x && forall i | 0 <= i < |a| :: c[i] == a[i];
    var i :| b <= i < |a| && a[i].portNum == low;
    var j :| b <= j < |a| && a[j].portNum == high;
    assert c[i].portNum == low && c[j].portNum == high;
  }

  function Values(addresses: seq<Option<Address>>): (r: seq<Address>)
    requires forall i | 0 <= i < |addresses| :: addresses[i].Some?
    ensures |r| == |addresses| && forall i | 0 <= i < |addresses| :: r[i] == addresses[i].value
  {
    seq(|addresses|, i requires 0 <= i < |addresses| => addresses[i].value)
  }

  /** An address that cannot be split or parsed is None. */
  method ClassifyNATFeature(addresses: seq<Option<Address>>, localIPs: set<string>) returns (r: Result<Classified, ClassifyError>)
    ensures |addresses| <= 1 ==> r == Err(NotEnoughAddresses)
    ensures |addresses| > 1 ==> (r.Err? <==> None in addresses)
    ensures |addresses| > 1 && r.Err? ==> r.error.BadAddress? && r.error.i < |addresses| && addresses[r.error.i] == None && None !in addresses[..r.error.i]
    ensures r.Ok? ==>
              && |addresses| > 1 && (forall i | 0 <= i < |addresses| :: addresses[i].Some?)
              && var a := Values(addresses);
              && var b := Base(a);
              && r.value.change == ChangeOf(IPsDiffer(a, b), PortsDiffer(a, b))
              && r.value.natType == (if r.value.change == NoChange then EasyNAT else HardNAT)
              && (r.value.change == PortChanged ==> exists low, high :: PortBounds(a, b, low, high) && r.value.portsDifference == high - low)
              && (r.value.change != PortChanged ==> r.value.portsDifference == 0)
              && (r.value.regularPortsChange <==> r.value.change == PortChanged && 1 <= r.value.portsDifference <= 5)
              && (r.value.publicNetwork <==> exists i | 0 <= i < |a| :: a[i].ip in localIPs)
  {
    hide Base, IPsDiffer, PortsDiffer, PortBounds;
    if |addresses| <= 1 { return Err(NotEnoughAddresses); }
    var public, ips, ports := false, false, false;
    var base := Address("", "", 0);
    var low, high := 0, 0;
    ghost var a: seq<Address> := [];
    for i := 0 to |addresses|
      invariant |a| == i && forall k | 0 <= k < i :: addresses[k] == Some(a[k])
      invariant i == 0 ==> base.ip == "" && !ips && !ports
      invariant i > 0 ==> Seen(a, base, ips, ports, low, high)
      invariant public <==> exists k | 0 <= k < i :: a[k].ip in localIPs
    {
      hide Seen;
      if addresses[i] == None { return Err(BadAddress(i)); }
      var x := addresses[i].value;
      if i == 0 {
        SeenFirst(x);
        assert a + [x] == [x];
      } else {
        SeenNext(a, x, base, ips, ports, low, high);
        if base.ip == "" { BaseBlank(a, base, ips, ports, low, high); }
      }
      ghost var before := a;
      a := a + [x];
      assert a[i] == x && forall k | 0 <= k < i :: a[k] == before[k];
      if x.ip in localIPs { public := true; }
      if base.ip == "" {
        base, low, high := x, x.portNum, x.portNum;
        continue;
      }
      high := if x.portNum > high then x.portNum else high;
      low := if x.portNum < low then x.portNum else low;
      if base.ip != x.ip { ips := true; }
      if base.port != x.port { ports := true; }
    }
    assert a == Values(addresses);
    var change := ChangeOf(ips, ports);
    var difference, regular := 0, false;
    if change == PortChanged {
      difference := high - low;
      if difference <= 5 && difference >= 1 { regular := true; }
    }
    return Ok(Classified(if change == NoChange then EasyNAT else HardNAT, change, difference, regular, public));
  }

  /** While no address had a host there is nothing to have changed. */
  lemma BaseBlank(a: seq<Address>, base: Address, ips: bool, ports: bool, low: int, high: int)
    requires a != [] && Seen(a, base, ips, ports, low, high) && base.ip == ""
    ensures !ips && !ports
  {
  }

  /** When the first address has a host, a NAT is easy exactly when all addresses are the same. */
  lemma EasyIff(a: seq<Address>)
    requires a != [] && a[0].ip != ""
    ensures ChangeOf(IPsDiffer(a, Base(a)), PortsDiffer(a, Base(a))) == NoChange <==>
              forall i | 0 <= i < |a| :: a[i].ip == a[0].ip && a[i].port == a[0].port
  {
    assert Base(a) == 0;
  }

  /** Addresses before the first with a host decide nothing: the rest are classified as if they stood alone. */
  lemma {:induction false} HostlessIgnored(hostless: seq<Address>, a: seq<Address>)
    requires a != [] && forall i | 0 <= i < |hostless| :: hostless[i].ip == ""
    ensures var all := hostless + a;
            && Base(all) == |hostless| + Base(a)
            && IPsDiffer(all, Base(all)) == IPsDiffer(a, Base(a))
            && PortsDiffer(all, Base(all)) == PortsDiffer(a, Base(a))
            && forall low, high :: PortBounds(all, Base(all), low, high) <==> PortBounds(a, Base(a), low, high)
  {
    var all := hostless + a;
    if hostless == [] {
      assert all == a;
    } else {
      assert all[1..] == hostless[1..] + a;
      HostlessIgnored(hostless[1..], a);
      DropFirst(all, Base(all[1..]));
    }
  }

  /** The first address does not matter to what is seen from a later one on. */
  lemma DropFirst(a: seq<Address>, b: nat)
    requires b < |a| - 1
    ensures IPsDiffer(a, b + 1) == IPsDiffer(a[1..], b) && PortsDiffer(a, b + 1) == PortsDiffer(a[1..], b)
    ensures forall low, high :: PortBounds(a, b + 1, low, high) <==> PortBounds(a[1..], b, low, high)
  {
    var c := a[1..];
    assert forall i | 0 <= i < |c| :: c[i] == a[i + 1];
    assert forall i | 0 < i < |a| :: a[i] == c[i - 1];
  }

  /** An address without a host is not compared: two that differ are still called easy. */
  method HostlessExample() returns (r: Result<Classified, ClassifyError>)
    ensures r.Ok? && r.value.natType == EasyNAT
  {
    var addresses := [Some(Address("", "80", 80)), Some(Address("192.0.2.1", "90", 90))];
    r := ClassifyNATFeature(addresses, {});
    assert addresses[0].Some? && addresses[1].Some?;
    assert r.Ok?;
    ghost var a := Values(addresses);
    assert a[0].ip == "" && a[1].ip != "";
    assert Base(a) == 1;
  }
}
