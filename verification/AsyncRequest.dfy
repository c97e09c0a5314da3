/**
 A request for a connection from an API that cannot be cancelled (client/visitor/xudp.go,
 client/visitor/sudp.go and server/proxy/udp.go each have one).

 The producer delivers its result into a channel of capacity one unless the waiter has cancelled;
 the waiter prefers shutdown to a result that is ready at the same time. One action is one channel
 operation, one critical section under the request's mutex, or one recycling of a result.
 */
module AsyncRequest {
  import opened Prelude

  type Item = nat

  const CAPACITY := 1

  datatype Producer =
    | Working
    | Produced(item: Item)
    | Recycling(item: Item)
    | Finished

  /** `kept` was received before shutdown was seen, `late` was drained by cancel. */
  datatype Waiter =
    | Waiting
    | Received(item: Item)
    | Canceling(kept: Option<Item>)
    | RecycleLate(kept: Option<Item>, late: Option<Item>)
    | RecycleKept(kept: Option<Item>)
    | Returned(result: Option<Item>)

  datatype State = State(
    producer: Producer,
    waiter: Waiter,
    resultCh: seq<Item>,
    canceled: bool,
    shut: bool,
    // history
    made: seq<Item>,
    recycled: seq<Item>)

  const Init := State(Working, Waiting, [], false, false, [], [])

  datatype Action = Make(item: Item) | Produce | Wait(result: bool) | Shutdown

  predicate Enabled(s: State, act: Action) {
    match act
    case Make(_) => s.producer.Working?
    case Produce => s.producer.Produced? || s.producer.Recycling?
    case Wait(result) => if s.waiter.Waiting? then (if result then s.resultCh != [] else s.shut) else !s.waiter.Returned?
    case Shutdown => !s.shut
  }

  function Recycle(s: State, o: Option<Item>): State {
    if o.Some? then s.(recycled := s.recycled + [o.value]) else s
  }

  /** After the call: the mutex section that delivers without blocking, then recycling outside it. */
  function StepProducer(s: State): State
    requires Enabled(s, Produce)
  {
    match s.producer
    case Produced(item) =>
      if s.canceled || |s.resultCh| == CAPACITY then s.(producer := Recycling(item))
      else s.(resultCh := s.resultCh + [item], producer := Finished)
    case Recycling(item) => Recycle(s, Some(item)).(producer := Finished)
  }

  function StepWaiter(s: State, result: bool): State
    requires Enabled(s, Wait(result))
  {
    match s.waiter
    case Waiting =>
      if result then s.(waiter := Received(s.resultCh[0]), resultCh := s.resultCh[1..])
      else s.(waiter := Canceling(None))
    case Received(item) => s.(waiter := if s.shut then Canceling(Some(item)) else Returned(Some(item)))
    case Canceling(kept) =>
      if s.resultCh == [] then s.(canceled := true, waiter := RecycleLate(kept, None))
      else s.(canceled := true, waiter := RecycleLate(kept, Some(s.resultCh[0])), resultCh := s.resultCh[1..])
    case RecycleLate(kept, late) => Recycle(s, late).(waiter := RecycleKept(kept))
    case RecycleKept(kept) => Recycle(s, kept).(waiter := Returned(None))
  }

  function Apply(s: State, act: Action): State
    requires Enabled(s, act)
  {
    match act
    case Make(item) => s.(producer := Produced(item), made := s.made + [item])
    case Produce => StepProducer(s)
    case Wait(result) => StepWaiter(s, result)
    case Shutdown => s.(shut := true)
  }

  ghost predicate IsRun(states: seq<State>, actions: seq<Action>) {
    && |states| == |actions| + 1
    && states[0] == Init
    && forall i | 0 <= i < |actions| :: Enabled(states[i], actions[i]) && states[i + 1] == Apply(states[i], actions[i])
  }

  // ---------------------------------------------------------------------------------------
  // Invariant

  function ProducerHolds(p: Producer): seq<Item> {
    match p
    case Produced(item) => [item]
    case Recycling(item) => [item]
    case _ => []
  }

  function WaiterHolds(w: Waiter): seq<Item> {
    match w
    case Waiting => []
    case Received(item) => [item]
    case Canceling(kept) => ToSeq(kept)
    case RecycleLate(kept, late) => ToSeq(kept) + ToSeq(late)
    case RecycleKept(kept) => ToSeq(kept)
    case Returned(result) => ToSeq(result)
  }

  /** Every place a result can be. */
  function Places(s: State): seq<Item> {
    ProducerHolds(s.producer) + s.resultCh + WaiterHolds(s.waiter) + s.recycled
  }

  predicate HasCanceled(w: Waiter) {
    w.RecycleLate? || w.RecycleKept? || (w.Returned? && w.result == None)
  }

  /** The parts share out `whole`, which has at most one item. */
  predicate Shared(a: seq<Item>, b: seq<Item>, c: seq<Item>, d: seq<Item>, whole: seq<Item>) {
    && |a| + |b| + |c| + |d| == |whole| <= 1
    && (a == [] || a == whole) && (b == [] || b == whole) && (c == [] || c == whole) && (d == [] || d == whole)
  }

  predicate Inv(s: State) {
    && Shared(ProducerHolds(s.producer), s.resultCh, WaiterHolds(s.waiter), s.recycled, s.made)
    && |s.made| == (if s.producer.Working? then 0 else 1)
    && (s.producer.Recycling? ==> s.canceled)
    && (s.canceled <==> HasCanceled(s.waiter))
    && (s.canceled ==> s.resultCh == [] && s.shut)
    && (s.waiter.Canceling? ==> s.shut)
  }

  lemma ProducerKeeps(s: State)
    requires Inv(s) && Enabled(s, Produce)
    ensures Inv(StepProducer(s))
  {
  }

  /** What is in the channel is all there is. */
  lemma OnlyInChannel(s: State)
    requires Inv(s) && s.resultCh != []
    ensures s.resultCh == [s.resultCh[0]] == s.made && s.resultCh[1..] == []
    ensures ProducerHolds(s.producer) == [] && WaiterHolds(s.waiter) == [] && s.recycled == []
  {
  }

  lemma TakingKeeps(s: State, result: bool)
    requires Inv(s) && Enabled(s, Wait(result)) && (s.waiter.Waiting? || s.waiter.Canceling?)
    ensures Inv(StepWaiter(s, result))
  {
    if s.resultCh != [] { OnlyInChannel(s); }
  }

  /** What the waiter holds is all there is. */
  lemma OnlyWithWaiter(s: State)
    requires Inv(s) && WaiterHolds(s.waiter) != []
    ensures WaiterHolds(s.waiter) == s.made && |s.made| == 1 && ProducerHolds(s.producer) == [] && s.resultCh == [] && s.recycled == []
  {
  }

  lemma RecyclingKeeps(s: State, result: bool)
    requires Inv(s) && (s.waiter.RecycleLate? || s.waiter.RecycleKept?)
    ensures Inv(StepWaiter(s, result))
  {
    var kept, late := s.waiter.kept, if s.waiter.RecycleLate? then s.waiter.late else None;
    if WaiterHolds(s.waiter) != [] {
      OnlyWithWaiter(s);
      assert WaiterHolds(s.waiter) == if late.Some? then [late.value] else [kept.value];
    }
  }

  lemma WaiterKeeps(s: State, result: bool)
    requires Inv(s) && Enabled(s, Wait(result))
    ensures Inv(StepWaiter(s, result))
  {
    match s.waiter
    case Received(_) =>
    case RecycleLate(_, _) => RecyclingKeeps(s, result);
    case RecycleKept(_) => RecyclingKeeps(s, result);
    case _ => TakingKeeps(s, result);
  }

  lemma StepKeeps(s: State, act: Action)
    requires Inv(s) && Enabled(s, act)
    ensures Inv(Apply(s, act))
  {
    match act
    case Make(item) => assert s.made == [];
    case Produce => ProducerKeeps(s);
    case Wait(result) => WaiterKeeps(s, result);
    case Shutdown =>
  }

  lemma {:induction false} RunKeepsInv(states: seq<State>, actions: seq<Action>, i: nat)
    requires IsRun(states, actions) && i < |states|
    ensures Inv(states[i])
  {
    if i != 0 {
      RunKeepsInv(states, actions, i - 1);
      StepKeeps(states[i - 1], actions[i - 1]);
    }
  }

  // ---------------------------------------------------------------------------------------
  // Theorems

  /** A result is always in exactly one place, and was recycled at most once. */
  lemma OneOwner(states: seq<State>, actions: seq<Action>, i: nat)
    requires IsRun(states, actions) && i < |states|
    ensures Places(states[i]) == states[i].made && |states[i].made| <= 1
  {
    RunKeepsInv(states, actions, i);
  }

  /**
   Once producer and waiter are done, the result is with the waiter's caller or recycled once, never
   both and never neither; nothing is left in the channel.
   */
  lemma GivenOrRecycled(states: seq<State>, actions: seq<Action>, i: nat)
    requires IsRun(states, actions) && i < |states|
    requires states[i].producer.Finished? && states[i].waiter.Returned?
    ensures exists item ::
              && states[i].made == [item]
              && states[i].resultCh == []
              && ((states[i].waiter.result == Some(item) && states[i].recycled == [])
                  || (states[i].waiter.result == None && states[i].recycled == [item]))
  {
    RunKeepsInv(states, actions, i);
    var s := states[i];
    assert s.made == [s.made[0]];
    if s.waiter.result == None {
      assert s.recycled == s.made;
    }
  }

  /**
   The producer never blocks and never needs its fallback: when it holds a result that has not been
   cancelled the channel has room. A waiter that gives up does so only at shutdown, and one that has
   given up leaves an empty channel, so that whatever the producer makes later it recycles itself.
   */
  lemma ProducerNeverBlocks(states: seq<State>, actions: seq<Action>, i: nat)
    requires IsRun(states, actions) && i < |states|
    ensures states[i].producer.Produced? ==> Enabled(states[i], Produce)
    ensures states[i].producer.Produced? && !states[i].canceled ==> |states[i].resultCh| < CAPACITY
    ensures states[i].waiter == Returned(None) ==> states[i].shut && states[i].canceled && states[i].resultCh == []
  {
    RunKeepsInv(states, actions, i);
  }

  // ---------------------------------------------------------------------------------------
  // The request object

  class Request {
    var channel: seq<Item>
    var isCanceled: bool

    ghost predicate Shows(s: State)
      reads this
    {
      channel == s.resultCh && isCanceled == s.canceled
    }

    constructor ()
      ensures Shows(Init)
    {
      channel, isCanceled := [], false;
    }

    /** The producer's section under the mutex; true when it has to recycle the result itself. */
    method Deliver(item: Item, ghost s: State) returns (recycle: bool)
      requires Shows(s) && s.producer == Produced(item)
      modifies this
      ensures Shows(StepProducer(s)) && StepProducer(s).producer == if recycle then Recycling(item) else Finished
    {
      if isCanceled { return true; }
      if |channel| == CAPACITY { return true; }
      channel := channel + [item];
      return false;
    }

    /** The section of cancel under the mutex, and the result it drained. */
    method Cancel(ghost s: State, ghost kept: Option<Item>) returns (late: Option<Item>)
      requires Shows(s) && s.waiter == Canceling(kept)
      modifies this
      ensures Shows(StepWaiter(s, false)) && StepWaiter(s, false).waiter == RecycleLate(kept, late)
    {
      isCanceled := true;
      if channel == [] { return None; }
      late := Some(channel[0]);
      channel := channel[1..];
    }
  }
}
