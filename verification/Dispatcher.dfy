/**
 The dispatcher of a subscription: it pushes each batch of leased messages to one of the registered
 consumers, in turn, and passes over those whose channel is full.

 `run` reacts to ticks and notifications; here any of these is a call of `Deliver`. The two parts of
 it that hold the lock, and the Pull between them, are steps of their own: `IsIdle`, the Pull, and
 `Offer`; so consumers may come and go in between.
 */
module Dispatchers {
  import opened Text
  import opened QueueModel
  import opened BrokerModel
  import opened Usecases
  import QueueLaws

  // ----- Whose turn it is

  /** From position `next`, the first of the consumers that is not full, and the position after the search. */
  function Turn(full: seq<bool>, next: nat, tries: nat): (Option<nat>, nat)
    requires full != []
    decreases tries
  {
    if tries == 0 then (None, next)
    else if !full[next % |full|] then (Some(next % |full|), next + 1)
    else Turn(full, next + 1, tries - 1)
  }

  /** The batch goes to the first consumer with room in cyclic order. */
  lemma {:induction false} TurnIsFirst(full: seq<bool>, next: nat, tries: nat)
    requires full != []
    ensures var (to, next') := Turn(full, next, tries);
      && next <= next' <= next + tries
      && (to.None? ==> next' == next + tries && forall i :: next <= i < next + tries ==> full[i % |full|])
      && (to.Some? ==> next < next' && to.value == (next' - 1) % |full| && !full[to.value])
      && (to.Some? ==> forall i :: next <= i < next' - 1 ==> full[i % |full|])
    decreases tries
  {
    if tries > 0 && full[next % |full|] {
      TurnIsFirst(full, next + 1, tries - 1);
    }
  }

  // ----- Remainders

  lemma TimesAtLeast(d: nat, n: nat)
    requires d >= 1
    ensures d * n >= n
  {
    assert d * n == (d - 1) * n + n;
  }

  lemma RemainderIs(x: nat, q: nat, r: nat, n: nat)
    requires r < n && x == q * n + r
    ensures x % n == r && x / n == q
  {
    var d := x / n - q;
    assert x / n * n == q * n + d * n;
    if d >= 1 {
      TimesAtLeast(d, n);
    } else if d <= -1 {
      TimesAtLeast(-d, n);
    }
  }

  /** Stepping on by one moves to the next consumer, and from the last to the first. */
  lemma NextPosition(x: nat, n: nat)
    requires n > 0
    ensures (x + 1) % n == (if x % n == n - 1 then 0 else x % n + 1)
    ensures (x + 1) / n == (if x % n == n - 1 then x / n + 1 else x / n)
  {
    var q, r := x / n, x % n;
    assert x + 1 == q * n + (r + 1);
    if r == n - 1 {
      assert (q + 1) * n == q * n + n;
      RemainderIs(x + 1, q + 1, 0, n);
    } else {
      RemainderIs(x + 1, q, r + 1, n);
    }
  }

  /** How many consumers come before `c` from position `next` on. */
  function Distance(next: nat, c: nat, n: nat): (d: nat)
    requires c < n
    ensures d < n
  {
    if c >= next % n then c - next % n else c + n - next % n
  }

  lemma DistanceStep(next: nat, c: nat, n: nat)
    requires c < n
    ensures Distance(next, c, n) == 0 <==> next % n == c
    ensures Distance(next + 1, c, n) == if Distance(next, c, n) == 0 then n - 1 else Distance(next, c, n) - 1
  {
    NextPosition(next, n);
  }

  lemma {:induction false} DistanceFall(next: nat, k: nat, c: nat, n: nat)
    requires c < n && k <= Distance(next, c, n)
    ensures Distance(next + k, c, n) == Distance(next, c, n) - k
    decreases k
  {
    if k > 0 {
      DistanceFall(next, k - 1, c, n);
      DistanceStep(next + k - 1, c, n);
    }
  }

  /** Every consumer is tried: nobody gets the batch only if all are full. */
  lemma NobodyOnlyIfAllFull(full: seq<bool>, next: nat)
    requires full != []
    ensures Turn(full, next, |full|).0.None? <==> forall c :: 0 <= c < |full| ==> full[c]
  {
    var n := |full|;
    TurnIsFirst(full, next, n);
    if Turn(full, next, n).0.None? {
      forall c | 0 <= c < n ensures full[c] {
        var d := Distance(next, c, n);
        DistanceFall(next, d, c, n);
        DistanceStep(next + d, c, n);
        assert full[(next + d) % n];
      }
    }
  }

  /**
   The batch goes to the first consumer in cyclic order whose channel holds fewer batches than it can,
   and the position moves behind it; nobody gets it exactly when all channels hold what they can.
   */
  ghost predicate FirstWithRoom(channels: seq<seq<seq<Pending>>>, capacities: seq<nat>, next: nat, to: Option<nat>,
      next': nat)
    requires |channels| == |capacities| > 0
  {
    var n := |channels|;
    && (to.None? <==> forall i :: 0 <= i < n ==> |channels[i]| == capacities[i])
    && (to.None? ==> next' == next + n)
    && (to.Some? ==>
      && next < next' <= next + n && to.value == (next' - 1) % n && |channels[to.value]| < capacities[to.value]
      && forall i :: next <= i < next' - 1 ==> |channels[i % n]| == capacities[i % n])
  }

  lemma TurnHasRoom(full: seq<bool>, channels: seq<seq<seq<Pending>>>, capacities: seq<nat>, next: nat)
    requires |full| == |channels| == |capacities| > 0
    requires forall i :: 0 <= i < |full| ==>
      |channels[i]| <= capacities[i] && (full[i] <==> |channels[i]| >= capacities[i])
    ensures FirstWithRoom(channels, capacities, next, Turn(full, next, |full|).0, Turn(full, next, |full|).1)
  {
    hide Turn;
    TurnIsFirst(full, next, |full|);
    NobodyOnlyIfAllFull(full, next);
  }

  // ----- Fairness

  /** Which consumer each of some successive batches goes to; `fulls` says who is full at each of them. */
  function Turns(fulls: seq<seq<bool>>, next: nat, n: nat): (seq<Option<nat>>, nat)
    requires n > 0 && forall t :: 0 <= t < |fulls| ==> |fulls[t]| == n
  {
    if fulls == [] then ([], next)
    else
      var (before, next') := Turns(fulls[..|fulls| - 1], next, n);
      var (to, next'') := Turn(fulls[|fulls| - 1], next', n);
      (before + [to], next'')
  }

  function Received(tos: seq<Option<nat>>, c: nat): nat {
    if tos == [] then 0
    else Received(tos[..|tos| - 1], c) + (if tos[|tos| - 1] == Some(c) then 1 else 0)
  }

  ghost predicate NeverFull(fulls: seq<seq<bool>>, n: nat, c: nat) {
    c < n && forall t :: 0 <= t < |fulls| ==> |fulls[t]| == n && !fulls[t][c]
  }

  /** A consumer with room is not passed over: either it gets the batch, or it comes closer to its turn. */
  lemma NotPassedOver(full: seq<bool>, next: nat, c: nat)
    requires c < |full| && !full[c]
    ensures var (to, next') := Turn(full, next, |full|);
      var d := Distance(next, c, |full|);
      to.Some? && (if to.value == c then next' == next + d + 1 else Distance(next', c, |full|) < d)
  {
    var n := |full|;
    var (to, next') := Turn(full, next, n);
    var d := Distance(next, c, n);
    TurnIsFirst(full, next, n);
    DistanceFall(next, d, c, n);
    DistanceStep(next + d, c, n);
    assert !full[(next + d) % n];
    if to.None? || next + d < next' - 1 {
      assert false;
    }
    DistanceFall(next, next' - 1 - next, c, n);
    DistanceStep(next' - 1, c, n);
  }

  /**
   No consumer starves: one that has room whenever a batch is delivered gets at least one of any n
   successive batches, however full the others are.
   */
  lemma {:induction false} NoStarvation(fulls: seq<seq<bool>>, next: nat, n: nat, c: nat)
    requires NeverFull(fulls, n, c)
    ensures var (tos, next') := Turns(fulls, next, n);
      && |tos| == |fulls|
      && (Received(tos, c) == 0 ==> Distance(next', c, n) + |fulls| <= Distance(next, c, n))
    ensures |fulls| >= n ==> Received(Turns(fulls, next, n).0, c) >= 1
  {
    hide Distance, Turn;
    if fulls != [] {
      var k := |fulls| - 1;
      var before, next1 := Turns(fulls[..k], next, n).0, Turns(fulls[..k], next, n).1;
      NoStarvation(fulls[..k], next, n, c);
      NotPassedOver(fulls[k], next1, c);
      ReceivedStep(before, Turn(fulls[k], next1, n).0, c);
    }
  }

  lemma ReceivedStep(tos: seq<Option<nat>>, to: Option<nat>, c: nat)
    ensures Received(tos + [to], c) == Received(tos, c) + (if to == Some(c) then 1 else 0)
  {
    assert (tos + [to])[..|tos|] == tos;
  }

  ghost predicate AllHaveRoom(fulls: seq<seq<bool>>, n: nat) {
    n > 0 && forall t :: 0 <= t < |fulls| ==> |fulls[t]| == n && forall c :: 0 <= c < n ==> !fulls[t][c]
  }

  /** The arithmetic of one more batch. */
  lemma RoundRobinStep(next: nat, k: nat, n: nat, c: nat)
    requires c < n
    requires Distance(next + k, c, n) == Wrapped(Distance(next, c, n), k % n, n)
    ensures Distance(next + k + 1, c, n) == Wrapped(Distance(next, c, n), (k + 1) % n, n)
    ensures Share(next, k + 1, n, c) == Share(next, k, n, c) + (if (next + k) % n == c then 1 else 0)
  {
    hide Distance;
    NextPosition(k, n);
    DistanceStep(next + k, c, n);
  }

  function Wrapped(d: nat, r: nat, n: nat): int {
    if d >= r then d - r else d + n - r
  }

  /** What a consumer gets of `k` batches: an equal part, and one more if it is among the first. */
  function Share(next: nat, k: nat, n: nat, c: nat): nat
    requires c < n
  {
    k / n + (if Distance(next, c, n) < k % n then 1 else 0)
  }

  /**
   Round-robin: while all consumers have room, k batches from position `next` on go to each consumer
   k / n times, and once more to the first k % n of them.
   */
  lemma {:induction false} RoundRobin(fulls: seq<seq<bool>>, next: nat, n: nat, c: nat)
    requires AllHaveRoom(fulls, n) && c < n
    ensures var (tos, next') := Turns(fulls, next, n);
      var k := |fulls|;
      && next' == next + k
      && Received(tos, c) == Share(next, k, n, c)
      && Distance(next', c, n) == Wrapped(Distance(next, c, n), k % n, n)
  {
    hide Distance, Share, Wrapped, Turn;
    if fulls == [] {
      RoundRobinStart(next, n, c);
    } else {
      var k := |fulls| - 1;
      var before := Turns(fulls[..k], next, n).0;
      RoundRobin(fulls[..k], next, n, c);
      TurnWithRoom(fulls[k], next + k, n);
      ReceivedStep(before, Some((next + k) % n), c);
      RoundRobinStep(next, k, n, c);
    }
  }

  lemma RoundRobinStart(next: nat, n: nat, c: nat)
    requires c < n
    ensures Share(next, 0, n, c) == 0 && Distance(next, c, n) == Wrapped(Distance(next, c, n), 0 % n, n)
  {
    hide Distance;
    RemainderIs(0, 0, 0, n);
  }

  /** Among consumers with room the first one asked takes the batch. */
  lemma TurnWithRoom(full: seq<bool>, next: nat, n: nat)
    requires |full| == n > 0 && forall c :: 0 <= c < n ==> !full[c]
    ensures Turn(full, next, n) == (Some(next % n), next + 1)
  {
  }

  /** So no two consumers are more than one batch apart. */
  lemma FairShares(fulls: seq<seq<bool>>, next: nat, n: nat, c: nat, d: nat)
    requires AllHaveRoom(fulls, n) && c < n && d < n
    ensures var tos := Turns(fulls, next, n).0; Received(tos, c) <= Received(tos, d) + 1
  {
    RoundRobin(fulls, next, n, c);
    RoundRobin(fulls, next, n, d);
  }

  // ----- The dispatcher itself

  /** The channel to one streaming consumer, with the batches that it has not received yet. */
  class Consumer {
    const capacity: nat
    var batches: seq<seq<Pending>>
    var closed: bool

    constructor (capacity: nat)
      ensures Valid() && this.capacity == capacity && batches == [] && !closed
    {
      this.capacity := capacity;
      batches, closed := [], false;
    }

    /** The channel never holds more than it can. */
    ghost predicate Valid()
      reads this
    {
      |batches| <= capacity
    }

    predicate IsFull()
      reads this
    {
      |batches| >= capacity
    }
  }

  /** A list without the first occurrence of an element. */
  function Without(cs: seq<Consumer>, c: Consumer): seq<Consumer> {
    if cs == [] then [] else if cs[0] == c then cs[1..] else [cs[0]] + Without(cs[1..], c)
  }

  lemma {:induction false} WithoutAt(cs: seq<Consumer>, c: Consumer, i: nat)
    requires i < |cs| && cs[i] == c && c !in cs[..i]
    ensures Without(cs, c) == cs[..i] + cs[i + 1..]
  {
    if i > 0 {
      assert cs[0] == cs[..i][0] && cs[1..][..i - 1] == cs[..i][1..];
      WithoutAt(cs[1..], c, i - 1);
    }
  }

  lemma {:induction false} WithoutAbsent(cs: seq<Consumer>, c: Consumer)
    requires c !in cs
    ensures Without(cs, c) == cs
  {
    if cs != [] {
      WithoutAbsent(cs[1..], c);
    }
  }

  /** Deregistering a consumer undoes its registration. */
  lemma DeregisterUndoesRegister(cs: seq<Consumer>, c: Consumer)
    requires c !in cs
    ensures Without(cs + [c], c) == cs
  {
    assert (cs + [c])[..|cs|] == cs;
    WithoutAt(cs + [c], c, |cs|);
  }

  /** The batch added to the channel of this consumer, and nothing else to any. */
  function Handed(channels: seq<seq<seq<Pending>>>, to: Option<nat>, batch: seq<Pending>): (r: seq<seq<seq<Pending>>>)
    ensures |r| == |channels|
    ensures forall i :: 0 <= i < |channels| ==> r[i] == if to == Some(i) then channels[i] + [batch] else channels[i]
  {
    seq(|channels|, i requires 0 <= i < |channels| => if to == Some(i) then channels[i] + [batch] else channels[i])
  }

  class Dispatcher {
    var nextIdx: nat
    var consumers: seq<Consumer>
    var triggered: bool

    constructor ()
      ensures Valid() && consumers == [] && nextIdx == 0 && !triggered
    {
      nextIdx, consumers, triggered := 0, [], false;
    }

    /**
     No consumer is registered twice, and none is closed: nothing is ever sent to a closed channel. None
     holds more than its channel can.
     */
    ghost predicate Valid()
      reads this, consumers
    {
      && (forall i, j :: 0 <= i < j < |consumers| ==> consumers[i] != consumers[j])
      && (forall c :: c in consumers ==> !c.closed && c.Valid())
    }

    ghost function Full(): (r: seq<bool>)
      reads this, consumers
      ensures |r| == |consumers| && forall i :: 0 <= i < |consumers| ==> r[i] == consumers[i].IsFull()
    {
      seq(|consumers|, i requires 0 <= i < |consumers| reads this, consumers => consumers[i].IsFull())
    }

    method Register(c: Consumer)
      requires Valid() && c !in consumers && !c.closed && c.Valid()
      modifies this`consumers, this`triggered
      ensures Valid() && consumers == old(consumers) + [c] && triggered
    {
      consumers := consumers + [c];
      triggered := true;
    }

    /** A new streaming consumer: its channel has room for sixteen batches. */
    method StreamMessages() returns (c: Consumer)
      requires Valid()
      modifies this`consumers, this`triggered
      ensures Valid() && fresh(c) && consumers == old(consumers) + [c] && triggered
      ensures c.capacity == 16 && c.batches == []
    {
      c := new Consumer(16);
      Register(c);
    }

    /** What the function returned by `register` does. */
    method Deregister(c: Consumer)
      requires Valid()
      modifies this`consumers
      ensures Valid() && consumers == Without(old(consumers), c) && c !in consumers
    {
      for i := 0 to |consumers|
        invariant consumers == old(consumers) && c !in consumers[..i]
      {
        if consumers[i] == c {
          WithoutAt(consumers, c, i);
          consumers := consumers[..i] + consumers[i + 1..];
          return;
        }
      }
      assert consumers[..|consumers|] == consumers;
      WithoutAbsent(consumers, c);
    }

    /** The subscription is deleted: all consumers are closed and forgotten. */
    method Stop()
      requires Valid()
      modifies this`consumers, consumers
      ensures Valid() && consumers == []
      ensures forall c :: c in old(consumers) ==> c.closed && c.batches == old(c.batches)
    {
      for i := 0 to |consumers|
        invariant consumers == old(consumers)
        invariant forall j :: 0 <= j < i ==> consumers[j].closed
        invariant forall c :: c in consumers ==> c.batches == old(c.batches)
      {
        consumers[i].closed := true;
      }
      consumers := [];
    }

    predicate IsIdle()
      reads this
    {
      |consumers| == 0
    }

    /** What is in the consumers' channels. */
    ghost function Batches(): (r: seq<seq<seq<Pending>>>)
      reads this, consumers
    {
      seq(|consumers|, i requires 0 <= i < |consumers| reads this, consumers => consumers[i].batches)
    }

    ghost function Capacities(): (r: seq<nat>)
      reads this
      ensures |r| == |consumers| && forall i :: 0 <= i < |consumers| ==> r[i] == consumers[i].capacity
    {
      seq(|consumers|, i requires 0 <= i < |consumers| reads this => consumers[i].capacity)
    }

    lemma FullMeans()
      requires Valid()
      ensures |Full()| == |Batches()| == |Capacities()| == |consumers|
      ensures forall i :: 0 <= i < |consumers| ==>
        |Batches()[i]| <= Capacities()[i] && (Full()[i] <==> |Batches()[i]| >= Capacities()[i])
    {
      forall i | 0 <= i < |consumers|
        ensures |Batches()[i]| <= Capacities()[i] && (Full()[i] <==> |Batches()[i]| >= Capacities()[i])
      {
        assert consumers[i].Valid() && Batches()[i] == consumers[i].batches;
      }
    }

    /** Asks each consumer once, in turn, and moves on. */
    method NextWithRoom() returns (to: Option<nat>)
      requires consumers != []
      modifies this`nextIdx
      ensures (to, nextIdx) == Turn(old(Full()), old(nextIdx), |consumers|)
      ensures to.Some? ==> to.value < |consumers| && |consumers[to.value].batches| < consumers[to.value].capacity
    {
      ghost var full := Full();
      for i := 0 to |consumers|
        invariant Turn(full, nextIdx, |consumers| - i) == Turn(full, old(nextIdx), |consumers|)
      {
        var idx := nextIdx % |consumers|;
        nextIdx := nextIdx + 1;
        if !consumers[idx].IsFull() {
          return Some(idx);
        }
      }
      to := None;
    }

    /** Sends the batch to the consumer whose turn it is, or to nobody. */
    method Offer(batch: seq<Pending>) returns (ghost to: Option<nat>)
      requires Valid()
      modifies this`nextIdx, consumers
      ensures Valid()
      ensures if consumers == [] then to == None && nextIdx == old(nextIdx)
              else (to, nextIdx) == Turn(old(Full()), old(nextIdx), |consumers|)
      ensures consumers == old(consumers) && Batches() == Handed(old(Batches()), to, batch)
      ensures consumers != [] ==> FirstWithRoom(old(Batches()), old(Capacities()), old(nextIdx), to, nextIdx)
    {
      hide Turn, FirstWithRoom;
      to := None;
      ghost var full, channels, capacities := Full(), Batches(), Capacities();
      FullMeans();
      if IsIdle() {
        return;
      }
      TurnHasRoom(full, channels, capacities, nextIdx);
      var idx := NextWithRoom();
      if idx.Some? {
        consumers[idx.value].batches := consumers[idx.value].batches + [batch];
      }
      to := idx;
    }

    /** Leases what there is; if that is something, sends it to one consumer. */
    method PullAndOffer(broker: BrokerService, name: string, now: int)
      returns (result: Result<seq<Pending>>, ghost order: seq<string>, ghost to: Option<nat>)
      requires Valid() && broker.Valid() && consumers != []
      requires this !in broker.Footprint() && forall c :: c in consumers ==> c !in broker.Footprint()
      modifies this`nextIdx, consumers, broker.pending.Footprint()
      ensures Valid() && broker.Valid()
      ensures name in broker.subscriptions && name in old(broker.View()).queues ==>
        Enumerates(order, old(broker.View()).queues[name].inFlight.Keys)
      ensures (broker.View(), result) == PullFrom(old(broker.View()), name, 1000, now, order)
      ensures if result == Success([]) || result.Failure? then to == None && nextIdx == old(nextIdx)
              else (to, nextIdx) == Turn(old(Full()), old(nextIdx), |consumers|)
      ensures Batches() == Handed(old(Batches()), to, if result.Success? then result.value else [])
      ensures result.Success? && result.value != [] ==>
        FirstWithRoom(old(Batches()), old(Capacities()), old(nextIdx), to, nextIdx)
    {
      hide PullFrom, BrokerService.Valid, BrokerService.View, Turn, Valid, Full, Batches, Enumerates, FirstWithRoom;
      to := None;
      result, order := broker.Pull(name, 1000, now);
      assert Full() == old(Full()) && Batches() == old(Batches());
      if result.Failure? || result.value == [] {
        return;
      }
      label pulled:
      to := Offer(result.value);
      BrokerUntouched@pulled(broker);
    }

    /**
     Without consumers nothing is leased. If the Pull fails or finds nothing, nobody is offered
     anything; if all are full the batch stays leased.
     */
    method Deliver(broker: BrokerService, name: string, now: int)
      returns (ghost order: seq<string>, ghost to: Option<nat>)
      requires Valid() && broker.Valid()
      requires this !in broker.Footprint() && forall c :: c in consumers ==> c !in broker.Footprint()
      modifies this`nextIdx, consumers, broker.pending.Footprint()
      ensures Valid() && broker.Valid()
      ensures consumers == [] ==> broker.View() == old(broker.View()) && to == None && nextIdx == old(nextIdx)
      ensures consumers != [] && name in broker.subscriptions && name in old(broker.View()).queues ==>
        Enumerates(order, old(broker.View()).queues[name].inFlight.Keys)
      ensures consumers != [] ==>
        var (b, r) := PullFrom(old(broker.View()), name, 1000, now, order);
        && broker.View() == b
        && (if r == Success([]) || r.Failure? then to == None && nextIdx == old(nextIdx)
            else (to, nextIdx) == Turn(old(Full()), old(nextIdx), |consumers|))
        && Batches() == Handed(old(Batches()), to, if r.Success? then r.value else [])
        && (r.Success? && r.value != [] ==>
          FirstWithRoom(old(Batches()), old(Capacities()), old(nextIdx), to, nextIdx))
    {
      hide PullFrom, BrokerService.Valid, BrokerService.View, Turn, Enumerates, FirstWithRoom;
      order, to := [], None;
      if !IsIdle() {
        var batch;
        batch, order, to := PullAndOffer(broker, name, now);
      }
    }
  }

  /** Whoever gets a batch, or nobody: its messages are leased. */
  lemma BatchIsLeased(b: Broker, name: string, max: int, now: int, order: seq<string>)
    requires name in b.subscriptions && name in b.queues && QueueLaws.WellFormed(b.queues[name])
    requires Enumerates(order, b.queues[name].inFlight.Keys) && now + b.subscriptions[name].ackDeadline != NO_DEADLINE
    ensures var (b', r) := PullFrom(b, name, max, now, order);
      r.Success? && name in b'.queues && QueueLaws.Holds(b'.queues[name].inFlight, r.value)
  {
    hide QueueLaws.IdSet, QueueLaws.Distinct, QueueLaws.Holds, Requeue, LeaseFrom, QueueLaws.Back, QueueLaws.Live;
    var sub := b.subscriptions[name];
    QueueLaws.RequeueKeeps(b.queues[name], now, order);
    QueueLaws.LeaseKeeps(Requeue(b.queues[name], now, order), max, now + sub.ackDeadline, sub.ordered);
  }
}
