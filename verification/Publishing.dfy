/**
 Publishing: messages get new IDs, each subscription of the topic gets one fan-out, which runs once,
 and a fan-out adds to its queue exactly what the filter lets through and the queue has room for.
 */
module Publishing {
  import opened QueueModel
  import opened FilterSyntax
  import opened MessageLogs
  import opened BrokerModel
  import opened BrokerRuns
  import opened StoreRuns
  import opened DeadLetters
  import opened Sublists
  import QueueLaws
  import QueueRuns

  // ----- One fan-out for each subscription

  lemma {:induction false} FanOutsCount(subscriptions: map<string, Subscription>, names: seq<string>,
      ms: seq<Message>, f: FanOut)
    requires NoRepeats(names) && forall n :: n in names ==> n in subscriptions
    ensures FanOuts(subscriptions, names, ms)[f] ==
      if f.subscription in names && f.filter == subscriptions[f.subscription].filter && f.messages == ms then 1 else 0
  {
    if names != [] {
      var i := |names| - 1;
      FanOutsCount(subscriptions, names[..i], ms, f);
      assert names == names[..i] + [names[i]];
    }
  }

  lemma StampedAreNew(log: map<string, Message>, count: nat, ms: seq<Message>, now: int, topic: string, m: Message)
    requires Filed(log, count) && Stored(log, topic, m)
    ensures m !in Stamp(ms, count, now)
  {
    hide Filed, MessageID, Key;
    NewMessageIds(log, count, ms, now);
    assert Key(topic, m.id) in log;
  }

  /** Publishing adds one fan-out for each subscription of the topic, with all messages, and no other. */
  lemma PublishFansOut(b: Broker, a: Action, f: FanOut)
    requires Consistent(b) && Possible(b, a) && a.Published? && a.topic in b.topics
    ensures var stamped := Stamp(a.messages, b.messageCount, a.now);
      Step(b, a).fanOuts[f] == b.fanOuts[f] +
        if f.messages == stamped && f.subscription in Subscribers(b.subscriptions, a.topic)
          && f.filter == b.subscriptions[f.subscription].filter then 1 else 0
  {
    hide Consistent, Stamp, Logged, FanOuts, AllWithinLimits;
    FanOutsCount(b.subscriptions, a.names, Stamp(a.messages, b.messageCount, a.now), f);
  }

  /** The IDs it returns, in the order of the messages, are all different and have never been used. */
  lemma PublishAssignsIds(b: Broker, a: Action)
    requires Consistent(b) && Possible(b, a) && a.Published?
    ensures var r := Publish(b, a.topic, a.messages, a.now, a.names).1;
      && (r.Success? <==> a.topic in b.topics)
      && (r.Success? ==>
        && |r.value| == |a.messages|
        && (forall i, t :: 0 <= i < |r.value| ==> Key(t, r.value[i]) !in b.log)
        && (forall i, j :: 0 <= i < j < |r.value| ==> r.value[i] != r.value[j])
        && (forall i :: 0 <= i < |r.value| ==>
          Stored(Step(b, a).log, a.topic, a.messages[i].(id := r.value[i], publishTime := a.now))))
  {
    hide Sane, Filed, WellNamed, OnTheirWay, Sourced, Stored, Key, MessageID, FanOuts, AllWithinLimits, Grows;
    NewMessageIds(b.log, b.messageCount, a.messages, a.now);
    var topic, stamped := StepStores(b, a);
  }

  // ----- Each runs once

  function Times(done: seq<Action>, f: FanOut): nat {
    if done == [] then 0
    else
      var a := done[|done| - 1];
      Times(done[..|done| - 1], f) + (if a.FannedOut? && a.f == f then 1 else 0)
  }

  lemma StepRuns(b: Broker, a: Action, f: FanOut, topic: string)
    requires Consistent(b) && Possible(b, a) && f.messages != [] && Stored(b.log, topic, f.messages[0])
    ensures Step(b, a).fanOuts[f] == b.fanOuts[f] - (if a.FannedOut? && a.f == f then 1 else 0)
  {
    hide Sane, Filed, WellNamed, OnTheirWay, Sourced, Stored, Key, FanOuts, Stamp, Logged, AllWithinLimits, Backlog,
      Enqueue, Pull, Extend, Acknowledge, Relist, ReplaceAll, ForwardAll, Dead, Kept, Matching, NewPending, Copies,
      Listing, AllIds, Subscribers, Enumerates;
    if a.Published? {
      StampedAreNew(b.log, b.messageCount, a.messages, a.now, topic, f.messages[0]);
      if a.topic in b.topics {
        PublishFansOut(b, a, f);
      }
    }
  }

  /**
   A fan-out of published messages is pending until it has run, and it runs once for each time it was
   started. With `PublishFansOut`: it runs once, or it is still pending.
   */
  lemma {:induction false} FanOutRunsOnce(b: Broker, done: seq<Action>, f: FanOut, topic: string)
    requires Consistent(b) && Course(b, done) && f.messages != [] && Stored(b.log, topic, f.messages[0])
    ensures After(b, done).fanOuts[f] + Times(done, f) == b.fanOuts[f]
  {
    hide Consistent, Possible, Step, Stored, Grows;
    if done != [] {
      var i := |done| - 1;
      FanOutRunsOnce(b, done[..i], f, topic);
      ConsistentAlways(b, done[..i]);
      GrowsStored(b.log, After(b, done[..i]).log);
      StepRuns(After(b, done[..i]), done[i], f, topic);
    }
  }

  // ----- What it adds

  /** The messages that pass are those whose attributes satisfy the filter, in publish order. */
  lemma MatchingInOrder(ms: seq<Message>, filter: string) returns (at: seq<nat>)
    ensures Picks(ms, Matching(ms, filter), at)
    ensures forall j :: 0 <= j < |ms| ==> (j in at <==> Matches(filter, ms[j].attributes))
  {
    hide Matching, Matches, Picks;
    var outs := seq(|ms| + 1, i requires 0 <= i <= |ms| => Matching(ms[..i], filter));
    var takes := seq(|ms|, i requires 0 <= i < |ms| => Matches(filter, ms[i].attributes));
    MatchingNone(filter);
    assert ms[..0] == [] && ms[..|ms|] == ms;
    forall i | 0 <= i < |ms| ensures outs[i + 1] == outs[i] + if takes[i] then [ms[i]] else [] {
      MatchingStep(ms, filter, i);
    }
    at := TakenInOrder(ms, outs, takes);
  }

  lemma MatchingStep(ms: seq<Message>, filter: string, n: nat)
    requires n < |ms|
    ensures Matching(ms[..n + 1], filter) ==
      Matching(ms[..n], filter) + if Matches(filter, ms[n].attributes) then [ms[n]] else []
  {
    assert ms[..n + 1][..n] == ms[..n];
  }

  lemma MatchingNone(filter: string)
    ensures Matching([], filter) == []
  {
  }

  /**
   A fan-out adds new copies of the longest first part of the matching messages for which the channel
   has room; leases and all other queues stay as they are.
   */
  lemma FanOutIsExact(b: Broker, a: Action) returns (k: nat)
    requires Sane(b) && Possible(b, a) && a.FannedOut? && a.f.subscription in b.queues
    ensures var n, ms, b' := a.f.subscription, Matching(a.f.messages, a.f.filter), Step(b, a);
      && n in b'.queues && k <= |ms|
      && var q, q' := b.queues[n], b'.queues[n];
      && MessagesOf(q'.channel) == MessagesOf(q.channel) + ms[..k]
      && q.channel <= q'.channel && (forall i :: |q.channel| <= i < |q'.channel| ==> IsNew(q'.channel[i]))
      && |q'.channel| <= q'.capacity == q.capacity && (k == |ms| || |q'.channel| == q.capacity)
      && q'.inFlight == q.inFlight
      && forall m :: m != n && m in b.queues ==> m in b'.queues && b'.queues[m] == b.queues[m]
  {
    hide Matching, FreshIds, WithinLimits, QueueLaws.Distinct, QueueLaws.Live, QueueLaws.Leased, IdsIn;
    var n, ms := a.f.subscription, Matching(a.f.messages, a.f.filter);
    var q := b.queues[n];
    assert QueueRuns.Inv(QueueRuns.State(q, b.issued));
    MatchingWithinLimits(a.f.messages, a.f.filter);
    k := q.Room(|ms|);
    var copies := NewPending(ms, a.ids);
    var q' := Step(b, a).queues[n];
    assert q'.channel == q.channel + copies[..k];
    forall i | |q.channel| <= i < |q'.channel| ensures IsNew(q'.channel[i]) {
      assert q'.channel[i] == copies[i - |q.channel|] && WithinLimits(ms[i - |q.channel|]);
    }
  }
}
