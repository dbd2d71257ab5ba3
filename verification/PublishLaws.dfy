/**
 What publishing, fan-outs and the hand-off of dead letters do, said of the broker before and after.
 */
module PublishLaws {
  import opened Text
  import opened QueueModel
  import opened QueueLaws
  import opened FilterSyntax
  import opened MessageLogs
  import opened BrokerModel
  import opened BrokerRuns
  import opened StoreRuns
  import opened DeadLetters
  import opened Publishing
  import opened Sublists
  import opened SeekLaws
  import QueueRuns

  // ----- Topics and subscriptions

  /** A topic is created unless there is one of that name; nothing else changes. */
  lemma CreateTopicMeans(b: Broker, topic: string)
    ensures var (b', r) := CreateTopic(b, topic);
      && r == (if topic in b.topics then Failure(AlreadyExists) else Success(()))
      && (forall t :: t in b'.topics <==> t in b.topics || t == topic)
      && b' == b.(topics := b'.topics)
  {
    if topic in b.topics {
      assert b.topics + {topic} == b.topics;
    }
  }

  /**
   A subscription is created if its topic exists and its name is free. Nothing waits in it or is leased, and
   it has room for as many messages as the service is configured for.
   */
  lemma CreateSubscriptionMeans(b: Broker, n: string, sub: Subscription, queueSize: nat)
    ensures var (b', r) := CreateSubscription(b, n, sub, queueSize);
      if sub.topic !in b.topics then b' == b && r == Failure(NotFound)
      else if n in b.subscriptions then b' == b && r == Failure(AlreadyExists)
      else
        && r == Success(()) && n in b'.subscriptions && b'.subscriptions[n] == sub && n in b'.queues
        && b'.queues[n].channel == [] && b'.queues[n].inFlight == map[] && b'.queues[n].capacity == queueSize
        && (forall m :: m != n ==> (m in b'.subscriptions <==> m in b.subscriptions))
        && (forall m :: m != n ==> (m in b'.queues <==> m in b.queues))
        && (forall m :: m != n && m in b.subscriptions ==> b'.subscriptions[m] == b.subscriptions[m])
        && (forall m :: m != n && m in b.queues ==> b'.queues[m] == b.queues[m])
        && b'.log == b.log && b'.topics == b.topics && b'.snapshots == b.snapshots && b'.fanOuts == b.fanOuts
        && b'.messageCount == b.messageCount && b'.issued == b.issued
  {
  }

  // ----- Publish

  /** The ID of the n-th message: "msg-" and the number, without leading zeros. */
  predicate IsNthId(id: string, n: nat) {
    |id| > 4 && id[..4] == "msg-" && IsNumeral(id[4..]) && ValueOf(id[4..]) == n && id[4] != '0'
  }

  /** The message as it is published, under its ID and with the current time. */
  predicate IsSent(ms: seq<Message>, ids: seq<string>, now: int, m: Message)
    requires |ids| == |ms|
  {
    exists i :: 0 <= i < |ms| && m == ms[i].(id := ids[i], publishTime := now)
  }

  predicate AreSent(ms: seq<Message>, ids: seq<string>, now: int, sent: seq<Message>)
    requires |ids| == |ms|
  {
    |sent| == |ms| && forall i :: 0 <= i < |ms| ==> sent[i] == ms[i].(id := ids[i], publishTime := now)
  }

  /** One fan-out starts for each subscription of the topic, with its filter and all messages. */
  function Started(b: Broker, f: FanOut, topic: string, ms: seq<Message>, ids: seq<string>, now: int): nat
    requires |ids| == |ms|
  {
    if
      && f.subscription in b.subscriptions && b.subscriptions[f.subscription].topic == topic
      && b.subscriptions[f.subscription].filter == f.filter && AreSent(ms, ids, now, f.messages)
    then 1
    else 0
  }

  /**
   Publish fails if the topic does not exist. Otherwise each message gets the next ID and the current time, is
   stored under the topic, and goes to each subscription of the topic and to no other.
   */
  ghost predicate Publishes(b: Broker, b': Broker, topic: string, ms: seq<Message>, now: int, r: Result<seq<string>>) {
    if topic !in b.topics then b' == b && r == Failure(NotFound)
    else
      && r.Success? && |r.value| == |ms| && b'.messageCount == b.messageCount + |ms|
      && (forall i :: 0 <= i < |ms| ==> IsNthId(r.value[i], b.messageCount + i + 1))
      && (forall k :: k in b.log ==> k in b'.log && b'.log[k] == b.log[k])
      && (forall t, m :: InLog(b'.log, t, m) <==> InLog(b.log, t, m) || (t == topic && IsSent(ms, r.value, now, m)))
      && (forall f :: b'.fanOuts[f] == b.fanOuts[f] + Started(b, f, topic, ms, r.value, now))
      && b'.topics == b.topics && b'.subscriptions == b.subscriptions && b'.queues == b.queues
      && b'.snapshots == b.snapshots && b'.issued == b.issued
  }

  lemma StampedAre(ms: seq<Message>, count: nat, now: int)
    ensures var sent := Stamp(ms, count, now);
      var ids := IdsOf(sent);
      && |ids| == |ms| && (forall i :: 0 <= i < |ms| ==> IsNthId(ids[i], count + i + 1))
      && (forall m :: m in sent <==> IsSent(ms, ids, now, m))
      && (forall other :: AreSent(ms, ids, now, other) <==> other == sent)
  {
    hide MessageID;
    var sent := Stamp(ms, count, now);
    var ids := IdsOf(sent);
    forall i | 0 <= i < |ms| ensures IsNthId(ids[i], count + i + 1) {
      MessageIDIs(count + i + 1);
    }
    forall m ensures m in sent <==> IsSent(ms, ids, now, m) {
      if i :| 0 <= i < |ms| && m == ms[i].(id := ids[i], publishTime := now) {
        assert sent[i] == m;
      }
    }
  }

  lemma PublishMeans(b: Broker, topic: string, ms: seq<Message>, now: int, names: seq<string>)
    requires Consistent(b) && Possible(b, Published(topic, ms, now, names))
    ensures Publishes(b, Publish(b, topic, ms, now, names).0, topic, ms, now, Publish(b, topic, ms, now, names).1)
  {
    hide Sane, Filed, WellNamed, OnTheirWay, Sourced, Stored, MessageID, Key, FanOuts, Stamp, Logged, AllWithinLimits,
      IsSent, AreSent, IsNthId, InLog, Enumerates, NoRepeats, Slashes;
    var a := Published(topic, ms, now, names);
    if topic in b.topics {
      var sent := Stamp(ms, b.messageCount, now);
      StampedAre(ms, b.messageCount, now);
      PublishStores(b, a);
      forall t, m
        ensures InLog(Step(b, a).log, t, m) <==> Stored(Step(b, a).log, t, m)
        ensures InLog(b.log, t, m) <==> Stored(b.log, t, m)
      {
        InLogIs(Step(b, a).log, t, m);
        InLogIs(b.log, t, m);
      }
      forall f ensures Step(b, a).fanOuts[f] == b.fanOuts[f] + Started(b, f, topic, ms, IdsOf(sent), now) {
        PublishFansOut(b, a, f);
      }
    }
  }

  // ----- Fan-out

  predicate IsNewCopy(p: Pending, m: Message, issued: set<string>) {
    p.message == m && p.deadline == 0 && p.attempt == 0 && p.ackID !in issued
  }

  /** The positions of the messages that the filter lets through. */
  ghost predicate Passing(f: FanOut, at: seq<nat>) {
    && Increasing(at, |f.messages|)
    && forall j :: 0 <= j < |f.messages| ==> (j in at <==> Matches(f.filter, f.messages[j].attributes))
  }

  /** New copies of the first ones of these messages are at the end of the channel: all of them, or it is full. */
  ghost predicate Appended(q: Queue, q': Queue, ms: seq<Message>, at: seq<nat>, issued: set<string>) {
    && q'.inFlight == q.inFlight && q'.capacity == q.capacity && q.channel <= q'.channel
    && |q'.channel| <= |q.channel| + |at| && (|q'.channel| == |q.channel| + |at| || |q'.channel| == q.capacity)
    && forall i :: |q.channel| <= i < |q'.channel| ==>
      at[i - |q.channel|] < |ms| && IsNewCopy(q'.channel[i], ms[at[i - |q.channel|]], issued)
  }

  /** A fan-out brings the subscription what its filter lets through, in the order of publishing. */
  lemma FanOutMeans(b: Broker, f: FanOut, ids: seq<string>) returns (at: seq<nat>)
    requires Sane(b) && Possible(b, FannedOut(f, ids)) && f.subscription in b.queues
    ensures Passing(f, at)
    ensures var b' := Deliver(b, f, ids);
      && f.subscription in b'.queues
      && Appended(b.queues[f.subscription], b'.queues[f.subscription], f.messages, at, b.issued)
      && (forall m :: m in b'.queues <==> m in b.queues)
      && (forall m :: m in b.queues && m != f.subscription ==> b'.queues[m] == b.queues[m])
      && b'.fanOuts == b.fanOuts - multiset{f} && b'.log == b.log && b'.subscriptions == b.subscriptions
      && b'.snapshots == b.snapshots && b'.topics == b.topics && b'.messageCount == b.messageCount
  {
    hide Matching, Matches, FreshIds, WithinLimits, Distinct, Live, Leased, IdsIn, Waiting, IdSet, AllWithinLimits;
    at := MatchingInOrder(f.messages, f.filter);
    var q, ms := b.queues[f.subscription], Matching(f.messages, f.filter);
    assert QueueRuns.Inv(QueueRuns.State(q, b.issued));
    CopiesAppended(q, ms, ids, b.issued);
    var q' := Deliver(b, f, ids).queues[f.subscription];
    forall i | |q.channel| <= i < |q'.channel|
      ensures at[i - |q.channel|] < |f.messages| && IsNewCopy(q'.channel[i], f.messages[at[i - |q.channel|]], b.issued)
    {
      assert ms[i - |q.channel|] == f.messages[at[i - |q.channel|]];
    }
  }

  lemma CopiesAppended(q: Queue, ms: seq<Message>, ids: seq<string>, issued: set<string>)
    requires |q.channel| <= q.capacity && |ids| == |ms| && FreshIds(ids, issued)
    ensures var q' := Enqueue(q, NewPending(ms, ids)).0;
      && q'.inFlight == q.inFlight && q'.capacity == q.capacity && q.channel <= q'.channel
      && |q'.channel| <= |q.channel| + |ms| && (|q'.channel| == |q.channel| + |ms| || |q'.channel| == q.capacity)
      && forall i :: |q.channel| <= i < |q'.channel| ==> IsNewCopy(q'.channel[i], ms[i - |q.channel|], issued)
  {
  }

  // ----- Dead letters

  /** The messages of a batch that have used up the attempts of the policy. */
  function UsedUp(batch: seq<Pending>, policy: DeadLetterPolicy): set<nat> {
    set j: nat | j < |batch| && policy.maxAttempts > 0 && batch[j].attempt >= policy.maxAttempts
  }

  lemma UsedUpAre(batch: seq<Pending>, policy: DeadLetterPolicy) returns (at: seq<nat>)
    ensures Picks(batch, Dead(batch, policy.maxAttempts), at)
    ensures forall j :: j in at <==> j in UsedUp(batch, policy)
    ensures |Dead(batch, policy.maxAttempts)| == |UsedUp(batch, policy)|
  {
    hide Dead;
    at := DeadInOrder(batch, policy.maxAttempts);
    PositionsCount(at, |batch|, UsedUp(batch, policy));
  }

  lemma {:induction false} PositionsCount(at: seq<nat>, n: nat, all: set<nat>)
    requires Increasing(at, n) && forall j :: j in at <==> j in all
    ensures |at| == |all|
  {
    if at == [] {
      assert all == {};
    } else {
      var k := |at| - 1;
      assert at == at[..k] + [at[k]];
      PositionsCount(at[..k], n, all - {at[k]});
    }
  }

  /** The hand-off of a batch whose subscription has this policy. */
  ghost predicate HandsOff(b: Broker, a: Action, policy: DeadLetterPolicy) {
    && Possible(b, a) && a.DeadLettered? && a.name in b.subscriptions
    && b.subscriptions[a.name].deadLetter == Some(policy)
  }

  lemma HasDeadIs(b: Broker, a: Action, policy: DeadLetterPolicy)
    requires HandsOff(b, a, policy)
    ensures PolicyOf(b, a.name) == Some(policy) && (HasDead(b, a) <==> UsedUp(a.batch, policy) != {})
  {
    hide Possible, Dead, UsedUp;
    var at := UsedUpAre(a.batch, policy);
  }

  /** Without a policy, or without messages that have used up their attempts, the whole batch is answered. */
  lemma NothingToHandOff(b: Broker, a: Action)
    requires Possible(b, a) && a.DeadLettered?
    requires a.name in b.subscriptions && b.subscriptions[a.name].deadLetter.Some? ==>
      UsedUp(a.batch, b.subscriptions[a.name].deadLetter.value) == {}
    ensures Step(b, a) == b && Outcome(b, a) == Success(a.batch)
  {
    hide Possible, Dead, Kept, Step, Outcome, UsedUp;
    NotDeadAtAll(b, a);
    NothingDead(b, a);
    if a.name in b.subscriptions && b.subscriptions[a.name].deadLetter.Some? {
      AllKept(a.batch, b.subscriptions[a.name].deadLetter.value);
    }
  }

  lemma NotDeadAtAll(b: Broker, a: Action)
    requires Possible(b, a) && a.DeadLettered?
    requires a.name in b.subscriptions && b.subscriptions[a.name].deadLetter.Some? ==>
      UsedUp(a.batch, b.subscriptions[a.name].deadLetter.value) == {}
    ensures !HasDead(b, a)
    ensures PolicyOf(b, a.name) == if a.name in b.subscriptions then b.subscriptions[a.name].deadLetter else None
  {
    hide Possible, UsedUp, Dead;
    if a.name in b.subscriptions && b.subscriptions[a.name].deadLetter.Some? {
      var at := UsedUpAre(a.batch, b.subscriptions[a.name].deadLetter.value);
    }
  }

  lemma {:induction false} AllKept(batch: seq<Pending>, policy: DeadLetterPolicy)
    requires UsedUp(batch, policy) == {}
    ensures Kept(batch, policy.maxAttempts) == batch
  {
    if batch != [] {
      var n := |batch| - 1;
      assert n !in UsedUp(batch, policy);
      assert UsedUp(batch[..n], policy) <= UsedUp(batch, policy);
      AllKept(batch[..n], policy);
    }
  }

  /**
   Otherwise the hand-off succeeds if and only if the source has a queue and every subscription of the
   dead-letter topic has one with room for all these messages.
   */
  lemma HandOffNeedsRoom(b: Broker, a: Action, policy: DeadLetterPolicy)
    requires Sane(b) && HandsOff(b, a, policy) && UsedUp(a.batch, policy) != {}
    ensures Outcome(b, a).Success? <==>
      && a.name in b.queues
      && forall n :: n in b.subscriptions && b.subscriptions[n].topic == policy.topic ==>
        n in b.queues && |b.queues[n].channel| + |UsedUp(a.batch, policy)| <= b.queues[n].capacity
  {
    hide Possible, Outcome, Dead, UsedUp, AllWithinLimits, WithinLimits, Distinct, Live, Waiting, Leased;
    HasDeadIs(b, a, policy);
    var at := UsedUpAre(a.batch, policy);
    HandOffSucceeds(b, a);
    var count := |UsedUp(a.batch, policy)|;
    var dead := Dead(a.batch, policy.maxAttempts);
    assert |dead| == count > 0;
    forall n ensures n in Subscribers(b.subscriptions, policy.topic) && !Takes(b.queues, n, |dead|) <==>
      && n in b.subscriptions && b.subscriptions[n].topic == policy.topic
      && !(n in b.queues && |b.queues[n].channel| + count <= b.queues[n].capacity)
    {
      if n in b.queues {
        assert QueueRuns.Inv(QueueRuns.State(b.queues[n], b.issued));
      }
    }
  }

  /**
   On success each of these messages is stored under the dead-letter topic as a new message with the
   current time, is pending once and undelivered in every subscription of that topic, and is no longer
   leased at the source.
   */
  lemma DeadLetterMoves(b: Broker, a: Action, policy: DeadLetterPolicy, j: nat) returns (m: Message)
    requires Consistent(b) && HandsOff(b, a, policy) && Outcome(b, a).Success? && j in UsedUp(a.batch, policy)
    ensures m == a.batch[j].message.(id := m.id, publishTime := a.now)
    ensures forall t :: t + "/messages/" + m.id !in b.log
    ensures InLog(Step(b, a).log, policy.topic, m)
    ensures forall n :: n in b.subscriptions && b.subscriptions[n].topic == policy.topic ==>
      n in Step(b, a).queues && PendingOnce(Step(b, a).queues[n], m)
    ensures a.name in Step(b, a).queues && a.batch[j].ackID !in Step(b, a).queues[a.name].inFlight
  {
    hide Possible, Step, Outcome, Dead, Sane, Filed, WellNamed, OnTheirWay, Sourced, Stored, PendingOnce, Key, UsedUp;
    HasDeadIs(b, a, policy);
    var at := UsedUpAre(a.batch, policy);
    var dead := Dead(a.batch, policy.maxAttempts);
    var i :| 0 <= i < |at| && at[i] == j;
    ReissuedAt(b, a, policy, i);
    m := Reissued(b, a)[i];
    DeadLettersAreStored(b, a);
    InLogIs(Step(b, a).log, policy.topic, m);
    forall t ensures t + "/messages/" + m.id !in b.log {
      assert Key(t, m.id) !in b.log;
      KeyText(t, m.id);
    }
    forall n | n in b.subscriptions && b.subscriptions[n].topic == policy.topic
      ensures n in Step(b, a).queues && PendingOnce(Step(b, a).queues[n], m)
    {
      DeadLettersArrive(b, a, n, i);
    }
    SourceIsReleased(b, a);
    DeadIsListed(dead, i);
  }

  lemma KeyText(topic: string, id: string)
    ensures Key(topic, id) == topic + "/messages/" + id
  {
  }

  lemma DeadIsListed(dead: seq<Pending>, i: nat)
    requires i < |dead|
    ensures dead[i].ackID in IdSet(dead)
  {
  }

  lemma ReissuedAt(b: Broker, a: Action, policy: DeadLetterPolicy, i: nat)
    requires HandsOff(b, a, policy) && PolicyOf(b, a.name) == Some(policy) && i < |Dead(a.batch, policy.maxAttempts)|
    ensures i < |Reissued(b, a)|
    ensures var m := Reissued(b, a)[i];
      m == Dead(a.batch, policy.maxAttempts)[i].message.(id := m.id, publishTime := a.now)
  {
    hide Possible, Dead, MessageID;
  }

  /** On success exactly these leases have left the source; if the hand-off fails, no lease of any queue has changed. */
  lemma LeasesAfterHandOff(b: Broker, a: Action, policy: DeadLetterPolicy)
    requires HandsOff(b, a, policy) && UsedUp(a.batch, policy) != {}
    ensures Outcome(b, a).Success? ==>
      && a.name in b.queues && a.name in Step(b, a).queues
      && var before, after := b.queues[a.name].inFlight, Step(b, a).queues[a.name].inFlight;
      && (forall k :: k in after <==> k in before && forall j :: j in UsedUp(a.batch, policy) ==> a.batch[j].ackID != k)
      && (forall k :: k in after ==> after[k] == before[k])
    ensures Outcome(b, a).Failure? ==> forall n :: n in b.queues ==>
      && n in Step(b, a).queues && Step(b, a).queues[n].inFlight == b.queues[n].inFlight
      && b.queues[n].channel <= Step(b, a).queues[n].channel
  {
    hide Possible, Step, Outcome, Dead, UsedUp;
    HasDeadIs(b, a, policy);
    SourceIsReleased(b, a);
    IdsUsedUp(a.batch, policy);
  }

  lemma IdsUsedUp(batch: seq<Pending>, policy: DeadLetterPolicy)
    ensures forall k :: k in IdSet(Dead(batch, policy.maxAttempts)) <==>
      exists j :: j in UsedUp(batch, policy) && batch[j].ackID == k
  {
    hide Dead;
    var at := UsedUpAre(batch, policy);
    var dead := Dead(batch, policy.maxAttempts);
    forall k ensures k in IdSet(dead) <==> exists j :: j in UsedUp(batch, policy) && batch[j].ackID == k {
      if k in IdSet(dead) {
        var i := RecordWithId(dead, k);
        assert at[i] in at;
      }
      if j :| j in UsedUp(batch, policy) && batch[j].ackID == k {
        var i :| 0 <= i < |at| && at[i] == j;
        assert dead[i].ackID == k;
      }
    }
  }
}
