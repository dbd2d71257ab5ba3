/**
 The message log over runs of the broker: every message is stored once, under its own topic, and is
 never changed or lost; and whatever a queue holds, or a fan-out carries, is in the log under the
 subscription's topic.

 Topics are named `projects/P/topics/T`: with three slashes.
 */
module StoreRuns {
  import opened Text
  import opened QueueModel
  import opened QueueLaws
  import opened QueueRuns
  import opened MessageLogs
  import opened BrokerModel
  import opened BrokerRuns

  const DEPTH := 3

  predicate Stored(log: map<string, Message>, topic: string, m: Message) {
    Key(topic, m.id) in log && log[Key(topic, m.id)] == m
  }

  /** The key is made from a topic and the ID of the i-th message. */
  predicate Files(k: string, m: Message, count: nat, topic: string, i: nat) {
    Slashes(topic) == DEPTH && 1 <= i <= count && m.id == MessageID(i) && k == Key(topic, m.id)
  }

  /** Every message of the log is filed under a topic and its own ID. */
  ghost predicate Filed(log: map<string, Message>, count: nat) {
    forall k :: k in log ==> exists topic: string, i: nat :: Files(k, log[k], count, topic, i)
  }

  ghost predicate Grows(log: map<string, Message>, log': map<string, Message>) {
    forall k :: k in log ==> k in log' && log'[k] == log[k]
  }

  lemma NotFiledYet(log: map<string, Message>, count: nat, topic: string, i: nat)
    requires Filed(log, count) && count < i
    ensures Key(topic, MessageID(i)) !in log
  {
    hide Key, MessageID, Slashes;
    var k := Key(topic, MessageID(i));
    if k in log {
      var topic', j: nat :| Files(k, log[k], count, topic', j);
      MessageIDs(i, j);
      MessageIDs(j, i);
      KeyInjective(topic, MessageID(i), topic', MessageID(j));
    }
  }

  /** Storing a message adds this one and no other. */
  lemma StoreOne(log: map<string, Message>, count: nat, topic: string, m: Message)
    requires Filed(log, count) && Slashes(topic) == DEPTH && m.id == MessageID(count + 1)
    ensures var log' := log[Key(topic, m.id) := m];
      && Filed(log', count + 1) && Grows(log, log')
      && forall t, n :: Stored(log', t, n) <==> Stored(log, t, n) || (t == topic && n == m)
  {
    hide Key, MessageID, Slashes;
    var key := Key(topic, m.id);
    var log' := log[key := m];
    var count' := count + 1;
    NotFiledYet(log, count, topic, count');
    forall k | k in log' ensures exists t: string, i: nat :: Files(k, log'[k], count', t, i) {
      if k == key {
        assert Files(k, m, count', topic, count');
      } else {
        var t, i: nat :| Files(k, log[k], count, t, i);
        assert Files(k, log'[k], count', t, i);
      }
    }
    forall t, n ensures Stored(log', t, n) <==> Stored(log, t, n) || (t == topic && n == m) {
      if Key(t, n.id) == key && log'[key] == n {
        MessageIDs(count + 1, count + 1);
        KeyInjective(t, n.id, topic, m.id);
      }
    }
  }

  /**
   Publishing stores the stamped messages under the topic, next to all that were there before and to
   nothing else; no other topic is affected.
   */
  lemma {:induction false} LoggedAdds(log: map<string, Message>, count: nat, topic: string, ms: seq<Message>, now: int)
    requires Filed(log, count) && Slashes(topic) == DEPTH
    ensures var stamped := Stamp(ms, count, now);
      var log' := Logged(log, topic, stamped);
      && Filed(log', count + |ms|) && Grows(log, log')
      && forall t, m :: Stored(log', t, m) <==> Stored(log, t, m) || (t == topic && m in stamped)
  {
    hide Key, MessageID, Slashes, Filed, Stored;
    var stamped := Stamp(ms, count, now);
    if ms != [] {
      var n := |ms| - 1;
      LoggedAdds(log, count, topic, ms[..n], now);
      assert stamped[..n] == Stamp(ms[..n], count, now);
      StoreOne(Logged(log, topic, stamped[..n]), count + n, topic, stamped[n]);
      assert stamped == stamped[..n] + [stamped[n]];
    }
  }

  // ----- Listing a topic

  ghost predicate DistinctMessages(ms: seq<Message>) {
    forall i, j :: 0 <= i < j < |ms| ==> ms[i].id != ms[j].id
  }

  lemma FiledKey(log: map<string, Message>, count: nat, topic: string, k: string)
    requires Filed(log, count) && Slashes(topic) == DEPTH && k in log
    ensures Prefix(topic) <= k <==> k == Key(topic, log[k].id)
  {
    hide MessageID, Slashes;
    var t, i: nat :| Files(k, log[k], count, t, i);
    MessageIDs(i, i);
    KeyUnderPrefix(topic, t, log[k].id);
    SameDepthSeparates(topic, t);
  }

  lemma {:induction false} UnderIs(log: map<string, Message>, count: nat, topic: string, order: seq<string>)
    requires Filed(log, count) && Slashes(topic) == DEPTH
    requires forall i, j :: 0 <= i < j < |order| ==> order[i] != order[j]
    ensures var ms := Under(log, topic, order);
      && DistinctMessages(ms)
      && forall m :: m in ms <==> Stored(log, topic, m) && Key(topic, m.id) in order
  {
    hide Filed, Slashes, Key, Prefix;
    if order != [] {
      var n := |order| - 1;
      UnderIs(log, count, topic, order[..n]);
      assert order == order[..n] + [order[n]];
      if order[n] in log {
        FiledKey(log, count, topic, order[n]);
      }
    }
  }

  /** Listing a topic returns exactly the messages stored under it, each once, and none of another topic. */
  lemma ListingIsExact(log: map<string, Message>, count: nat, topic: string, order: seq<string>)
    requires Filed(log, count) && Slashes(topic) == DEPTH && Enumerates(order, log.Keys)
    ensures var ms := Under(log, topic, order);
      DistinctMessages(ms) && forall m :: m in ms <==> Stored(log, topic, m)
  {
    hide Filed, Slashes, Key, Under;
    UnderIs(log, count, topic, order);
  }

  // ----- What queues hold

  ghost predicate Carries(q: Queue, ms: set<Message>) {
    && (forall i :: 0 <= i < |q.channel| ==> q.channel[i].message in ms)
    && (forall k :: k in q.inFlight ==> q.inFlight[k].message in ms)
  }

  ghost predicate AllIn(ps: seq<Pending>, ms: set<Message>) {
    forall i :: 0 <= i < |ps| ==> ps[i].message in ms
  }

  lemma AllInConcat(a: seq<Pending>, b: seq<Pending>, ms: set<Message>)
    ensures AllIn(a + b, ms) <==> AllIn(a, ms) && AllIn(b, ms)
  {
    if AllIn(a + b, ms) {
      forall i | 0 <= i < |b| ensures b[i].message in ms {
        assert (a + b)[|a| + i] == b[i];
      }
      forall i | 0 <= i < |a| ensures a[i].message in ms {
        assert (a + b)[i] == a[i];
      }
    }
  }

  lemma AllInPart(ps: seq<Pending>, n: nat, ms: set<Message>)
    requires AllIn(ps, ms) && n <= |ps|
    ensures AllIn(ps[..n], ms) && AllIn(ps[n..], ms)
  {
    hide AllIn;
    assert ps == ps[..n] + ps[n..];
    AllInConcat(ps[..n], ps[n..], ms);
  }

  lemma OfferCarries(q: Queue, ps: seq<Pending>, ms: set<Message>)
    requires Carries(q, ms) && AllIn(ps, ms)
    ensures Carries(Offer(q, ps), ms)
  {
    AllInPart(ps, q.Room(|ps|), ms);
    AllInConcat(q.channel, ps[..q.Room(|ps|)], ms);
  }

  lemma {:induction false} ReleasedCarry(q: Queue, now: int, order: seq<string>, ms: set<Message>)
    requires Carries(q, ms)
    ensures AllIn(Released(q.inFlight, now, order), ms)
  {
    if order != [] {
      ReleasedCarry(q, now, order[..|order| - 1], ms);
    }
  }

  lemma {:induction false} ChoiceCarries(c: seq<Pending>, busy: set<string>, ordered: bool, ms: set<Message>)
    requires AllIn(c, ms)
    ensures AllIn(Selected(c, busy, ordered), ms) && AllIn(Skipped(c, busy, ordered), ms)
  {
    hide Eligible;
    if c != [] {
      ChoiceCarries(c[..|c| - 1], busy, ordered, ms);
    }
  }

  lemma {:induction false} StoreCarries(q: Queue, ps: seq<Pending>, ms: set<Message>)
    requires Carries(q, ms) && AllIn(ps, ms)
    ensures Carries(q.(inFlight := Store(q.inFlight, ps)), ms)
  {
    if ps != [] {
      StoreCarries(q, ps[..|ps| - 1], ms);
    }
  }

  lemma LeaseCarries(q: Queue, max: int, deadline: int, ordered: bool, ms: set<Message>)
    requires Carries(q, ms)
    ensures Carries(LeaseFrom(q, max, deadline, ordered).0, ms)
  {
    hide Eligible, Selected, Skipped, Store, Offer, StopsAt, LeasedKeys;
    var c, busy := q.channel, LeasedKeys(q.inFlight);
    var n := Examined(c, 0, busy, ordered, max);
    AllInPart(c, n, ms);
    ChoiceCarries(c[..n], busy, ordered, ms);
    var batch := Leases(Selected(c[..n], busy, ordered), deadline);
    StoreCarries(q, batch, ms);
    if n < |c| && |batch| < max {
      var bad := Lease(c[n], NO_DEADLINE);
      OfferCarries(q.(channel := c[n + 1..], inFlight := Store(q.inFlight, batch) - {bad.ackID}), [bad], ms);
    } else {
      OfferCarries(q.(channel := c[n..], inFlight := Store(q.inFlight, batch)), Skipped(c[..n], busy, ordered), ms);
    }
  }

  /** A queue carries no message that it did not carry and that no new copy brought. */
  lemma ApplyCarries(q: Queue, e: Event, ms: set<Message>)
    requires Carries(q, ms) && AllIn(NewCopies(e), ms)
    ensures Carries(Apply(q, e), ms)
  {
    hide Offer, LeaseFrom, Released, ExpiredKeys;
    match e {
      case Enqueued(ps) => OfferCarries(q, ps, ms);
      case Pulled(now, max, wait, ordered, order) =>
        ReleasedCarry(q, now, order, ms);
        OfferCarries(q.(inFlight := q.inFlight - ExpiredKeys(q.inFlight, now)), Released(q.inFlight, now, order), ms);
        LeaseCarries(Requeue(q, now, order), max, now + wait, ordered, ms);
      case Listed => OfferCarries(q.(channel := []), q.channel, ms);
      case Replaced(ps) => OfferCarries(q.(channel := [], inFlight := map[]), ps, ms);
      case Acked(_) =>
      case Extended(_, _, _) =>
    }
  }

  ghost predicate BringIn(es: seq<Event>, ms: set<Message>) {
    forall i :: 0 <= i < |es| ==> AllIn(NewCopies(es[i]), ms)
  }

  lemma {:induction false} RunCarries(s: State, es: seq<Event>, ms: set<Message>)
    requires Carries(s.queue, ms) && BringIn(es, ms)
    ensures Carries(Run(s, es).queue, ms)
  {
    hide Carries, AllIn, Apply;
    if es != [] {
      RunCarries(s, es[..|es| - 1], ms);
      ApplyCarries(Run(s, es[..|es| - 1]).queue, es[|es| - 1], ms);
    }
  }

  // ----- The broker's store

  function StoredUnder(log: map<string, Message>, topic: string): set<Message> {
    set k | k in log && Stored(log, topic, log[k]) :: log[k]
  }

  lemma StoredUnderIs(log: map<string, Message>, topic: string)
    ensures forall m :: m in StoredUnder(log, topic) <==> Stored(log, topic, m)
  {
    hide Key;
    forall m | Stored(log, topic, m) ensures m in StoredUnder(log, topic) {
      assert Key(topic, m.id) in log;
    }
  }

  ghost predicate WellNamed(b: Broker) {
    && (forall t :: t in b.topics ==> Slashes(t) == DEPTH)
    && (forall n :: n in b.subscriptions ==> Slashes(b.subscriptions[n].topic) == DEPTH)
    && (forall n :: n in b.subscriptions && b.subscriptions[n].deadLetter.Some? ==>
      Slashes(b.subscriptions[n].deadLetter.value.topic) == DEPTH)
  }

  /** Fan-outs carry messages of their subscription's topic. */
  ghost predicate OnTheirWay(b: Broker) {
    forall f :: f in b.fanOuts ==>
      && f.subscription in b.subscriptions && f.filter == b.subscriptions[f.subscription].filter
      && forall i :: 0 <= i < |f.messages| ==> Stored(b.log, b.subscriptions[f.subscription].topic, f.messages[i])
  }

  /** Queues hold messages of their subscription's topic. */
  ghost predicate Sourced(b: Broker) {
    forall n :: n in b.queues && n in b.subscriptions ==>
      Carries(b.queues[n], StoredUnder(b.log, b.subscriptions[n].topic))
  }

  ghost predicate Consistent(b: Broker) {
    Sane(b) && WellNamed(b) && Filed(b.log, b.messageCount) && OnTheirWay(b) && Sourced(b)
  }

  lemma PublishStores(b: Broker, a: Action)
    requires Consistent(b) && Possible(b, a) && a.Published? && a.topic in b.topics
    ensures var (b', stamped) := (Step(b, a), Stamp(a.messages, b.messageCount, a.now));
      && Filed(b'.log, b'.messageCount) && Grows(b.log, b'.log)
      && forall t, m :: Stored(b'.log, t, m) <==> Stored(b.log, t, m) || (t == a.topic && m in stamped)
  {
    hide Sane, Stored, Filed, Slashes, Logged, Stamp, FanOuts, Enumerates, OnTheirWay, Sourced, AllWithinLimits;
    LoggedAdds(b.log, b.messageCount, a.topic, a.messages, a.now);
  }

  lemma DeadLettersStore(b: Broker, a: Action)
    requires Consistent(b) && Possible(b, a) && a.DeadLettered? && PolicyOf(b, a.name).Some?
    requires Dead(a.batch, PolicyOf(b, a.name).value.maxAttempts) != []
    ensures var policy, b' := PolicyOf(b, a.name).value, Step(b, a);
      var stamped := Stamp(MessagesOf(Dead(a.batch, policy.maxAttempts)), b.messageCount, a.now);
      && Filed(b'.log, b'.messageCount) && Grows(b.log, b'.log)
      && forall t, m :: Stored(b'.log, t, m) <==> Stored(b.log, t, m) || (t == policy.topic && m in stamped)
  {
    hide Sane, Stored, Filed, Slashes, Logged, Stamp, OnTheirWay, Sourced, Dead, MessagesOf, DeadLettersForwarded,
      AllWithinLimits, ForwardAll, AllIds, Kept, AckIdsOf;
    var policy := PolicyOf(b, a.name).value;
    LoggedAdds(b.log, b.messageCount, policy.topic, MessagesOf(Dead(a.batch, policy.maxAttempts)), a.now);
  }

  lemma NothingStored(b: Broker, a: Action)
    requires Possible(b, a) && (a.Published? ==> a.topic !in b.topics)
    requires a.DeadLettered? && PolicyOf(b, a.name).Some? ==> Dead(a.batch, PolicyOf(b, a.name).value.maxAttempts) == []
    ensures Step(b, a).log == b.log && Step(b, a).messageCount == b.messageCount
  {
    hide Possible, Pull, Deliver, Seek, CreateSnapshot, QueueModel.Acknowledge, Extend, Kept, Dead, ForwardDead;
    if !a.Published? && !a.DeadLettered? {
      OthersKeepStore(b, a);
    }
  }

  /** An action stores new messages under one topic, or none at all. */
  lemma StepStores(b: Broker, a: Action) returns (topic: string, stamped: seq<Message>)
    requires Consistent(b) && Possible(b, a)
    ensures var b' := Step(b, a);
      && Filed(b'.log, b'.messageCount) && Grows(b.log, b'.log)
      && (forall t, m :: Stored(b'.log, t, m) <==> Stored(b.log, t, m) || (t == topic && m in stamped))
      && (a.Published? && a.topic in b.topics ==>
        topic == a.topic && stamped == Stamp(a.messages, b.messageCount, a.now))
  {
    hide Possible, Step, Sane, Stored, Filed, Slashes, Stamp, OnTheirWay, Sourced, Dead, MessagesOf;
    topic, stamped := "", [];
    if a.Published? && a.topic in b.topics {
      topic, stamped := a.topic, Stamp(a.messages, b.messageCount, a.now);
      PublishStores(b, a);
    } else if a.DeadLettered? && PolicyOf(b, a.name).Some?
      && Dead(a.batch, PolicyOf(b, a.name).value.maxAttempts) != [] {
      var policy := PolicyOf(b, a.name).value;
      topic, stamped := policy.topic, Stamp(MessagesOf(Dead(a.batch, policy.maxAttempts)), b.messageCount, a.now);
      DeadLettersStore(b, a);
    } else {
      NothingStored(b, a);
    }
  }

  lemma GrowsStored(log: map<string, Message>, log': map<string, Message>)
    requires Grows(log, log')
    ensures forall t, m :: Stored(log, t, m) ==> Stored(log', t, m)
    ensures forall t :: StoredUnder(log, t) <= StoredUnder(log', t)
  {
    hide Key;
    forall t, m | m in StoredUnder(log, t) ensures m in StoredUnder(log', t) {
      StoredUnderIs(log, t);
      StoredUnderIs(log', t);
    }
  }

  lemma CarriesMore(q: Queue, ms: set<Message>, more: set<Message>)
    requires Carries(q, ms) && ms <= more
    ensures Carries(q, more)
  {
  }

  // ----- What an action brings to a queue

  lemma MembersIn(ms: seq<Message>, ids: seq<string>, log: map<string, Message>, topic: string)
    requires |ids| == |ms| && forall i :: 0 <= i < |ms| ==> Stored(log, topic, ms[i])
    ensures AllIn(NewPending(ms, ids), StoredUnder(log, topic))
  {
    StoredUnderIs(log, topic);
  }

  lemma MatchingStored(ms: seq<Message>, filter: string, log: map<string, Message>, topic: string)
    requires forall i :: 0 <= i < |ms| ==> Stored(log, topic, ms[i])
    ensures forall i :: 0 <= i < |Matching(ms, filter)| ==> Stored(log, topic, Matching(ms, filter)[i])
  {
    hide Stored, Matching;
    MatchingFrom(ms, filter);
  }

  lemma BringsOne(e: Event, ms: set<Message>)
    requires AllIn(NewCopies(e), ms)
    ensures BringIn([e], ms) && BringIn([], ms)
  {
  }

  lemma BringsMore(es: seq<Event>, fs: seq<Event>, ms: set<Message>)
    requires BringIn(es, ms) && BringIn(fs, ms)
    ensures BringIn(es + fs, ms)
  {
    hide AllIn;
  }

  lemma FanOutBrings(b: Broker, a: Action, n: string)
    requires Consistent(b) && Possible(b, a) && a.FannedOut? && n in b.subscriptions
    ensures BringIn(Projected(b, a, n), StoredUnder(b.log, b.subscriptions[n].topic))
  {
    hide BringIn, AllIn, Stored, StoredUnder, Matching, Sane, Filed, WellNamed, Sourced, NewPending, FreshIds;
    var ms, topic := Matching(a.f.messages, a.f.filter), b.subscriptions[n].topic;
    BringsOne(Listed, StoredUnder(b.log, topic)) by { AllInNone(StoredUnder(b.log, topic)); }
    if a.f.subscription == n {
      MatchingStored(a.f.messages, a.f.filter, b.log, topic);
      MembersIn(ms, a.ids, b.log, topic);
      BringsOne(Enqueued(NewPending(ms, a.ids)), StoredUnder(b.log, topic));
    }
  }

  lemma AllInNone(ms: set<Message>)
    ensures AllIn([], ms)
  {
  }

  lemma BacklogStored(b: Broker, name: string, target: Target, order: seq<string>)
    requires Consistent(b) && Seekable(b, name, target) && Enumerates(order, b.log.Keys)
    requires Backlog(b, name, target, order).Success?
    ensures var ms := Backlog(b, name, target, order).value;
      forall i :: 0 <= i < |ms| ==> Stored(b.log, b.subscriptions[name].topic, ms[i])
  {
    hide Stored, Sane, Filed, Sourced, OnTheirWay, Under, Chosen, WithinLimits, Enumerates, Slashes;
    var ms := Under(b.log, b.subscriptions[name].topic, order);
    ListingIsExact(b.log, b.messageCount, b.subscriptions[name].topic, order);
    ChosenFrom(b.snapshots, target, ms);
  }

  lemma SeekBrings(b: Broker, a: Action, n: string)
    requires Consistent(b) && Possible(b, a) && a.Sought? && n in b.subscriptions
    ensures BringIn(Projected(b, a, n), StoredUnder(b.log, b.subscriptions[n].topic))
  {
    hide BringIn, AllIn, Stored, StoredUnder, Consistent, Backlog, NewPending, FreshIds;
    var stored := StoredUnder(b.log, b.subscriptions[n].topic);
    BringsOne(Listed, stored) by { AllInNone(stored); }
    if a.name == n && Seekable(b, n, a.target) && Backlog(b, n, a.target, a.order).Success? {
      var ms := Backlog(b, n, a.target, a.order).value;
      BacklogStored(b, n, a.target, a.order);
      MembersIn(ms, a.ids, b.log, b.subscriptions[n].topic);
      BringsOne(Replaced(NewPending(ms, a.ids)), stored);
    }
  }

  lemma {:induction false} ForwardedBring(
    queues: map<string, Queue>, names: seq<string>, copies: seq<seq<Pending>>, ms: seq<Message>, issued: set<string>,
    n: string, stored: set<Message>)
    requires |copies| == |names| && FreshForwards(copies, ms, issued)
    requires n in names ==> forall i :: 0 <= i < |ms| ==> ms[i] in stored
    ensures BringIn(Forwarded(queues, names, copies, n), stored)
  {
    hide BringIn, FreshIds, ForwardAll, AllIds;
    AllInNone(stored);
    BringsOne(Listed, stored);
    if names != [] {
      var i := |names| - 1;
      var es := Forwarded(queues, names[..i], copies[..i], n);
      ForwardedBring(queues, names[..i], copies[..i], ms, issued, n, stored);
      if names[i] == n {
        BringsOne(Enqueued(copies[i]), stored);
        BringsMore(es, [Enqueued(copies[i])], stored);
      }
      BringsMore(es, [], stored);
    }
  }

  ghost predicate NoRepeats(names: seq<string>) {
    forall i, j :: 0 <= i < j < |names| ==> names[i] != names[j]
  }

  lemma VisitedOnce(names: seq<string>, keys: set<string>, complete: bool)
    requires Visits(names, keys, complete)
    ensures NoRepeats(names) && (forall n :: n in names ==> n in keys)
    ensures complete ==> forall n :: n in keys ==> n in names
  {
    var order :| names <= order && Enumerates(order, keys) && (complete ==> names == order);
    forall n | n in names ensures n in keys {
      assert n in order;
    }
  }

  lemma DeadLettersBring(b: Broker, a: Action, n: string)
    requires Consistent(b) && Possible(b, a) && a.DeadLettered? && n in b.subscriptions
    ensures BringIn(Projected(b, a, n), StoredUnder(Step(b, a).log, b.subscriptions[n].topic))
  {
    hide BringIn, AllIn, Stored, StoredUnder, Sane, Filed, Sourced, OnTheirWay, Dead, Kept, MessagesOf, AckIdsOf,
      Stamp, Slashes,
      ForwardAll, Forwarded, FreshForwards, AllIds, Logged, Visits, AllWithinLimits;
    var policy, stored := PolicyOf(b, a.name), StoredUnder(Step(b, a).log, b.subscriptions[n].topic);
    AllInNone(stored);
    BringsOne(Acked([]), stored);
    if policy.None? || Dead(a.batch, policy.value.maxAttempts) == [] {
      NothingToForward(b.queues, n);
      BringsMore([], [], stored);
    } else {
      var dead := Dead(a.batch, policy.value.maxAttempts);
      var ms := Stamp(MessagesOf(dead), b.messageCount, a.now);
      LoggedAdds(b.log, b.messageCount, policy.value.topic, MessagesOf(dead), a.now);
      StoredUnderIs(Step(b, a).log, b.subscriptions[n].topic);
      VisitedOnce(a.names, Subscribers(b.subscriptions, policy.value.topic),
        HandleDeadLetters(b, a.name, a.batch, a.now, a.names, a.copies).1.Success?);
      ForwardedBring(b.queues, a.names, a.copies, ms, b.issued, n, stored);
      BringsOne(Acked(AckIdsOf(dead)), stored);
      BringsMore(Forwarded(b.queues, a.names, a.copies, n), [], stored);
      BringsMore(Forwarded(b.queues, a.names, a.copies, n), [Acked(AckIdsOf(dead))], stored);
    }
  }

  lemma OthersBringNothing(b: Broker, a: Action, n: string, ms: set<Message>)
    requires Possible(b, a) && !a.FannedOut? && !a.DeadLettered? && !a.Sought?
    ensures BringIn(Projected(b, a, n), ms)
  {
    hide Enumerates, AllWithinLimits;
    AllInNone(ms);
  }

  lemma StepBrings(b: Broker, a: Action, n: string)
    requires Consistent(b) && Possible(b, a) && n in b.subscriptions
    ensures BringIn(Projected(b, a, n), StoredUnder(Step(b, a).log, b.subscriptions[n].topic))
  {
    hide BringIn, StoredUnder, Consistent, Possible, Projected, HandleDeadLetters, PullFrom, Publish, ReplaceAll,
      Backlog;
    match a {
      case FannedOut(_, _) => FanOutBrings(b, a, n); OthersKeepStore(b, a);
      case Sought(_, _, _, _) => SeekBrings(b, a, n);
      case DeadLettered(_, _, _, _, _) => DeadLettersBring(b, a, n);
      case _ => OthersBringNothing(b, a, n, StoredUnder(Step(b, a).log, b.subscriptions[n].topic));
    }
  }

  // ----- Preservation

  lemma StepKeepsSourced(b: Broker, a: Action)
    requires Consistent(b) && Possible(b, a)
    ensures Sourced(Step(b, a))
  {
    hide Sane, WellNamed, Filed, OnTheirWay, Possible, Step, Projected, BringIn, StoredUnder, Carries, Grows, Stored;
    var _, _ := StepStores(b, a);
    var b' := Step(b, a);
    StepKeepsNames(b, a);
    GrowsStored(b.log, b'.log);
    forall n | n in b'.queues && n in b'.subscriptions
      ensures Carries(b'.queues[n], StoredUnder(b'.log, b'.subscriptions[n].topic))
    {
      var stored := StoredUnder(b'.log, b'.subscriptions[n].topic);
      StepProjects(b, a, n);
      StepBrings(b, a, n);
      CarriesMore(b.queues[n], StoredUnder(b.log, b.subscriptions[n].topic), stored);
      RunCarries(State(b.queues[n], b.issued), Projected(b, a, n), stored);
    }
  }

  lemma PublishOnItsWay(b: Broker, a: Action, f: FanOut)
    requires Consistent(b) && Possible(b, a) && a.Published? && f in Step(b, a).fanOuts
    ensures f in b.fanOuts || (
      a.topic in b.topics && f.subscription in b.subscriptions && f.filter == b.subscriptions[f.subscription].filter
      && b.subscriptions[f.subscription].topic == a.topic && f.messages == Stamp(a.messages, b.messageCount, a.now))
  {
    hide Consistent, FanOuts, Stamp, Logged;
    if a.topic in b.topics {
      FanOutsCarry(b.subscriptions, a.names, Stamp(a.messages, b.messageCount, a.now));
    }
  }

  lemma FanOutsShrink(b: Broker, a: Action)
    requires Possible(b, a) && !a.Published?
    ensures forall f :: f in Step(b, a).fanOuts ==> f in b.fanOuts
  {
    hide Possible, Step;
    if a.DeadLettered? {
      DeadLettersKeepFanOuts(b, a);
    } else {
      OthersKeepStore(b, a);
    }
  }

  lemma DeadLettersKeepFanOuts(b: Broker, a: Action)
    requires Possible(b, a) && a.DeadLettered?
    ensures Step(b, a).fanOuts == b.fanOuts
  {
    hide Possible, ForwardAll, Dead, Kept, Stamp, Logged, AllIds, QueueModel.Acknowledge, MessagesOf, AckIdsOf;
    assert |a.copies| == |a.names| by { CopiesMatch(b, a); }
  }

  lemma CopiesMatch(b: Broker, a: Action)
    requires Possible(b, a) && a.DeadLettered?
    ensures |a.copies| == |a.names|
  {
  }

  lemma StepKeepsOnTheirWay(b: Broker, a: Action)
    requires Consistent(b) && Possible(b, a)
    ensures OnTheirWay(Step(b, a))
  {
    hide Sane, WellNamed, Filed, Sourced, Possible, Step, Stored, Grows;
    var topic, stamped := StepStores(b, a);
    StepKeepsNames(b, a);
    GrowsStored(b.log, Step(b, a).log);
    if a.Published? {
      forall f | f in Step(b, a).fanOuts && f !in b.fanOuts
        ensures f.subscription in b.subscriptions && f.filter == b.subscriptions[f.subscription].filter
        ensures f.messages == stamped && b.subscriptions[f.subscription].topic == topic
      {
        PublishOnItsWay(b, a, f);
      }
    } else {
      FanOutsShrink(b, a);
    }
  }

  lemma StepKeepsConsistent(b: Broker, a: Action)
    requires Consistent(b) && Possible(b, a)
    ensures Consistent(Step(b, a)) && Grows(b.log, Step(b, a).log)
  {
    hide Sane, Filed, OnTheirWay, Sourced, Possible, Step, Stored, Grows, Slashes;
    StepKeepsSane(b, a);
    StepKeepsNames(b, a);
    StepKeepsSourced(b, a);
    StepKeepsOnTheirWay(b, a);
    var _, _ := StepStores(b, a);
  }

  /**
   In every state of every run, what queues hold and fan-outs carry is in the log under the topic of
   the subscription; and the log has lost or changed nothing.
   */
  lemma {:induction false} ConsistentAlways(b: Broker, done: seq<Action>)
    requires Consistent(b) && Course(b, done)
    ensures Consistent(After(b, done)) && Grows(b.log, After(b, done).log)
  {
    hide Consistent, Possible, Step;
    if done != [] {
      var i := |done| - 1;
      ConsistentAlways(b, done[..i]);
      StepKeepsConsistent(After(b, done[..i]), done[i]);
    }
  }

  /** A broker that has not published anything yet, with any well-named topics and subscriptions, is consistent. */
  lemma StartsConsistent(b: Broker)
    requires WellNamed(b) && b.log == map[] && b.fanOuts == multiset{}
    requires forall n :: n in b.queues ==> b.queues[n] == Empty(b.queues[n].capacity)
    ensures Consistent(b)
  {
  }

  lemma TopicKeepsConsistent(b: Broker, topic: string)
    requires Consistent(b) && Slashes(topic) == DEPTH
    ensures Consistent(CreateTopic(b, topic).0)
  {
    hide Slashes, StoredUnder, Stored, Filed, Inv, AllWithinLimits, WithinLimits, Carries;
    var b' := CreateTopic(b, topic).0;
    assert WellNamed(b');
    assert Sane(b');
    assert OnTheirWay(b');
    assert Sourced(b');
  }

  lemma NewQueueIsSound(issued: set<string>, queueSize: nat, ms: set<Message>)
    ensures Inv(State(Empty(queueSize), issued)) && Carries(Empty(queueSize), ms)
  {
    EmptyIsWellFormed(Empty(queueSize));
  }

  lemma SubscriptionKeepsConsistent(b: Broker, name: string, sub: Subscription, queueSize: nat)
    requires Consistent(b) && (sub.deadLetter.Some? ==> Slashes(sub.deadLetter.value.topic) == DEPTH)
    ensures Consistent(CreateSubscription(b, name, sub, queueSize).0)
  {
    hide Slashes, StoredUnder, Stored, Filed, Inv, AllWithinLimits, WithinLimits, Carries, Empty;
    NewQueueIsSound(b.issued, queueSize, StoredUnder(b.log, sub.topic));
  }

  /** It stays consistent when topics and subscriptions are created between two runs. */
  lemma CreationKeepsConsistent(b: Broker, topic: string, name: string, sub: Subscription, queueSize: nat)
    requires Consistent(b) && Slashes(topic) == DEPTH
    requires sub.deadLetter.Some? ==> Slashes(sub.deadLetter.value.topic) == DEPTH
    ensures Consistent(CreateTopic(b, topic).0) && Consistent(CreateSubscription(b, name, sub, queueSize).0)
  {
    hide Consistent, Slashes, CreateTopic, CreateSubscription;
    TopicKeepsConsistent(b, topic);
    SubscriptionKeepsConsistent(b, name, sub, queueSize);
  }
}
