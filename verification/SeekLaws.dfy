/**
 What a Seek to a time restores, and what a snapshot records, said of the log and the queues.
 */
module SeekLaws {
  import opened QueueModel
  import opened QueueLaws
  import opened QueueRuns
  import opened MessageLogs
  import opened BrokerModel
  import opened BrokerRuns
  import opened StoreRuns
  import opened SnapshotRuns

  /** The message is in the log under this topic. */
  predicate InLog(log: map<string, Message>, topic: string, m: Message) {
    var k := topic + "/messages/" + m.id;
    k in log && log[k] == m
  }

  lemma InLogIs(log: map<string, Message>, topic: string, m: Message)
    ensures InLog(log, topic, m) <==> Stored(log, topic, m)
  {
  }

  /** New copies, never handed out, under ack IDs that are not in use, of different messages. */
  ghost predicate NewCopiesOnly(c: seq<Pending>, issued: set<string>) {
    && (forall i :: 0 <= i < |c| ==> c[i].deadline == 0 && c[i].attempt == 0 && c[i].ackID !in issued)
    && (forall i, j :: 0 <= i < j < |c| ==> c[i].ackID != c[j].ackID && c[i].message.id != c[j].message.id)
  }

  predicate Waits(q: Queue, m: Message) {
    exists i :: 0 <= i < |q.channel| && q.channel[i].message == m
  }

  /**
   After a Seek to a time nothing is in flight. If it succeeds, there is one new copy of exactly the messages
   that the log had under the topic with this publish time or a later one; otherwise the channel is full of
   some of them, and there are more.
   */
  ghost predicate SoughtTo(log: map<string, Message>, topic: string, time: int, issued: set<string>, capacity: nat,
      q': Queue, r: Result<()>)
  {
    && q'.inFlight == map[] && q'.capacity == capacity && NewCopiesOnly(q'.channel, issued)
    && (r.Success? ==> forall m :: Waits(q', m) <==> InLog(log, topic, m) && m.publishTime >= time)
    && (r.Failure? ==>
      && r.error == ResourceExhausted && |q'.channel| == capacity
      && (forall m :: Waits(q', m) ==> InLog(log, topic, m) && m.publishTime >= time)
      && exists m :: InLog(log, topic, m) && m.publishTime >= time && !Waits(q', m))
  }

  lemma RestoredSince(b: Broker, n: string, time: int, m: Message)
    requires n in b.subscriptions
    ensures Seekable(b, n, ToTime(time))
    ensures m in Restored(b, n, ToTime(time)) <==> InLog(b.log, b.subscriptions[n].topic, m) && m.publishTime >= time
  {
    hide StoredUnder, Stored;
    InLogIs(b.log, b.subscriptions[n].topic, m);
    StoredUnderIs(b.log, b.subscriptions[n].topic);
  }

  lemma WaitsIs(q: Queue, m: Message)
    ensures Waits(q, m) <==> m in MessagesOf(q.channel)
  {
    var ms := MessagesOf(q.channel);
    if m in ms {
      var i :| 0 <= i < |ms| && ms[i] == m;
      assert q.channel[i].message == m;
    }
    if i :| 0 <= i < |q.channel| && q.channel[i].message == m {
      assert ms[i] == m;
    }
  }

  lemma CopiesAreNew(c: seq<Pending>, ms: seq<Message>, ids: seq<string>, issued: set<string>)
    requires |ids| == |ms| && c <= NewPending(ms, ids) && FreshIds(ids, issued) && DistinctMessages(ms)
    ensures NewCopiesOnly(c, issued)
  {
    assert forall i :: 0 <= i < |c| ==> c[i] == NewPending(ms, ids)[i];
  }

  /** The copies that a Seek makes, as they are after the call that replaces the queue. */
  lemma ReplayMeans(b: Broker, n: string, ms: seq<Message>, ids: seq<string>, log: map<string, Message>, topic: string,
      time: int)
    requires |ids| == |ms| && FreshIds(ids, b.issued) && AllWithinLimits(ms) && DistinctMessages(ms) && n in b.queues
    requires forall m :: m in ms <==> InLog(log, topic, m) && m.publishTime >= time
    ensures n in Replay(b, n, ms, ids).0.queues
    ensures SoughtTo(log, topic, time, b.issued, b.queues[n].capacity, Replay(b, n, ms, ids).0.queues[n],
      Replay(b, n, ms, ids).1)
  {
    hide ReplaceAll, FreshIds, NewPending, Fresh, AllWithinLimits, DistinctMessages, IdsIn, InLog, Waits, NewCopiesOnly;
    ReplacedBy(b.queues[n], b.issued, ms, ids);
    var q' := Replay(b, n, ms, ids).0.queues[n];
    FreshIs(q');
    CopiesAreNew(q'.channel, ms, ids, b.issued);
    assert ms[..|ms|] == ms;
    forall m ensures Waits(q', m) <==> m in MessagesOf(q'.channel) {
      WaitsIs(q', m);
    }
    if |ms| > b.queues[n].capacity {
      OneIsLeft(ms, b.queues[n].capacity);
      assert InLog(log, topic, ms[b.queues[n].capacity]);
    }
  }

  lemma OneIsLeft(ms: seq<Message>, n: nat)
    requires DistinctMessages(ms) && n < |ms|
    ensures ms[n] in ms && ms[n] !in ms[..n]
  {
  }

  lemma NothingToReplay(b: Broker, n: string, ms: seq<Message>, ids: seq<string>)
    requires |ids| == |ms| && n !in b.queues
    ensures Replay(b, n, ms, ids).0.queues == b.queues && Replay(b, n, ms, ids).1 == Failure(NotFound)
  {
  }

  lemma FoundSince(b: Broker, n: string, time: int, order: seq<string>)
    requires Consistent(b) && n in b.subscriptions && Enumerates(order, b.log.Keys)
    ensures Seekable(b, n, ToTime(time))
    ensures var r := Backlog(b, n, ToTime(time), order);
      && r.Success? && DistinctMessages(r.value) && AllWithinLimits(r.value)
      && forall m :: m in r.value <==> InLog(b.log, b.subscriptions[n].topic, m) && m.publishTime >= time
  {
    hide Consistent, Backlog, Enumerates, Restored, InLog, DistinctMessages, AllWithinLimits;
    RestoredSince(b, n, time, Message("", "", map[], "", 0));
    BacklogIsRestored(b, n, ToTime(time), order);
    BacklogWithinLimits(b, n, ToTime(time), order);
    forall m ensures m in Restored(b, n, ToTime(time)) <==>
      InLog(b.log, b.subscriptions[n].topic, m) && m.publishTime >= time
    {
      RestoredSince(b, n, time, m);
    }
  }

  /**
   A Seek to a time, its two calls following each other. If the subscription does not exist it fails, and all
   queues stay as they are.
   */
  lemma SeekToTime(b: Broker, a: Action, time: int)
    requires Consistent(b) && Possible(b, a) && a.Sought? && a.target == ToTime(time)
    ensures a.name !in b.subscriptions || a.name !in b.queues ==>
      Step(b, a).queues == b.queues && SeekOutcome(b, a) == Failure(NotFound)
    ensures a.name in b.subscriptions && a.name in b.queues ==>
      && a.name in Step(b, a).queues
      && SoughtTo(b.log, b.subscriptions[a.name].topic, time, b.issued, b.queues[a.name].capacity,
        Step(b, a).queues[a.name], SeekOutcome(b, a))
  {
    hide Consistent, Backlog, Replay, FreshIds, Enumerates, SoughtTo, InLog, DistinctMessages, AllWithinLimits;
    if a.name in b.subscriptions {
      FoundSince(b, a.name, time, a.order);
      SeekIsItsParts(b, a);
      if a.name in b.queues {
        ReplayMeans(b, a.name, Backlog(b, a.name, a.target, a.order).value, a.ids, b.log,
          b.subscriptions[a.name].topic, time);
      } else {
        NothingToReplay(b, a.name, Backlog(b, a.name, a.target, a.order).value, a.ids);
      }
    }
  }

  /** The same when any run of the broker comes between the two calls: what counts is the log as it was listed. */
  lemma SeekToTimeInParts(b: Broker, n: string, time: int, order: seq<string>, done: seq<Action>, ids: seq<string>)
    requires SoughtInParts(b, n, ToTime(time), order, done, ids)
    ensures var (ms, b1) := (Backlog(b, n, ToTime(time), order), After(b, done));
      && ms.Success? && |ids| == |ms.value| && n in b1.queues && n in Replay(b1, n, ms.value, ids).0.queues
      && SoughtTo(b.log, b.subscriptions[n].topic, time, b1.issued, b1.queues[n].capacity,
        Replay(b1, n, ms.value, ids).0.queues[n], Replay(b1, n, ms.value, ids).1)
  {
    hide Consistent, Backlog, Replay, FreshIds, Enumerates, SoughtTo, InLog, DistinctMessages, AllWithinLimits, After,
      Course;
    FoundSince(b, n, time, order);
    SaneOf(b);
    SaneAlways(b, done);
    ReplayMeans(After(b, done), n, Backlog(b, n, ToTime(time), order).value, ids, b.log, b.subscriptions[n].topic,
      time);
  }

  // ----- Snapshots

  /** The message is held, waiting or leased. */
  predicate Held(q: Queue, id: string) {
    || (exists i :: 0 <= i < |q.channel| && q.channel[i].message.id == id)
    || (exists k :: k in q.inFlight && q.inFlight[k].message.id == id)
  }

  /**
   Taking a snapshot fails if the subscription does not exist or the name is taken. Otherwise it records the
   subscription, its topic, the time, and the IDs of exactly the messages held; all queues hold what they held.
   */
  ghost predicate Records(b: Broker, b': Broker, snap: string, n: string, now: int, r: Result<()>) {
    if n !in b.subscriptions || n !in b.queues then b' == b && r == Failure(NotFound)
    else
      && b'.queues.Keys == b.queues.Keys && b'.log == b.log && b'.subscriptions == b.subscriptions
      && (forall m :: m in b.queues ==>
        b'.queues[m].channel == b.queues[m].channel && b'.queues[m].inFlight == b.queues[m].inFlight)
      && if snap in b.snapshots then b'.snapshots == b.snapshots && r == Failure(AlreadyExists)
         else
           && r == Success(()) && b'.snapshots.Keys == b.snapshots.Keys + {snap}
           && (forall s :: s in b.snapshots ==> b'.snapshots[s] == b.snapshots[s])
           && var s := b'.snapshots[snap];
           && s.subscription == n && s.topic == b.subscriptions[n].topic && s.createdAt == now
           && forall id :: id in s.unacked <==> Held(b.queues[n], id)
  }

  lemma HeldIs(q: Queue, id: string)
    ensures Held(q, id) <==> exists m :: HeldMessage(q, m) && m.id == id
  {
    if i :| 0 <= i < |q.channel| && q.channel[i].message.id == id {
      assert HeldMessage(q, q.channel[i].message);
    }
    if k :| k in q.inFlight && q.inFlight[k].message.id == id {
      assert HeldMessage(q, q.inFlight[k].message);
    }
  }

  lemma UnackedAre(q: Queue, order: seq<string>)
    requires Enumerates(order, q.inFlight.Keys) && forall k :: k in order ==> k in q.inFlight
    ensures forall id :: id in IdsOf(MessagesOf(Listing(q, order))) <==> Held(q, id)
  {
    hide HeldMessage, Held, Listing, IdsOf, MessagesOf, Enumerates;
    forall id ensures id in IdsOf(MessagesOf(Listing(q, order))) <==> Held(q, id) {
      ListingHolds(q, order, id);
      HeldIs(q, id);
    }
  }

  lemma SnapshotMeans(b: Broker, snap: string, n: string, now: int, order: seq<string>)
    requires Sane(b) && Possible(b, SnapshotTaken(snap, n, now, order))
    ensures Records(b, CreateSnapshot(b, snap, n, now, order).0, snap, n, now, CreateSnapshot(b, snap, n, now, order).1)
  {
    hide HeldMessage, Held, Listing, Copies, IdsOf, MessagesOf, Relist, AllWithinLimits, WithinLimits, Distinct, Live,
      Waiting, Leased, IdSet, Enumerates;
    if n in b.subscriptions && n in b.queues {
      var q := b.queues[n];
      assert Inv(State(q, b.issued));
      RelistIs(q);
      EnumeratesOnly(b, n, order);
      CarriedWithinLimits(b, n, order);
      UnackedAre(q, order);
    }
  }
}
