/**
 Snapshots and Seek over runs of the broker: a Seek brings back exactly the messages it promises, and
 a snapshot, however much later it is sought, restores what was unacknowledged when it was taken.
 */
module SnapshotRuns {
  import opened QueueModel
  import opened QueueLaws
  import opened QueueRuns
  import opened MessageLogs
  import opened BrokerModel
  import opened BrokerRuns
  import opened StoreRuns

  // ----- What a Seek wants

  lemma {:induction false} ChosenIs(snapshots: map<string, Snapshot>, target: Target, ms: seq<Message>)
    requires (target.ToSnapshot? ==> target.name in snapshots) && DistinctMessages(ms)
    ensures var chosen := Chosen(snapshots, target, ms);
      DistinctMessages(chosen) && forall m :: m in chosen <==> m in ms && Wanted(snapshots, target, m)
  {
    hide Wanted;
    if ms != [] {
      var n := |ms| - 1;
      var chosen := Chosen(snapshots, target, ms[..n]);
      ChosenIs(snapshots, target, ms[..n]);
      assert ms == ms[..n] + [ms[n]];
      forall i | 0 <= i < |chosen| ensures chosen[i].id != ms[n].id {
        assert chosen[i] in ms[..n];
      }
    }
  }

  /** The messages a Seek finds are those stored under the topic that it wants, each once; finding them never fails. */
  lemma BacklogIs(b: Broker, name: string, target: Target, order: seq<string>)
    requires Consistent(b) && Seekable(b, name, target) && Enumerates(order, b.log.Keys)
    ensures var r := Backlog(b, name, target, order);
      && r.Success? && DistinctMessages(r.value)
      && forall m :: m in r.value <==> Stored(b.log, b.subscriptions[name].topic, m) && Wanted(b.snapshots, target, m)
  {
    hide Filed, Slashes, Stored, Sourced, OnTheirWay, Inv, Chosen, Under, Wanted, Enumerates, WithinLimits,
      AllWithinLimits;
    var topic := b.subscriptions[name].topic;
    var ms := Under(b.log, topic, order);
    ListingIsExact(b.log, b.messageCount, topic, order);
    forall i | 0 <= i < |ms| ensures WithinLimits(ms[i]) {
      StoredIsSane(b, topic, ms[i]);
    }
    ChosenIs(b.snapshots, target, ms);
  }

  lemma StoredIsSane(b: Broker, topic: string, m: Message)
    requires Sane(b) && Stored(b.log, topic, m)
    ensures WithinLimits(m)
  {
    assert Key(topic, m.id) in b.log;
  }

  /** Records in a channel, and nothing else, of messages that are all different. */
  ghost predicate Fresh(q: Queue) {
    && q.inFlight == map[] && Distinct(q.channel) && DistinctMessages(MessagesOf(q.channel))
    && forall i :: 0 <= i < |q.channel| ==> IsNew(q.channel[i])
  }

  /** After a Seek there are new copies of the found messages in the channel, as far as there is room. */
  lemma ReplacedBy(q: Queue, issued: set<string>, ms: seq<Message>, ids: seq<string>)
    requires |ids| == |ms| && FreshIds(ids, issued) && AllWithinLimits(ms) && DistinctMessages(ms)
    ensures var (q', r) := ReplaceAll(q, NewPending(ms, ids));
      var n := if |ms| <= q.capacity then |ms| else q.capacity;
      && Fresh(q') && q'.channel == NewPending(ms, ids)[..n] && MessagesOf(q'.channel) == ms[..n]
      && q'.capacity == q.capacity
      && r == (if |ms| <= q.capacity then Success(()) else Failure(ResourceExhausted))
  {
    hide Fresh, IsNew, FreshIds, AllWithinLimits, NewPending;
    var n := if |ms| <= q.capacity then |ms| else q.capacity;
    NewCopiesOf(ms, ids, issued, n);
    assert [] + NewPending(ms, ids)[..n] == NewPending(ms, ids)[..n];
    var q' := ReplaceAll(q, NewPending(ms, ids)).0;
    assert q'.channel == NewPending(ms, ids)[..n] && q'.inFlight == map[];
    FreshIs(q');
  }

  lemma FreshIs(q: Queue)
    ensures Fresh(q) <==>
      && q.inFlight == map[] && Distinct(q.channel) && DistinctMessages(MessagesOf(q.channel))
      && forall i :: 0 <= i < |q.channel| ==> IsNew(q.channel[i])
  {
    hide IsNew, Distinct, DistinctMessages;
  }

  lemma NewCopiesOf(ms: seq<Message>, ids: seq<string>, issued: set<string>, n: nat)
    requires |ids| == |ms| && n <= |ms| && FreshIds(ids, issued) && AllWithinLimits(ms) && DistinctMessages(ms)
    ensures var ps := NewPending(ms, ids)[..n];
      && Distinct(ps) && MessagesOf(ps) == ms[..n] && DistinctMessages(MessagesOf(ps))
      && forall i :: 0 <= i < n ==> IsNew(ps[i])
  {
    hide WithinLimits;
    var ps := NewPending(ms, ids)[..n];
    forall i | 0 <= i < n ensures IsNew(ps[i]) {
      assert WithinLimits(ms[i]);
    }
  }

  /** The messages that a Seek brings back: those of the topic that are wanted. */
  function Restored(b: Broker, name: string, target: Target): set<Message>
    requires Seekable(b, name, target)
  {
    set m | m in StoredUnder(b.log, b.subscriptions[name].topic) && Wanted(b.snapshots, target, m)
  }

  lemma {:induction false} SizeOf(ms: seq<Message>, all: set<Message>)
    requires DistinctMessages(ms) && forall m :: m in ms <==> m in all
    ensures |ms| == |all|
  {
    if ms != [] {
      var n := |ms| - 1;
      assert ms == ms[..n] + [ms[n]];
      SizeOf(ms[..n], all - {ms[n]});
    } else {
      assert all == {};
    }
  }

  lemma BacklogIsRestored(b: Broker, name: string, target: Target, order: seq<string>)
    requires Consistent(b) && Seekable(b, name, target) && Enumerates(order, b.log.Keys)
    ensures var r := Backlog(b, name, target, order);
      && r.Success? && DistinctMessages(r.value) && |r.value| == |Restored(b, name, target)|
      && forall m :: m in r.value <==> m in Restored(b, name, target)
  {
    hide Consistent, Backlog, Enumerates, Stored, StoredUnder, Wanted, DistinctMessages;
    BacklogIs(b, name, target, order);
    StoredUnderIs(b.log, b.subscriptions[name].topic);
    SizeOf(Backlog(b, name, target, order).value, Restored(b, name, target));
  }

  /** The channel holds new copies of these messages, each once, and nothing is in flight. */
  ghost predicate HoldsExactly(q: Queue, ms: set<Message>) {
    Fresh(q) && |q.channel| == |ms| && forall m :: m in MessagesOf(q.channel) <==> m in ms
  }

  /** The channel is filled with new copies of some of these messages, and nothing is in flight. */
  ghost predicate FullOf(q: Queue, ms: set<Message>) {
    Fresh(q) && |q.channel| == q.capacity && forall m :: m in MessagesOf(q.channel) ==> m in ms
  }

  /** The second of the two repository calls of a Seek: the messages that the first one found replace the queue. */
  function Replay(b: Broker, name: string, ms: seq<Message>, ids: seq<string>): (Broker, Result<()>)
    requires |ids| == |ms|
  {
    var b' := b.(issued := b.issued + IdsIn(ids));
    if name !in b.queues then (b', Failure(NotFound))
    else
      var (q, r) := ReplaceAll(b.queues[name], NewPending(ms, ids));
      (b'.(queues := b.queues[name := q]), r)
  }

  ghost function SeekOutcome(b: Broker, a: Action): Result<()>
    requires Possible(b, a) && a.Sought?
  {
    Seek(b, a.name, a.target, a.order, a.ids).1
  }

  /** With nothing in between, the two calls are the Seek that is a single action of a run. */
  lemma SeekIsItsParts(b: Broker, a: Action)
    requires Possible(b, a) && a.Sought? && Seekable(b, a.name, a.target)
    requires Backlog(b, a.name, a.target, a.order).Success?
    ensures (Step(b, a), SeekOutcome(b, a)) ==
      Replay(b, a.name, Backlog(b, a.name, a.target, a.order).value, a.ids)
  {
    hide Backlog, ReplaceAll, FreshIds, NewPending, Enumerates, IdsIn;
  }

  lemma ReplayHolds(b: Broker, name: string, ms: seq<Message>, ids: seq<string>, wanted: set<Message>)
    requires |ids| == |ms| && FreshIds(ids, b.issued) && AllWithinLimits(ms) && DistinctMessages(ms) && name in b.queues
    requires |ms| == |wanted| && forall m :: m in ms <==> m in wanted
    ensures var (b', r) := Replay(b, name, ms, ids);
      && name in b'.queues
      && if |wanted| <= b.queues[name].capacity then r == Success(()) && HoldsExactly(b'.queues[name], wanted)
         else r == Failure(ResourceExhausted) && FullOf(b'.queues[name], wanted)
  {
    hide ReplaceAll, FreshIds, NewPending, Fresh, AllWithinLimits, DistinctMessages, IdsIn;
    ReplacedBy(b.queues[name], b.issued, ms, ids);
    assert ms[..|ms|] == ms;
  }

  lemma SoughtPossible(b: Broker, a: Action)
    requires Possible(b, a) && a.Sought? && Seekable(b, a.name, a.target)
    ensures FreshIds(a.ids, b.issued) && Enumerates(a.order, b.log.Keys)
    ensures Backlog(b, a.name, a.target, a.order).Success? ==> |a.ids| == |Backlog(b, a.name, a.target, a.order).value|
  {
    hide Backlog, FreshIds, Enumerates;
  }

  /**
   A Seek whose two calls follow each other leaves nothing in flight and, in the channel, one new copy of
   each message that it wants, if they fit; otherwise it fills the channel with as many of them as fit and
   says so. `SeekInParts` is about the general case.
   */
  lemma SeekRestores(b: Broker, a: Action)
    requires Consistent(b) && Possible(b, a) && a.Sought? && Seekable(b, a.name, a.target) && a.name in b.queues
    ensures var wanted, b' := Restored(b, a.name, a.target), Step(b, a);
      && Backlog(b, a.name, a.target, a.order).Success? && a.name in b'.queues
      && var (q, r) := (b'.queues[a.name], SeekOutcome(b, a));
      if |wanted| <= b.queues[a.name].capacity then r == Success(()) && HoldsExactly(q, wanted)
      else r == Failure(ResourceExhausted) && FullOf(q, wanted)
  {
    hide Consistent, Possible, Step, SeekOutcome, Backlog, Replay, FreshIds, Restored, AllWithinLimits,
      DistinctMessages, HoldsExactly, FullOf;
    SoughtPossible(b, a);
    BacklogIsRestored(b, a.name, a.target, a.order);
    BacklogWithinLimits(b, a.name, a.target, a.order);
    SeekIsItsParts(b, a);
    ReplayHolds(b, a.name, Backlog(b, a.name, a.target, a.order).value, a.ids, Restored(b, a.name, a.target));
  }

  // ----- Taking a snapshot

  /** The message of some record, waiting or leased. */
  ghost predicate HeldMessage(q: Queue, m: Message) {
    || (exists i :: 0 <= i < |q.channel| && q.channel[i].message == m)
    || (exists k :: k in q.inFlight && q.inFlight[k].message == m)
  }

  lemma ListingHolds(q: Queue, order: seq<string>, id: string)
    requires Enumerates(order, q.inFlight.Keys)
    ensures id in IdsOf(MessagesOf(Listing(q, order))) <==> exists m :: HeldMessage(q, m) && m.id == id
  {
    var all := Listing(q, order);
    var ids := IdsOf(MessagesOf(all));
    if id in ids {
      var i :| 0 <= i < |ids| && ids[i] == id;
      assert HeldMessage(q, all[i].message);
    }
    if m :| HeldMessage(q, m) && m.id == id {
      if i :| 0 <= i < |q.channel| && q.channel[i].message == m {
        assert ids[i] == id;
      } else {
        var k :| k in q.inFlight && q.inFlight[k].message == m;
        assert k in order;
        var i :| 0 <= i < |order| && order[i] == k;
        assert ids[|q.channel| + i] == id;
      }
    }
  }

  /** A successful `CreateSnapshot`: it knows the topic, the time, and the IDs of the messages held. */
  ghost predicate Remembers(s: Snapshot, b: Broker, name: string, now: int)
    requires name in b.subscriptions && name in b.queues
  {
    && s.topic == b.subscriptions[name].topic && s.createdAt == now
    && forall id :: id in s.unacked <==> exists m :: HeldMessage(b.queues[name], m) && m.id == id
  }

  lemma CarriedWithinLimits(b: Broker, name: string, order: seq<string>)
    requires Sane(b) && name in b.queues && Enumerates(order, b.queues[name].inFlight.Keys)
    ensures var q := b.queues[name]; Copies(Listing(q, order)) == Success(Listing(q, order))
  {
    hide WithinLimits, Distinct, Live;
    var q := b.queues[name];
    assert Inv(State(q, b.issued));
    var all := Listing(q, order);
    forall i | 0 <= i < |all| ensures WithinLimits(all[i].message) {
      if i >= |q.channel| {
        assert all[i] == q.inFlight[order[i - |q.channel|]];
      }
    }
  }

  /** It succeeds unless the subscription is missing or the name is taken, and changes no record. */
  lemma SnapshotRemembers(b: Broker, a: Action)
    requires Sane(b) && Possible(b, a) && a.SnapshotTaken? && a.name in b.subscriptions && a.name in b.queues
    ensures var (b', r) := CreateSnapshot(b, a.snap, a.name, a.now, a.order);
      && b' == Step(b, a)
      && (r.Success? <==> a.snap !in b.snapshots)
      && (r.Success? ==> a.snap in b'.snapshots && Remembers(b'.snapshots[a.snap], b, a.name, a.now))
      && b'.queues.Keys == b.queues.Keys && b'.queues[a.name].channel == b.queues[a.name].channel
      && b'.queues[a.name].inFlight == b.queues[a.name].inFlight
  {
    hide HeldMessage, Listing, Copies, IdsOf, MessagesOf, Relist, AllWithinLimits, WithinLimits, Distinct, Live;
    var q := b.queues[a.name];
    CarriedWithinLimits(b, a.name, a.order);
    assert Inv(State(q, b.issued));
    RelistIs(q);
    forall id ensures id in IdsOf(MessagesOf(Listing(q, a.order))) <==> exists m :: HeldMessage(q, m) && m.id == id {
      ListingHolds(q, a.order, id);
    }
  }

  // ----- Snapshots stay

  lemma StepKeepsSnapshot(b: Broker, a: Action, snap: string)
    requires Possible(b, a) && snap in b.snapshots
    ensures snap in Step(b, a).snapshots && Step(b, a).snapshots[snap] == b.snapshots[snap]
  {
    hide Possible, Backlog, Enqueue, Pull, Extend, Acknowledge, Relist, ReplaceAll, ForwardAll, Dead, Kept, Stamp,
      Logged, Matching,
      NewPending, Copies, Listing, AllIds;
  }

  lemma {:induction false} SnapshotStays(b: Broker, done: seq<Action>, snap: string)
    requires Course(b, done) && snap in b.snapshots
    ensures snap in After(b, done).snapshots && After(b, done).snapshots[snap] == b.snapshots[snap]
  {
    hide Possible, Step;
    if done != [] {
      var i := |done| - 1;
      SnapshotStays(b, done[..i], snap);
      StepKeepsSnapshot(After(b, done[..i]), done[i], snap);
    }
  }

  // ----- Restoring a snapshot

  lemma HeldIsStored(b: Broker, name: string, m: Message)
    requires Sourced(b) && name in b.queues && name in b.subscriptions && HeldMessage(b.queues[name], m)
    ensures Stored(b.log, b.subscriptions[name].topic, m)
  {
    StoredUnderIs(b.log, b.subscriptions[name].topic);
  }

  /** A message whose ID a snapshot knows is the one that was held. */
  lemma SnapshotWants(b0: Broker, name: string, now: int, s: Snapshot, log: map<string, Message>, m: Message)
    requires Consistent(b0) && name in b0.queues && name in b0.subscriptions && Remembers(s, b0, name, now)
    requires Grows(b0.log, log)
    ensures Stored(log, s.topic, m) && (m.id in s.unacked || m.publishTime >= now) <==>
      HeldMessage(b0.queues[name], m) || (Stored(log, s.topic, m) && m.publishTime >= now)
  {
    hide HeldMessage, Sane, WellNamed, Filed, OnTheirWay, Key, Sourced;
    if Stored(log, s.topic, m) && m.id in s.unacked {
      var held :| HeldMessage(b0.queues[name], held) && held.id == m.id;
      HeldIsStored(b0, name, held);
      GrowsStored(b0.log, log);
    }
    if HeldMessage(b0.queues[name], m) {
      HeldIsStored(b0, name, m);
      GrowsStored(b0.log, log);
      assert m.id in s.unacked;
    }
  }

  /** A snapshot is taken of a subscription, a run follows, and `name` is a subscription of the same topic. */
  ghost predicate Taken(b0: Broker, taken: Action, done: seq<Action>, name: string) {
    && Consistent(b0) && Possible(b0, taken) && taken.SnapshotTaken?
    && taken.name in b0.subscriptions && taken.name in b0.queues && taken.snap !in b0.snapshots
    && Course(Step(b0, taken), done)
    && name in b0.subscriptions && name in b0.queues
    && b0.subscriptions[name].topic == b0.subscriptions[taken.name].topic
  }

  /** And that subscription is sought to the snapshot. */
  ghost predicate TakenAndSought(b0: Broker, taken: Action, done: seq<Action>, sought: Action) {
    && sought.Sought? && Taken(b0, taken, done, sought.name) && sought.target == ToSnapshot(taken.snap)
    && Possible(After(Step(b0, taken), done), sought)
  }

  /** What a Seek to the snapshot wants: what was held when it was taken, and what was published since. */
  lemma SnapshotBacklog(b0: Broker, taken: Action, done: seq<Action>, name: string)
    requires Taken(b0, taken, done, name)
    ensures var b := After(Step(b0, taken), done);
      && Consistent(b) && Seekable(b, name, ToSnapshot(taken.snap)) && name in b.queues
      && forall m :: m in Restored(b, name, ToSnapshot(taken.snap)) <==>
        HeldMessage(b0.queues[taken.name], m)
        || (Stored(b.log, b0.subscriptions[taken.name].topic, m) && m.publishTime >= taken.now)
  {
    hide Consistent, Possible, Step, After, Course, HeldMessage, Remembers, Stored, StoredUnder, Grows, Wanted;
    var b := After(Step(b0, taken), done);
    TakenThenRun(b0, taken, done);
    StoredUnderIs(b.log, b.subscriptions[name].topic);
    RememberedTopic(b.snapshots[taken.snap], b0, taken.name, taken.now);
    forall m ensures m in Restored(b, name, ToSnapshot(taken.snap)) <==>
      HeldMessage(b0.queues[taken.name], m)
      || (Stored(b.log, b0.subscriptions[taken.name].topic, m) && m.publishTime >= taken.now)
    {
      WantedIs(b, taken.snap, m);
      SnapshotWants(b0, taken.name, taken.now, b.snapshots[taken.snap], b.log, m);
    }
  }

  /**
   A snapshot is taken, any run follows, and some subscription of the same topic is sought to the
   snapshot, with nothing in between the two calls of the Seek. If the backlog fits, nothing is in flight
   afterwards, and the channel holds exactly one new copy of every message that was held when the
   snapshot was taken, and of every message of the topic published at that time or later; and of no
   other message.
   */
  lemma SnapshotThenSeek(b0: Broker, taken: Action, done: seq<Action>, sought: Action)
    requires TakenAndSought(b0, taken, done, sought)
    ensures var b := After(Step(b0, taken), done);
      && Seekable(b, sought.name, sought.target) && sought.name in b.queues && sought.name in Step(b, sought).queues
      && var (wanted, r) := (Restored(b, sought.name, sought.target), SeekOutcome(b, sought));
      var q := Step(b, sought).queues[sought.name];
      && (forall m :: m in wanted <==>
        HeldMessage(b0.queues[taken.name], m)
        || (Stored(b.log, b0.subscriptions[taken.name].topic, m) && m.publishTime >= taken.now))
      && if |wanted| <= b.queues[sought.name].capacity then r == Success(()) && HoldsExactly(q, wanted)
         else r == Failure(ResourceExhausted) && FullOf(q, wanted)
  {
    hide Consistent, Possible, Step, After, Course, SeekOutcome, HoldsExactly, FullOf, HeldMessage, Stored, Backlog,
      Restored;
    SnapshotBacklog(b0, taken, done, sought.name);
    SeekRestores(After(Step(b0, taken), done), sought);
  }

  lemma WantedIs(b: Broker, snap: string, m: Message)
    requires snap in b.snapshots
    ensures Wanted(b.snapshots, ToSnapshot(snap), m) <==>
      m.id in b.snapshots[snap].unacked || m.publishTime >= b.snapshots[snap].createdAt
  {
  }

  lemma RememberedTopic(s: Snapshot, b: Broker, name: string, now: int)
    requires name in b.subscriptions && name in b.queues && Remembers(s, b, name, now)
    ensures s.topic == b.subscriptions[name].topic && s.createdAt == now
  {
    hide HeldMessage;
  }

  /** What is known at the end of a run that began with taking a snapshot. */
  lemma TakenThenRun(b0: Broker, taken: Action, done: seq<Action>)
    requires Consistent(b0) && Possible(b0, taken) && taken.SnapshotTaken?
    requires taken.name in b0.subscriptions && taken.name in b0.queues && taken.snap !in b0.snapshots
    requires Course(Step(b0, taken), done)
    ensures var b := After(Step(b0, taken), done);
      && Consistent(b) && Grows(b0.log, b.log) && b.subscriptions == b0.subscriptions && b.queues.Keys == b0.queues.Keys
      && taken.snap in b.snapshots && Remembers(b.snapshots[taken.snap], b0, taken.name, taken.now)
  {
    hide Possible, Step, After, Course, CreateSnapshot, Remembers, Filed, Sane, OnTheirWay, Sourced, Slashes;
    var b1 := Step(b0, taken);
    StepKeepsConsistent(b0, taken);
    StepKeepsNames(b0, taken);
    SnapshotRemembers(b0, taken);
    ConsistentAlways(b1, done);
    SaneAlways(b1, done);
    SnapshotStays(b1, done, taken.snap);
  }

  // ----- A Seek in two calls

  /** A Seek lists the log in `b`, any run follows, and then the queue is replaced. */
  ghost predicate SoughtInParts(b: Broker, name: string, target: Target, order: seq<string>, done: seq<Action>,
      ids: seq<string>)
  {
    && Consistent(b) && Seekable(b, name, target) && name in b.queues && Enumerates(order, b.log.Keys)
    && Course(b, done) && FreshIds(ids, After(b, done).issued)
    && (Backlog(b, name, target, order).Success? ==> |ids| == |Backlog(b, name, target, order).value|)
  }

  /**
   However the broker runs between the two calls, a Seek leaves nothing in flight and, in the channel,
   one new copy of each message that it wanted when it listed the log, if they fit: not of one that was
   stored in between.
   */
  lemma SeekInParts(b: Broker, name: string, target: Target, order: seq<string>, done: seq<Action>, ids: seq<string>)
    requires SoughtInParts(b, name, target, order, done, ids)
    ensures var (ms, b1) := (Backlog(b, name, target, order), After(b, done));
      && ms.Success? && |ids| == |ms.value| && name in b1.queues
      && var ((b', r), wanted) := (Replay(b1, name, ms.value, ids), Restored(b, name, target));
      && name in b'.queues
      && if |wanted| <= b1.queues[name].capacity then r == Success(()) && HoldsExactly(b'.queues[name], wanted)
         else r == Failure(ResourceExhausted) && FullOf(b'.queues[name], wanted)
  {
    hide Consistent, Backlog, Replay, FreshIds, Enumerates, Restored, AllWithinLimits, DistinctMessages, Course, After,
      Seekable, HoldsExactly, FullOf;
    BacklogIsRestored(b, name, target, order);
    BacklogWithinLimits(b, name, target, order);
    SaneOf(b);
    SaneAlways(b, done);
    ReplayHolds(After(b, done), name, Backlog(b, name, target, order).value, ids, Restored(b, name, target));
  }

  lemma SaneOf(b: Broker)
    requires Consistent(b)
    ensures Sane(b)
  {
    hide Sane;
  }

  /** What a Seek wants at the end of a run is what it wanted before, and what it wants of the messages stored since. */
  lemma WantedSince(b: Broker, name: string, target: Target, done: seq<Action>, m: Message)
    requires Consistent(b) && Seekable(b, name, target) && Course(b, done)
    ensures var (b1, topic) := (After(b, done), b.subscriptions[name].topic);
      && Seekable(b1, name, target)
      && (Stored(b1.log, topic, m) ==> (m in Restored(b1, name, target) <==> Wanted(b1.snapshots, target, m)))
      && (m in Restored(b, name, target) <==> Stored(b.log, topic, m) && m in Restored(b1, name, target))
      && (m in Restored(b1, name, target) ==> Stored(b1.log, topic, m))
  {
    hide Consistent, Stored, StoredUnder, Grows, Possible, Step;
    var b1 := After(b, done);
    SaneOf(b);
    SaneAlways(b, done);
    ConsistentAlways(b, done);
    GrowsStored(b.log, b1.log);
    if target.ToSnapshot? {
      SnapshotStays(b, done, target.name);
    }
    StoredUnderIs(b.log, b.subscriptions[name].topic);
    StoredUnderIs(b1.log, b.subscriptions[name].topic);
  }

  /**
   If it succeeds, all messages that the Seek wants when it replaces the queue are in the channel if and
   only if it wants none of those stored since it listed the log; and it loses none of those that the
   queue held if and only if the queue held none of those stored since that it wants.
   */
  lemma LateMessagesAreLost(b: Broker, name: string, target: Target, order: seq<string>, done: seq<Action>,
      ids: seq<string>)
    requires SoughtInParts(b, name, target, order, done, ids)
    ensures var (ms, b1) := (Backlog(b, name, target, order), After(b, done));
      && ms.Success? && |ids| == |ms.value| && name in b1.queues && name in Replay(b1, name, ms.value, ids).0.queues
      && Seekable(b1, name, target)
      && var (topic, r, wanted) :=
        (b.subscriptions[name].topic, Replay(b1, name, ms.value, ids).1, Restored(b1, name, target));
      var (held, now) := (b1.queues[name], MessagesOf(Replay(b1, name, ms.value, ids).0.queues[name].channel));
      r.Success? ==>
        && ((forall m :: m in wanted ==> m in now) <==>
          forall m :: Stored(b1.log, topic, m) && !Stored(b.log, topic, m) ==> m !in wanted)
        && ((forall m :: HeldMessage(held, m) && m in wanted ==> m in now) <==>
          forall m :: HeldMessage(held, m) && !Stored(b.log, topic, m) ==> m !in wanted)
  {
    hide Consistent, Possible, Step, After, Course, Seekable, Restored, Backlog, Replay, Fresh, HeldMessage, Stored,
      FreshIds, Enumerates, MessagesOf, FullOf;
    SeekInParts(b, name, target, order, done, ids);
    forall m {
      WantedSince(b, name, target, done, m);
    }
    WantedSince(b, name, target, done, Message("", "", map[], "", 0));
  }

  /**
   The same for a Seek to a snapshot, with any run before the Seek and any run between its two calls:
   it restores what was held when the snapshot was taken, and what had been published since when the
   Seek listed the log.
   */
  lemma SnapshotThenSeekInParts(b0: Broker, taken: Action, before: seq<Action>, name: string, order: seq<string>,
      between: seq<Action>, ids: seq<string>)
    requires Taken(b0, taken, before, name)
    requires SoughtInParts(After(Step(b0, taken), before), name, ToSnapshot(taken.snap), order, between, ids)
    ensures var b := After(Step(b0, taken), before);
      && Seekable(b, name, ToSnapshot(taken.snap)) && Course(b, between) && name in After(b, between).queues
      && var (ms, wanted) := (Backlog(b, name, ToSnapshot(taken.snap), order),
        Restored(b, name, ToSnapshot(taken.snap)));
      && (forall m :: m in wanted <==>
        HeldMessage(b0.queues[taken.name], m)
        || (Stored(b.log, b0.subscriptions[taken.name].topic, m) && m.publishTime >= taken.now))
      && ms.Success? && |ids| == |ms.value|
      && var (b', r) := Replay(After(b, between), name, ms.value, ids);
      && name in b'.queues
      && if |wanted| <= After(b, between).queues[name].capacity
         then r == Success(()) && HoldsExactly(b'.queues[name], wanted)
         else r == Failure(ResourceExhausted) && FullOf(b'.queues[name], wanted)
  {
    hide Consistent, Possible, Step, After, Course, Seekable, Restored, Backlog, Replay, HoldsExactly, FullOf,
      HeldMessage, Stored, FreshIds, Enumerates;
    SnapshotBacklog(b0, taken, before, name);
    SeekInParts(After(Step(b0, taken), before), name, ToSnapshot(taken.snap), order, between, ids);
  }

  // ----- Pending fan-outs

  /** A message that was published and matches the subscription's filter, but has not reached its queue yet. */
  ghost predicate NotArrived(b: Broker, name: string, m: Message) {
    exists f :: f in b.fanOuts && f.subscription == name && m in Matching(f.messages, f.filter)
  }

  lemma NotArrivedIsStored(b: Broker, name: string, m: Message)
    requires OnTheirWay(b) && NotArrived(b, name, m)
    ensures name in b.subscriptions && Stored(b.log, b.subscriptions[name].topic, m)
  {
    hide Stored, Matching;
    var f :| f in b.fanOuts && f.subscription == name && m in Matching(f.messages, f.filter);
    MatchingStored(f.messages, f.filter, b.log, b.subscriptions[name].topic);
  }

  /**
   What a snapshot misses: a message on its way to the subscription when the snapshot is taken is
   brought back if and only if it was held as well or its publish time is not before the snapshot.
   So the whole backlog is restored exactly when every message still on its way is one of these, in
   particular when the fan-out is complete.
   */
  lemma OnTheirWayAreMissed(b0: Broker, taken: Action, done: seq<Action>, sought: Action)
    requires TakenAndSought(b0, taken, done, sought)
    requires SeekOutcome(After(Step(b0, taken), done), sought).Success?
    ensures sought.name in Step(After(Step(b0, taken), done), sought).queues
    ensures var q := Step(After(Step(b0, taken), done), sought).queues[sought.name];
      (forall m :: HeldMessage(b0.queues[taken.name], m) || NotArrived(b0, taken.name, m) ==>
        m in MessagesOf(q.channel))
      <==> forall m :: NotArrived(b0, taken.name, m) ==>
        HeldMessage(b0.queues[taken.name], m) || m.publishTime >= taken.now
  {
    hide Possible, Step, After, Course, SeekOutcome, Fresh, HeldMessage, Stored, Grows, NotArrived, Sane, Filed,
      WellNamed, Sourced, OnTheirWay, MessagesOf, Restored, FullOf, Seekable;
    SnapshotThenSeek(b0, taken, done, sought);
    TakenThenRun(b0, taken, done);
    var b := After(Step(b0, taken), done);
    GrowsStored(b0.log, b.log);
    forall m | NotArrived(b0, taken.name, m) ensures Stored(b.log, b0.subscriptions[taken.name].topic, m) {
      NotArrivedIsStored(b0, taken.name, m);
    }
  }
}
