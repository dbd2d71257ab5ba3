/**
 The broker as a value: topics, subscriptions, the message log, snapshots and all queues, and what
 publishing, delivering, dead-lettering and seeking do to them.

 `ids` arguments are ack IDs, random in the program, of the copies an operation makes. Fan-out runs
 in goroutines of its own after Publish has returned; `fanOuts` are those still to run.
 */
module BrokerModel {
  import opened Text
  import opened QueueModel
  import opened FilterSyntax
  import opened MessageLogs

  datatype DeadLetterPolicy = DeadLetterPolicy(topic: string, maxAttempts: int)

  datatype Subscription = Subscription(
    topic: string, filter: string, ackDeadline: int, ordered: bool, deadLetter: Option<DeadLetterPolicy>)

  datatype Snapshot = Snapshot(subscription: string, topic: string, createdAt: int, unacked: seq<string>)

  /** The messages of one Publish on their way to one subscription. */
  datatype FanOut = FanOut(subscription: string, filter: string, messages: seq<Message>)

  datatype Broker = Broker(
    topics: set<string>,
    subscriptions: map<string, Subscription>,
    log: map<string, Message>,
    snapshots: map<string, Snapshot>,
    queues: map<string, Queue>,
    messageCount: nat,
    issued: set<string>,
    fanOuts: multiset<FanOut>)

  /** Messages with the IDs after `count`, published now. */
  function Stamp(ms: seq<Message>, count: nat, now: int): (r: seq<Message>)
    ensures |r| == |ms|
    ensures forall i :: 0 <= i < |ms| ==> r[i] == ms[i].(id := MessageID(count + i + 1), publishTime := now)
  {
    seq(|ms|, i requires 0 <= i < |ms| => ms[i].(id := MessageID(count + i + 1), publishTime := now))
  }

  /** New pending copies of messages, one ack ID each. */
  function NewPending(ms: seq<Message>, ids: seq<string>): (r: seq<Pending>)
    requires |ids| == |ms|
    ensures |r| == |ms|
    ensures forall i :: 0 <= i < |ms| ==> r[i] == Pending(ms[i], ids[i], NO_DEADLINE, 0)
  {
    seq(|ms|, i requires 0 <= i < |ms| && |ids| == |ms| => Pending(ms[i], ids[i], NO_DEADLINE, 0))
  }

  /** Ack IDs never issued before, all different. */
  ghost predicate FreshIds(ids: seq<string>, issued: set<string>) {
    && (forall i :: 0 <= i < |ids| ==> ids[i] !in issued)
    && (forall i, j :: 0 <= i < j < |ids| ==> ids[i] != ids[j])
  }

  function IdsIn(ids: seq<string>): set<string> {
    set id | id in ids
  }

  // ----- Topics and subscriptions

  function CreateTopic(b: Broker, topic: string): (Broker, Result<()>) {
    if topic in b.topics then (b, Failure(AlreadyExists)) else (b.(topics := b.topics + {topic}), Success(()))
  }

  /** A subscription starts with an empty queue. */
  function CreateSubscription(b: Broker, name: string, sub: Subscription, queueSize: nat): (Broker, Result<()>) {
    if sub.topic !in b.topics then (b, Failure(NotFound))
    else if name in b.subscriptions then (b, Failure(AlreadyExists))
    else
      (b.(subscriptions := b.subscriptions[name := sub], queues := b.queues[name := Empty(queueSize)]), Success(()))
  }

  // ----- Publishing

  function Subscribers(subscriptions: map<string, Subscription>, topic: string): set<string> {
    set n | n in subscriptions && subscriptions[n].topic == topic
  }

  function FanOuts(subscriptions: map<string, Subscription>, names: seq<string>, ms: seq<Message>): multiset<FanOut>
    requires forall n :: n in names ==> n in subscriptions
  {
    if names == [] then multiset{}
    else
      var n := names[|names| - 1];
      FanOuts(subscriptions, names[..|names| - 1], ms) + multiset{FanOut(n, subscriptions[n].filter, ms)}
  }

  function IdsOf(ms: seq<Message>): (r: seq<string>)
    ensures |r| == |ms| && forall i :: 0 <= i < |ms| ==> r[i] == ms[i].id
  {
    seq(|ms|, i requires 0 <= i < |ms| => ms[i].id)
  }

  /** `names` lists the subscriptions of the topic, in the order in which they are visited. */
  function Publish(b: Broker, topic: string, ms: seq<Message>, now: int, names: seq<string>)
    : (Broker, Result<seq<string>>)
    requires forall n :: n in names ==> n in b.subscriptions
  {
    if topic !in b.topics then (b, Failure(NotFound))
    else
      var stamped := Stamp(ms, b.messageCount, now);
      (b.(log := Logged(b.log, topic, stamped),
          messageCount := b.messageCount + |ms|,
          fanOuts := b.fanOuts + FanOuts(b.subscriptions, names, stamped)),
       Success(IdsOf(stamped)))
  }

  /** The messages that the filter lets through. */
  function Matching(ms: seq<Message>, filter: string): seq<Message> {
    if ms == [] then []
    else
      var m := ms[|ms| - 1];
      Matching(ms[..|ms| - 1], filter) + if Matches(filter, m.attributes) then [m] else []
  }

  /** One goroutine of a Publish. Its error, if any, is ignored. */
  function Deliver(b: Broker, f: FanOut, ids: seq<string>): Broker
    requires |ids| == |Matching(f.messages, f.filter)|
  {
    var b' := b.(fanOuts := b.fanOuts - multiset{f}, issued := b.issued + IdsIn(ids));
    if f.subscription !in b.queues then b'
    else b'.(queues := b.queues[f.subscription :=
      Enqueue(b.queues[f.subscription], NewPending(Matching(f.messages, f.filter), ids)).0])
  }

  // ----- Leasing

  function PullFrom(b: Broker, name: string, max: int, now: int, order: seq<string>): (Broker, Result<seq<Pending>>) {
    if name !in b.subscriptions || name !in b.queues then (b, Failure(NotFound))
    else
      var sub := b.subscriptions[name];
      var (q, r) := Pull(b.queues[name], now, max, sub.ackDeadline, sub.ordered, order);
      (b.(queues := b.queues[name := q]), r)
  }

  function AcknowledgeIn(b: Broker, name: string, ids: seq<string>): (Broker, Result<()>) {
    if name !in b.queues then (b, Failure(NotFound))
    else (b.(queues := b.queues[name := Acknowledge(b.queues[name], ids)]), Success(()))
  }

  function ExtendIn(b: Broker, name: string, ids: seq<string>, deadline: int): (Broker, Result<()>) {
    if name !in b.queues then (b, Failure(NotFound))
    else (b.(queues := b.queues[name := Extend(b.queues[name], ids, deadline)]), Success(()))
  }

  // ----- Dead letters

  /** A message that has used up its attempts; a maximum of zero or less never does. */
  predicate IsDead(p: Pending, maximum: int) {
    maximum > 0 && p.attempt >= maximum
  }

  function Kept(ps: seq<Pending>, maximum: int): seq<Pending> {
    if ps == [] then []
    else Kept(ps[..|ps| - 1], maximum) + if IsDead(ps[|ps| - 1], maximum) then [] else [ps[|ps| - 1]]
  }

  function Dead(ps: seq<Pending>, maximum: int): seq<Pending> {
    if ps == [] then []
    else Dead(ps[..|ps| - 1], maximum) + if IsDead(ps[|ps| - 1], maximum) then [ps[|ps| - 1]] else []
  }

  function MessagesOf(ps: seq<Pending>): (r: seq<Message>)
    ensures |r| == |ps| && forall i :: 0 <= i < |ps| ==> r[i] == ps[i].message
  {
    seq(|ps|, i requires 0 <= i < |ps| => ps[i].message)
  }

  function AckIdsOf(ps: seq<Pending>): (r: seq<string>)
    ensures |r| == |ps| && forall i :: 0 <= i < |ps| ==> r[i] == ps[i].ackID
  {
    seq(|ps|, i requires 0 <= i < |ps| => ps[i].ackID)
  }

  /** The messages go to one subscription after the other, until one cannot take all of them. */
  function ForwardAll(queues: map<string, Queue>, names: seq<string>, copies: seq<seq<Pending>>)
    : (map<string, Queue>, Result<()>)
    requires |copies| == |names|
  {
    if names == [] then (queues, Success(()))
    else
      var n := |names| - 1;
      var (qs, r) := ForwardAll(queues, names[..n], copies[..n]);
      if r.Failure? then (qs, r)
      else if names[n] !in qs then (qs, Failure(NotFound))
      else
        var (q, r') := Enqueue(qs[names[n]], copies[n]);
        (qs[names[n] := q], r')
  }

  lemma ForwardNone(queues: map<string, Queue>)
    ensures ForwardAll(queues, [], []) == (queues, Success(()))
  {
  }

  lemma ForwardStep(queues: map<string, Queue>, names: seq<string>, copies: seq<seq<Pending>>, name: string,
      ps: seq<Pending>)
    requires |copies| == |names| && ForwardAll(queues, names, copies).1.Success?
    ensures var qs := ForwardAll(queues, names, copies).0;
      ForwardAll(queues, names + [name], copies + [ps]) ==
        if name !in qs then (qs, Failure(NotFound))
        else (qs[name := Enqueue(qs[name], ps).0], Enqueue(qs[name], ps).1)
  {
    assert (names + [name])[..|names|] == names && (copies + [ps])[..|names|] == copies;
  }

  lemma FreshForwardsStep(copies: seq<seq<Pending>>, ms: seq<Message>, issued: set<string>, ps: seq<Pending>)
    requires FreshForwards(copies, ms, issued)
    requires |ps| == |ms| && ps == NewPending(ms, AckIdsOf(ps)) && FreshIds(AckIdsOf(ps), issued + AllIds(copies))
    ensures FreshForwards(copies + [ps], ms, issued)
    ensures AllIds(copies + [ps]) == AllIds(copies) + IdsIn(AckIdsOf(ps))
  {
    assert (copies + [ps])[..|copies|] == copies;
  }

  /** The ack IDs of all copies. */
  function AllIds(copies: seq<seq<Pending>>): set<string> {
    if copies == [] then {}
    else AllIds(copies[..|copies| - 1]) + IdsIn(AckIdsOf(copies[|copies| - 1]))
  }

  /** Every list holds a new copy of each message, under ack IDs never issued before. */
  ghost predicate FreshForwards(copies: seq<seq<Pending>>, ms: seq<Message>, issued: set<string>) {
    copies == [] || (
      var n := |copies| - 1;
      && FreshForwards(copies[..n], ms, issued)
      && |copies[n]| == |ms| && copies[n] == NewPending(ms, AckIdsOf(copies[n]))
      && FreshIds(AckIdsOf(copies[n]), issued + AllIds(copies[..n])))
  }

  /** What `HandleDeadLetters` decides before it changes anything: the policy's maximum and the dead messages. */
  function PolicyOf(b: Broker, name: string): Option<DeadLetterPolicy> {
    if name in b.subscriptions then b.subscriptions[name].deadLetter else None
  }

  /**
   The dead messages are stored under the dead-letter topic as new messages and copied to its
   subscriptions. `names` lists the subscriptions as far as they are reached, in the order of the
   visit, and `copies` the copies made for each.
   */
  function StoreAndForward(b: Broker, topic: string, dead: seq<Pending>, now: int, names: seq<string>,
      copies: seq<seq<Pending>>)
    : (Broker, Result<()>)
    requires |copies| == |names|
  {
    var (qs, r) := ForwardAll(b.queues, names, copies);
    (b.(log := Logged(b.log, topic, Stamp(MessagesOf(dead), b.messageCount, now)),
        messageCount := b.messageCount + |dead|,
        issued := b.issued + AllIds(copies),
        queues := qs), r)
  }

  /** Once all subscriptions have taken them, they are acknowledged at the source. */
  function ForwardDead(b: Broker, name: string, topic: string, dead: seq<Pending>, now: int, names: seq<string>,
      copies: seq<seq<Pending>>)
    : (Broker, Result<()>)
    requires |copies| == |names|
  {
    var (b', r) := StoreAndForward(b, topic, dead, now, names, copies);
    if r.Failure? then (b', r) else AcknowledgeIn(b', name, AckIdsOf(dead))
  }

  function HandleDeadLetters(b: Broker, name: string, ps: seq<Pending>, now: int, names: seq<string>,
      copies: seq<seq<Pending>>)
    : (Broker, Result<seq<Pending>>)
    requires |copies| == |names|
  {
    var policy := PolicyOf(b, name);
    if policy.None? then (b, Success(ps))
    else
      var kept, dead := Kept(ps, policy.value.maxAttempts), Dead(ps, policy.value.maxAttempts);
      if dead == [] then (b, Success(kept))
      else
        var (b', r) := ForwardDead(b, name, policy.value.topic, dead, now, names, copies);
        (b', if r.Success? then Success(kept) else Failure(r.error))
  }

  /** Names in the order in which a set of them is visited, as far as the visit goes. */
  ghost predicate Visits(names: seq<string>, keys: set<string>, complete: bool) {
    exists order: seq<string> :: names <= order && Enumerates(order, keys) && (complete ==> names == order)
  }

  lemma VisitsPart(names: seq<string>, order: seq<string>, keys: set<string>, complete: bool)
    requires names <= order && Enumerates(order, keys) && (complete ==> names == order)
    ensures Visits(names, keys, complete)
  {
  }

  /**
   The choices in a call of `HandleDeadLetters`: the copies are new copies of the dead messages for
   subscriptions of the dead-letter topic, all of them on success.
   */
  ghost predicate DeadLettersForwarded(
    b: Broker, name: string, ps: seq<Pending>, now: int, names: seq<string>, copies: seq<seq<Pending>>,
    result: Result<seq<Pending>>)
  {
    var policy := PolicyOf(b, name);
    if policy.None? || Dead(ps, policy.value.maxAttempts) == [] then names == [] && copies == []
    else
      var dead := Dead(ps, policy.value.maxAttempts);
      && FreshForwards(copies, Stamp(MessagesOf(dead), b.messageCount, now), b.issued)
      && Visits(names, Subscribers(b.subscriptions, policy.value.topic), result.Success?)
  }

  lemma NothingForwarded(ms: seq<Message>, issued: set<string>)
    ensures FreshForwards([], ms, issued) && AllIds([]) == {}
  {
  }

  const DEFAULT_MAX_MESSAGES := 100

  function BatchSize(max: int): int {
    if max <= 0 then DEFAULT_MAX_MESSAGES else max
  }

  /** A Pull request: a Pull, then the dead letters of its batch. */
  function Serve(
    b: Broker, name: string, max: int, now: int, order: seq<string>, later: int, names: seq<string>,
    copies: seq<seq<Pending>>)
    : (Broker, Result<seq<Pending>>)
    requires |copies| == |names|
  {
    var (b', batch) := PullFrom(b, name, BatchSize(max), now, order);
    if batch.Failure? then (b', batch) else HandleDeadLetters(b', name, batch.value, later, names, copies)
  }

  // ----- Snapshots

  function CreateSnapshot(b: Broker, snap: string, name: string, now: int, order: seq<string>): (Broker, Result<()>)
    requires name in b.queues ==> forall k :: k in order ==> k in b.queues[name].inFlight
  {
    if name !in b.subscriptions || name !in b.queues then (b, Failure(NotFound))
    else
      var q := b.queues[name];
      var b' := b.(queues := b.queues[name := Relist(q)]);
      var copies := Copies(Listing(q, order));
      if copies.Failure? then (b', Failure(MappingFailed))
      else if snap in b.snapshots then (b', Failure(AlreadyExists))
      else
        (b'.(snapshots := b.snapshots[snap :=
          Snapshot(name, b.subscriptions[name].topic, now, IdsOf(MessagesOf(copies.value)))]),
         Success(()))
  }

  datatype Target = ToTime(time: int) | ToSnapshot(name: string)

  /** Does a Seek to the target bring this message back? */
  predicate Wanted(snapshots: map<string, Snapshot>, target: Target, m: Message)
    requires target.ToSnapshot? ==> target.name in snapshots
  {
    match target
    case ToTime(t) => m.publishTime >= t
    case ToSnapshot(n) => m.id in snapshots[n].unacked || m.publishTime >= snapshots[n].createdAt
  }

  function Chosen(snapshots: map<string, Snapshot>, target: Target, ms: seq<Message>): seq<Message>
    requires target.ToSnapshot? ==> target.name in snapshots
  {
    if ms == [] then []
    else
      var m := ms[|ms| - 1];
      Chosen(snapshots, target, ms[..|ms| - 1]) + if Wanted(snapshots, target, m) then [m] else []
  }

  /** Do the snapshot and the subscription of a Seek exist? */
  predicate Seekable(b: Broker, name: string, target: Target) {
    (target.ToSnapshot? ==> target.name in b.snapshots) && name in b.subscriptions
  }

  /** The messages that a Seek finds in the log, visited in this order, and wants. */
  function Backlog(b: Broker, name: string, target: Target, order: seq<string>): Result<seq<Message>>
    requires Seekable(b, name, target)
  {
    var ms := Readable(Under(b.log, b.subscriptions[name].topic, order));
    if ms.Failure? then ms else Success(Chosen(b.snapshots, target, ms.value))
  }

  function Seek(b: Broker, name: string, target: Target, order: seq<string>, ids: seq<string>): (Broker, Result<()>)
    requires Seekable(b, name, target) && Backlog(b, name, target, order).Success? ==>
      |ids| == |Backlog(b, name, target, order).value|
  {
    if !Seekable(b, name, target) then (b, Failure(NotFound))
    else
      var ms := Backlog(b, name, target, order);
      if ms.Failure? then (b, Failure(ms.error))
      else
        var b' := b.(issued := b.issued + IdsIn(ids));
        if name !in b.queues then (b', Failure(NotFound))
        else
          var (q, r) := ReplaceAll(b.queues[name], NewPending(ms.value, ids));
          (b'.(queues := b.queues[name := q]), r)
  }
}
