/**
 Runs of the whole broker. On each queue, a run of the broker is a run of that queue alone: every
 action touches a queue only by operations addressed to it. So all results about runs of a queue
 hold for every queue of every run of the broker.

 An action is a use case as a whole. Those that the program splits are two actions here: a Publish and
 each of its fan-outs, a Pull and the hand-off of its dead letters. Topics and subscriptions do not
 change during a run.
 */
module BrokerRuns {
  import opened QueueModel
  import opened QueueLaws
  import opened QueueRuns
  import opened BrokerModel
  import opened MessageLogs

  datatype Action =
    | Published(topic: string, messages: seq<Message>, now: int, names: seq<string>)
    | FannedOut(f: FanOut, ids: seq<string>)
    | LeasedBatch(name: string, max: int, now: int, order: seq<string>)
    | Acknowledged(name: string, ids: seq<string>)
    | DeadlineSet(name: string, ids: seq<string>, now: int, duration: int)
    | DeadLettered(name: string, batch: seq<Pending>, now: int, names: seq<string>, copies: seq<seq<Pending>>)
    | SnapshotTaken(snap: string, name: string, now: int, order: seq<string>)
    | Sought(name: string, target: Target, order: seq<string>, ids: seq<string>)

  ghost predicate AllWithinLimits(ms: seq<Message>) {
    forall i :: 0 <= i < |ms| ==> WithinLimits(ms[i])
  }

  /**
   The clock runs, lists of visited entries are complete, ack IDs are new, and messages that enter
   from outside are within the limits of the message entity.
   */
  ghost predicate Possible(b: Broker, a: Action) {
    match a
    case Published(topic, ms, _, names) => Enumerates(names, Subscribers(b.subscriptions, topic)) && AllWithinLimits(ms)
    case FannedOut(f, ids) => f in b.fanOuts && |ids| == |Matching(f.messages, f.filter)| && FreshIds(ids, b.issued)
    case LeasedBatch(name, _, now, order) =>
      name in b.subscriptions && name in b.queues ==>
        ClockRuns(now, b.subscriptions[name].ackDeadline) && Enumerates(order, b.queues[name].inFlight.Keys)
    case Acknowledged(_, _) => true
    case DeadlineSet(_, _, now, duration) => ClockRuns(now, duration)
    case DeadLettered(name, batch, now, names, copies) =>
      && |copies| == |names| && AllWithinLimits(MessagesOf(batch))
      && DeadLettersForwarded(b, name, batch, now, names, copies,
        HandleDeadLetters(b, name, batch, now, names, copies).1)
    case SnapshotTaken(_, name, _, order) =>
      name in b.queues ==> Enumerates(order, b.queues[name].inFlight.Keys)
    case Sought(name, target, order, ids) =>
      && FreshIds(ids, b.issued)
      && (Seekable(b, name, target) ==> Enumerates(order, b.log.Keys))
      && (Seekable(b, name, target) && Backlog(b, name, target, order).Success? ==>
        |ids| == |Backlog(b, name, target, order).value|)
  }

  ghost function Step(b: Broker, a: Action): Broker
    requires Possible(b, a)
  {
    match a
    case Published(topic, ms, now, names) => Publish(b, topic, ms, now, names).0
    case FannedOut(f, ids) => Deliver(b, f, ids)
    case LeasedBatch(name, max, now, order) => PullFrom(b, name, max, now, order).0
    case Acknowledged(name, ids) => AcknowledgeIn(b, name, ids).0
    case DeadlineSet(name, ids, now, duration) => ExtendIn(b, name, ids, now + duration).0
    case DeadLettered(name, batch, now, names, copies) => HandleDeadLetters(b, name, batch, now, names, copies).0
    case SnapshotTaken(snap, name, now, order) => CreateSnapshot(b, snap, name, now, order).0
    case Sought(name, target, order, ids) => Seek(b, name, target, order, ids).0
  }

  /** An action that is possible and leads from one state of the broker to another. */
  ghost predicate Does(b: Broker, a: Action, b': Broker) {
    Possible(b, a) && Step(b, a) == b'
  }

  lemma PublishDoes(b: Broker, topic: string, ms: seq<Message>, now: int, names: seq<string>)
    requires Enumerates(names, Subscribers(b.subscriptions, topic)) && AllWithinLimits(ms)
    ensures Does(b, Published(topic, ms, now, names), Publish(b, topic, ms, now, names).0)
  {
    hide Publish, AllWithinLimits;
  }

  lemma FanOutDoes(b: Broker, f: FanOut, ids: seq<string>)
    requires f in b.fanOuts && |ids| == |Matching(f.messages, f.filter)| && FreshIds(ids, b.issued)
    ensures Does(b, FannedOut(f, ids), Deliver(b, f, ids))
  {
    hide Deliver, Matching, FreshIds;
  }

  lemma PullDoes(b: Broker, name: string, max: int, now: int, order: seq<string>)
    requires name in b.subscriptions && name in b.queues ==>
      ClockRuns(now, b.subscriptions[name].ackDeadline) && Enumerates(order, b.queues[name].inFlight.Keys)
    ensures Does(b, LeasedBatch(name, max, now, order), PullFrom(b, name, max, now, order).0)
  {
    hide PullFrom, Enumerates;
  }

  lemma AcknowledgeDoes(b: Broker, name: string, ids: seq<string>)
    ensures Does(b, Acknowledged(name, ids), AcknowledgeIn(b, name, ids).0)
  {
    hide AcknowledgeIn;
  }

  lemma ExtendDoes(b: Broker, name: string, ids: seq<string>, now: int, duration: int)
    requires ClockRuns(now, duration)
    ensures Does(b, DeadlineSet(name, ids, now, duration), ExtendIn(b, name, ids, now + duration).0)
  {
    hide ExtendIn;
  }

  lemma DeadLettersDo(b: Broker, name: string, batch: seq<Pending>, now: int, names: seq<string>,
        copies: seq<seq<Pending>>)
    requires |copies| == |names| && AllWithinLimits(MessagesOf(batch))
    requires DeadLettersForwarded(b, name, batch, now, names, copies,
      HandleDeadLetters(b, name, batch, now, names, copies).1)
    ensures Does(b, DeadLettered(name, batch, now, names, copies),
      HandleDeadLetters(b, name, batch, now, names, copies).0)
  {
    hide HandleDeadLetters, DeadLettersForwarded, AllWithinLimits;
  }

  lemma SnapshotDoes(b: Broker, snap: string, name: string, now: int, order: seq<string>)
    requires name in b.queues ==> Enumerates(order, b.queues[name].inFlight.Keys)
    ensures Does(b, SnapshotTaken(snap, name, now, order), CreateSnapshot(b, snap, name, now, order).0)
  {
    hide CreateSnapshot, Enumerates;
    assert name in b.queues ==> forall k :: k in order ==>
      k in b.queues[name].inFlight by { EnumeratesOnly(b, name, order); }
  }

  lemma EnumeratesOnly(b: Broker, name: string, order: seq<string>)
    requires name in b.queues ==> Enumerates(order, b.queues[name].inFlight.Keys)
    ensures name in b.queues ==> forall k :: k in order ==> k in b.queues[name].inFlight
  {
  }

  lemma SeekDoes(b: Broker, name: string, target: Target, order: seq<string>, ids: seq<string>)
    requires FreshIds(ids, b.issued) && (Seekable(b, name, target) ==> Enumerates(order, b.log.Keys))
    requires Seekable(b, name, target) && Backlog(b, name, target, order).Success? ==>
      |ids| == |Backlog(b, name, target, order).value|
    ensures Does(b, Sought(name, target, order, ids), Seek(b, name, target, order, ids).0)
  {
    hide Seek, Backlog, Enumerates, FreshIds;
  }

  /** The messages of all pending work are within the limits, and so is the log. */
  ghost predicate Sane(b: Broker) {
    && (forall n :: n in b.queues ==> Inv(State(b.queues[n], b.issued)))
    && (forall f :: f in b.fanOuts ==> AllWithinLimits(f.messages))
    && (forall k :: k in b.log ==> WithinLimits(b.log[k]))
  }

  // ----- What an action does to one queue

  /** The copies that are sent to a queue, until some queue refuses its own. */
  function Forwarded(queues: map<string, Queue>, names: seq<string>, copies: seq<seq<Pending>>, n: string): seq<Event>
    requires |copies| == |names|
  {
    if names == [] then []
    else
      var i := |names| - 1;
      var before := Forwarded(queues, names[..i], copies[..i], n);
      var (qs, r) := ForwardAll(queues, names[..i], copies[..i]);
      before + if r.Success? && names[i] == n && n in qs then [Enqueued(copies[i])] else []
  }

  /** Does a call of `HandleDeadLetters` get as far as to acknowledge the dead messages? */
  predicate AcknowledgesDead(b: Broker, name: string, batch: seq<Pending>, names: seq<string>,
        copies: seq<seq<Pending>>)
    requires |copies| == |names|
  {
    var policy := PolicyOf(b, name);
    policy.Some? && Dead(batch, policy.value.maxAttempts) != [] && ForwardAll(b.queues, names, copies).1.Success?
  }

  ghost function Projected(b: Broker, a: Action, n: string): seq<Event>
    requires Possible(b, a)
  {
    match a
    case Published(_, _, _, _) => []
    case FannedOut(f, ids) =>
      if f.subscription == n then [Enqueued(NewPending(Matching(f.messages, f.filter), ids))] else []
    case LeasedBatch(name, max, now, order) =>
      if name == n && n in b.subscriptions
      then [Pulled(now, max, b.subscriptions[n].ackDeadline, b.subscriptions[n].ordered, order)] else []
    case Acknowledged(name, ids) => if name == n then [Acked(ids)] else []
    case DeadlineSet(name, ids, now, duration) => if name == n then [Extended(ids, now, duration)] else []
    case DeadLettered(name, batch, now, names, copies) =>
      Forwarded(b.queues, names, copies, n)
      + if AcknowledgesDead(b, name, batch, names, copies) && name == n
        then [Acked(AckIdsOf(Dead(batch, PolicyOf(b, name).value.maxAttempts)))] else []
    case SnapshotTaken(_, name, _, _) => if name == n && n in b.subscriptions then [Listed] else []
    case Sought(name, target, order, ids) =>
      if name == n && Seekable(b, n, target) && Backlog(b, n, target, order).Success?
      then [Replaced(NewPending(Backlog(b, n, target, order).value, ids))] else []
  }

  /** A queue and its ack IDs reach the given queue by the events, issuing no more than these IDs. */
  ghost predicate Reaches(s: State, es: seq<Event>, q: Queue, issued: set<string>) {
    Legal(s, es) && Run(s, es).queue == q && Run(s, es).issued <= issued
  }

  lemma NoEvent(s: State, issued: set<string>)
    requires s.issued <= issued
    ensures Reaches(s, [], s.queue, issued)
  {
  }

  lemma OneMore(s: State, es: seq<Event>, e: Event, q: Queue, issued: set<string>, issued': set<string>)
    requires Reaches(s, es, q, issued) && CanHappen(State(q, issued), e)
    requires issued + IdSet(NewCopies(e)) <= issued'
    ensures Reaches(s, es + [e], Apply(q, e), issued')
  {
    hide IdSet, Distinct, Enumerates, IsNew, Apply;
    assert (es + [e])[..|es|] == es;
    StillFresh(Run(s, es).issued, issued, NewCopies(e));
  }

  lemma StillFresh(fewer: set<string>, issued: set<string>, ps: seq<Pending>)
    requires fewer <= issued
    ensures FreshCopies(issued, ps) ==> FreshCopies(fewer, ps)
  {
  }

  lemma OneEvent(s: State, e: Event, issued': set<string>)
    requires CanHappen(s, e) && s.issued + IdSet(NewCopies(e)) <= issued'
    ensures Reaches(s, [e], Apply(s.queue, e), issued')
  {
    hide Reaches, IdSet, CanHappen, Apply;
    NoEvent(s, s.issued);
    OneMore(s, [], e, s.queue, s.issued, issued');
    assert [] + [e] == [e];
  }

  lemma NoCopiesAreFresh(issued: set<string>)
    ensures FreshCopies(issued, []) && IdSet([]) == {}
  {
  }

  lemma CopiesAreTheirIds(ps: seq<Pending>)
    ensures IdSet(ps) == IdsIn(AckIdsOf(ps))
  {
    forall i | 0 <= i < |ps| ensures ps[i].ackID in IdsIn(AckIdsOf(ps)) && ps[i].ackID in IdSet(ps) {
      assert AckIdsOf(ps)[i] == ps[i].ackID;
    }
  }

  lemma NewPendingFresh(ms: seq<Message>, ids: seq<string>, issued: set<string>)
    requires |ids| == |ms| && FreshIds(ids, issued) && AllWithinLimits(ms)
    ensures FreshCopies(issued, NewPending(ms, ids)) && IdSet(NewPending(ms, ids)) == IdsIn(ids)
  {
    hide WithinLimits;
    var ps := NewPending(ms, ids);
    forall id | id in ids ensures id in IdSet(ps) {
      var i :| 0 <= i < |ids| && ids[i] == id;
      assert ps[i].ackID == id;
    }
  }

  /** A batch of dead messages reaches each queue as one batch of new copies. */
  lemma {:induction false} ForwardProjects(
    queues: map<string, Queue>, names: seq<string>, copies: seq<seq<Pending>>, ms: seq<Message>, issued: set<string>,
    n: string)
    requires |copies| == |names| && FreshForwards(copies, ms, issued) && AllWithinLimits(ms) && n in queues
    ensures var qs := ForwardAll(queues, names, copies).0;
      n in qs && Reaches(State(queues[n], issued), Forwarded(queues, names, copies, n), qs[n], issued + AllIds(copies))
  {
    hide Enqueue, FreshIds, IdSet, Reaches, AllWithinLimits, NewPending, AckIdsOf, IdsIn;
    var s := State(queues[n], issued);
    if names == [] {
      NoEvent(s, issued + AllIds(copies));
    } else {
      var i := |names| - 1;
      var qs, r := ForwardAll(queues, names[..i], copies[..i]).0, ForwardAll(queues, names[..i], copies[..i]).1;
      var es, before := Forwarded(queues, names[..i], copies[..i], n), issued + AllIds(copies[..i]);
      ForwardProjects(queues, names[..i], copies[..i], ms, issued, n);
      NewPendingFresh(ms, AckIdsOf(copies[i]), before);
      if r.Success? && names[i] == n {
        OneMore(s, es, Enqueued(copies[i]), qs[n], before, issued + AllIds(copies));
      } else {
        assert es + [] == es;
        ReachesMore(s, es, qs[n], before, issued + AllIds(copies));
      }
    }
  }

  lemma ReachesMore(s: State, es: seq<Event>, q: Queue, issued: set<string>, issued': set<string>)
    requires Reaches(s, es, q, issued) && issued <= issued'
    ensures Reaches(s, es, q, issued')
  {
  }

  lemma MatchingWithinLimits(ms: seq<Message>, filter: string)
    requires AllWithinLimits(ms)
    ensures AllWithinLimits(Matching(ms, filter))
  {
    MatchingFrom(ms, filter);
  }

  lemma {:induction false} MatchingFrom(ms: seq<Message>, filter: string)
    ensures forall i :: 0 <= i < |Matching(ms, filter)| ==> Matching(ms, filter)[i] in ms
  {
    if ms != [] {
      MatchingFrom(ms[..|ms| - 1], filter);
    }
  }

  lemma {:induction false} DeadFrom(ps: seq<Pending>, maximum: int)
    ensures forall i :: 0 <= i < |Dead(ps, maximum)| ==> Dead(ps, maximum)[i] in ps
  {
    if ps != [] {
      DeadFrom(ps[..|ps| - 1], maximum);
    }
  }

  lemma DeadWithinLimits(ps: seq<Pending>, maximum: int, count: nat, now: int)
    requires AllWithinLimits(MessagesOf(ps))
    ensures AllWithinLimits(Stamp(MessagesOf(Dead(ps, maximum)), count, now))
  {
    hide Dead;
    DeadFrom(ps, maximum);
    var dead := Dead(ps, maximum);
    forall i | 0 <= i < |dead| ensures WithinLimits(Stamp(MessagesOf(dead), count, now)[i]) {
      var j :| 0 <= j < |ps| && ps[j] == dead[i];
      assert WithinLimits(MessagesOf(ps)[j]);
    }
  }

  lemma {:induction false} ChosenFrom(snapshots: map<string, Snapshot>, target: Target, ms: seq<Message>)
    requires target.ToSnapshot? ==> target.name in snapshots
    ensures forall i :: 0 <= i < |Chosen(snapshots, target, ms)| ==> Chosen(snapshots, target, ms)[i] in ms
  {
    if ms != [] {
      ChosenFrom(snapshots, target, ms[..|ms| - 1]);
    }
  }

  lemma BacklogWithinLimits(b: Broker, name: string, target: Target, order: seq<string>)
    requires Seekable(b, name, target) && Backlog(b, name, target, order).Success?
    ensures AllWithinLimits(Backlog(b, name, target, order).value)
  {
    hide WithinLimits, Chosen;
    var ms := Readable(Under(b.log, b.subscriptions[name].topic, order)).value;
    ChosenFrom(b.snapshots, target, ms);
  }

  /** The queue reaches its next state by the events that the action means for it. */
  ghost predicate Projects(b: Broker, a: Action, n: string)
    requires Possible(b, a) && n in b.queues
  {
    && n in Step(b, a).queues && b.issued <= Step(b, a).issued
    && Reaches(State(b.queues[n], b.issued), Projected(b, a, n), Step(b, a).queues[n], Step(b, a).issued)
  }

  lemma FanOutProjects(b: Broker, a: Action, n: string)
    requires Sane(b) && Possible(b, a) && n in b.queues && a.FannedOut?
    ensures Projects(b, a, n)
  {
    hide Reaches, Enqueue, AllWithinLimits, FreshIds, IdSet, FreshCopies, Inv, NewPending, Matching, IdsIn;
    var s, ms := State(b.queues[n], b.issued), Matching(a.f.messages, a.f.filter);
    MatchingWithinLimits(a.f.messages, a.f.filter);
    NewPendingFresh(ms, a.ids, b.issued);
    if a.f.subscription == n {
      OneEvent(s, Enqueued(NewPending(ms, a.ids)), b.issued + IdsIn(a.ids));
    } else {
      NoEvent(s, b.issued + IdsIn(a.ids));
    }
  }

  lemma SeekProjects(b: Broker, a: Action, n: string)
    requires Sane(b) && Possible(b, a) && n in b.queues && a.Sought?
    ensures Projects(b, a, n)
  {
    hide Reaches, ReplaceAll, AllWithinLimits, FreshIds, IdSet, FreshCopies, Inv, NewPending, Backlog, IdsIn,
      Enumerates;
    var s, name, target := State(b.queues[n], b.issued), a.name, a.target;
    NoEvent(s, b.issued);
    if Seekable(b, name, target) && Backlog(b, name, target, a.order).Success? {
      var ms := Backlog(b, name, target, a.order).value;
      BacklogWithinLimits(b, name, target, a.order);
      NewPendingFresh(ms, a.ids, b.issued);
      if name == n {
        OneEvent(s, Replaced(NewPending(ms, a.ids)), b.issued + IdsIn(a.ids));
      } else {
        NoEvent(s, b.issued + IdsIn(a.ids));
      }
    }
  }

  lemma UndeadProjects(b: Broker, a: Action, n: string)
    requires Sane(b) && Possible(b, a) && n in b.queues && a.DeadLettered?
    requires var policy := PolicyOf(b, a.name); policy.None? || Dead(a.batch, policy.value.maxAttempts) == []
    ensures Projects(b, a, n)
  {
    hide Reaches, Dead, Forwarded, Kept, Inv, AllWithinLimits;
    NothingToForward(b.queues, n);
    NoEvent(State(b.queues[n], b.issued), b.issued);
    var es: seq<Event> := [];
    assert es + [] == es;
  }

  lemma DeadLetterProjects(b: Broker, a: Action, n: string)
    requires Sane(b) && Possible(b, a) && n in b.queues && a.DeadLettered?
    requires var policy := PolicyOf(b, a.name); policy.Some? && Dead(a.batch, policy.value.maxAttempts) != []
    ensures Projects(b, a, n)
  {
    hide Reaches, Enqueue, QueueModel.Acknowledge, AllWithinLimits, FreshIds, FreshForwards, IdSet, FreshCopies, Inv,
      Dead,
      ForwardAll, Forwarded, AllIds, Kept, Visits, Stamp, MessagesOf, AckIdsOf, PolicyOf, Logged;
    var s, policy := State(b.queues[n], b.issued), PolicyOf(b, a.name);
    var dead := Dead(a.batch, policy.value.maxAttempts);
    var ms := Stamp(MessagesOf(dead), b.messageCount, a.now);
    var issued := b.issued + AllIds(a.copies);
    var (qs, r) := ForwardAll(b.queues, a.names, a.copies);
    var es := Forwarded(b.queues, a.names, a.copies, n);
    DeadWithinLimits(a.batch, policy.value.maxAttempts, b.messageCount, a.now);
    ForwardProjects(b.queues, a.names, a.copies, ms, b.issued, n);
    assert es + [] == es;
    if r.Success? && a.name == n {
      NoCopiesAreFresh(issued);
      OneMore(s, es, Acked(AckIdsOf(dead)), qs[n], issued, issued);
    }
  }

  lemma NothingToForward(queues: map<string, Queue>, n: string)
    ensures Forwarded(queues, [], [], n) == [] && AllIds([]) == {}
  {
  }

  lemma LeasingProjects(b: Broker, a: Action, n: string)
    requires Sane(b) && Possible(b, a) && n in b.queues && (a.LeasedBatch? || a.Acknowledged? || a.DeadlineSet?)
    ensures Projects(b, a, n)
  {
    hide Reaches, Pull, QueueModel.Acknowledge, Extend, IdSet, FreshCopies, Inv, Sane, Enumerates;
    var s := State(b.queues[n], b.issued);
    NoCopiesAreFresh(b.issued);
    NoEvent(s, b.issued);
    if a.name == n && (a.LeasedBatch? ==> n in b.subscriptions) {
      var e :=
        if a.LeasedBatch? then Pulled(a.now, a.max, b.subscriptions[n].ackDeadline, b.subscriptions[n].ordered, a.order)
        else if a.Acknowledged? then Acked(a.ids)
        else Extended(a.ids, a.now, a.duration);
      OneEvent(s, e, b.issued);
    }
  }

  lemma SnapshotProjects(b: Broker, a: Action, n: string)
    requires Sane(b) && Possible(b, a) && n in b.queues && a.SnapshotTaken?
    ensures Projects(b, a, n)
  {
    hide Reaches, Relist, IdSet, FreshCopies, Inv, Sane, Enumerates, Copies, Listing, IdsOf, MessagesOf;
    var s := State(b.queues[n], b.issued);
    NoCopiesAreFresh(b.issued);
    NoEvent(s, b.issued);
    OneEvent(s, Listed, b.issued);
  }

  lemma PublishProjects(b: Broker, a: Action, n: string)
    requires Sane(b) && Possible(b, a) && n in b.queues && a.Published?
    ensures Projects(b, a, n)
  {
    hide Reaches, Stamp, Logged, FanOuts, Inv, Sane, AllWithinLimits;
    NoEvent(State(b.queues[n], b.issued), b.issued);
  }

  /** On each queue, an action of the broker is a sequence of that queue's own events. */
  lemma StepProjects(b: Broker, a: Action, n: string)
    requires Sane(b) && Possible(b, a) && n in b.queues
    ensures Projects(b, a, n)
  {
    hide Projects, Sane, Possible, Dead;
    match a {
      case Published(_, _, _, _) => PublishProjects(b, a, n);
      case FannedOut(_, _) => FanOutProjects(b, a, n);
      case DeadLettered(name, batch, _, _, _) =>
        if PolicyOf(b, name).None? || Dead(batch, PolicyOf(b, name).value.maxAttempts) == [] {
          UndeadProjects(b, a, n);
        } else {
          DeadLetterProjects(b, a, n);
        }
      case SnapshotTaken(_, _, _, _) => SnapshotProjects(b, a, n);
      case Sought(_, _, _, _) => SeekProjects(b, a, n);
      case _ => LeasingProjects(b, a, n);
    }
  }

  // ----- Whole runs

  /** Every action of the list is possible when its turn comes. */
  ghost predicate Course(b: Broker, todo: seq<Action>)
    decreases |todo|, 0
  {
    todo == [] || (Course(b, todo[..|todo| - 1]) && Possible(After(b, todo[..|todo| - 1]), todo[|todo| - 1]))
  }

  ghost function After(b: Broker, done: seq<Action>): Broker
    requires Course(b, done)
    decreases |done|, 1
  {
    if done == [] then b else Step(After(b, done[..|done| - 1]), done[|done| - 1])
  }

  lemma RunOfOne(b: Broker, a: Action)
    requires Possible(b, a)
    ensures Course(b, [a]) && After(b, [a]) == Step(b, a)
  {
    hide Possible, Step;
    assert [a][..|[a]| - 1] == [];
  }

  lemma OneMoreAction(b: Broker, done: seq<Action>, a: Action)
    requires Course(b, done) && Possible(After(b, done), a)
    ensures Course(b, done + [a]) && After(b, done + [a]) == Step(After(b, done), a)
  {
    hide Possible, Step;
    assert (done + [a])[..|done + [a]| - 1] == done;
  }

  /** What happens to one queue during a run of the broker. */
  ghost function ProjectedRun(b: Broker, done: seq<Action>, n: string): seq<Event>
    requires Course(b, done)
  {
    if done == [] then []
    else
      var i := |done| - 1;
      ProjectedRun(b, done[..i], n) + Projected(After(b, done[..i]), done[i], n)
  }

  lemma {:induction false} ReachesOn(s: State, es: seq<Event>, q: Queue, issued: set<string>, fs: seq<Event>,
      q': Queue, issued': set<string>)
    requires Reaches(s, es, q, issued) && Reaches(State(q, issued), fs, q', issued')
    ensures Reaches(s, es + fs, q', issued')
    decreases |fs|
  {
    hide CanHappen, Apply, IdSet;
    if fs == [] {
      assert es + fs == es;
    } else {
      var i := |fs| - 1;
      var s1 := Run(State(q, issued), fs[..i]);
      ReachesOn(s, es, q, issued, fs[..i], s1.queue, s1.issued);
      OneMore(s, es + fs[..i], fs[i], s1.queue, s1.issued, issued');
      assert es + fs == es + fs[..i] + [fs[i]];
    }
  }

  lemma ReachesKeepsInv(s: State, es: seq<Event>, q: Queue, issued: set<string>)
    requires Inv(s) && Reaches(s, es, q, issued)
    ensures Inv(State(q, issued))
  {
    hide Legal, Run, Live, WellFormed;
    InvAlways(s, es);
  }

  lemma {:induction false} LoggedWithinLimits(log: map<string, Message>, topic: string, ms: seq<Message>)
    requires AllWithinLimits(ms) && forall k :: k in log ==> WithinLimits(log[k])
    ensures forall k :: k in Logged(log, topic, ms) ==> WithinLimits(Logged(log, topic, ms)[k])
  {
    hide WithinLimits, Key;
    if ms != [] {
      LoggedWithinLimits(log, topic, ms[..|ms| - 1]);
    }
  }

  lemma {:induction false} FanOutsCarry(subscriptions: map<string, Subscription>, names: seq<string>, ms: seq<Message>)
    requires forall n :: n in names ==> n in subscriptions
    ensures forall f :: f in FanOuts(subscriptions, names, ms) ==>
      f.subscription in names && f.messages == ms && f.filter == subscriptions[f.subscription].filter
  {
    if names != [] {
      FanOutsCarry(subscriptions, names[..|names| - 1], ms);
    }
  }

  lemma StampWithinLimits(ms: seq<Message>, count: nat, now: int)
    requires AllWithinLimits(ms)
    ensures AllWithinLimits(Stamp(ms, count, now))
  {
    forall i | 0 <= i < |ms| ensures WithinLimits(Stamp(ms, count, now)[i]) {
      assert WithinLimits(ms[i]);
    }
  }

  lemma PublishWithinLimits(b: Broker, a: Action)
    requires Sane(b) && Possible(b, a) && a.Published?
    ensures var b' := Step(b, a);
      && (forall f :: f in b'.fanOuts ==> AllWithinLimits(f.messages))
      && (forall k :: k in b'.log ==> WithinLimits(b'.log[k]))
  {
    hide WithinLimits, AllWithinLimits, Inv, Stamp, Logged, FanOuts;
    StampWithinLimits(a.messages, b.messageCount, a.now);
    LoggedWithinLimits(b.log, a.topic, Stamp(a.messages, b.messageCount, a.now));
    if a.topic in b.topics {
      FanOutsCarry(b.subscriptions, a.names, Stamp(a.messages, b.messageCount, a.now));
    }
  }

  lemma DeadLettersWithinLimits(b: Broker, a: Action)
    requires Sane(b) && Possible(b, a) && a.DeadLettered?
    ensures Step(b, a).fanOuts == b.fanOuts
    ensures forall k :: k in Step(b, a).log ==> WithinLimits(Step(b, a).log[k])
  {
    hide WithinLimits, AllWithinLimits, Inv, Stamp, Logged, FanOuts, Dead, Kept, ForwardAll, MessagesOf,
      DeadLettersForwarded, AllIds,
      Acknowledge, AckIdsOf;
    var policy := PolicyOf(b, a.name);
    if policy.Some? {
      var dead := Dead(a.batch, policy.value.maxAttempts);
      DeadWithinLimits(a.batch, policy.value.maxAttempts, b.messageCount, a.now);
      LoggedWithinLimits(b.log, policy.value.topic, Stamp(MessagesOf(dead), b.messageCount, a.now));
    }
  }

  /** The log and the message counter are as they were, and no fan-out is new. */
  ghost predicate StoreKept(b: Broker, b': Broker) {
    b'.log == b.log && b'.messageCount == b.messageCount && forall f :: f in b'.fanOuts ==> f in b.fanOuts
  }

  lemma SnapshotsKeepStore(b: Broker, a: Action)
    requires Possible(b, a) && (a.SnapshotTaken? || a.Sought?)
    ensures StoreKept(b, Step(b, a))
  {
    hide Possible, Relist, ReplaceAll, Backlog, NewPending, Copies, Listing, IdsOf, IdsIn, MessagesOf;
  }

  lemma LeasingKeepsStore(b: Broker, a: Action)
    requires Possible(b, a) && (a.LeasedBatch? || a.Acknowledged? || a.DeadlineSet?)
    ensures StoreKept(b, Step(b, a))
  {
    hide Possible, Pull, QueueModel.Acknowledge, Extend;
  }

  lemma FanOutKeepsStore(b: Broker, a: Action)
    requires Possible(b, a) && a.FannedOut?
    ensures StoreKept(b, Step(b, a))
  {
    hide Possible, Enqueue, Matching, NewPending, IdsIn;
  }

  lemma OthersKeepStore(b: Broker, a: Action)
    requires Possible(b, a) && !a.Published? && !a.DeadLettered?
    ensures StoreKept(b, Step(b, a))
  {
    hide Possible, Step, StoreKept;
    if a.FannedOut? {
      FanOutKeepsStore(b, a);
    } else if a.SnapshotTaken? || a.Sought? {
      SnapshotsKeepStore(b, a);
    } else {
      LeasingKeepsStore(b, a);
    }
  }

  /** What is on its way or in the log stays within the limits. */
  lemma StepWithinLimits(b: Broker, a: Action)
    requires Sane(b) && Possible(b, a)
    ensures var b' := Step(b, a);
      && (forall f :: f in b'.fanOuts ==> AllWithinLimits(f.messages))
      && (forall k :: k in b'.log ==> WithinLimits(b'.log[k]))
  {
    hide Possible, Step, WithinLimits, AllWithinLimits, Inv;
    match a {
      case Published(_, _, _, _) => PublishWithinLimits(b, a);
      case DeadLettered(_, _, _, _, _) => DeadLettersWithinLimits(b, a);
      case _ => OthersKeepStore(b, a);
    }
  }

  lemma {:induction false} ForwardKeepsNames(queues: map<string, Queue>, names: seq<string>, copies: seq<seq<Pending>>)
    requires |copies| == |names|
    ensures ForwardAll(queues, names, copies).0.Keys == queues.Keys
  {
    hide Enqueue;
    if names != [] {
      ForwardKeepsNames(queues, names[..|names| - 1], copies[..|names| - 1]);
    }
  }

  lemma DeadLettersKeepNames(b: Broker, a: Action)
    requires Possible(b, a) && a.DeadLettered?
    ensures Step(b, a).queues.Keys == b.queues.Keys
    ensures Step(b, a).subscriptions == b.subscriptions && Step(b, a).topics == b.topics
  {
    hide AllWithinLimits, DeadLettersForwarded, QueueModel.Acknowledge, ForwardAll, Dead, Kept, Stamp, Logged,
      AllIds, MessagesOf, AckIdsOf;
    ForwardKeepsNames(b.queues, a.names, a.copies);
  }

  ghost predicate SameNames(b: Broker, b': Broker) {
    b'.queues.Keys == b.queues.Keys && b'.subscriptions == b.subscriptions && b'.topics == b.topics
  }

  lemma SnapshotsKeepNames(b: Broker, a: Action)
    requires Possible(b, a) && (a.SnapshotTaken? || a.Sought?)
    ensures SameNames(b, Step(b, a))
  {
    hide Relist, ReplaceAll, Backlog, NewPending, Copies, Listing, IdsOf, IdsIn, MessagesOf, FreshIds;
  }

  lemma UpdateKeepsKeys(queues: map<string, Queue>, n: string, q: Queue)
    requires n in queues
    ensures queues[n := q].Keys == queues.Keys
  {
  }

  lemma PublishingKeepsNames(b: Broker, a: Action)
    requires Possible(b, a) && (a.Published? || a.FannedOut?)
    ensures SameNames(b, Step(b, a))
  {
    hide Possible, Enqueue, Stamp, Logged, FanOuts, Matching, NewPending, IdsIn, IdsOf;
  }

  lemma LeasingKeepsNames(b: Broker, a: Action)
    requires Possible(b, a) && (a.LeasedBatch? || a.Acknowledged? || a.DeadlineSet?)
    ensures SameNames(b, Step(b, a))
  {
    hide Possible, Pull, QueueModel.Acknowledge, Extend;
    if a.name in b.queues {
      assert b.queues[a.name := Step(b, a).queues[a.name]] == Step(b, a).queues;
      UpdateKeepsKeys(b.queues, a.name, Step(b, a).queues[a.name]);
    }
  }

  /** Topics, subscriptions and the names of the queues never change. */
  lemma StepKeepsNames(b: Broker, a: Action)
    requires Possible(b, a)
    ensures Step(b, a).queues.Keys == b.queues.Keys
    ensures Step(b, a).subscriptions == b.subscriptions && Step(b, a).topics == b.topics
  {
    hide Possible, Step;
    if a.DeadLettered? {
      DeadLettersKeepNames(b, a);
    } else if a.SnapshotTaken? || a.Sought? {
      SnapshotsKeepNames(b, a);
    } else if a.Published? || a.FannedOut? {
      PublishingKeepsNames(b, a);
    } else {
      LeasingKeepsNames(b, a);
    }
  }

  lemma StepKeepsSane(b: Broker, a: Action)
    requires Sane(b) && Possible(b, a)
    ensures Sane(Step(b, a))
  {
    hide Possible, Step, Reaches, Projected, Inv, AllWithinLimits, WithinLimits;
    StepWithinLimits(b, a);
    StepKeepsNames(b, a);
    forall n | n in Step(b, a).queues ensures Inv(State(Step(b, a).queues[n], Step(b, a).issued)) {
      StepProjects(b, a, n);
      ReachesKeepsInv(State(b.queues[n], b.issued), Projected(b, a, n), Step(b, a).queues[n], Step(b, a).issued);
    }
  }

  lemma {:induction false} SaneAlways(b: Broker, done: seq<Action>)
    requires Sane(b) && Course(b, done)
    ensures Sane(After(b, done)) && After(b, done).queues.Keys == b.queues.Keys
    ensures After(b, done).subscriptions == b.subscriptions && After(b, done).topics == b.topics
  {
    hide Sane, Possible, Step;
    if done != [] {
      var i := |done| - 1;
      SaneAlways(b, done[..i]);
      StepKeepsSane(After(b, done[..i]), done[i]);
      StepKeepsNames(After(b, done[..i]), done[i]);
    }
  }

  /**
   A run of the broker is, on each of its queues, a run of that queue: all that holds of every run
   of a queue holds of every queue of every run of the broker.
   */
  lemma {:induction false} RunProjects(b: Broker, done: seq<Action>, n: string)
    requires Sane(b) && Course(b, done) && n in b.queues
    ensures n in After(b, done).queues
    ensures Reaches(State(b.queues[n], b.issued), ProjectedRun(b, done, n), After(b, done).queues[n],
      After(b, done).issued)
  {
    hide Sane, Possible, Step, Reaches, Projected;
    SaneAlways(b, done);
    var s := State(b.queues[n], b.issued);
    if done == [] {
      NoEvent(s, b.issued);
    } else {
      var i := |done| - 1;
      var b1 := After(b, done[..i]);
      RunProjects(b, done[..i], n);
      SaneAlways(b, done[..i]);
      StepProjects(b1, done[i], n);
      var b2 := After(b, done);
      ReachesOn(s, ProjectedRun(b, done[..i], n), b1.queues[n], b1.issued, Projected(b1, done[i], n), b2.queues[n],
        b2.issued);
    }
  }
}
