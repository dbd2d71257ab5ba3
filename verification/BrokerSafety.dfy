/**
 Safety of the whole broker, in every state of every run: no record is held by two queues, a queue
 changes only by actions addressed to it, and an ack ID that has been acknowledged is gone from the
 whole broker.
 */
module BrokerSafety {
  import opened QueueModel
  import opened QueueLaws
  import opened QueueRuns
  import opened BrokerModel
  import opened BrokerRuns
  import OrderingRuns
  import DeadLetters

  // ----- Which ack IDs an action brings to a queue

  function NewIds(es: seq<Event>): set<string> {
    if es == [] then {} else NewIds(es[..|es| - 1]) + IdSet(NewCopies(es[|es| - 1]))
  }

  lemma NewIdsMore(es: seq<Event>, e: Event)
    ensures NewIds(es + [e]) == NewIds(es) + IdSet(NewCopies(e))
  {
    assert (es + [e])[..|es|] == es;
  }

  lemma NewIdsOne(e: Event)
    ensures NewIds([e]) == IdSet(NewCopies(e)) && NewIds([]) == {} && IdSet([]) == {}
  {
    assert [e][..|[e]| - 1] == [];
  }

  /** A queue holds what it held, or new copies. */
  lemma {:induction false} LiveFrom(s: State, es: seq<Event>)
    requires Inv(s) && Legal(s, es)
    ensures Live(Run(s, es).queue) <= Live(s.queue) + NewIds(es)
  {
    hide CanHappen, Inv, Live, IdSet, WellFormed, Apply, Leaving, Dropped, Entering, Delivered, Overflows;
    if es != [] {
      var i := |es| - 1;
      LiveFrom(s, es[..i]);
      InvAlways(s, es[..i]);
      StepBalances(Run(s, es[..i]), es[i]);
    }
  }

  lemma FreshAreNew(ids: seq<string>, issued: set<string>)
    requires FreshIds(ids, issued)
    ensures IdsIn(ids) !! issued
  {
  }

  lemma {:induction false} ForwardedApart(
    queues: map<string, Queue>, names: seq<string>, copies: seq<seq<Pending>>, ms: seq<Message>, issued: set<string>,
    n: string, m: string)
    requires |copies| == |names| && FreshForwards(copies, ms, issued) && n != m
    ensures var ns, ms := NewIds(Forwarded(queues, names, copies, n)), NewIds(Forwarded(queues, names, copies, m));
      ns !! ms && ns <= AllIds(copies) && ms <= AllIds(copies) && AllIds(copies) !! issued
  {
    hide IdSet, IdsIn, AckIdsOf, FreshIds, Enqueue, NewIds, ForwardAll, NewPending;
    NewIdsOne(Listed);
    if names != [] {
      var i := |names| - 1;
      var es, fs := Forwarded(queues, names[..i], copies[..i], n), Forwarded(queues, names[..i], copies[..i], m);
      ForwardedApart(queues, names[..i], copies[..i], ms, issued, n, m);
      CopiesAreTheirIds(copies[i]);
      FreshAreNew(AckIdsOf(copies[i]), issued + AllIds(copies[..i]));
      NewIdsMore(es, Enqueued(copies[i]));
      NewIdsMore(fs, Enqueued(copies[i]));
      assert es + [] == es && fs + [] == fs;
    }
  }

  lemma DeadLetterApart(b: Broker, a: Action, n: string, m: string)
    requires Possible(b, a) && n != m && a.DeadLettered?
    ensures NewIds(Projected(b, a, n)) !! NewIds(Projected(b, a, m)) && NewIds(Projected(b, a, n)) !! b.issued
  {
    hide IdSet, FreshForwards, NewIds, Forwarded, AllIds, AllWithinLimits, Kept, Dead, Stamp, MessagesOf, AckIdsOf,
      Visits, ForwardAll;
    NewIdsOne(Listed);
    var es, fs := Forwarded(b.queues, a.names, a.copies, n), Forwarded(b.queues, a.names, a.copies, m);
    var policy := PolicyOf(b, a.name);
    assert es + [] == es && fs + [] == fs;
    if policy.Some? && Dead(a.batch, policy.value.maxAttempts) != [] {
      var dead := Dead(a.batch, policy.value.maxAttempts);
      ForwardedApart(b.queues, a.names, a.copies, Stamp(MessagesOf(dead), b.messageCount, a.now), b.issued, n, m);
      NewIdsMore(es, Acked(AckIdsOf(dead)));
      NewIdsMore(fs, Acked(AckIdsOf(dead)));
    } else {
      NothingToForward(b.queues, n);
      NothingToForward(b.queues, m);
    }
  }

  /** No action brings one ack ID to two queues, or one that was issued before. */
  lemma ProjectedApart(b: Broker, a: Action, n: string, m: string)
    requires Sane(b) && Possible(b, a) && n != m
    ensures NewIds(Projected(b, a, n)) !! NewIds(Projected(b, a, m)) && NewIds(Projected(b, a, n)) !! b.issued
  {
    hide IdSet, FreshIds, IdsIn, NewIds, Forwarded, AllWithinLimits, Matching, Backlog, DeadLettersForwarded, Sane,
      Enumerates, NewPending;
    NewIdsOne(Listed);
    match a {
      case FannedOut(f, ids) =>
        var ps := NewPending(Matching(f.messages, f.filter), ids);
        NewIdsOne(Enqueued(ps));
        NewPendingIds(Matching(f.messages, f.filter), ids);
        FreshAreNew(ids, b.issued);
      case Sought(name, target, order, ids) =>
        if Seekable(b, name, target) && Backlog(b, name, target, order).Success? {
          var ms := Backlog(b, name, target, order).value;
          NewIdsOne(Replaced(NewPending(ms, ids)));
          NewPendingIds(ms, ids);
          FreshAreNew(ids, b.issued);
        }
      case DeadLettered(_, _, _, _, _) =>
        DeadLetterApart(b, a, n, m);
      case LeasedBatch(name, max, now, order) =>
        if name in b.subscriptions {
          NewIdsOne(Pulled(now, max, b.subscriptions[name].ackDeadline, b.subscriptions[name].ordered, order));
        }
      case Acknowledged(_, ids) => NewIdsOne(Acked(ids));
      case DeadlineSet(_, ids, now, duration) => NewIdsOne(Extended(ids, now, duration));
      case _ =>
    }
  }

  lemma NewPendingIds(ms: seq<Message>, ids: seq<string>)
    requires |ids| == |ms|
    ensures IdSet(NewPending(ms, ids)) == IdsIn(ids)
  {
    CopiesAreTheirIds(NewPending(ms, ids));
    assert AckIdsOf(NewPending(ms, ids)) == ids;
  }

  // ----- No record in two queues

  /** No ack ID is held by two queues. */
  ghost predicate Separate(b: Broker) {
    forall n, m :: n in b.queues && m in b.queues && n != m ==> Live(b.queues[n]) !! Live(b.queues[m])
  }

  lemma StepLive(b: Broker, a: Action, n: string)
    requires Sane(b) && Possible(b, a) && n in b.queues
    ensures n in Step(b, a).queues && Live(Step(b, a).queues[n]) <= Live(b.queues[n]) + NewIds(Projected(b, a, n))
  {
    hide Possible, Step, Projected, Live, WellFormed, NewIds;
    StepProjects(b, a, n);
    LiveFrom(State(b.queues[n], b.issued), Projected(b, a, n));
  }

  lemma LiveIsIssued(b: Broker, n: string)
    requires Sane(b) && n in b.queues
    ensures Live(b.queues[n]) <= b.issued
  {
    hide Live, WellFormed, AllWithinLimits, WithinLimits;
    assert Inv(State(b.queues[n], b.issued));
  }

  lemma StepKeepsSeparate(b: Broker, a: Action)
    requires Sane(b) && Separate(b) && Possible(b, a)
    ensures Separate(Step(b, a))
  {
    hide Sane, Possible, Step, Projected, Live, NewIds;
    StepKeepsNames(b, a);
    forall n, m | n in b.queues && m in b.queues && n != m
      ensures Live(Step(b, a).queues[n]) !! Live(Step(b, a).queues[m])
    {
      StepLive(b, a, n);
      StepLive(b, a, m);
      LiveIsIssued(b, n);
      LiveIsIssued(b, m);
      ProjectedApart(b, a, n, m);
      ProjectedApart(b, a, m, n);
    }
  }

  /** In every state of every run, each record is held by one queue only. */
  lemma {:induction false} SeparateAlways(b: Broker, done: seq<Action>)
    requires Sane(b) && Separate(b) && Course(b, done)
    ensures Separate(After(b, done))
  {
    hide Sane, Possible, Step, Separate;
    if done != [] {
      SeparateAlways(b, done[..|done| - 1]);
      SaneAlways(b, done[..|done| - 1]);
      StepKeepsSeparate(After(b, done[..|done| - 1]), done[|done| - 1]);
    }
  }

  lemma CreationKeepsSeparate(b: Broker, name: string, sub: Subscription, queueSize: nat)
    requires Separate(b)
    ensures Separate(CreateSubscription(b, name, sub, queueSize).0)
  {
    hide IdSet;
    NewIdsOne(Listed);
  }

  // ----- Conservation

  /**
   Every queue of every run of the broker holds exactly what it held, plus the copies for which
   there was room, minus what was acknowledged or replaced, and minus what a Pull found no room for.
   */
  lemma ConservationEverywhere(b: Broker, done: seq<Action>, n: string)
    requires Sane(b) && Course(b, done) && n in b.queues
    ensures var s, es := State(b.queues[n], b.issued), ProjectedRun(b, done, n);
      && n in After(b, done).queues
      && Live(After(b, done).queues[n]) == (Live(b.queues[n]) + Entered(s, es)) - (Left(s, es) + Lost(s, es))
      && (Lost(s, es) == {} <==> !EverOverflows(s, es))
  {
    hide Course, After, ProjectedRun, Live, WellFormed, Entered, Left, Lost, EverOverflows, Run, Legal;
    RunProjects(b, done, n);
    Conservation(State(b.queues[n], b.issued), ProjectedRun(b, done, n));
  }

  // ----- Finality

  lemma RunFromStart(s: State, es: seq<Event>)
    ensures Run(s, es[..0]) == s && es[..|es|] == es
  {
  }

  /** An ack ID that was issued and is in no queue never gets into one. */
  lemma GoneEverywhere(b: Broker, done: seq<Action>, n: string, id: string)
    requires Sane(b) && Course(b, done) && n in b.queues && id in b.issued && id !in Live(b.queues[n])
    ensures n in After(b, done).queues && id !in Live(After(b, done).queues[n])
  {
    hide Course, After, ProjectedRun, Live, WellFormed, Run, Legal;
    var s, es := State(b.queues[n], b.issued), ProjectedRun(b, done, n);
    RunProjects(b, done, n);
    RunFromStart(s, es);
    GoneForGood(s, es, 0, |es|, id);
  }

  /** The messages that an action hands out to a consumer. */
  ghost function HandedOut(b: Broker, a: Action): seq<Pending>
    requires Possible(b, a)
  {
    match a
    case LeasedBatch(name, max, now, order) =>
      var r := PullFrom(b, name, max, now, order).1;
      if r.Success? then r.value else []
    case _ => []
  }

  lemma HandedOutIsLive(b: Broker, a: Action)
    requires Sane(b) && Possible(b, a)
    ensures HandedOut(b, a) != [] ==> a.LeasedBatch? && a.name in b.queues
    ensures HandedOut(b, a) != [] ==> IdSet(HandedOut(b, a)) <= Live(b.queues[a.name])
  {
    hide IdSet, Live, Pull, Enumerates, WellFormed;
    if a.LeasedBatch? && a.name in b.queues && a.name in b.subscriptions {
      var sub := b.subscriptions[a.name];
      assert Inv(State(b.queues[a.name], b.issued));
      PullKeeps(b.queues[a.name], a.now, a.max, sub.ackDeadline, sub.ordered, a.order);
    }
  }

  /**
   The ack IDs that an action ends: acknowledged while leased, also as dead letters, or held when a
   Seek replaces the queue.
   */
  ghost function Ended(b: Broker, a: Action): set<string>
    requires Possible(b, a)
  {
    match a
    case Acknowledged(name, ids) => if name in b.queues then IdsIn(ids) * b.queues[name].inFlight.Keys else {}
    case Sought(name, target, order, _) =>
      if Seekable(b, name, target) && Backlog(b, name, target, order).Success? && name in b.queues
        then Live(b.queues[name]) else {}
    case DeadLettered(name, batch, _, _, _) =>
      if DeadLetters.HasDead(b, a) && DeadLetters.Outcome(b, a).Success? && name in b.queues
      then IdSet(Dead(batch, PolicyOf(b, name).value.maxAttempts)) * b.queues[name].inFlight.Keys else {}
    case _ => {}
  }

  lemma AcknowledgedIsGone(q: Queue, ids: seq<string>, id: string)
    requires WellFormed(q) && id in ids && id in q.inFlight
    ensures id !in Live(Acknowledge(q, ids))
  {
  }

  lemma ReplacedIsGone(s: State, ps: seq<Pending>, id: string)
    requires Inv(s) && FreshCopies(s.issued, ps) && id in Live(s.queue)
    ensures id !in Live(ReplaceAll(s.queue, ps).0)
  {
    hide IdSet, Live, WellFormed, ReplaceAll, FreshCopies, Overflows;
    ReplaceBalances(s, ps);
    EnteringIsNew(s.issued, s.queue, ps);
  }

  lemma EnteringIsNew(issued: set<string>, q: Queue, ps: seq<Pending>)
    requires FreshCopies(issued, ps)
    ensures Entering(q, Replaced(ps)) !! issued && Dropped(q, Replaced(ps)) == {} && Leaving(q, Replaced(ps)) == Live(q)
  {
    SplitAt(ps, Empty(q.capacity).Room(|ps|));
  }

  lemma SoughtIsGone(b: Broker, a: Action, id: string)
    requires Sane(b) && Possible(b, a) && a.Sought? && id in Ended(b, a)
    ensures a.name in b.queues && id in Live(b.queues[a.name]) && id !in Live(Step(b, a).queues[a.name])
  {
    hide Live, WellFormed, ReplaceAll, FreshCopies, FreshIds, NewPending, Backlog, AllWithinLimits, IdSet, IdsIn;
    var ms := Backlog(b, a.name, a.target, a.order).value;
    BacklogWithinLimits(b, a.name, a.target, a.order);
    NewPendingFresh(ms, a.ids, b.issued);
    ReplacedIsGone(State(b.queues[a.name], b.issued), NewPending(ms, a.ids), id);
  }

  lemma DeadIsGone(b: Broker, a: Action, id: string)
    requires Sane(b) && Possible(b, a) && a.DeadLettered? && id in Ended(b, a)
    ensures a.name in b.queues && a.name in Step(b, a).queues
    ensures id in Live(b.queues[a.name]) && id !in Live(Step(b, a).queues[a.name])
  {
    hide Step, Dead, ForwardAll, Forwarded, FreshForwards, AllIds, Stamp, MessagesOf, Reaches, WellFormed,
      AllWithinLimits, WithinLimits, QueueModel.Acknowledge, DeadLettersForwarded, HandleDeadLetters, IdSet;
    var n, dead := a.name, Dead(a.batch, PolicyOf(b, a.name).value.maxAttempts);
    DeadLetters.HandOffQueues(b, a);
    DeadLetters.ForwardKeepsLeases(b.queues, a.names, a.copies, n);
    var q1 := ForwardAll(b.queues, a.names, a.copies).0[n];
    DeadWithinLimits(a.batch, PolicyOf(b, n).value.maxAttempts, b.messageCount, a.now);
    ForwardProjects(b.queues, a.names, a.copies, DeadLetters.Reissued(b, a), b.issued, n);
    ReachesKeepsInv(State(b.queues[n], b.issued), Forwarded(b.queues, a.names, a.copies, n), q1,
      b.issued + AllIds(a.copies));
    CopiesAreTheirIds(dead);
    AcknowledgedIsGone(q1, AckIdsOf(dead), id);
  }

  lemma WaitingIsLive(q: Queue, id: string)
    requires WellFormed(q)
    ensures id in IdSet(q.channel) ==> id in Live(q) && id !in q.inFlight
    ensures id in Live(q) <==> id in IdSet(q.channel) || id in q.inFlight
  {
    hide IdSet, Distinct, Waiting, Leased;
  }

  lemma WaitingStays(q: Queue, q': Queue, id: string)
    requires q.channel <= q'.channel && id in IdSet(q.channel)
    ensures id in IdSet(q'.channel) && id in Live(q')
  {
    var i := RecordWithId(q.channel, id);
    assert q'.channel[i] == q.channel[i];
  }

  lemma HandOffKeepsChannel(b: Broker, a: Action)
    requires Possible(b, a) && DeadLetters.HasDead(b, a) && DeadLetters.Outcome(b, a).Success?
    ensures a.name in b.queues && a.name in Step(b, a).queues
    ensures b.queues[a.name].channel <= Step(b, a).queues[a.name].channel
  {
    hide Possible, Step, Dead, ForwardAll, DeadLetters.Outcome, QueueModel.Acknowledge, AckIdsOf;
    DeadLetters.HandOffQueues(b, a);
    ForwardKeepsNames(b.queues, a.names, a.copies);
    DeadLetters.ForwardKeepsLeases(b.queues, a.names, a.copies, a.name);
    DeadLetters.AcknowledgedQueue(ForwardAll(b.queues, a.names, a.copies).0[a.name],
      AckIdsOf(Dead(a.batch, PolicyOf(b, a.name).value.maxAttempts)));
  }

  /**
   After a successful hand-off a dead message is still held by the source if and only if it waited
   there before, its lease taken back since the batch was made; it waits there still, although its
   copies are pending under the dead-letter topic.
   */
  lemma DeadIdAtSource(b: Broker, a: Action, id: string)
    requires Sane(b) && Possible(b, a) && DeadLetters.HasDead(b, a) && DeadLetters.Outcome(b, a).Success?
    requires id in IdSet(Dead(a.batch, PolicyOf(b, a.name).value.maxAttempts)) && id in b.issued
    ensures a.name in b.queues && a.name in Step(b, a).queues
    ensures id in Live(Step(b, a).queues[a.name]) <==> id in IdSet(b.queues[a.name].channel)
    ensures id in IdSet(b.queues[a.name].channel) ==> id in IdSet(Step(b, a).queues[a.name].channel)
  {
    hide Possible, Step, Dead, IdSet, Live, WellFormed, DeadLetters.Outcome, AllWithinLimits, WithinLimits;
    HandOffKeepsChannel(b, a);
    assert Inv(State(b.queues[a.name], b.issued));
    WaitingIsLive(b.queues[a.name], id);
    if id in b.queues[a.name].inFlight {
      DeadIsGone(b, a, id);
    } else if id in IdSet(b.queues[a.name].channel) {
      WaitingStays(b.queues[a.name], Step(b, a).queues[a.name], id);
    } else {
      RunOfOne(b, a);
      GoneEverywhere(b, [a], a.name, id);
    }
  }

  /** What is ended was held by the queue that the action addresses, and is not held there any more. */
  lemma EndedIsGone(b: Broker, a: Action, id: string)
    requires Sane(b) && Possible(b, a) && id in Ended(b, a)
    ensures (a.Acknowledged? || a.Sought? || a.DeadLettered?) && a.name in b.queues && a.name in Step(b, a).queues
    ensures id in Live(b.queues[a.name]) && id !in Live(Step(b, a).queues[a.name])
  {
    hide ReplaceAll, Seek, WithinLimits, Backlog;
    StepKeepsNames(b, a);
    if a.Acknowledged? {
      assert Inv(State(b.queues[a.name], b.issued));
      AcknowledgedIsGone(b.queues[a.name], a.ids, id);
    } else if a.Sought? {
      SoughtIsGone(b, a, id);
    } else {
      DeadIsGone(b, a, id);
    }
  }

  /**
   An ack ID that was acknowledged while leased, dead letters included, or live when a Seek replaced
   its queue, is in no queue of the broker in any later state, is in no batch that any later action hands out, and
   acknowledging or extending it anywhere changes nothing.
   */
  lemma EndedForGood(b: Broker, a: Action, id: string, done: seq<Action>, next: Action, n: string, d: int)
    requires Sane(b) && Separate(b) && Possible(b, a) && id in Ended(b, a)
    requires Course(Step(b, a), done) && Possible(After(Step(b, a), done), next) && n in b.queues
    ensures var b' := After(Step(b, a), done);
      && n in b'.queues && id !in Live(b'.queues[n])
      && id !in IdSet(HandedOut(b', next))
      && AcknowledgeIn(b', n, [id]).0 == b' && ExtendIn(b', n, [id], d).0 == b'
  {
    hide Possible, Step, After, Course, Live, IdSet, Sane, HandedOut, Ended, Acknowledge, Extend, Separate;
    var b1 := Step(b, a);
    var b' := After(b1, done);
    EndedIsGone(b, a, id);
    StepKeepsSane(b, a);
    SaneAlways(b1, done);
    forall m | m in b'.queues ensures id !in Live(b'.queues[m]) {
      EndedNotElsewhere(b, a, id, m);
      GoneEverywhere(b1, done, m, id);
    }
    HandedOutIsLive(b', next);
    NewIdsOne(Listed);
    assert n in b'.queues by { StepKeepsNames(b, a); }
    NotLive(b'.queues[n], id, d);
    assert b'.queues[n := b'.queues[n]] == b'.queues;
  }

  lemma NotLive(q: Queue, id: string, d: int)
    requires id !in Live(q)
    ensures Acknowledge(q, [id]) == q && Extend(q, [id], d) == q
  {
    NotLeased(q, id);
  }

  lemma EndedNotElsewhere(b: Broker, a: Action, id: string, m: string)
    requires Sane(b) && Separate(b) && Possible(b, a) && id in Ended(b, a) && m in Step(b, a).queues
    ensures id in Step(b, a).issued && id !in Live(Step(b, a).queues[m])
  {
    hide Possible, Step, Live, Sane, Ended, NewIds, Projected;
    StepKeepsNames(b, a);
    EndedIsGone(b, a, id);
    LiveIsIssued(b, a.name);
    StepProjects(b, a, a.name);
    if m != a.name {
      StepLive(b, a, m);
      ProjectedApart(b, a, m, a.name);
    }
  }

  // ----- Separation

  /** Can an action change the queue of this subscription? */
  predicate Addresses(b: Broker, a: Action, n: string) {
    match a
    case Published(_, _, _, _) => false
    case FannedOut(f, _) => f.subscription == n
    case DeadLettered(name, _, _, _, _) =>
      PolicyOf(b, name).Some? && (name == n || n in Subscribers(b.subscriptions, PolicyOf(b, name).value.topic))
    case LeasedBatch(name, _, _, _) => name == n
    case Acknowledged(name, _) => name == n
    case DeadlineSet(name, _, _, _) => name == n
    case SnapshotTaken(_, name, _, _) => name == n
    case Sought(name, _, _, _) => name == n
  }

  lemma {:induction false} ForwardedElsewhere(queues: map<string, Queue>, names: seq<string>,
      copies: seq<seq<Pending>>, n: string)
    requires |copies| == |names| && n !in names
    ensures Forwarded(queues, names, copies, n) == []
  {
    hide ForwardAll;
    if names != [] {
      ForwardedElsewhere(queues, names[..|names| - 1], copies[..|names| - 1], n);
    }
  }

  /** An action leaves every queue that it does not address as it is. */
  lemma OthersUntouched(b: Broker, a: Action, n: string)
    requires Sane(b) && Possible(b, a) && n in b.queues && !Addresses(b, a, n)
    ensures n in Step(b, a).queues && Step(b, a).queues[n] == b.queues[n]
  {
    hide Sane, Step, Forwarded, Backlog, Matching, AllWithinLimits, FreshForwards, FreshIds, HandleDeadLetters, Dead;
    if a.DeadLettered? {
      ForwardedElsewhere(b.queues, a.names, a.copies, n);
    }
    assert Projected(b, a, n) == [];
    StepProjects(b, a, n);
  }

  // ----- Ordering keys

  lemma {:induction false} ForwardedIsUnordered(queues: map<string, Queue>, names: seq<string>,
      copies: seq<seq<Pending>>, n: string)
    requires |copies| == |names|
    ensures OrderingRuns.AlwaysOrdered(Forwarded(queues, names, copies, n))
  {
    hide ForwardAll;
    if names != [] {
      ForwardedIsUnordered(queues, names[..|names| - 1], copies[..|names| - 1], n);
    }
  }

  /** An ordered subscription is only ever pulled in order. */
  lemma ProjectedIsOrdered(b: Broker, a: Action, n: string)
    requires Possible(b, a) && n in b.subscriptions && b.subscriptions[n].ordered
    ensures OrderingRuns.AlwaysOrdered(Projected(b, a, n))
  {
    hide Possible, Forwarded, Matching, Backlog, NewPending, Dead, AckIdsOf, ForwardAll;
    if a.DeadLettered? {
      DeadLettersUnordered(b, a, n);
    }
  }

  lemma DeadLettersUnordered(b: Broker, a: Action, n: string)
    requires Possible(b, a) && a.DeadLettered?
    ensures OrderingRuns.AlwaysOrdered(Projected(b, a, n))
  {
    hide Forwarded, Dead, AckIdsOf, ForwardAll, DeadLettersForwarded, AllWithinLimits;
    ForwardedIsUnordered(b.queues, a.names, a.copies, n);
  }

  lemma {:induction false} RunIsOrdered(b: Broker, done: seq<Action>, n: string)
    requires Sane(b) && Course(b, done) && n in b.subscriptions && b.subscriptions[n].ordered
    ensures OrderingRuns.AlwaysOrdered(ProjectedRun(b, done, n))
  {
    hide Sane, Possible, Step, Projected;
    if done != [] {
      var i := |done| - 1;
      RunIsOrdered(b, done[..i], n);
      SaneAlways(b, done[..i]);
      ProjectedIsOrdered(After(b, done[..i]), done[i], n);
    }
  }

  /** In every run of the broker, no two leases of an ordered subscription share an ordering key. */
  lemma OneLeasePerKeyEverywhere(b: Broker, done: seq<Action>, n: string)
    requires Sane(b) && Course(b, done) && n in b.queues && n in b.subscriptions && b.subscriptions[n].ordered
    requires OrderingRuns.KeyExclusive(b.queues[n].inFlight)
    ensures n in After(b, done).queues && OrderingRuns.KeyExclusive(After(b, done).queues[n].inFlight)
  {
    hide Course, After, ProjectedRun, Live, WellFormed, Run, Legal, OrderingRuns.AlwaysOrdered,
      OrderingRuns.KeyExclusive;
    RunProjects(b, done, n);
    RunIsOrdered(b, done, n);
    OrderingRuns.OneLeasePerKey(State(b.queues[n], b.issued), ProjectedRun(b, done, n));
  }
}
