/**
 What the use cases around leases do, said of the broker before and after: pulling, serving a request,
 acknowledging and setting deadlines; and that a lease holds until its deadline, whatever else happens.
 */
module LeaseLaws {
  import opened Text
  import opened QueueModel
  import opened QueueLaws
  import opened QueueRuns
  import opened BrokerModel
  import opened BrokerRuns
  import opened BrokerSafety
  import opened PullLaws
  import opened Sublists
  import DeadLetters

  /** The other subscriptions, and all that is not a queue, are as they were. */
  ghost predicate OnlyQueue(b: Broker, b': Broker, n: string) {
    && b'.topics == b.topics && b'.subscriptions == b.subscriptions && b'.log == b.log && b'.snapshots == b.snapshots
    && b'.messageCount == b.messageCount && b'.issued == b.issued && b'.fanOuts == b.fanOuts
    && (forall m :: m in b'.queues <==> m in b.queues)
    && (forall m :: m in b.queues && m != n ==> b'.queues[m] == b.queues[m])
  }

  // ----- Pull

  /** A Pull of at most `max` messages of a subscription: its queue hands them out; an error if it does not exist. */
  ghost predicate Pulls(b: Broker, b': Broker, n: string, max: int, now: int, r: Result<seq<Pending>>) {
    if n !in b.subscriptions || n !in b.queues then b' == b && r == Failure(NotFound)
    else
      && OnlyQueue(b, b', n) && r.Success?
      && HandsOut(b.queues[n], b'.queues[n], now, max, b.subscriptions[n].ackDeadline, b.subscriptions[n].ordered,
        r.value)
  }

  lemma PullMeans(b: Broker, n: string, max: int, now: int, order: seq<string>)
    requires Sane(b) && Possible(b, LeasedBatch(n, max, now, order))
    ensures Pulls(b, PullFrom(b, n, max, now, order).0, n, max, now, PullFrom(b, n, max, now, order).1)
  {
    hide Pull, HandsOut, Tidy, WellFormed, AllWithinLimits, WithinLimits, Live, Enumerates;
    if n in b.subscriptions && n in b.queues {
      var sub := b.subscriptions[n];
      assert Inv(State(b.queues[n], b.issued));
      TidyIs(b.queues[n]);
      PullHandsOut(b.queues[n], now, max, sub.ackDeadline, sub.ordered, order);
    }
  }

  lemma HandedOutMeans(b: Broker, a: Action)
    requires Sane(b) && Possible(b, a) && a.LeasedBatch? && a.name in b.subscriptions && a.name in b.queues
    ensures Pulls(b, Step(b, a), a.name, a.max, a.now, Success(HandedOut(b, a)))
  {
    hide Sane, HandsOut, OnlyQueue, Pull, Enumerates;
    PullMeans(b, a.name, a.max, a.now, a.order);
  }

  // ----- A Pull request

  /** The messages of a batch that the dead-letter policy lets through: with fewer attempts than its maximum. */
  ghost predicate Survive(batch: seq<Pending>, policy: Option<DeadLetterPolicy>, out: seq<Pending>) {
    if policy.None? then out == batch
    else exists at ::
      && Picks(batch, out, at)
      && forall j :: 0 <= j < |batch| ==>
        (j in at <==> policy.value.maxAttempts <= 0 || batch[j].attempt < policy.value.maxAttempts)
  }

  /** A request for at most `max` messages, a hundred if it does not say how many. */
  lemma ServeDefault(b: Broker, n: string, max: int, now: int, order: seq<string>, later: int, names: seq<string>,
      copies: seq<seq<Pending>>)
    requires |copies| == |names|
    ensures max <= 0 ==>
      Serve(b, n, max, now, order, later, names, copies) == Serve(b, n, 100, now, order, later, names, copies)
    ensures var (b', batch) := PullFrom(b, n, if max <= 0 then 100 else max, now, order);
      Serve(b, n, max, now, order, later, names, copies) ==
        if batch.Failure? then (b', batch) else HandleDeadLetters(b', n, batch.value, later, names, copies)
  {
    hide PullFrom, HandleDeadLetters;
  }

  lemma SurvivorsAnswer(b: Broker, n: string, batch: seq<Pending>, now: int, names: seq<string>,
        copies: seq<seq<Pending>>)
    requires |copies| == |names|
    ensures var r := HandleDeadLetters(b, n, batch, now, names, copies).1;
      var policy := if n in b.subscriptions then b.subscriptions[n].deadLetter else None;
      r.Success? ==> Survive(batch, policy, r.value)
  {
    hide Kept, Dead, ForwardDead, Picks;
    if n in b.subscriptions && b.subscriptions[n].deadLetter.Some? {
      var at := DeadLetters.KeptInOrder(batch, b.subscriptions[n].deadLetter.value.maxAttempts);
    }
  }

  // ----- Acknowledging and setting deadlines

  /** The given leases are gone, all else is as it was; an error if the subscription does not exist. */
  ghost predicate Acknowledges(b: Broker, b': Broker, n: string, ids: seq<string>, r: Result<()>) {
    if n !in b.queues then b' == b && r == Failure(NotFound)
    else
      && OnlyQueue(b, b', n) && r == Success(())
      && var (q, q') := (b.queues[n], b'.queues[n]);
      && q'.channel == q.channel && q'.capacity == q.capacity && q'.notify == q.notify
      && (forall k :: k in q'.inFlight <==> k in q.inFlight && k !in ids)
      && (forall k :: k in q'.inFlight ==> q'.inFlight[k] == q.inFlight[k])
  }

  lemma AcknowledgeMeans(b: Broker, n: string, ids: seq<string>)
    ensures Acknowledges(b, AcknowledgeIn(b, n, ids).0, n, ids, AcknowledgeIn(b, n, ids).1)
  {
  }

  /** The given leases now end at this time, all else is as it was; an error if the subscription does not exist. */
  ghost predicate SetsDeadline(b: Broker, b': Broker, n: string, ids: seq<string>, deadline: int, r: Result<()>) {
    if n !in b.queues then b' == b && r == Failure(NotFound)
    else
      && OnlyQueue(b, b', n) && r == Success(())
      && var (q, q') := (b.queues[n], b'.queues[n]);
      && q'.channel == q.channel && q'.capacity == q.capacity && q'.notify == q.notify
      && (forall k :: k in q'.inFlight <==> k in q.inFlight)
      && (forall k :: k in q.inFlight ==>
        q'.inFlight[k] == if k in ids then q.inFlight[k].(deadline := deadline) else q.inFlight[k])
  }

  lemma ExtendMeans(b: Broker, n: string, ids: seq<string>, deadline: int)
    ensures SetsDeadline(b, ExtendIn(b, n, ids, deadline).0, n, ids, deadline, ExtendIn(b, n, ids, deadline).1)
  {
  }

  // ----- A lease holds until its deadline

  /** The action neither sets the deadline of this lease nor is a Pull of the subscription after its deadline. */
  predicate LeavesAlone(a: Action, n: string, id: string, until: int) {
    match a
    case LeasedBatch(name, _, now, _) => name == n ==> now <= until
    case DeadlineSet(name, ids, _, _) => name == n ==> id !in ids
    case _ => true
  }

  lemma {:induction false} ForwardedAreEnqueued(queues: map<string, Queue>, names: seq<string>,
      copies: seq<seq<Pending>>, n: string)
    requires |copies| == |names|
    ensures forall i :: 0 <= i < |Forwarded(queues, names, copies, n)| ==>
      Forwarded(queues, names, copies, n)[i].Enqueued?
  {
    hide ForwardAll;
    if names != [] {
      ForwardedAreEnqueued(queues, names[..|names| - 1], copies[..|names| - 1], n);
    }
  }

  lemma ProjectedDeadLetters(b: Broker, a: Action, n: string, id: string, until: int)
    requires Possible(b, a) && a.DeadLettered?
    ensures forall i :: 0 <= i < |Projected(b, a, n)| ==> LeavesLease(Projected(b, a, n)[i], id, until)
  {
    hide Forwarded, Dead, AckIdsOf, ForwardAll, DeadLettersForwarded, AllWithinLimits;
    ForwardedAreEnqueued(b.queues, a.names, a.copies, n);
  }

  lemma ProjectedLeaves(b: Broker, a: Action, n: string, id: string, until: int)
    requires Possible(b, a) && LeavesAlone(a, n, id, until)
    ensures forall i :: 0 <= i < |Projected(b, a, n)| ==> LeavesLease(Projected(b, a, n)[i], id, until)
  {
    hide Possible, Forwarded, Matching, Backlog, NewPending, Dead, AckIdsOf, ForwardAll;
    if a.DeadLettered? {
      ProjectedDeadLetters(b, a, n, id, until);
    }
  }

  lemma {:induction false} RunLeaves(b: Broker, done: seq<Action>, n: string, id: string, until: int)
    requires Course(b, done) && forall i :: 0 <= i < |done| ==> LeavesAlone(done[i], n, id, until)
    ensures forall i :: 0 <= i < |ProjectedRun(b, done, n)| ==> LeavesLease(ProjectedRun(b, done, n)[i], id, until)
  {
    hide Possible, Step, Projected, LeavesLease, LeavesAlone;
    if done != [] {
      var k := |done| - 1;
      RunLeaves(b, done[..k], n, id, until);
      ProjectedLeaves(After(b, done[..k]), done[k], n, id, until);
    }
  }

  /** What has just been handed out is leased until this time. */
  lemma LeasedNow(b: Broker, a: Action, i: nat)
    requires Sane(b) && Possible(b, a) && a.LeasedBatch? && a.name in b.subscriptions && a.name in b.queues
    requires i < |HandedOut(b, a)|
    ensures a.name in Step(b, a).queues && HandedOut(b, a)[i].ackID in Step(b, a).issued
    ensures HeldUntil(Step(b, a).queues[a.name], HandedOut(b, a)[i].ackID, a.now + b.subscriptions[a.name].ackDeadline)
  {
    hide Possible, Step, HandedOut, Sane, HandsOut;
    HandedOutMeans(b, a);
    var sub := b.subscriptions[a.name];
    HandedOutAre(b.queues[a.name], Step(b, a).queues[a.name], a.now, a.max, sub.ackDeadline, sub.ordered,
      HandedOut(b, a), i);
    StepKeepsSane(b, a);
    LeasedIsHeld(Step(b, a), a.name, HandedOut(b, a)[i].ackID);
  }

  lemma LeasedIsHeld(b: Broker, n: string, id: string)
    requires Sane(b) && n in b.queues && id in b.queues[n].inFlight
    ensures id in b.issued && HeldUntil(b.queues[n], id, b.queues[n].inFlight[id].deadline)
  {
    hide Distinct, Waiting, Leased, AllWithinLimits, WithinLimits, HeldUntil;
    assert Inv(State(b.queues[n], b.issued));
    HeldIsNotWaiting(b.queues[n], id, b.queues[n].inFlight[id].deadline);
  }

  /**
   A message that was handed out is not handed out again before its ack deadline is over: not by any Pull
   until then, after any run in which nobody sets its deadline and no Pull of the subscription is later.
   */
  lemma NotAgainBefore(b: Broker, first: Action, done: seq<Action>, again: Action, n: string, i: nat)
    requires Sane(b) && Possible(b, first) && first.LeasedBatch? && first.name == n && n in b.subscriptions
    requires n in b.queues
    requires Course(Step(b, first), done) && Possible(After(Step(b, first), done), again)
    requires again.LeasedBatch? && again.name == n && again.now <= first.now + b.subscriptions[n].ackDeadline
    requires i < |HandedOut(b, first)|
    requires forall k :: 0 <= k < |done| ==>
      LeavesAlone(done[k], n, HandedOut(b, first)[i].ackID, first.now + b.subscriptions[n].ackDeadline)
    ensures forall j :: 0 <= j < |HandedOut(After(Step(b, first), done), again)| ==>
      HandedOut(After(Step(b, first), done), again)[j].ackID != HandedOut(b, first)[i].ackID
  {
    hide Possible, Step, After, Course, Sane, HandedOut, HeldUntil, Legal, Run, ProjectedRun, LeavesAlone, LeavesLease;
    var b1, id, until := Step(b, first), HandedOut(b, first)[i].ackID, first.now + b.subscriptions[n].ackDeadline;
    LeasedNow(b, first, i);
    StepKeepsSane(b, first);
    StepKeepsNames(b, first);
    SaneAlways(b1, done);
    RunLeaves(b1, done, n, id, until);
    RunProjects(b1, done, n);
    InvOf(b1, n);
    HeldAlways(State(b1.queues[n], b1.issued), ProjectedRun(b1, done, n), id, until);
    NotInAnswer(After(b1, done), again, n, id, until);
  }

  lemma InvOf(b: Broker, n: string)
    requires Sane(b) && n in b.queues
    ensures Inv(State(b.queues[n], b.issued))
  {
    hide Inv;
  }

  lemma NotInAnswer(b: Broker, a: Action, n: string, id: string, until: int)
    requires Sane(b) && Possible(b, a) && a.LeasedBatch? && a.name == n && a.now <= until && n in b.queues
    requires HeldUntil(b.queues[n], id, until)
    ensures forall j :: 0 <= j < |HandedOut(b, a)| ==> HandedOut(b, a)[j].ackID != id
  {
    hide Sane, Pull, HeldUntil, Enumerates, Inv;
    if n in b.subscriptions {
      InvOf(b, n);
      var sub := b.subscriptions[n];
      PullKeepsHeld(State(b.queues[n], b.issued), Pulled(a.now, a.max, sub.ackDeadline, sub.ordered, a.order), id,
        until);
      forall j | 0 <= j < |HandedOut(b, a)| ensures HandedOut(b, a)[j].ackID in IdSet(HandedOut(b, a)) {
        IdOf(HandedOut(b, a), j);
      }
    }
  }
}
