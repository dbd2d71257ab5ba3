/**
 Filters over runs of the broker: a subscription holds only messages that its filter lets through,
 except that a Seek and the forwarding of dead letters do not look at the filter.
 */
module FilterRuns {
  import opened QueueModel
  import opened QueueLaws
  import opened QueueRuns
  import opened FilterSyntax
  import opened BrokerModel
  import opened BrokerRuns
  import opened StoreRuns
  import opened DeadLetters
  import BrokerSafety
  import SnapshotRuns

  predicate Lets(filter: string, m: Message) {
    Matches(filter, m.attributes)
  }

  ghost predicate AllPass(q: Queue, filter: string) {
    && (forall i :: 0 <= i < |q.channel| ==> Lets(filter, q.channel[i].message))
    && (forall k :: k in q.inFlight ==> Lets(filter, q.inFlight[k].message))
  }

  /** Every message the subscription holds, waiting or leased, passes its filter. */
  ghost predicate Filtered(b: Broker, n: string) {
    n in b.queues && n in b.subscriptions && AllPass(b.queues[n], b.subscriptions[n].filter)
  }

  /** The actions that do not look at the filter: a Seek of the subscription, and dead letters of its topic. */
  predicate Bypasses(b: Broker, a: Action, n: string) {
    match a
    case Sought(name, _, _, _) => name == n
    case DeadLettered(name, _, _, _, _) =>
      PolicyOf(b, name).Some? && n in Subscribers(b.subscriptions, PolicyOf(b, name).value.topic)
    case _ => false
  }

  /** The messages of the subscription's topic that pass its filter. */
  function PassingUnder(log: map<string, Message>, topic: string, filter: string): set<Message> {
    set m | m in StoredUnder(log, topic) && Lets(filter, m)
  }

  lemma PassingCarried(q: Queue, log: map<string, Message>, topic: string, filter: string)
    ensures Carries(q, PassingUnder(log, topic, filter)) <==> Carries(q, StoredUnder(log, topic)) && AllPass(q, filter)
  {
    hide StoredUnder, Lets;
  }

  lemma {:induction false} MatchingPass(ms: seq<Message>, filter: string)
    ensures forall i :: 0 <= i < |Matching(ms, filter)| ==> Lets(filter, Matching(ms, filter)[i])
  {
    hide Matches;
    if ms != [] {
      MatchingPass(ms[..|ms| - 1], filter);
    }
  }

  lemma NewPass(ms: seq<Message>, ids: seq<string>, passing: set<Message>)
    requires |ids| == |ms| && forall i :: 0 <= i < |ms| ==> ms[i] in passing
    ensures AllIn(NewPending(ms, ids), passing)
  {
  }

  lemma FanOutPasses(b: Broker, a: Action, n: string)
    requires Consistent(b) && Possible(b, a) && a.FannedOut? && n in b.subscriptions
    ensures BringIn(Projected(b, a, n), PassingUnder(b.log, b.subscriptions[n].topic, b.subscriptions[n].filter))
  {
    hide BringIn, AllIn, Stored, StoredUnder, Matching, Sane, Filed, WellNamed, Sourced, NewPending, FreshIds, Lets;
    var ms, sub := Matching(a.f.messages, a.f.filter), b.subscriptions[n];
    var passing := PassingUnder(b.log, sub.topic, sub.filter);
    AllInNone(passing);
    BringsOne(Listed, passing);
    if a.f.subscription == n {
      MatchingStored(a.f.messages, a.f.filter, b.log, sub.topic);
      MatchingPass(a.f.messages, a.f.filter);
      StoredUnderIs(b.log, sub.topic);
      NewPass(ms, a.ids, passing);
      BringsOne(Enqueued(NewPending(ms, a.ids)), passing);
    }
  }

  lemma NoForward(b: Broker, a: Action, n: string, ms: set<Message>)
    requires Possible(b, a) && a.DeadLettered? && !Bypasses(b, a, n)
    ensures BringIn(Projected(b, a, n), ms)
  {
    hide BringIn, AllIn, Dead, Kept, Forwarded, FreshForwards, Visits, AllWithinLimits, ForwardAll, AckIdsOf;
    var policy := PolicyOf(b, a.name);
    AllInNone(ms);
    BringsOne(Acked([]), ms);
    BringsMore([], [], ms);
    if policy.Some? && Dead(a.batch, policy.value.maxAttempts) != [] {
      VisitedOnce(a.names, Subscribers(b.subscriptions, policy.value.topic), Outcome(b, a).Success?);
      BrokerSafety.ForwardedElsewhere(b.queues, a.names, a.copies, n);
      BringsOne(Acked(AckIdsOf(Dead(a.batch, policy.value.maxAttempts))), ms);
      BringsMore([], [Acked(AckIdsOf(Dead(a.batch, policy.value.maxAttempts)))], ms);
    } else {
      NothingToForward(b.queues, n);
    }
  }

  lemma NoSeek(b: Broker, a: Action, n: string, ms: set<Message>)
    requires Possible(b, a) && a.Sought? && a.name != n
    ensures BringIn(Projected(b, a, n), ms)
  {
    hide Backlog, NewPending;
  }

  lemma StepPasses(b: Broker, a: Action, n: string)
    requires Consistent(b) && Possible(b, a) && n in b.subscriptions && !Bypasses(b, a, n)
    ensures BringIn(Projected(b, a, n), PassingUnder(b.log, b.subscriptions[n].topic, b.subscriptions[n].filter))
  {
    hide BringIn, PassingUnder, Consistent, Possible, Projected;
    var passing := PassingUnder(b.log, b.subscriptions[n].topic, b.subscriptions[n].filter);
    match a {
      case FannedOut(_, _) => FanOutPasses(b, a, n);
      case Sought(_, _, _, _) => NoSeek(b, a, n, passing);
      case DeadLettered(_, _, _, _, _) => NoForward(b, a, n, passing);
      case _ => OthersBringNothing(b, a, n, passing);
    }
  }

  lemma StepKeepsFiltered(b: Broker, a: Action, n: string)
    requires Consistent(b) && Possible(b, a) && Filtered(b, n) && !Bypasses(b, a, n)
    ensures Filtered(Step(b, a), n)
  {
    hide Possible, Step, Projected, BringIn, Carries, AllPass, PassingUnder, Sane, Filed, OnTheirWay, WellNamed,
      Bypasses;
    var sub := b.subscriptions[n];
    var passing := PassingUnder(b.log, sub.topic, sub.filter);
    StepKeepsNames(b, a);
    PassingCarried(b.queues[n], b.log, sub.topic, sub.filter);
    StepPasses(b, a, n);
    StepProjects(b, a, n);
    RunCarries(State(b.queues[n], b.issued), Projected(b, a, n), passing);
    PassingCarried(Step(b, a).queues[n], b.log, sub.topic, sub.filter);
  }

  /** No Seek of the subscription and no dead letters of its topic during a run. */
  ghost predicate NeverBypassed(b: Broker, done: seq<Action>, n: string) {
    forall i :: 0 <= i < |done| ==> !Bypasses(b, done[i], n)
  }

  lemma SameBypass(b: Broker, b': Broker, a: Action, n: string)
    requires b'.subscriptions == b.subscriptions
    ensures Bypasses(b', a, n) == Bypasses(b, a, n)
  {
  }

  /**
   In every state of every run without these two a subscription holds only messages that its filter
   lets through.
   */
  lemma {:induction false} FilteredAlways(b: Broker, done: seq<Action>, n: string)
    requires Consistent(b) && Course(b, done) && Filtered(b, n) && NeverBypassed(b, done, n)
    ensures Filtered(After(b, done), n)
  {
    hide Consistent, Possible, Step, Filtered, Bypasses;
    if done != [] {
      var i := |done| - 1;
      var b1 := After(b, done[..i]);
      FilteredAlways(b, done[..i], n);
      ConsistentAlways(b, done[..i]);
      SaneAlways(b, done[..i]) by { ConsistentIsSane(b); }
      SameBypass(b, b1, done[i], n);
      StepKeepsFiltered(b1, done[i], n);
    }
  }

  lemma ConsistentIsSane(b: Broker)
    requires Consistent(b)
    ensures Sane(b)
  {
  }

  /** A caller can see it from the subscriptions: their topic is no policy's dead-letter topic. */
  lemma NotADeadLetterTopic(b: Broker, done: seq<Action>, n: string)
    requires n in b.subscriptions
    requires forall m :: m in b.subscriptions && b.subscriptions[m].deadLetter.Some? ==>
      b.subscriptions[m].deadLetter.value.topic != b.subscriptions[n].topic
    requires forall i :: 0 <= i < |done| && done[i].Sought? ==> done[i].name != n
    ensures NeverBypassed(b, done, n)
  {
  }

  // ----- When a Seek or dead letters keep to the filter

  lemma PassesExactly(q: Queue, ms: set<Message>, filter: string)
    requires SnapshotRuns.HoldsExactly(q, ms)
    ensures AllPass(q, filter) <==> forall m :: m in ms ==> Lets(filter, m)
  {
    hide Lets, Distinct, DistinctMessages;
    var held := MessagesOf(q.channel);
    if AllPass(q, filter) {
      forall m | m in ms ensures Lets(filter, m) {
        assert m in held;
        var i :| 0 <= i < |held| && held[i] == m;
        assert q.channel[i].message == m;
      }
    }
    if forall m :: m in ms ==> Lets(filter, m) {
      forall i | 0 <= i < |q.channel| ensures Lets(filter, q.channel[i].message) {
        assert held[i] in held;
      }
    }
  }

  /** After a successful Seek the subscription holds only messages that pass if and only if all that are restored do. */
  lemma SeekKeepsFilter(b: Broker, a: Action)
    requires Consistent(b) && Possible(b, a) && a.Sought? && Seekable(b, a.name, a.target) && a.name in b.queues
    requires SnapshotRuns.SeekOutcome(b, a).Success?
    ensures Filtered(Step(b, a), a.name) <==>
      forall m :: m in SnapshotRuns.Restored(b, a.name, a.target) ==> Lets(b.subscriptions[a.name].filter, m)
  {
    hide Consistent, Possible, Step, SnapshotRuns.SeekOutcome, Backlog, AllPass, Lets, SnapshotRuns.HoldsExactly,
      SnapshotRuns.FullOf, SnapshotRuns.Restored;
    SnapshotRuns.SeekRestores(b, a);
    StepKeepsNames(b, a);
    PassesExactly(Step(b, a).queues[a.name], SnapshotRuns.Restored(b, a.name, a.target),
      b.subscriptions[a.name].filter);
  }

  lemma AppendedPass(q: Queue, q': Queue, ps: seq<Pending>, filter: string)
    requires AllPass(q, filter) && q'.channel == q.channel + ps
    requires forall k :: k in q'.inFlight ==> k in q.inFlight && q'.inFlight[k] == q.inFlight[k]
    ensures AllPass(q', filter) <==> forall i :: 0 <= i < |ps| ==> Lets(filter, ps[i].message)
  {
    hide Lets;
    if AllPass(q', filter) {
      forall i | 0 <= i < |ps| ensures Lets(filter, ps[i].message) {
        assert q'.channel[|q.channel| + i] == ps[i];
      }
    }
  }

  /**
   After a successful hand-off each subscription of the dead-letter topic holds only messages that
   pass its filter, as it did before, if and only if all the dead messages do.
   */
  lemma DeadLettersKeepFilter(b: Broker, a: Action, n: string)
    requires Possible(b, a) && HasDead(b, a) && Outcome(b, a).Success? && Filtered(b, n)
    requires n in Subscribers(b.subscriptions, PolicyOf(b, a.name).value.topic)
    ensures Filtered(Step(b, a), n) <==>
      forall i :: 0 <= i < |Reissued(b, a)| ==> Lets(b.subscriptions[n].filter, Reissued(b, a)[i])
  {
    hide Possible, Step, Outcome, Reissued, FreshForwards, ForwardAll, NewPending, AckIdsOf, Dead,
      QueueModel.Acknowledge, Lets, AllPass;
    var ms := Reissued(b, a);
    HandOffQueues(b, a);
    ForwardReaches(b.queues, a.names, a.copies);
    var at :| 0 <= at < |a.names| && a.names[at] == n;
    CopiesAre(a.copies, ms, b.issued, at);
    assert Takes(b.queues, a.names[at], |a.copies[at]|);
    AcknowledgedQueue(ForwardAll(b.queues, a.names, a.copies).0[n],
      AckIdsOf(Dead(a.batch, PolicyOf(b, a.name).value.maxAttempts)));
    StepKeepsNames(b, a);
    AppendedPass(b.queues[n], Step(b, a).queues[n], a.copies[at], b.subscriptions[n].filter);
    NewPendingMessages(ms, AckIdsOf(a.copies[at]));
  }

  lemma NewPendingMessages(ms: seq<Message>, ids: seq<string>)
    requires |ids| == |ms|
    ensures |NewPending(ms, ids)| == |ms| && forall i :: 0 <= i < |ms| ==> NewPending(ms, ids)[i].message == ms[i]
  {
  }
}
