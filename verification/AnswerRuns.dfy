/**
 What consumers get over runs of the broker: how often a message is in an answer, what its attempt
 says, that no two leases of it overlap, in what order the messages of a key come, and when a message
 that is handed on as a dead letter leaves its subscription.
 */
module AnswerRuns {
  import opened Text
  import opened QueueModel
  import opened QueueLaws
  import opened QueueRuns
  import opened DeliveryRuns
  import opened BrokerModel
  import opened BrokerRuns
  import opened BrokerSafety
  import DeadLetters
  import OrderingRuns

  /** What a consumer gets of a batch, when its dead letters have been dealt with. */
  function AnswerOf(policy: Option<DeadLetterPolicy>, batch: seq<Pending>): seq<Pending> {
    if policy.Some? then Kept(batch, policy.value.maxAttempts) else batch
  }

  /** The answer to a Pull of the subscription, if its dead letters are dealt with; no other action has one. */
  ghost function AnswerTo(b: Broker, a: Action, n: string): seq<Pending>
    requires Possible(b, a)
  {
    if a.LeasedBatch? && a.name == n then AnswerOf(PolicyOf(b, n), HandedOut(b, a)) else []
  }

  ghost function LeasedTo(b: Broker, a: Action, n: string): seq<Pending>
    requires Possible(b, a)
  {
    if a.LeasedBatch? && a.name == n then HandedOut(b, a) else []
  }

  /** How many Pulls of the subscription leased the message. */
  ghost function TimesLeased(b: Broker, done: seq<Action>, n: string, id: string): nat
    requires Course(b, done)
  {
    if done == [] then 0
    else
      var i := |done| - 1;
      TimesLeased(b, done[..i], n, id) + if id in IdSet(LeasedTo(After(b, done[..i]), done[i], n)) then 1 else 0
  }

  /** How many of them would have it in their answer, if the hand-off of their dead letters succeeds. */
  ghost function TimesAnswered(b: Broker, done: seq<Action>, n: string, id: string): nat
    requires Course(b, done)
  {
    if done == [] then 0
    else
      var i := |done| - 1;
      TimesAnswered(b, done[..i], n, id) + if id in IdSet(AnswerTo(After(b, done[..i]), done[i], n)) then 1 else 0
  }

  /**
   However much later the dead letters of a batch are dealt with, whoever asked for the batch gets
   this answer or an error.
   */
  lemma AnswerIsOutcome(b: Broker, pulled: Action, done: seq<Action>, handled: Action)
    requires Sane(b) && Possible(b, pulled) && pulled.LeasedBatch? && Course(Step(b, pulled), done)
    requires Possible(After(Step(b, pulled), done), handled) && handled.DeadLettered? && handled.name == pulled.name
    requires handled.batch == HandedOut(b, pulled)
    ensures var r := DeadLetters.Outcome(After(Step(b, pulled), done), handled);
      r.Failure? || r.value == AnswerTo(b, pulled, pulled.name)
  {
    hide Possible, Step, After, Course, Sane, Kept, HandedOut, DeadLetters.Outcome;
    StepKeepsSane(b, pulled);
    StepKeepsNames(b, pulled);
    SaneAlways(Step(b, pulled), done);
    DeadLetters.OutcomeOf(After(Step(b, pulled), done), handled);
  }

  // ----- Counting on the queue's own run

  lemma CountOne(s: State, es: seq<Event>, e: Event, id: string, maximum: int)
    ensures LeaseCount(s, es + [e], id) ==
      LeaseCount(s, es, id) + if id in IdSet(Delivered(Run(s, es).queue, e)) then 1 else 0
    ensures KeptCount(s, es + [e], id, maximum) ==
      KeptCount(s, es, id, maximum) + if HasBelow(Delivered(Run(s, es).queue, e), id, maximum) then 1 else 0
  {
    hide IdSet, Delivered, HasBelow, Run;
    assert (es + [e])[..|es|] == es;
  }

  lemma {:induction false} CountQuiet(s: State, es: seq<Event>, fs: seq<Event>, id: string, maximum: int)
    requires forall i :: 0 <= i < |fs| ==> !fs[i].Pulled?
    ensures LeaseCount(s, es + fs, id) == LeaseCount(s, es, id)
    ensures KeptCount(s, es + fs, id, maximum) == KeptCount(s, es, id, maximum)
    decreases |fs|
  {
    hide LeaseCount, KeptCount, Run;
    if fs == [] {
      assert es + fs == es;
    } else {
      var i := |fs| - 1;
      CountQuiet(s, es, fs[..i], id, maximum);
      CountOne(s, es + fs[..i], fs[i], id, maximum);
      NoCopies();
      assert es + fs == es + fs[..i] + [fs[i]];
    }
  }

  lemma {:induction false} ForwardedIsQuiet(queues: map<string, Queue>, names: seq<string>, copies: seq<seq<Pending>>,
        n: string)
    requires |copies| == |names|
    ensures forall i :: 0 <= i < |Forwarded(queues, names, copies, n)| ==>
      !Forwarded(queues, names, copies, n)[i].Pulled?
  {
    hide ForwardAll;
    if names != [] {
      ForwardedIsQuiet(queues, names[..|names| - 1], copies[..|names| - 1], n);
    }
  }

  /** Only a Pull of the subscription means a Pull to its queue. */
  lemma ProjectedPulls(b: Broker, a: Action, n: string)
    requires Possible(b, a) && !(a.LeasedBatch? && a.name == n)
    ensures forall i :: 0 <= i < |Projected(b, a, n)| ==> !Projected(b, a, n)[i].Pulled?
  {
    hide Possible, Forwarded, Matching, Backlog, NewPending, Dead, AckIdsOf, ForwardAll;
    if a.DeadLettered? {
      QuietDeadLetters(b, a, n);
    }
  }

  lemma QuietDeadLetters(b: Broker, a: Action, n: string)
    requires Possible(b, a) && a.DeadLettered?
    ensures forall i :: 0 <= i < |Projected(b, a, n)| ==> !Projected(b, a, n)[i].Pulled?
  {
    hide Forwarded, Dead, AckIdsOf, ForwardAll, DeadLettersForwarded, AllWithinLimits;
    ForwardedIsQuiet(b.queues, a.names, a.copies, n);
  }

  /** The Pull of the subscription as an event of its queue. */
  lemma ProjectedPull(b: Broker, a: Action, n: string)
    requires Possible(b, a) && a.LeasedBatch? && a.name == n && n in b.queues
    ensures if n in b.subscriptions
      then |Projected(b, a, n)| == 1 && Projected(b, a, n)[0].Pulled? && Projected(b, a, n)[0].now == a.now
        && Delivered(b.queues[n], Projected(b, a, n)[0]) == HandedOut(b, a)
      else Projected(b, a, n) == [] && HandedOut(b, a) == []
  {
    hide Pull, Enumerates;
  }

  lemma KeptIsBelowMaximum(ps: seq<Pending>, id: string, maximum: int)
    requires maximum > 0
    ensures id in IdSet(Kept(ps, maximum)) <==> HasBelow(ps, id, maximum)
  {
    hide Kept;
    var at := DeadLetters.KeptInOrder(ps, maximum);
    var kept := Kept(ps, maximum);
    if HasBelow(ps, id, maximum) {
      var j :| 0 <= j < |ps| && ps[j].ackID == id && ps[j].attempt < maximum;
      assert !IsDead(ps[j], maximum);
      var i :| 0 <= i < |at| && at[i] == j;
      assert kept[i] == ps[j];
    }
    if id in IdSet(kept) {
      var i := RecordWithId(kept, id);
      assert at[i] in at && !IsDead(ps[at[i]], maximum);
    }
  }

  lemma {:induction false} CountsProject(b: Broker, done: seq<Action>, n: string, id: string)
    requires Sane(b) && Course(b, done) && n in b.queues && PolicyOf(b, n).Some? && PolicyOf(b, n).value.maxAttempts > 0
    ensures var s, es := State(b.queues[n], b.issued), ProjectedRun(b, done, n);
      && TimesLeased(b, done, n, id) == LeaseCount(s, es, id)
      && TimesAnswered(b, done, n, id) == KeptCount(s, es, id, PolicyOf(b, n).value.maxAttempts)
  {
    hide Sane, Possible, Step, Projected, LeaseCount, KeptCount, IdSet, Delivered, HasBelow, Kept, HandedOut, Run,
      Legal;
    var s, maximum := State(b.queues[n], b.issued), PolicyOf(b, n).value.maxAttempts;
    if done == [] {
      CountNothing(s, id, maximum);
    } else {
      var i := |done| - 1;
      var b1, es := After(b, done[..i]), ProjectedRun(b, done[..i], n);
      CountsProject(b, done[..i], n, id);
      SaneAlways(b, done[..i]);
      RunProjects(b, done[..i], n);
      NoCopies();
      if done[i].LeasedBatch? && done[i].name == n {
        ProjectedPull(b1, done[i], n);
        KeptIsBelowMaximum(HandedOut(b1, done[i]), id, maximum);
        assert n in b.subscriptions;
        var e := Projected(b1, done[i], n)[0];
        assert Projected(b1, done[i], n) == [e];
        CountOne(s, es, e, id, maximum);
      } else {
        ProjectedPulls(b1, done[i], n);
        CountQuiet(s, es, Projected(b1, done[i], n), id, maximum);
      }
    }
  }

  lemma CountNothing(s: State, id: string, maximum: int)
    ensures LeaseCount(s, [], id) == 0 && KeptCount(s, [], id, maximum) == 0
  {
  }

  // ----- Results

  /**
   Under a dead-letter policy with maximum M, at most M - 1 Pulls of any run of the broker have a message
   in their answer, if and only if it is leased fewer than 2^31 times: then its 32-bit counter wraps
   around. This counts what a Pull answers if its hand-off succeeds. Failing hand-offs only make it
   fewer answers (`AnswerIsOutcome`), so the bound holds for the answers that are sent as well.
   */
  lemma BoundedAnswers(b: Broker, done: seq<Action>, n: string, id: string)
    requires Sane(b) && Course(b, done) && n in b.queues && id !in b.issued
    requires PolicyOf(b, n).Some? && 0 < PolicyOf(b, n).value.maxAttempts <= 0x7FFF_FFFF
    ensures var maximum := PolicyOf(b, n).value.maxAttempts;
      && (TimesAnswered(b, done, n, id) <= maximum - 1 <==> TimesLeased(b, done, n, id) < 0x8000_0000)
      && (TimesLeased(b, done, n, id) < maximum ==> TimesAnswered(b, done, n, id) == TimesLeased(b, done, n, id))
  {
    hide Course, After, ProjectedRun, TimesLeased, TimesAnswered, LeaseCount, KeptCount, Legal, Run, Possible, Step,
      WellFormed, Live;
    CountsProject(b, done, n, id);
    RunProjects(b, done, n);
    SaneInv(b, n);
    BoundedRedelivery(State(b.queues[n], b.issued), ProjectedRun(b, done, n), id, PolicyOf(b, n).value.maxAttempts);
  }

  lemma SaneInv(b: Broker, n: string)
    requires Sane(b) && n in b.queues
    ensures Inv(State(b.queues[n], b.issued))
  {
    hide Inv;
  }

  /**
   In every run of the broker a leased message carries the number of its leases, a waiting one that of its
   ended leases.
   */
  lemma AttemptsEverywhere(b: Broker, done: seq<Action>, n: string, id: string)
    requires Sane(b) && Course(b, done) && n in b.queues && id !in b.issued
    ensures n in After(b, done).queues
    ensures var q, s, es := After(b, done).queues[n], State(b.queues[n], b.issued), ProjectedRun(b, done, n);
      && (id in IdSet(q.channel) ==> Carry(q.channel, id, Wrap(EndedCount(s, es, id))))
      && (id in q.inFlight ==>
        q.inFlight[id].attempt == Wrap(LeaseCount(s, es, id)) && LeaseCount(s, es, id) == EndedCount(s, es, id) + 1)
  {
    hide Course, After, ProjectedRun, LeaseCount, EndedCount, Legal, Run, Possible, Step, WellFormed, Live, Carry,
      IdSet, Wrap;
    RunProjects(b, done, n);
    SaneInv(b, n);
    AttemptsAreLeases(State(b.queues[n], b.issued), ProjectedRun(b, done, n), id);
  }

  /**
   In every run of the broker that does not disturb a key of the subscription, its messages are handed out
   in order of arrival.
   */
  lemma KeyOrderEverywhere(b: Broker, done: seq<Action>, n: string, k: string)
    requires Sane(b) && Course(b, done) && n in b.queues && k != ""
    requires OrderingRuns.AlwaysUndisturbed(State(b.queues[n], b.issued), ProjectedRun(b, done, n), k)
    ensures n in After(b, done).queues
    ensures var s, es := State(b.queues[n], b.issued), ProjectedRun(b, done, n);
      OrderingRuns.KeyIds(b.queues[n].channel, k) + OrderingRuns.Accepted(s, es, k)
        == OrderingRuns.HandedOut(s, es, k) + OrderingRuns.KeyIds(After(b, done).queues[n].channel, k)
  {
    hide Course, After, ProjectedRun, Legal, Run, Possible, Step, WellFormed, Live, OrderingRuns.AlwaysUndisturbed,
      OrderingRuns.KeyIds, OrderingRuns.Accepted, OrderingRuns.HandedOut;
    RunProjects(b, done, n);
    SaneInv(b, n);
    OrderingRuns.LeasedInOrder(State(b.queues[n], b.issued), ProjectedRun(b, done, n), k);
  }

  /**
   And when a message of that key is handed out in such a run, all messages of the key that were
   handed out before had been acknowledged.
   */
  lemma NextOnlyAfterAckEverywhere(b: Broker, done: seq<Action>, next: Action, n: string, k: string)
    requires Sane(b) && Course(b, done) && n in b.queues && k != "" && Possible(After(b, done), next)
    requires OrderingRuns.AlwaysUndisturbed(State(b.queues[n], b.issued),
      ProjectedRun(b, done, n) + Projected(After(b, done), next, n), k)
    requires OrderingRuns.KeyIds(LeasedTo(After(b, done), next, n), k) != []
    ensures var s, es := State(b.queues[n], b.issued), ProjectedRun(b, done, n);
      forall id :: id in OrderingRuns.HandedOut(s, es, k) ==> id in Left(s, es)
  {
    hide Course, After, ProjectedRun, Projected, Run, Possible, Step, Sane, HandedOut, Delivered, Left, Legal,
      OrderingRuns.AlwaysUndisturbed, OrderingRuns.KeyIds, OrderingRuns.HandedOut;
    var s, es, b1 := State(b.queues[n], b.issued), ProjectedRun(b, done, n), After(b, done);
    var all := es + Projected(b1, next, n);
    RunProjects(b, done, n);
    SaneAlways(b, done);
    SaneInv(b, n);
    NothingOfKey(k);
    ProjectedPull(b1, next, n);
    StepProjects(b1, next, n);
    ReachesOn(s, es, b1.queues[n], b1.issued, Projected(b1, next, n), Step(b1, next).queues[n], Step(b1, next).issued);
    assert all[..|es|] == es && all[|es|] == Projected(b1, next, n)[0];
    OrderingRuns.NextOnlyAfterAck(s, all, |es|, k);
  }

  lemma NothingOfKey(k: string)
    ensures OrderingRuns.KeyIds([], k) == []
  {
  }

  /** A leased message goes back into the channel only in a Pull of the subscription that finds its deadline passed. */
  lemma BackOnlyByPull(b: Broker, a: Action, n: string, id: string)
    requires Sane(b) && Possible(b, a) && n in b.queues && n in Step(b, a).queues
    requires id in b.queues[n].inFlight && id in IdSet(Step(b, a).queues[n].channel)
    ensures a.LeasedBatch? && a.name == n && Expired(b.queues[n].inFlight[id], a.now)
  {
    hide Possible, Step, Projected, Legal, WellFormed, Live, IdSet, Delivered, HandedOut;
    var s, es := State(b.queues[n], b.issued), Projected(b, a, n);
    StepProjects(b, a, n);
    SaneInv(b, n);
    RunFromStart(s, es);
    var k := LeaseEnded(s, es, 0, |es|, id);
    if !(a.LeasedBatch? && a.name == n) {
      ProjectedPulls(b, a, n);
    } else {
      ProjectedPull(b, a, n);
    }
  }

  lemma {:induction false} CoursePrefix(b: Broker, done: seq<Action>, k: nat)
    requires Course(b, done) && k <= |done|
    ensures Course(b, done[..k])
  {
    hide Possible, After;
    if k == |done| {
      assert done[..k] == done;
    } else {
      CoursePrefix(b, done[..|done| - 1], k);
      assert done[..|done| - 1][..k] == done[..k];
    }
  }

  /** An action neither forgets an ack ID nor brings back one that its queue does not hold. */
  lemma StaysGone(b: Broker, a: Action, n: string, id: string)
    requires Sane(b) && Possible(b, a) && n in b.queues && id in b.issued
    ensures n in Step(b, a).queues && id in Step(b, a).issued
    ensures id in Live(Step(b, a).queues[n]) ==> id in Live(b.queues[n])
  {
    hide Sane, Possible, Step, Projected, Live, Reaches;
    StepProjects(b, a, n);
    if id !in Live(b.queues[n]) {
      RunOfOne(b, a);
      GoneEverywhere(b, [a], n, id);
    }
  }

  lemma {:induction false} StaysIssued(b: Broker, done: seq<Action>, n: string, id: string)
    requires Sane(b) && Course(b, done) && n in b.queues && id in b.issued
    ensures n in After(b, done).queues && id in After(b, done).issued
  {
    hide Sane, Possible, Step, Live;
    if done != [] {
      var i := |done| - 1;
      SaneAlways(b, done[..i]);
      StaysIssued(b, done[..i], n, id);
      StaysGone(After(b, done[..i]), done[i], n, id);
    }
  }

  /** An action of the run: a Pull of the subscription that finds the message leased, and its deadline passed. */
  ghost predicate EndsLease(b: Broker, a: Action, n: string, id: string) {
    && a.LeasedBatch? && a.name == n && n in b.queues && id in b.queues[n].inFlight
    && Expired(b.queues[n].inFlight[id], a.now)
  }

  /** Between a lease and the message's return to the channel there was such a Pull. */
  lemma {:induction false} LeaseEndedEverywhere(b: Broker, done: seq<Action>, n: string, id: string) returns (k: nat)
    requires Sane(b) && Course(b, done) && n in b.queues && n in After(b, done).queues
    requires id in b.queues[n].inFlight && id in IdSet(After(b, done).queues[n].channel)
    ensures k < |done| && Course(b, done[..k]) && EndsLease(After(b, done[..k]), done[k], n, id)
    decreases |done|
  {
    hide Possible, Step, WellFormed, AllWithinLimits, WithinLimits, IdSet;
    LiveIsIssued(b, n);
    if done == [] {
      NotBoth(b, n, id);
      assert false;
    } else {
      var i := |done| - 1;
      var b1 := After(b, done[..i]);
      SaneAlways(b, done[..i]);
      StaysIssued(b, done[..i], n, id);
      StaysGone(b1, done[i], n, id);
      if id in b1.queues[n].inFlight {
        BackOnlyByPull(b1, done[i], n, id);
        k := i;
      } else {
        k := LeaseEndedEverywhere(b, done[..i], n, id);
        assert done[..i][..k] == done[..k];
      }
    }
  }

  lemma NotBoth(b: Broker, n: string, id: string)
    requires Sane(b) && n in b.queues
    ensures !(id in b.queues[n].inFlight && id in IdSet(b.queues[n].channel))
  {
    hide IdSet, Distinct, Waiting, Leased, AllWithinLimits, WithinLimits;
    SaneInv(b, n);
  }

  lemma LeasedWasFree(b: Broker, a: Action, n: string, id: string)
    requires Sane(b) && Possible(b, a) && id in IdSet(LeasedTo(b, a, n))
    ensures n in b.queues && n in Step(b, a).queues && id in Step(b, a).queues[n].inFlight
    ensures EndsLease(b, a, n, id) || (id !in b.queues[n].inFlight && id in IdSet(b.queues[n].channel))
  {
    hide Possible, Step, Projected, Legal, WellFormed, Live, IdSet, Delivered, HandedOut;
    NoCopies();
    HandedOutIsLive(b, a);
    SaneInv(b, n);
    ProjectedPull(b, a, n);
    StepProjects(b, a, n);
    PullStep(State(b.queues[n], b.issued), Projected(b, a, n));
    DeliveredWasFree(State(b.queues[n], b.issued), Projected(b, a, n)[0], id);
    DeliveredIsLeased(State(b.queues[n], b.issued), Projected(b, a, n)[0], id);
  }

  lemma PullStep(s: State, es: seq<Event>)
    requires |es| == 1 && Legal(s, es)
    ensures CanHappen(s, es[0]) && Run(s, es) == Next(s, es[0])
  {
    hide CanHappen, Next;
    assert es[..|es| - 1] == [];
  }

  /**
   A lease is exclusive in every run of the broker: if a subscription hands out the same ack ID twice,
   some Pull after the first one, the second included, came later than the deadline that the lease had
   at that moment.
   */
  lemma ExclusiveEverywhere(b: Broker, first: Action, done: seq<Action>, second: Action, n: string, id: string)
    returns (k: nat)
    requires Sane(b) && Possible(b, first) && Course(Step(b, first), done)
    requires Possible(After(Step(b, first), done), second)
    requires id in IdSet(LeasedTo(b, first, n)) && id in IdSet(LeasedTo(After(Step(b, first), done), second, n))
    ensures k <= |done| && Course(Step(b, first), done[..k])
    ensures EndsLease(After(Step(b, first), done[..k]), if k < |done| then done[k] else second, n, id)
  {
    hide Sane, Possible, Step, LeasedTo, IdSet, Course, After;
    var b1 := Step(b, first);
    StepKeepsSane(b, first);
    SaneAlways(b1, done);
    LeasedWasFree(b, first, n, id);
    LeasedWasFree(After(b1, done), second, n, id);
    if EndsLease(After(b1, done), second, n, id) {
      k := |done|;
      assert done[..k] == done;
    } else {
      k := LeaseEndedEverywhere(b1, done, n, id);
    }
  }

  lemma LeasedIsIssued(b: Broker, n: string, id: string)
    requires Sane(b) && n in b.queues && id in b.queues[n].inFlight
    ensures id in b.issued
  {
    hide Sane, IdSet;
    LiveIsIssued(b, n);
  }

  lemma DeadAreHandedOut(b: Broker, a: Action, batch: seq<Pending>, maximum: int, id: string)
    requires Possible(b, a) && a.LeasedBatch? && batch == HandedOut(b, a) && id in IdSet(Dead(batch, maximum))
    ensures id in IdSet(LeasedTo(b, a, a.name))
  {
    hide Possible, HandedOut, Dead;
    DeadFrom(batch, maximum);
    var i := RecordWithId(Dead(batch, maximum), id);
    var j :| 0 <= j < |batch| && batch[j] == Dead(batch, maximum)[i];
    assert batch[j].ackID == id;
  }

  /**
   If a hand-off succeeds, however long after the Pull of its batch, each dead message has left the
   source, or some Pull in between came later than the deadline of its lease and took it back.
   */
  lemma DeadLeaveSource(b: Broker, pulled: Action, done: seq<Action>, handled: Action, id: string) returns (k: nat)
    requires Sane(b) && Possible(b, pulled) && pulled.LeasedBatch? && Course(Step(b, pulled), done)
    requires Possible(After(Step(b, pulled), done), handled)
    requires DeadLetters.HasDead(After(Step(b, pulled), done), handled)
    requires handled.name == pulled.name && handled.batch == HandedOut(b, pulled)
    requires DeadLetters.Outcome(After(Step(b, pulled), done), handled).Success?
    requires id in IdSet(Dead(handled.batch, PolicyOf(After(Step(b, pulled), done), handled.name).value.maxAttempts))
    ensures var b1 := Step(b, pulled);
      var b' := Step(After(b1, done), handled);
      && pulled.name in b'.queues
      && (id in Live(b'.queues[pulled.name]) ==>
        k < |done| && Course(b1, done[..k]) && EndsLease(After(b1, done[..k]), done[k], pulled.name, id))
  {
    hide Possible, Step, After, Course, Sane, Dead, IdSet, Live, DeadLetters.Outcome, HandedOut, EndsLease, LeasedTo,
      PolicyOf;
    var n, b1 := pulled.name, Step(b, pulled);
    StepKeepsSane(b, pulled);
    StepKeepsNames(b, pulled);
    SaneAlways(b1, done);
    DeadAreHandedOut(b, pulled, handled.batch, PolicyOf(After(b1, done), n).value.maxAttempts, id);
    LeasedWasFree(b, pulled, n, id);
    LeasedIsIssued(b1, n, id);
    StaysIssued(b1, done, n, id);
    DeadIdAtSource(After(b1, done), handled, id);
    k := 0;
    if id in IdSet(After(b1, done).queues[n].channel) {
      k := LeaseEndedEverywhere(b1, done, n, id);
    }
  }
}
