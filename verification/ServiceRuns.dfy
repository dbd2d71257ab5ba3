/**
 The use cases as actions: each call of the service is an action of BrokerRuns that is possible at
 that moment and leads to the state it leaves. So what holds over runs holds of the service. Each call
 also promises what LeaseLaws, PublishLaws and SeekLaws say of it.
 */
module ServiceRuns {
  import opened Text
  import opened QueueModel
  import opened QueueLaws
  import opened QueueRuns
  import opened BrokerModel
  import opened BrokerRuns
  import opened Usecases
  import DeadLetters
  import LeaseLaws
  import PublishLaws
  import SeekLaws
  import StoreRuns
  import SnapshotRuns

  lemma DoesIs(b: Broker, a: Action, b': Broker)
    requires Does(b, a, b')
    ensures Possible(b, a) && Step(b, a) == b'
  {
    hide Possible, Step;
  }

  method Publish(s: BrokerService, topic: string, ms: seq<Message>, now: int)
    returns (result: Result<seq<string>>, ghost names: seq<string>)
    requires s.Valid() && AllWithinLimits(ms)
    modifies s`messageCount, s`fanOuts, s.messages
    ensures s.Valid() && fresh(s.Footprint() - old(s.Footprint()))
    ensures Does(old(s.View()), Published(topic, ms, now, names), s.View())
    ensures StoreRuns.Consistent(old(s.View())) ==>
      PublishLaws.Publishes(old(s.View()), s.View(), topic, ms, now, result)
  {
    hide Does, AllWithinLimits, BrokerService.Valid, BrokerService.View, BrokerModel.Publish, Enumerates, Possible,
      Step, StoreRuns.Consistent, PublishLaws.Publishes;
    ghost var b := s.View();
    ViewSubscriptions(s);
    result, names := s.Publish(topic, ms, now);
    PublishDoes(b, topic, ms, now, names);
    DoesIs(b, Published(topic, ms, now, names), s.View());
    if StoreRuns.Consistent(b) {
      PublishLaws.PublishMeans(b, topic, ms, now, names);
    }
  }

  lemma ViewSubscriptions(s: BrokerService)
    ensures s.View().subscriptions == s.subscriptions && s.View().issued == s.issued && s.View().fanOuts == s.fanOuts
  {
  }

  method RunFanOut(s: BrokerService, f: FanOut) returns (ghost ids: seq<string>, ghost at: seq<nat>)
    requires s.Valid() && f in s.fanOuts
    modifies s`issued, s`fanOuts, s.pending.Footprint()
    ensures s.Valid() && fresh(s.Footprint() - old(s.Footprint()))
    ensures Does(old(s.View()), FannedOut(f, ids), s.View())
    ensures Sane(old(s.View())) && f.subscription in old(s.View()).queues ==>
      && f.subscription in s.View().queues && PublishLaws.Passing(f, at)
      && PublishLaws.Appended(old(s.View()).queues[f.subscription], s.View().queues[f.subscription], f.messages, at,
        old(s.issued))
  {
    hide Does, BrokerService.Valid, BrokerService.View, BrokerModel.Deliver, FreshIds, Matching, Possible, Step, Sane,
      PublishLaws.Passing, PublishLaws.Appended;
    ghost var b := s.View();
    ViewSubscriptions(s);
    ids := s.RunFanOut(f);
    FanOutDoes(b, f, ids);
    DoesIs(b, FannedOut(f, ids), s.View());
    at := [];
    if Sane(b) && f.subscription in b.queues {
      at := PublishLaws.FanOutMeans(b, f, ids);
    }
  }

  method Pull(s: BrokerService, name: string, max: int, now: int)
    returns (result: Result<seq<Pending>>, ghost order: seq<string>)
    requires s.Valid() && (name in s.subscriptions ==> ClockRuns(now, s.subscriptions[name].ackDeadline))
    modifies s.pending.Footprint()
    ensures s.Valid() && fresh(s.Footprint() - old(s.Footprint()))
    ensures Does(old(s.View()), LeasedBatch(name, max, now, order), s.View())
    ensures result == PullFrom(old(s.View()), name, max, now, order).1
    ensures Sane(old(s.View())) ==> LeaseLaws.Pulls(old(s.View()), s.View(), name, max, now, result)
  {
    hide Does, BrokerService.Valid, BrokerService.View, PullFrom, Enumerates, ClockRuns, Possible, Step, Sane,
      LeaseLaws.Pulls;
    ghost var b := s.View();
    ViewSubscriptions(s);
    result, order := s.Pull(name, max, now);
    PullDoes(b, name, max, now, order);
    DoesIs(b, LeasedBatch(name, max, now, order), s.View());
    if Sane(b) {
      LeaseLaws.PullMeans(b, name, max, now, order);
    }
  }

  method Acknowledge(s: BrokerService, name: string, ids: seq<string>) returns (result: Result<()>)
    requires s.Valid()
    modifies s.pending.Footprint()
    ensures s.Valid() && fresh(s.Footprint() - old(s.Footprint()))
    ensures Does(old(s.View()), Acknowledged(name, ids), s.View())
    ensures LeaseLaws.Acknowledges(old(s.View()), s.View(), name, ids, result)
  {
    hide Does, BrokerService.Valid, BrokerService.View, AcknowledgeIn, LeaseLaws.Acknowledges;
    ghost var b := s.View();
    result := s.Acknowledge(name, ids);
    AcknowledgeDoes(b, name, ids);
    LeaseLaws.AcknowledgeMeans(b, name, ids);
  }

  method ModifyAckDeadline(s: BrokerService, name: string, ids: seq<string>, now: int, duration: int)
    returns (result: Result<()>)
    requires s.Valid() && ClockRuns(now, duration)
    modifies s.pending.Footprint()
    ensures s.Valid() && fresh(s.Footprint() - old(s.Footprint()))
    ensures Does(old(s.View()), DeadlineSet(name, ids, now, duration), s.View())
    ensures LeaseLaws.SetsDeadline(old(s.View()), s.View(), name, ids, now + duration, result)
  {
    hide Does, BrokerService.Valid, BrokerService.View, ExtendIn, ClockRuns, LeaseLaws.SetsDeadline;
    ghost var b := s.View();
    result := s.ModifyAckDeadline(name, ids, now, duration);
    ExtendDoes(b, name, ids, now, duration);
    LeaseLaws.ExtendMeans(b, name, ids, now + duration);
  }

  method HandleDeadLetters(s: BrokerService, name: string, batch: seq<Pending>, now: int)
    returns (result: Result<seq<Pending>>, ghost names: seq<string>, ghost copies: seq<seq<Pending>>)
    requires s.Valid() && AllWithinLimits(MessagesOf(batch))
    modifies s`messageCount, s`issued, s.messages, s.pending.Footprint()
    ensures s.Valid() && fresh(s.Footprint() - old(s.Footprint()))
    ensures Does(old(s.View()), DeadLettered(name, batch, now, names, copies), s.View())
    ensures |copies| == |names|
    ensures result == BrokerModel.HandleDeadLetters(old(s.View()), name, batch, now, names, copies).1
    ensures result.Success? ==>
      LeaseLaws.Survive(batch, if name in s.subscriptions then s.subscriptions[name].deadLetter else None, result.value)
  {
    hide Does, LeaseLaws.Survive, BrokerService.Valid, BrokerService.View, BrokerModel.HandleDeadLetters,
      DeadLettersForwarded, AllWithinLimits;
    ghost var b := s.View();
    ViewSubscriptions(s);
    result, names, copies := s.HandleDeadLetters(name, batch, now);
    DeadLettersDo(b, name, batch, now, names, copies);
    LeaseLaws.SurvivorsAnswer(b, name, batch, now, names, copies);
  }

  method CreateSnapshot(s: BrokerService, snap: string, name: string, now: int)
    returns (result: Result<()>, ghost order: seq<string>)
    requires s.Valid()
    modifies s`snapshots, s.pending.Footprint()
    ensures s.Valid() && fresh(s.Footprint() - old(s.Footprint()))
    ensures Does(old(s.View()), SnapshotTaken(snap, name, now, order), s.View())
    ensures Sane(old(s.View())) ==> SeekLaws.Records(old(s.View()), s.View(), snap, name, now, result)
  {
    hide Does, BrokerService.Valid, BrokerService.View, BrokerModel.CreateSnapshot, Enumerates, Possible, Step, Sane,
      SeekLaws.Records;
    ghost var b := s.View();
    ViewSubscriptions(s);
    result, order := s.CreateSnapshot(snap, name, now);
    if name !in b.subscriptions && name in b.queues {
      order := SomeOrder(b.queues[name].inFlight.Keys);
      NoSnapshot(b, snap, name, now, order);
    }
    SnapshotDoes(b, snap, name, now, order);
    DoesIs(b, SnapshotTaken(snap, name, now, order), s.View());
    if Sane(b) {
      SeekLaws.SnapshotMeans(b, snap, name, now, order);
    }
  }

  lemma NoSnapshot(b: Broker, snap: string, name: string, now: int, order: seq<string>)
    requires name !in b.subscriptions && name in b.queues && Enumerates(order, b.queues[name].inFlight.Keys)
    ensures BrokerModel.CreateSnapshot(b, snap, name, now, order) == BrokerModel.CreateSnapshot(b, snap, name, now, [])
    ensures BrokerModel.CreateSnapshot(b, snap, name, now, order).0 == b
  {
  }

  method SeekTo(s: BrokerService, name: string, target: Target)
    returns (result: Result<()>, ghost order: seq<string>, ghost ids: seq<string>)
    requires s.Valid()
    modifies s`issued, s.pending.Footprint()
    ensures s.Valid() && fresh(s.Footprint() - old(s.Footprint()))
    ensures Does(old(s.View()), Sought(name, target, order, ids), s.View())
    ensures StoreRuns.Consistent(old(s.View())) && target.ToTime? ==>
      if name in s.subscriptions && name in old(s.View()).queues
      then
        && name in s.View().queues
        && SeekLaws.SoughtTo(old(s.View()).log, s.subscriptions[name].topic, target.time, old(s.issued),
          old(s.View()).queues[name].capacity, s.View().queues[name], result)
      else result == Failure(NotFound)
  {
    hide Does, BrokerService.Valid, BrokerService.View, Seek, Backlog, Enumerates, FreshIds, Possible, Step,
      StoreRuns.Consistent, SeekLaws.SoughtTo, SnapshotRuns.SeekOutcome;
    ghost var b := s.View();
    ViewSubscriptions(s);
    result, order, ids := s.SeekTo(name, target);
    SeekDoes(b, name, target, order, ids);
    ghost var a := Sought(name, target, order, ids);
    DoesIs(b, a, s.View());
    OutcomeOfSeek(b, a);
    ViewSubscriptions(s);
    if StoreRuns.Consistent(b) && target.ToTime? {
      SeekLaws.SeekToTime(b, a, target.time);
    }
  }

  lemma OutcomeOfSeek(b: Broker, a: Action)
    requires Possible(b, a) && a.Sought?
    ensures Seekable(b, a.name, a.target) && Backlog(b, a.name, a.target, a.order).Success? ==>
      |a.ids| == |Backlog(b, a.name, a.target, a.order).value|
    ensures SnapshotRuns.SeekOutcome(b, a) == Seek(b, a.name, a.target, a.order, a.ids).1
  {
    hide Backlog, Seek;
  }

  /** A Pull request is two actions: the Pull, and dealing with the dead letters of its batch. */
  method Serve(s: BrokerService, name: string, max: int, now: int, later: int)
    returns (result: Result<seq<Pending>>, ghost between: Broker, ghost pulled: Action, ghost handled: Option<Action>)
    requires s.Valid() && Sane(s.View())
    requires name in s.subscriptions ==> ClockRuns(now, s.subscriptions[name].ackDeadline)
    modifies s`messageCount, s`issued, s.messages, s.pending.Footprint()
    ensures s.Valid() && fresh(s.Footprint() - old(s.Footprint()))
    ensures pulled.LeasedBatch? && pulled.name == name && pulled.max == BatchSize(max)
    ensures Does(old(s.View()), pulled, between)
    ensures
      if handled.Some?
      then handled.value.DeadLettered? && handled.value.name == name && Does(between, handled.value, s.View())
      else between == s.View()
    ensures handled.Some? ==>
      && LeaseLaws.Pulls(old(s.View()), between, name, if max <= 0 then 100 else max, now, Success(handled.value.batch))
      && (result.Success? ==> LeaseLaws.Survive(handled.value.batch,
        if name in s.subscriptions then s.subscriptions[name].deadLetter else None, result.value))
    ensures handled.None? ==>
      result.Failure? && LeaseLaws.Pulls(old(s.View()), between, name, if max <= 0 then 100 else max, now, result)
    ensures handled.Some? && (name in s.subscriptions ==> s.subscriptions[name].deadLetter.None?) ==>
      s.View() == between && result == Success(handled.value.batch)
  {
    hide Does, BrokerService.Valid, BrokerService.View, PullFrom, BrokerModel.HandleDeadLetters, Enumerates, ClockRuns,
      DeadLettersForwarded, Sane, AllWithinLimits, Possible, Step, LeaseLaws.Pulls, LeaseLaws.Survive;
    ghost var b := s.View();
    ViewSubscriptions(s);
    ghost var order, names, copies;
    result, order, names, copies := s.Serve(name, max, now, later);
    ghost var r := PullFrom(b, name, BatchSize(max), now, order);
    between, pulled, handled := r.0, LeasedBatch(name, BatchSize(max), now, order), None;
    PullDoes(b, name, BatchSize(max), now, order);
    DoesIs(b, pulled, between);
    LeaseLaws.PullMeans(b, name, BatchSize(max), now, order);
    if r.1.Success? {
      BatchWithinLimits(b, pulled);
      handled := Some(DeadLettered(name, r.1.value, later, names, copies));
      DeadLettersDo(between, name, r.1.value, later, names, copies);
      HandedOver(b, between, name, BatchSize(max), now, r.1.value, later, names, copies);
    }
  }

  /** What becomes of a batch that has just been pulled. */
  lemma HandedOver(b: Broker, between: Broker, name: string, max: int, now: int, batch: seq<Pending>, later: int,
      names: seq<string>, copies: seq<seq<Pending>>)
    requires |copies| == |names| && LeaseLaws.Pulls(b, between, name, max, now, Success(batch))
    ensures var (b', r) := BrokerModel.HandleDeadLetters(between, name, batch, later, names, copies);
      var policy := if name in b.subscriptions then b.subscriptions[name].deadLetter else None;
      && (r.Success? ==> LeaseLaws.Survive(batch, policy, r.value))
      && (policy.None? ==> b' == between && r == Success(batch))
  {
    hide LeaseLaws.Survive, Kept, Dead, BrokerModel.ForwardDead;
    LeaseLaws.SurvivorsAnswer(between, name, batch, later, names, copies);
  }

  lemma BatchWithinLimits(b: Broker, a: Action)
    requires Sane(b) && Possible(b, a) && a.LeasedBatch?
    ensures var r := PullFrom(b, a.name, a.max, a.now, a.order).1;
      r.Success? ==> AllWithinLimits(MessagesOf(r.value))
  {
    hide Possible, Step, PullFrom, Sane, WithinLimits;
    if a.name in b.subscriptions && a.name in b.queues {
      DeadLetters.BatchIsHeld(b, a);
      StepKeepsSane(b, a);
      HeldWithinLimits(Step(b, a), a.name, PullFrom(b, a.name, a.max, a.now, a.order).1.value);
    } else {
      NotPulled(b, a);
    }
  }

  lemma NotPulled(b: Broker, a: Action)
    requires a.LeasedBatch? && !(a.name in b.subscriptions && a.name in b.queues)
    ensures PullFrom(b, a.name, a.max, a.now, a.order).1.Failure?
  {
    hide QueueModel.Pull;
  }

  lemma HeldWithinLimits(b: Broker, n: string, ps: seq<Pending>)
    requires Sane(b) && n in b.queues && Holds(b.queues[n].inFlight, ps)
    ensures AllWithinLimits(MessagesOf(ps))
  {
    hide WithinLimits, Distinct, IdSet;
    assert Inv(State(b.queues[n], b.issued));
  }
}
