/**
 Dead-lettering hands messages over safely: they leave the source only when they are stored under the
 dead-letter topic and pending in all of its subscriptions.
 */
module DeadLetters {
  import opened QueueModel
  import opened QueueLaws
  import opened MessageLogs
  import opened BrokerModel
  import opened BrokerRuns
  import opened StoreRuns
  import opened Sublists
  import QueueRuns

  // ----- Splitting a batch

  /** The kept messages are those with attempts left, in their order in the batch. */
  lemma KeptInOrder(ps: seq<Pending>, maximum: int) returns (at: seq<nat>)
    ensures Picks(ps, Kept(ps, maximum), at)
    ensures forall j :: 0 <= j < |ps| ==> (j in at <==> !IsDead(ps[j], maximum))
  {
    hide Kept, IsDead, Picks;
    var outs := seq(|ps| + 1, i requires 0 <= i <= |ps| => Kept(ps[..i], maximum));
    var takes := seq(|ps|, i requires 0 <= i < |ps| => !IsDead(ps[i], maximum));
    KeptNone(maximum);
    assert ps[..0] == [] && ps[..|ps|] == ps;
    forall i | 0 <= i < |ps| ensures outs[i + 1] == outs[i] + if takes[i] then [ps[i]] else [] {
      KeptStep(ps, maximum, i);
    }
    at := TakenInOrder(ps, outs, takes);
  }

  lemma KeptStep(ps: seq<Pending>, maximum: int, n: nat)
    requires n < |ps|
    ensures Kept(ps[..n + 1], maximum) == Kept(ps[..n], maximum) + if !IsDead(ps[n], maximum) then [ps[n]] else []
  {
    assert ps[..n + 1][..n] == ps[..n];
  }

  lemma KeptNone(maximum: int)
    ensures Kept([], maximum) == []
  {
  }

  /** The dead ones are the others, in their order. */
  lemma DeadInOrder(ps: seq<Pending>, maximum: int) returns (at: seq<nat>)
    ensures Picks(ps, Dead(ps, maximum), at)
    ensures forall j :: 0 <= j < |ps| ==> (j in at <==> IsDead(ps[j], maximum))
  {
    hide Dead, IsDead, Picks;
    var outs := seq(|ps| + 1, i requires 0 <= i <= |ps| => Dead(ps[..i], maximum));
    var takes := seq(|ps|, i requires 0 <= i < |ps| => IsDead(ps[i], maximum));
    DeadNone(maximum);
    assert ps[..0] == [] && ps[..|ps|] == ps;
    forall i | 0 <= i < |ps| ensures outs[i + 1] == outs[i] + if takes[i] then [ps[i]] else [] {
      DeadStep(ps, maximum, i);
    }
    at := TakenInOrder(ps, outs, takes);
  }

  lemma DeadStep(ps: seq<Pending>, maximum: int, n: nat)
    requires n < |ps|
    ensures Dead(ps[..n + 1], maximum) == Dead(ps[..n], maximum) + if IsDead(ps[n], maximum) then [ps[n]] else []
  {
    assert ps[..n + 1][..n] == ps[..n];
  }

  lemma DeadNone(maximum: int)
    ensures Dead([], maximum) == []
  {
  }

  // ----- Forwarding

  /** Has the queue of this name room for so many messages? */
  predicate Takes(queues: map<string, Queue>, name: string, count: nat) {
    name in queues && queues[name].Room(count) == count
  }

  lemma {:induction false} ForwardKeepsOthers(queues: map<string, Queue>, names: seq<string>,
      copies: seq<seq<Pending>>, n: string)
    requires |copies| == |names| && n !in names && n in queues
    ensures n in ForwardAll(queues, names, copies).0 && ForwardAll(queues, names, copies).0[n] == queues[n]
  {
    hide Enqueue;
    if names != [] {
      ForwardKeepsOthers(queues, names[..|names| - 1], copies[..|names| - 1], n);
    }
  }

  /** Forwarding changes nothing that is leased. */
  lemma {:induction false} ForwardKeepsLeases(queues: map<string, Queue>, names: seq<string>,
      copies: seq<seq<Pending>>, n: string)
    requires |copies| == |names| && n in queues
    ensures var qs := ForwardAll(queues, names, copies).0;
      n in qs && qs[n].inFlight == queues[n].inFlight && queues[n].channel <= qs[n].channel
  {
    if names != [] {
      ForwardKeepsLeases(queues, names[..|names| - 1], copies[..|names| - 1], n);
    }
  }

  /** It succeeds if and only if every queue takes all its copies; each queue then has them at its end. */
  lemma {:induction false} ForwardReaches(queues: map<string, Queue>, names: seq<string>, copies: seq<seq<Pending>>)
    requires |copies| == |names| && NoRepeats(names)
    ensures var (qs, r) := ForwardAll(queues, names, copies);
      && (r.Success? <==> forall i :: 0 <= i < |names| ==> Takes(queues, names[i], |copies[i]|))
      && (r.Success? ==> forall i :: 0 <= i < |names| ==>
        && names[i] in qs && qs[names[i]].channel == queues[names[i]].channel + copies[i]
        && qs[names[i]].inFlight == queues[names[i]].inFlight)
  {
    hide Enqueue, Takes;
    if names != [] {
      var n := |names| - 1;
      var qs := ForwardAll(queues, names[..n], copies[..n]).0;
      ForwardReaches(queues, names[..n], copies[..n]);
      ForwardKeepsNames(queues, names[..n], copies[..n]);
      if names[n] in queues {
        ForwardKeepsOthers(queues, names[..n], copies[..n], names[n]);
        TakesAll(queues, names[n], copies[n]);
      } else {
        NotThere(queues, names[n], |copies[n]|);
      }
    }
  }

  lemma TakesAll(queues: map<string, Queue>, name: string, ps: seq<Pending>)
    requires name in queues
    ensures Enqueue(queues[name], ps).1.Success? <==> Takes(queues, name, |ps|)
    ensures Enqueue(queues[name], ps).1.Success? ==>
      Enqueue(queues[name], ps).0.channel == queues[name].channel + ps
    ensures Enqueue(queues[name], ps).0.inFlight == queues[name].inFlight
  {
    assert ps[..|ps|] == ps;
  }

  /**
   If it fails, it stops at the first subscription that cannot take all its copies: those before have
   all of theirs, this one as many as fit if it exists, and the ones after have none.
   */
  lemma {:induction false} ForwardStopsAt(queues: map<string, Queue>, names: seq<string>, copies: seq<seq<Pending>>)
    returns (k: nat)
    requires |copies| == |names| && NoRepeats(names) && ForwardAll(queues, names, copies).1.Failure?
    ensures k < |names| && !Takes(queues, names[k], |copies[k]|)
    ensures ForwardAll(queues, names[..k], copies[..k]).1.Success?
    ensures ForwardAll(queues, names[..k], copies[..k]).0.Keys == queues.Keys
    ensures var qs := ForwardAll(queues, names[..k], copies[..k]).0;
      ForwardAll(queues, names, copies) ==
        if names[k] !in queues then (qs, Failure(NotFound))
        else (qs[names[k] := Offer(queues[names[k]], copies[k])], Failure(ResourceExhausted))
  {
    hide Offer, Takes;
    var n := |names| - 1;
    if names == [] {
      assert false;
    } else if ForwardAll(queues, names[..n], copies[..n]).1.Failure? {
      k := ForwardStopsAt(queues, names[..n], copies[..n]);
      assert names[..n][..k] == names[..k] && copies[..n][..k] == copies[..k];
    } else {
      k := n;
      ForwardKeepsNames(queues, names[..n], copies[..n]);
      if names[n] in queues {
        ForwardKeepsOthers(queues, names[..n], copies[..n], names[n]);
        DoesNotTake(queues, names[n], copies[n]);
      } else {
        NotThere(queues, names[n], |copies[n]|);
      }
    }
  }

  lemma DoesNotTake(queues: map<string, Queue>, name: string, ps: seq<Pending>)
    requires name in queues && Enqueue(queues[name], ps).1.Failure?
    ensures !Takes(queues, name, |ps|)
    ensures Enqueue(queues[name], ps) == (Offer(queues[name], ps), Failure(ResourceExhausted))
  {
  }

  lemma NotThere(queues: map<string, Queue>, name: string, count: nat)
    requires name !in queues
    ensures !Takes(queues, name, count)
  {
  }

  lemma {:induction false} CopiesAre(copies: seq<seq<Pending>>, ms: seq<Message>, issued: set<string>, i: nat)
    requires FreshForwards(copies, ms, issued) && i < |copies|
    ensures |copies[i]| == |ms| && copies[i] == NewPending(ms, AckIdsOf(copies[i]))
  {
    hide FreshIds, AllIds, NewPending, AckIdsOf;
    var n := |copies| - 1;
    if i < n {
      CopiesAre(copies[..n], ms, issued, i);
    }
  }

  // ----- The hand-off

  /** The message of exactly one waiting record, never delivered, and of no leased one. */
  ghost predicate PendingOnce(q: Queue, m: Message) {
    && (forall k :: k in q.inFlight ==> q.inFlight[k].message.id != m.id)
    && (exists j :: 0 <= j < |q.channel| && q.channel[j].message == m && IsNew(q.channel[j]))
    && (forall i, j :: 0 <= i < j < |q.channel| ==>
      !(q.channel[i].message.id == m.id && q.channel[j].message.id == m.id))
  }

  lemma NewMessageIds(log: map<string, Message>, count: nat, ms: seq<Message>, now: int)
    requires Filed(log, count)
    ensures var stamped := Stamp(ms, count, now);
      && (forall i, topic :: 0 <= i < |ms| ==> Key(topic, stamped[i].id) !in log)
      && (forall i, j :: 0 <= i < j < |ms| ==> stamped[i].id != stamped[j].id)
  {
    hide Filed, MessageID, Key;
    var stamped := Stamp(ms, count, now);
    forall i, topic | 0 <= i < |ms| ensures Key(topic, stamped[i].id) !in log {
      NotFiledYet(log, count, topic, count + i + 1);
    }
    forall i, j | 0 <= i < j < |ms| ensures stamped[i].id != stamped[j].id {
      MessageIDs(count + i + 1, count + j + 1);
    }
  }

  lemma NewAreNotHeld(q: Queue, log: map<string, Message>, topic: string, m: Message)
    requires Carries(q, StoredUnder(log, topic)) && Key(topic, m.id) !in log
    ensures forall k :: k in q.inFlight ==> q.inFlight[k].message.id != m.id
    ensures forall i :: 0 <= i < |q.channel| ==> q.channel[i].message.id != m.id
  {
    hide Key;
    StoredUnderIs(log, topic);
  }

  /** New copies at the end of a queue that holds none of their messages. */
  lemma AppendedOnce(q: Queue, q': Queue, log: map<string, Message>, topic: string, ms: seq<Message>,
      ids: seq<string>, i: nat)
    requires Carries(q, StoredUnder(log, topic)) && |ids| == |ms| && i < |ms| && WithinLimits(ms[i])
    requires q'.channel == q.channel + NewPending(ms, ids) && q'.inFlight.Keys <= q.inFlight.Keys
    requires forall k :: k in q'.inFlight ==> q'.inFlight[k] == q.inFlight[k]
    requires Key(topic, ms[i].id) !in log && forall j, k :: 0 <= j < k < |ms| ==> ms[j].id != ms[k].id
    ensures PendingOnce(q', ms[i])
  {
    hide Key, WithinLimits, Carries;
    NewAreNotHeld(q, log, topic, ms[i]);
    var j := |q.channel| + i;
    assert q'.channel[j] == Pending(ms[i], ids[i], NO_DEADLINE, 0);
    forall k | 0 <= k < |q'.channel| && q'.channel[k].message.id == ms[i].id ensures k == j {
      if k >= |q.channel| {
        assert q'.channel[k].message == ms[k - |q.channel|];
      }
    }
  }

  /** The dead messages of a batch, and what becomes of them, when there is a policy and there are any. */
  ghost predicate HasDead(b: Broker, a: Action) {
    a.DeadLettered? && PolicyOf(b, a.name).Some? && Dead(a.batch, PolicyOf(b, a.name).value.maxAttempts) != []
  }

  function Reissued(b: Broker, a: Action): seq<Message>
    requires a.DeadLettered? && PolicyOf(b, a.name).Some?
  {
    Stamp(MessagesOf(Dead(a.batch, PolicyOf(b, a.name).value.maxAttempts)), b.messageCount, a.now)
  }

  /** A new ID, and stored under the dead-letter topic. */
  lemma DeadLettersAreStored(b: Broker, a: Action)
    requires Consistent(b) && Possible(b, a) && HasDead(b, a)
    ensures var ms, topic := Reissued(b, a), PolicyOf(b, a.name).value.topic;
      && (forall i, t :: 0 <= i < |ms| ==> Key(t, ms[i].id) !in b.log)
      && (forall i, j :: 0 <= i < j < |ms| ==> ms[i].id != ms[j].id)
      && (forall i :: 0 <= i < |ms| ==> Stored(Step(b, a).log, topic, ms[i]))
  {
    hide Stored, Filed, Sane, OnTheirWay, Sourced, Stamp, MessagesOf, Dead, Kept, Key, Slashes, Logged, ForwardAll,
      DeadLettersForwarded,
      AllWithinLimits;
    var dead := MessagesOf(Dead(a.batch, PolicyOf(b, a.name).value.maxAttempts));
    LoggedAdds(b.log, b.messageCount, PolicyOf(b, a.name).value.topic, dead, a.now);
    NewMessageIds(b.log, b.messageCount, dead, a.now);
  }

  ghost function Outcome(b: Broker, a: Action): Result<seq<Pending>>
    requires Possible(b, a) && a.DeadLettered?
  {
    HandleDeadLetters(b, a.name, a.batch, a.now, a.names, a.copies).1
  }

  /** What forwarding does to the queues of the dead-letter subscriptions and to the source. */
  lemma HandOffQueues(b: Broker, a: Action)
    requires Possible(b, a) && HasDead(b, a)
    ensures var b', topic := Step(b, a), PolicyOf(b, a.name).value.topic;
      var qs := ForwardAll(b.queues, a.names, a.copies).0;
      && NoRepeats(a.names) && (forall n :: n in a.names ==> n in Subscribers(b.subscriptions, topic))
      && FreshForwards(a.copies, Reissued(b, a), b.issued) && |a.copies| == |a.names|
      && (Outcome(b, a).Success? ==>
        && (forall n :: n in Subscribers(b.subscriptions, topic) ==> n in a.names)
        && ForwardAll(b.queues, a.names, a.copies).1.Success? && a.name in qs
        && b'.queues == qs[a.name :=
          Acknowledge(qs[a.name], AckIdsOf(Dead(a.batch, PolicyOf(b, a.name).value.maxAttempts)))])
      && (Outcome(b, a).Failure? ==>
        b'.queues == qs && (ForwardAll(b.queues, a.names, a.copies).1.Failure? || a.name !in b.queues))
  {
    hide Dead, Kept, Stamp, MessagesOf, AckIdsOf, Logged, ForwardAll, FreshForwards, Visits, Acknowledge,
      AllWithinLimits, Subscribers, AllIds;
    VisitedOnce(a.names, Subscribers(b.subscriptions, PolicyOf(b, a.name).value.topic), Outcome(b, a).Success?);
    ForwardKeepsNames(b.queues, a.names, a.copies);
  }

  /** On success every dead-letter subscription has each dead message pending, once and never delivered. */
  lemma DeadLettersArrive(b: Broker, a: Action, n: string, i: nat)
    requires Consistent(b) && Possible(b, a) && HasDead(b, a) && Outcome(b, a).Success?
    requires n in Subscribers(b.subscriptions, PolicyOf(b, a.name).value.topic) && i < |Reissued(b, a)|
    ensures n in Step(b, a).queues && PendingOnce(Step(b, a).queues[n], Reissued(b, a)[i])
  {
    hide Possible, Step, Outcome, Sane, Filed, OnTheirWay, Reissued, FreshForwards, ForwardAll, PendingOnce, Carries,
      StoredUnder, Key,
      NewPending, AckIdsOf, WithinLimits, Stored, Dead, Slashes, Acknowledge;
    var ms, topic := Reissued(b, a), PolicyOf(b, a.name).value.topic;
    HandOffQueues(b, a);
    DeadLettersAreStored(b, a);
    ForwardReaches(b.queues, a.names, a.copies);
    var at :| 0 <= at < |a.names| && a.names[at] == n;
    CopiesAre(a.copies, ms, b.issued, at);
    ReissuedWithinLimits(b, a, i);
    assert Takes(b.queues, a.names[at], |a.copies[at]|);
    AcknowledgedQueue(ForwardAll(b.queues, a.names, a.copies).0[n],
      AckIdsOf(Dead(a.batch, PolicyOf(b, a.name).value.maxAttempts)));
    AppendedOnce(b.queues[n], Step(b, a).queues[n], b.log, topic, ms, AckIdsOf(a.copies[at]), i);
  }

  lemma ReissuedWithinLimits(b: Broker, a: Action, i: nat)
    requires Possible(b, a) && HasDead(b, a) && i < |Reissued(b, a)|
    ensures WithinLimits(Reissued(b, a)[i])
  {
    hide Dead, Stamp, MessagesOf, WithinLimits, DeadLettersForwarded, HandleDeadLetters;
    DeadWithinLimits(a.batch, PolicyOf(b, a.name).value.maxAttempts, b.messageCount, a.now);
  }

  lemma AcknowledgedQueue(q: Queue, ids: seq<string>)
    ensures var q' := Acknowledge(q, ids);
      && q'.channel == q.channel && q'.inFlight.Keys == q.inFlight.Keys - IdsIn(ids)
      && forall k :: k in q'.inFlight ==> q'.inFlight[k] == q.inFlight[k]
  {
  }

  /**
   On success the ack IDs of the dead messages, and no others, have left the source. On an error
   nothing has left it, nor has any lease of any other queue changed.
   */
  lemma SourceIsReleased(b: Broker, a: Action)
    requires Possible(b, a) && HasDead(b, a)
    ensures Outcome(b, a).Success? ==>
      && a.name in b.queues && a.name in Step(b, a).queues
      && var before, after := b.queues[a.name].inFlight, Step(b, a).queues[a.name].inFlight;
      && after.Keys == before.Keys - IdSet(Dead(a.batch, PolicyOf(b, a.name).value.maxAttempts))
      && forall k :: k in after ==> after[k] == before[k]
    ensures Outcome(b, a).Failure? ==> forall n :: n in b.queues ==>
      && n in Step(b, a).queues && Step(b, a).queues[n].inFlight == b.queues[n].inFlight
      && b.queues[n].channel <= Step(b, a).queues[n].channel
  {
    hide Possible, Step, Outcome, Reissued, FreshForwards, ForwardAll, AckIdsOf, Dead, Acknowledge, IdsIn, IdSet;
    var dead := Dead(a.batch, PolicyOf(b, a.name).value.maxAttempts);
    HandOffQueues(b, a);
    ForwardKeepsNames(b.queues, a.names, a.copies);
    forall n | n in b.queues
      ensures var qs := ForwardAll(b.queues, a.names, a.copies).0;
        n in qs && qs[n].inFlight == b.queues[n].inFlight && b.queues[n].channel <= qs[n].channel
    {
      ForwardKeepsLeases(b.queues, a.names, a.copies, n);
    }
    if Outcome(b, a).Success? {
      AcknowledgedQueue(ForwardAll(b.queues, a.names, a.copies).0[a.name], AckIdsOf(dead));
      CopiesAreTheirIds(dead);
    }
  }

  /**
   The hand-off succeeds if and only if the source exists and every dead-letter subscription has room for
   all dead messages.
   */
  lemma HandOffSucceeds(b: Broker, a: Action)
    requires Possible(b, a) && HasDead(b, a)
    ensures Outcome(b, a).Success? <==>
      && a.name in b.queues
      && forall n :: n in Subscribers(b.subscriptions, PolicyOf(b, a.name).value.topic) ==>
        Takes(b.queues, n, |Dead(a.batch, PolicyOf(b, a.name).value.maxAttempts)|)
    ensures Outcome(b, a).Success? ==> Outcome(b, a).value == Kept(a.batch, PolicyOf(b, a.name).value.maxAttempts)
  {
    hide Possible, Step, Outcome, Reissued, FreshForwards, ForwardAll, AckIdsOf, Dead, Acknowledge, Subscribers,
      Kept, Takes;
    HandOffQueues(b, a);
    ForwardKeepsNames(b.queues, a.names, a.copies);
    ForwardReaches(b.queues, a.names, a.copies);
    ReissuedAll(b, a);
    OutcomeIs(b, a);
    forall i | 0 <= i < |a.names| ensures |a.copies[i]| == |Dead(a.batch, PolicyOf(b, a.name).value.maxAttempts)| {
      CopiesAre(a.copies, Reissued(b, a), b.issued, i);
    }
  }

  lemma ReissuedAll(b: Broker, a: Action)
    requires Possible(b, a) && HasDead(b, a)
    ensures |Reissued(b, a)| == |Dead(a.batch, PolicyOf(b, a.name).value.maxAttempts)|
  {
  }

  lemma OutcomeIs(b: Broker, a: Action)
    requires Possible(b, a) && HasDead(b, a)
    ensures Outcome(b, a).Success? ==> Outcome(b, a).value == Kept(a.batch, PolicyOf(b, a.name).value.maxAttempts)
  {
    hide Kept, Dead, ForwardDead;
  }

  // ----- A Pull request

  lemma {:induction false} KeptAndDeadApart(ps: seq<Pending>, maximum: int)
    requires Distinct(ps)
    ensures var kept, dead := Kept(ps, maximum), Dead(ps, maximum);
      IdSet(kept) !! IdSet(dead) && IdSet(kept) + IdSet(dead) == IdSet(ps)
    ensures forall i :: 0 <= i < |Kept(ps, maximum)| ==>
      Kept(ps, maximum)[i] in ps && !IsDead(Kept(ps, maximum)[i], maximum)
  {
    hide IdSet, Distinct, IsDead;
    NoIds();
    if ps != [] {
      var n := |ps| - 1;
      var kept, dead := Kept(ps[..n], maximum), Dead(ps[..n], maximum);
      SplitLast(ps);
      KeptAndDeadApart(ps[..n], maximum);
      IdSetOne(ps[n]);
      IdSetConcat(kept, [ps[n]]);
      IdSetConcat(dead, [ps[n]]);
      assert kept + [] == kept && dead + [] == dead;
    }
  }

  /** A Pull request, as the handler serves it: a Pull, then the dead letters of its batch. */
  ghost predicate Served(b: Broker, pulled: Action, handled: Action) {
    && Sane(b) && Possible(b, pulled) && pulled.LeasedBatch?
    && pulled.name in b.queues && pulled.name in b.subscriptions
    && Possible(Step(b, pulled), handled) && handled.DeadLettered? && handled.name == pulled.name
    && PullFrom(b, pulled.name, pulled.max, pulled.now, pulled.order).1 == Success(handled.batch)
  }

  lemma BatchIsHeld(b: Broker, pulled: Action)
    requires Sane(b) && Possible(b, pulled) && pulled.LeasedBatch? && pulled.name in b.queues
    requires pulled.name in b.subscriptions
    ensures var (b', r) := PullFrom(b, pulled.name, pulled.max, pulled.now, pulled.order);
      && b' == Step(b, pulled) && r.Success? && pulled.name in b'.queues
      && Distinct(r.value) && Holds(b'.queues[pulled.name].inFlight, r.value)
  {
    hide IdSet, Distinct, Holds, WellFormed, Live, Requeue, LeaseFrom, Enumerates, Back;
    var q, sub := b.queues[pulled.name], b.subscriptions[pulled.name];
    assert QueueRuns.Inv(QueueRuns.State(q, b.issued));
    RequeueKeeps(q, pulled.now, pulled.order);
    LeaseKeeps(Requeue(q, pulled.now, pulled.order), pulled.max, pulled.now + sub.ackDeadline, sub.ordered);
  }

  lemma HeldOne(m: map<string, Pending>, ps: seq<Pending>, p: Pending)
    requires Holds(m, ps) && p in ps
    ensures p.ackID in m && m[p.ackID] == p && p.ackID in IdSet(ps)
  {
  }

  /** What the source holds after the dead letters of a batch have been dealt with. */
  lemma SourceAfter(b: Broker, a: Action)
    requires Possible(b, a) && a.DeadLettered? && a.name in b.queues && a.name in b.subscriptions
    ensures a.name in Step(b, a).queues
    ensures var before, after := b.queues[a.name].inFlight, Step(b, a).queues[a.name].inFlight;
      if HasDead(b, a) && Outcome(b, a).Success? then
        && after.Keys == before.Keys - IdSet(Dead(a.batch, PolicyOf(b, a.name).value.maxAttempts))
        && forall k :: k in after ==> after[k] == before[k]
      else after == before
  {
    hide Possible, Dead, IdSet, HandleDeadLetters;
    if HasDead(b, a) {
      SourceIsReleased(b, a);
    } else {
      NothingDead(b, a);
    }
  }

  lemma NothingDead(b: Broker, a: Action)
    requires Possible(b, a) && a.DeadLettered? && !HasDead(b, a)
    ensures Step(b, a) == b
    ensures Outcome(b, a) == Success(
      if PolicyOf(b, a.name).Some? then Kept(a.batch, PolicyOf(b, a.name).value.maxAttempts) else a.batch)
  {
    hide Dead, Kept, ForwardDead;
  }

  /**
   Whatever a Pull request answers is leased by the subscription and has attempts left; the dead
   messages of the batch are leased no more. If it fails, the whole batch stays leased and comes
   again when its deadline has passed.
   */
  lemma ServedAreLeased(b: Broker, pulled: Action, handled: Action, p: Pending)
    requires Served(b, pulled, handled) && p in handled.batch
    ensures handled.name in Step(Step(b, pulled), handled).queues
    ensures var b1 := Step(b, pulled);
      var leased, r, policy :=
        Step(b1, handled).queues[handled.name].inFlight, Outcome(b1, handled), PolicyOf(b1, handled.name);
      var dead := policy.Some? && IsDead(p, policy.value.maxAttempts);
      if r.Success? && dead then p !in r.value && p.ackID !in leased
      else (r.Success? ==> p in r.value) && p.ackID in leased && leased[p.ackID] == p
  {
    hide Possible, Step, PullFrom, IdSet, Distinct, Holds, Dead, Kept, IsDead, Outcome, Sane;
    var b1 := Step(b, pulled);
    BatchIsHeld(b, pulled);
    StepKeepsNames(b, pulled);
    SourceAfter(b1, handled);
    HeldOne(b1.queues[handled.name].inFlight, handled.batch, p);
    OutcomeOf(b1, handled);
    if PolicyOf(b1, handled.name).Some? {
      InKeptOrDead(handled.batch, PolicyOf(b1, handled.name).value.maxAttempts, p);
    }
  }

  lemma OutcomeOf(b: Broker, a: Action)
    requires Possible(b, a) && a.DeadLettered?
    ensures Outcome(b, a).Success? ==>
      Outcome(b, a).value ==
        if PolicyOf(b, a.name).Some? then Kept(a.batch, PolicyOf(b, a.name).value.maxAttempts) else a.batch
    ensures !HasDead(b, a) ==> Outcome(b, a).Success?
  {
    hide Possible, Dead, Kept, Outcome;
    if HasDead(b, a) {
      OutcomeIs(b, a);
    } else {
      NothingDead(b, a);
    }
  }

  /** A message of the batch is kept, or it is dead. */
  lemma InKeptOrDead(ps: seq<Pending>, maximum: int, p: Pending)
    requires Distinct(ps) && p in ps
    ensures p in Kept(ps, maximum) <==> !IsDead(p, maximum)
    ensures p.ackID in IdSet(Dead(ps, maximum)) <==> IsDead(p, maximum)
    ensures IsDead(p, maximum) ==> Dead(ps, maximum) != []
  {
    hide Distinct, IsDead, Kept, Dead;
    var at := KeptInOrder(ps, maximum);
    var at' := DeadInOrder(ps, maximum);
    KeptAndDeadApart(ps, maximum);
    var i :| 0 <= i < |ps| && ps[i] == p;
    if IsDead(p, maximum) {
      var j :| 0 <= j < |at'| && at'[j] == i;
      assert Dead(ps, maximum)[j] == p;
    } else {
      var j :| 0 <= j < |at| && at[j] == i;
      assert Kept(ps, maximum)[j] == p;
    }
  }
}
