/** The use cases of the broker, over its repositories. Each is proved to do what BrokerModel says. */
module Usecases {
  import opened Text
  import opened QueueModel
  import opened MessageLogs
  import opened PendingRepositories
  import opened BrokerModel
  import FilterParser
  import FilterSyntax

  /** Some string is longer than all in a finite set. */
  lemma LongerThanAll(s: set<string>) returns (n: nat)
    ensures forall t :: t in s ==> |t| < n
  {
    if s == {} {
      n := 0;
    } else {
      var t :| t in s;
      n := LongerThanAll(s - {t});
      n := if |t| < n then n else |t| + 1;
    }
  }

  lemma SomeIdIsFresh(issued: set<string>)
    ensures exists id: string :: id !in issued
  {
    var n := LongerThanAll(issued);
    var id := seq(n, _ => 'x');
    assert |id| == n && id !in issued;
  }

  lemma EnumeratesMembers(names: seq<string>, keys: set<string>)
    requires Enumerates(names, keys)
    ensures forall n :: n in names ==> n in keys
  {
  }

  /** The queues are as they were when nothing they consist of has changed. */
  twostate lemma QueuesUntouched(r: PendingMessageRepository)
    requires unchanged(old(r.Footprint()))
    ensures r.View() == old(r.View()) && r.Footprint() == old(r.Footprint()) && (old(r.Valid()) ==> r.Valid())
  {
    hide PendingMessageRepository.Valid, PendingMessageRepository.View;
  }

  class BrokerService {
    var topics: set<string>
    var subscriptions: map<string, Subscription>
    var snapshots: map<string, Snapshot>
    const messages: MessageRepository
    const pending: PendingMessageRepository
    var messageCount: nat
    /** The ack IDs handed out so far; stands for the assumption that random IDs never repeat. */
    var issued: set<string>
    /** The goroutines that Publish has started and that have not run yet. */
    ghost var fanOuts: multiset<FanOut>

    constructor (queueSize: nat)
      ensures Valid()
      ensures View() == Broker({}, map[], map[], map[], map[], 0, {}, multiset{})
    {
      hide PendingMessageRepository.Valid, PendingMessageRepository.View;
      topics, subscriptions, snapshots, messageCount, issued, fanOuts := {}, map[], map[], 0, {}, multiset{};
      messages := new MessageRepository();
      pending := new PendingMessageRepository(queueSize);
    }

    ghost predicate Valid()
      reads this, pending, pending.queues.Values
    {
      pending.Valid() && this as object !in pending.Footprint() && messages as object !in pending.Footprint()
    }

    ghost function Footprint(): set<object>
      reads this, pending, pending.queues.Values
    {
      {this, messages} + pending.Footprint()
    }

    ghost function View(): Broker
      reads this, messages, pending.Footprint()
    {
      Broker(topics, subscriptions, messages.messages, snapshots, pending.View(), messageCount, issued, fanOuts)
    }

    method CreateTopic(topic: string) returns (result: Result<()>)
      requires Valid()
      modifies this`topics
      ensures Valid() && (View(), result) == BrokerModel.CreateTopic(old(View()), topic)
    {
      hide PendingMessageRepository.View, PendingMessageRepository.Valid;
      if topic in topics {
        return Failure(AlreadyExists);
      }
      topics := topics + {topic};
      QueuesUntouched(pending);
      result := Success(());
    }

    method CreateSubscription(name: string, sub: Subscription) returns (result: Result<()>)
      requires Valid()
      modifies this`subscriptions, pending
      ensures Valid() && fresh(Footprint() - old(Footprint()))
      ensures (View(), result) == BrokerModel.CreateSubscription(old(View()), name, sub, pending.queueSize)
    {
      hide Empty, PendingMessageRepository.View, PendingMessageRepository.Valid;
      if sub.topic !in topics {
        return Failure(NotFound);
      }
      if name in subscriptions {
        return Failure(AlreadyExists);
      }
      subscriptions := subscriptions[name := sub];
      QueuesUntouched(pending);
      pending.InitSubscription(name);
      result := Success(());
    }

    method NewMsgID() returns (id: string)
      modifies this`messageCount
      ensures messageCount == old(messageCount) + 1 && id == MessageID(messageCount)
    {
      messageCount := messageCount + 1;
      id := "msg-" + Decimal(messageCount);
    }

    method NewAckID() returns (id: string)
      modifies this`issued
      ensures id !in old(issued) && issued == old(issued) + {id}
    {
      SomeIdIsFresh(issued);
      id :| id !in issued;
      issued := issued + {id};
    }

    method NewPendingMessage(m: Message) returns (p: Pending)
      modifies this`issued
      ensures p == Pending(m, p.ackID, NO_DEADLINE, 0)
      ensures p.ackID !in old(issued) && issued == old(issued) + {p.ackID}
    {
      var id := NewAckID();
      p := Pending(m, id, NO_DEADLINE, 0);
    }

    method ListSubscriptionsByTopic(topic: string) returns (names: seq<string>)
      ensures Enumerates(names, Subscribers(subscriptions, topic))
    {
      names := [];
      var todo := subscriptions.Keys;
      while todo != {}
        invariant todo <= subscriptions.Keys
        invariant Enumerates(names, Subscribers(subscriptions, topic) - todo)
      {
        var n :| n in todo;
        todo := todo - {n};
        if subscriptions[n].topic == topic {
          names := names + [n];
        }
      }
      assert Subscribers(subscriptions, topic) - todo == Subscribers(subscriptions, topic);
    }

    /** Gives messages their IDs and publish time, and stores them under the topic. */
    method StampAndStore(topic: string, ms: seq<Message>, now: int)
      returns (stamped: seq<Message>, ids: seq<string>)
      modifies this`messageCount, messages
      ensures stamped == Stamp(ms, old(messageCount), now) && ids == IdsOf(stamped)
      ensures messageCount == old(messageCount) + |ms|
      ensures messages.messages == Logged(old(messages.messages), topic, stamped)
    {
      hide Logged, Decimal;
      stamped, ids := [], [];
      ghost var all := Stamp(ms, messageCount, now);
      LoggedNone(messages.messages, topic);
      for i := 0 to |ms|
        invariant stamped == all[..i] && ids == IdsOf(stamped) && messageCount == old(messageCount) + i
        invariant messages.messages == Logged(old(messages.messages), topic, stamped)
      {
        var id := NewMsgID();
        var m := ms[i].(id := id, publishTime := now);
        messages.StoreMessage(topic + "/messages/" + id, m);
        LoggedStep(old(messages.messages), topic, stamped, m);
        stamped, ids := stamped + [m], ids + [id];
      }
    }

    /** Stores messages under a topic; the fan-out to its subscriptions is left to goroutines. */
    method Publish(topic: string, ms: seq<Message>, now: int)
      returns (result: Result<seq<string>>, ghost names: seq<string>)
      modifies this`messageCount, this`fanOuts, messages
      requires Valid()
      ensures Valid() && Enumerates(names, Subscribers(subscriptions, topic))
      ensures (View(), result) == BrokerModel.Publish(old(View()), topic, ms, now, names)
    {
      hide Stamp, Logged, FanOuts, Enumerates, PendingMessageRepository.View, PendingMessageRepository.Valid;
      if topic !in topics {
        result := Failure(NotFound);
        names := SomeOrder(Subscribers(subscriptions, topic));
        EnumeratesMembers(names, Subscribers(subscriptions, topic));
        QueuesUntouched(pending);
        return;
      }
      var stamped, ids := StampAndStore(topic, ms, now);
      var subs := ListSubscriptionsByTopic(topic);
      names := subs;
      EnumeratesMembers(names, Subscribers(subscriptions, topic));
      fanOuts := fanOuts + FanOuts(subscriptions, names, stamped);
      QueuesUntouched(pending);
      result := Success(ids);
    }

    /** Makes pending copies of the messages that pass the filter. */
    method FilteredCopies(ms: seq<Message>, filter: string) returns (ps: seq<Pending>, ghost ids: seq<string>)
      modifies this`issued
      ensures FreshIds(ids, old(issued)) && issued == old(issued) + IdsIn(ids)
      ensures |ids| == |Matching(ms, filter)| && ps == NewPending(Matching(ms, filter), ids)
    {
      hide FilterSyntax.Matches;
      ps, ids := [], [];
      for i := 0 to |ms|
        invariant FreshIds(ids, old(issued)) && issued == old(issued) + IdsIn(ids)
        invariant |ids| == |Matching(ms[..i], filter)| && ps == NewPending(Matching(ms[..i], filter), ids)
      {
        assert ms[..i + 1][..i] == ms[..i];
        var matches := FilterParser.MatchesFilter(filter, ms[i].attributes);
        if matches {
          var p := NewPendingMessage(ms[i]);
          ps, ids := ps + [p], ids + [p.ackID];
        }
      }
      assert ms[..|ms|] == ms;
    }

    /** The goroutine of one subscription. It does not report errors. */
    method RunFanOut(f: FanOut) returns (ghost ids: seq<string>)
      requires Valid() && f in fanOuts
      modifies this`issued, this`fanOuts, pending.Footprint()
      ensures Valid() && fresh(Footprint() - old(Footprint()))
      ensures FreshIds(ids, old(issued)) && |ids| == |Matching(f.messages, f.filter)|
      ensures View() == Deliver(old(View()), f, ids)
    {
      hide Matching, FreshIds, IdsIn, NewPending, Enqueue, PendingMessageRepository.View,
        PendingMessageRepository.Valid;
      fanOuts := fanOuts - multiset{f};
      var ps;
      ps, ids := FilteredCopies(f.messages, f.filter);
      QueuesUntouched(pending);
      var _ := pending.Enqueue(f.subscription, ps);
    }

    method Pull(name: string, max: int, now: int) returns (result: Result<seq<Pending>>, ghost order: seq<string>)
      requires Valid()
      modifies pending.Footprint()
      ensures Valid() && fresh(Footprint() - old(Footprint()))
      ensures name in subscriptions && name in old(View()).queues ==>
        Enumerates(order, old(View()).queues[name].inFlight.Keys)
      ensures (View(), result) == BrokerModel.PullFrom(old(View()), name, max, now, order)
    {
      hide QueueModel.Pull, Enumerates, PendingMessageRepository.View, PendingMessageRepository.Valid,
        PendingMessageRepository.Footprint;
      order := [];
      if name !in subscriptions {
        return Failure(NotFound), order;
      }
      var sub := subscriptions[name];
      result, order := pending.Pull(name, max, now, sub.ackDeadline, sub.ordered);
    }

    method Acknowledge(name: string, ids: seq<string>) returns (result: Result<()>)
      requires Valid()
      modifies pending.Footprint()
      ensures Valid() && fresh(Footprint() - old(Footprint()))
      ensures (View(), result) == BrokerModel.AcknowledgeIn(old(View()), name, ids)
    {
      hide QueueModel.Acknowledge, PendingMessageRepository.View, PendingMessageRepository.Valid,
        PendingMessageRepository.Footprint;
      result := pending.AcknowledgeByAckID(name, ids);
    }

    method ModifyAckDeadline(name: string, ids: seq<string>, now: int, duration: int) returns (result: Result<()>)
      requires Valid()
      modifies pending.Footprint()
      ensures Valid() && fresh(Footprint() - old(Footprint()))
      ensures (View(), result) == BrokerModel.ExtendIn(old(View()), name, ids, now + duration)
    {
      hide Extend, PendingMessageRepository.View, PendingMessageRepository.Valid, PendingMessageRepository.Footprint;
      result := pending.UpdateDeadline(name, ids, now + duration);
    }

    /** Records which messages a subscription has not acknowledged. */
    method CreateSnapshot(snap: string, name: string, now: int) returns (result: Result<()>, ghost order: seq<string>)
      requires Valid()
      modifies this`snapshots, pending.Footprint()
      ensures Valid() && fresh(Footprint() - old(Footprint()))
      ensures name in old(View()).queues ==>
        if name in subscriptions then Enumerates(order, old(View()).queues[name].inFlight.Keys) else order == []
      ensures (View(), result) == BrokerModel.CreateSnapshot(old(View()), snap, name, now, order)
    {
      hide Relist, Copies, Listing, PendingMessageRepository.View, PendingMessageRepository.Valid,
        PendingMessageRepository.Footprint;
      if name !in subscriptions {
        return Failure(NotFound), [];
      }
      var sub := subscriptions[name];
      var copies;
      copies, order := pending.ListAll(name);
      if copies.Failure? {
        return Failure(copies.error), order;
      }
      var unacked: seq<string> := [];
      for i := 0 to |copies.value|
        invariant unacked == IdsOf(MessagesOf(copies.value))[..i]
      {
        unacked := unacked + [copies.value[i].message.id];
      }
      assert unacked == IdsOf(MessagesOf(copies.value));
      if snap in snapshots {
        return Failure(AlreadyExists), order;
      }
      snapshots := snapshots[snap := Snapshot(name, sub.topic, now, unacked)];
      result := Success(());
    }

    /** Makes pending copies of the messages that a Seek wants back. */
    method CopiesWanted(target: Target, ms: seq<Message>) returns (ps: seq<Pending>, ghost ids: seq<string>)
      requires target.ToSnapshot? ==> target.name in snapshots
      modifies this`issued
      ensures FreshIds(ids, old(issued)) && issued == old(issued) + IdsIn(ids)
      ensures |ids| == |Chosen(snapshots, target, ms)| && ps == NewPending(Chosen(snapshots, target, ms), ids)
    {
      hide Wanted;
      ps, ids := [], [];
      for i := 0 to |ms|
        invariant FreshIds(ids, old(issued)) && issued == old(issued) + IdsIn(ids)
        invariant |ids| == |Chosen(snapshots, target, ms[..i])|
        invariant ps == NewPending(Chosen(snapshots, target, ms[..i]), ids)
      {
        assert ms[..i + 1][..i] == ms[..i];
        if Wanted(snapshots, target, ms[i]) {
          var p := NewPendingMessage(ms[i]);
          ps, ids := ps + [p], ids + [p.ackID];
        }
      }
      assert ms[..|ms|] == ms;
    }

    /** Finds the messages of a topic that a Seek wants back, and makes pending copies of them. */
    method FindBacklog(topic: string, target: Target)
      returns (result: Result<seq<Pending>>, ghost order: seq<string>, ghost ids: seq<string>)
      requires target.ToSnapshot? ==> target.name in snapshots
      modifies this`issued
      ensures Enumerates(order, messages.messages.Keys)
      ensures FreshIds(ids, old(issued)) && issued == old(issued) + IdsIn(ids)
      ensures var ms := Readable(Under(messages.messages, topic, order));
        if ms.Failure? then result == Failure(ms.error) && ids == [] && issued == old(issued)
        else
          var wanted := Chosen(snapshots, target, ms.value);
          |ids| == |wanted| && result == Success(NewPending(wanted, ids))
    {
      hide Under, Readable, Chosen, NewPending;
      var ms;
      ms, order := messages.ListMessagesByTopic(topic);
      if ms.Failure? {
        return Failure(ms.error), order, [];
      }
      var ps;
      ps, ids := CopiesWanted(target, ms.value);
      result := Success(ps);
    }

    /** Replaces the queue of a subscription by the messages of its topic that the target asks for. */
    method SeekTo(name: string, target: Target) returns (result: Result<()>, ghost order: seq<string>,
        ghost ids: seq<string>)
      requires Valid()
      modifies this`issued, pending.Footprint()
      ensures Valid() && fresh(Footprint() - old(Footprint()))
      ensures Seekable(old(View()), name, target) ==> Enumerates(order, old(View()).log.Keys)
      ensures FreshIds(ids, old(issued))
      ensures Seekable(old(View()), name, target) && Backlog(old(View()), name, target, order).Success? ==>
        |ids| == |Backlog(old(View()), name, target, order).value|
      ensures (View(), result) == Seek(old(View()), name, target, order, ids)
    {
      hide Under, Readable, Chosen, NewPending, IdsIn, QueueModel.ReplaceAll, Enumerates,
        PendingMessageRepository.View, PendingMessageRepository.Valid;
      order, ids := [], [];
      if (target.ToSnapshot? && target.name !in snapshots) || name !in subscriptions {
        return Failure(NotFound), order, ids;
      }
      var ps;
      ps, order, ids := FindBacklog(subscriptions[name].topic, target);
      QueuesUntouched(pending);
      if ps.Failure? {
        return Failure(ps.error), order, ids;
      }
      result := pending.ReplaceAll(name, ps.value);
    }

    /** Makes pending copies of messages. */
    method CopiesOf(ms: seq<Message>) returns (ps: seq<Pending>)
      modifies this`issued
      ensures |ps| == |ms| && ps == NewPending(ms, AckIdsOf(ps))
      ensures FreshIds(AckIdsOf(ps), old(issued)) && issued == old(issued) + IdsIn(AckIdsOf(ps))
    {
      ps := [];
      for i := 0 to |ms|
        invariant |ps| == i && forall j :: 0 <= j < i ==> ps[j] == Pending(ms[j], ps[j].ackID, NO_DEADLINE, 0)
        invariant FreshIds(AckIdsOf(ps), old(issued)) && issued == old(issued) + IdsIn(AckIdsOf(ps))
      {
        var p := NewPendingMessage(ms[i]);
        assert AckIdsOf(ps + [p]) == AckIdsOf(ps) + [p.ackID];
        ps := ps + [p];
      }
    }

    /** Splits a batch into the messages still to be delivered and those that have used up their attempts. */
    method SplitDead(ps: seq<Pending>, maximum: int) returns (kept: seq<Pending>, dead: seq<Pending>)
      ensures kept == Kept(ps, maximum) && dead == Dead(ps, maximum)
    {
      kept, dead := [], [];
      for i := 0 to |ps|
        invariant kept == Kept(ps[..i], maximum) && dead == Dead(ps[..i], maximum)
      {
        assert ps[..i + 1][..i] == ps[..i];
        if maximum > 0 && ps[i].attempt >= maximum {
          dead := dead + [ps[i]];
        } else {
          kept := kept + [ps[i]];
        }
      }
      assert ps[..|ps|] == ps;
    }

    /** Sends new copies of the messages to one subscription. */
    method ForwardTo(name: string, ms: seq<Message>) returns (result: Result<()>, ps: seq<Pending>)
      requires Valid()
      modifies this`issued, pending.Footprint()
      ensures Valid() && fresh(Footprint() - old(Footprint()))
      ensures |ps| == |ms| && ps == NewPending(ms, AckIdsOf(ps))
      ensures FreshIds(AckIdsOf(ps), old(issued)) && issued == old(issued) + IdsIn(AckIdsOf(ps))
      ensures var qs := old(pending.View());
        (pending.View(), result) ==
          if name !in qs then (qs, Failure(NotFound))
            else (qs[name := Enqueue(qs[name], ps).0], Enqueue(qs[name], ps).1)
    {
      hide FreshIds, NewPending, AckIdsOf, IdsIn, Enqueue, PendingMessageRepository.View,
        PendingMessageRepository.Valid;
      ps := CopiesOf(ms);
      QueuesUntouched(pending);
      result := pending.Enqueue(name, ps);
    }

    /** Sends new copies of the messages to the subscriptions, one after the other, until one cannot take them. */
    method Forward(subs: seq<string>, ms: seq<Message>) returns (result: Result<()>, ghost names: seq<string>,
        ghost copies: seq<seq<Pending>>)
      requires Valid()
      modifies this`issued, pending.Footprint()
      ensures Valid() && fresh(Footprint() - old(Footprint()))
      ensures |copies| == |names| && names <= subs && (result.Success? ==> names == subs)
      ensures FreshForwards(copies, ms, old(issued)) && issued == old(issued) + AllIds(copies)
      ensures (pending.View(), result) == ForwardAll(old(pending.View()), names, copies)
    {
      hide FreshIds, NewPending, AckIdsOf, IdsIn, Enqueue, ForwardAll, FreshForwards, AllIds,
        PendingMessageRepository.View, PendingMessageRepository.Valid;
      ghost var queues, before := pending.View(), issued;
      names, copies := [], [];
      ForwardNone(queues);
      NothingForwarded(ms, issued);
      for i := 0 to |subs|
        invariant Valid() && fresh(Footprint() - old(Footprint()))
        invariant |copies| == |names| && names == subs[..i]
        invariant FreshForwards(copies, ms, before) && issued == before + AllIds(copies)
        invariant (pending.View(), Success(())) == ForwardAll(queues, names, copies)
      {
        result, copies := ForwardNext(subs[i], ms, queues, before, names, copies);
        names := names + [subs[i]];
        assert subs[..i + 1] == names;
        if result.Failure? {
          return;
        }
        assert result.value == ();
      }
      result := Success(());
    }

    /** One more subscription. */
    method ForwardNext(name: string, ms: seq<Message>,
      ghost queues: map<string, Queue>, ghost before: set<string>, ghost names: seq<string>,
      ghost copies: seq<seq<Pending>>)
      returns (result: Result<()>, ghost more: seq<seq<Pending>>)
      requires Valid() && |copies| == |names|
      requires FreshForwards(copies, ms, before) && issued == before + AllIds(copies)
      requires (pending.View(), Success(())) == ForwardAll(queues, names, copies)
      modifies this`issued, pending.Footprint()
      ensures Valid() && fresh(Footprint() - old(Footprint())) && |more| == |names| + 1
      ensures FreshForwards(more, ms, before) && issued == before + AllIds(more)
      ensures (pending.View(), result) == ForwardAll(queues, names + [name], more)
    {
      hide FreshIds, NewPending, AckIdsOf, IdsIn, Enqueue, ForwardAll, FreshForwards, AllIds,
        PendingMessageRepository.View, PendingMessageRepository.Valid;
      var ps;
      result, ps := ForwardTo(name, ms);
      ForwardStep(queues, names, copies, name, ps);
      FreshForwardsStep(copies, ms, before, ps);
      more := copies + [ps];
    }

    /** Sends new copies of the messages to the subscriptions of a topic. */
    method ForwardToTopic(topic: string, ms: seq<Message>)
      returns (result: Result<()>, ghost names: seq<string>, ghost copies: seq<seq<Pending>>)
      requires Valid()
      modifies this`issued, pending.Footprint()
      ensures Valid() && fresh(Footprint() - old(Footprint()))
      ensures |copies| == |names| && Visits(names, Subscribers(subscriptions, topic), result.Success?)
      ensures FreshForwards(copies, ms, old(issued)) && issued == old(issued) + AllIds(copies)
      ensures (pending.View(), result) == ForwardAll(old(pending.View()), names, copies)
    {
      hide ForwardAll, FreshForwards, AllIds, Enumerates, Subscribers, Visits, PendingMessageRepository.View,
        PendingMessageRepository.Valid;
      var subs := ListSubscriptionsByTopic(topic);
      result, names, copies := Forward(subs, ms);
      VisitsPart(names, subs, Subscribers(subscriptions, topic), result.Success?);
    }

    /** Stores the dead messages anew and sends them to the subscriptions of their topic. */
    method StoreAndForward(topic: string, dead: seq<Pending>, now: int)
      returns (result: Result<()>, ghost names: seq<string>, ghost copies: seq<seq<Pending>>)
      requires Valid()
      modifies this`messageCount, this`issued, messages, pending.Footprint()
      ensures Valid() && fresh(Footprint() - old(Footprint()))
      ensures |copies| == |names| && Visits(names, Subscribers(subscriptions, topic), result.Success?)
      ensures FreshForwards(copies, Stamp(MessagesOf(dead), old(messageCount), now), old(issued))
      ensures (View(), result) == BrokerModel.StoreAndForward(old(View()), topic, dead, now, names, copies)
    {
      hide Stamp, Logged, ForwardAll, FreshForwards, AllIds, MessagesOf, Subscribers, Visits,
        PendingMessageRepository.View, PendingMessageRepository.Valid;
      var stamped, _ := StampAndStore(topic, MessagesOf(dead), now);
      QueuesUntouched(pending);
      result, names, copies := ForwardToTopic(topic, stamped);
    }

    /** Once they are all there, acknowledges them at the source. */
    method ForwardDead(name: string, topic: string, dead: seq<Pending>, now: int)
      returns (result: Result<()>, ghost names: seq<string>, ghost copies: seq<seq<Pending>>)
      requires Valid()
      modifies this`messageCount, this`issued, messages, pending.Footprint()
      ensures Valid() && fresh(Footprint() - old(Footprint()))
      ensures |copies| == |names| && Visits(names, Subscribers(subscriptions, topic), result.Success?)
      ensures FreshForwards(copies, Stamp(MessagesOf(dead), old(messageCount), now), old(issued))
      ensures (View(), result) == BrokerModel.ForwardDead(old(View()), name, topic, dead, now, names, copies)
    {
      hide Stamp, BrokerModel.StoreAndForward, FreshForwards, MessagesOf, AckIdsOf, Subscribers,
        BrokerModel.AcknowledgeIn,
        PendingMessageRepository.View, PendingMessageRepository.Valid;
      result, names, copies := StoreAndForward(topic, dead, now);
      if result.Success? {
        result := Acknowledge(name, AckIdsOf(dead));
      }
    }

    /**
     Forwards the messages of a batch that have used up their attempts to the dead-letter topic and
     acknowledges them; the others are still to be delivered.
     */
    method HandleDeadLetters(name: string, ps: seq<Pending>, now: int)
      returns (result: Result<seq<Pending>>, ghost names: seq<string>, ghost copies: seq<seq<Pending>>)
      requires Valid()
      modifies this`messageCount, this`issued, messages, pending.Footprint()
      ensures Valid() && fresh(Footprint() - old(Footprint()))
      ensures |copies| == |names|
      ensures DeadLettersForwarded(old(View()), name, ps, now, names, copies, result)
      ensures (View(), result) == BrokerModel.HandleDeadLetters(old(View()), name, ps, now, names, copies)
    {
      hide Stamp, Kept, Dead, BrokerModel.ForwardDead, FreshForwards, MessagesOf, Visits, Subscribers,
        PendingMessageRepository.View, PendingMessageRepository.Valid;
      names, copies := [], [];
      if name !in subscriptions || subscriptions[name].deadLetter == None {
        return Success(ps), names, copies;
      }
      var policy := subscriptions[name].deadLetter.value;
      var kept, dead := SplitDead(ps, policy.maxAttempts);
      if dead == [] {
        return Success(kept), names, copies;
      }
      var forwarded;
      forwarded, names, copies := ForwardDead(name, policy.topic, dead, now);
      if forwarded.Failure? {
        return Failure(forwarded.error), names, copies;
      }
      result := Success(kept);
    }

    /** The handler of a Pull request. */
    method Serve(name: string, max: int, now: int, later: int)
      returns (result: Result<seq<Pending>>, ghost order: seq<string>, ghost names: seq<string>,
        ghost copies: seq<seq<Pending>>)
      requires Valid()
      modifies this`messageCount, this`issued, messages, pending.Footprint()
      ensures Valid() && fresh(Footprint() - old(Footprint()))
      ensures |copies| == |names|
      ensures name in subscriptions && name in old(View()).queues ==>
        Enumerates(order, old(View()).queues[name].inFlight.Keys)
      ensures var (b, batch) := BrokerModel.PullFrom(old(View()), name, BatchSize(max), now, order);
        if batch.Success? then DeadLettersForwarded(b, name, batch.value, later, names, copies, result)
        else names == [] && copies == []
      ensures (View(), result) == BrokerModel.Serve(old(View()), name, max, now, order, later, names, copies)
    {
      hide BrokerModel.PullFrom, BrokerModel.HandleDeadLetters, DeadLettersForwarded, View, Valid, Enumerates;
      names, copies := [], [];
      result, order := Pull(name, if max <= 0 then 100 else max, now);
      if result.Success? {
        result, names, copies := HandleDeadLetters(name, result.value, later);
      }
    }
  }

  /** The broker is as it was when nothing it consists of has changed. */
  twostate lemma BrokerUntouched(b: BrokerService)
    requires unchanged(old(b.Footprint()))
    ensures b.View() == old(b.View()) && (old(b.Valid()) ==> b.Valid())
  {
    hide PendingMessageRepository.Valid, PendingMessageRepository.View;
    QueuesUntouched(b.pending);
  }
}
