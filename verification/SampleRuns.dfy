/**
 Concrete runs of a queue: in one an expired lease is lost, in five the delivery attempt is not the one
 that the API describes, and in a very long one the attempt wraps around.
 */
module SampleRuns {
  import opened QueueModel
  import opened QueueLaws
  import opened QueueRuns
  import opened DeliveryRuns
  import opened NackRuns

  /** A date at which the clock may start. */
  const START := MAX_DURATION + 1

  function New(id: string): Pending {
    Pending(Message("m", "", map[], "", 0), id, NO_DEADLINE, 0)
  }

  function Start(capacity: nat): State {
    State(Empty(capacity), {})
  }

  lemma NewIsFresh(id: string, issued: set<string>)
    requires id !in issued
    ensures FreshCopies(issued, [New(id)]) && IdSet([New(id)]) == {id} && WithinLimits(New(id).message)
  {
    IdSetOne(New(id));
  }

  lemma NewWithinLimits(id: string)
    ensures WithinLimits(New(id).message)
  {
  }

  // ----- Single operations

  lemma SendWithRoom(q: Queue, p: Pending)
    requires |q.channel| < q.capacity
    ensures Enqueue(q, [p]).0 == q.(channel := q.channel + [p], notify := true)
  {
    assert [p][..1] == [p];
  }

  lemma LeaseHead(q: Queue, deadline: int)
    requires q.channel != [] && WithinLimits(q.channel[0].message)
    ensures var p := Lease(q.channel[0], deadline);
      LeaseFrom(q, 1, deadline, false) ==
        (q.(channel := q.channel[1..], inFlight := q.inFlight[p.ackID := p]), Success([p]))
  {
    hide WithinLimits, LeasedKeys;
    var c, busy := q.channel, LeasedKeys(q.inFlight);
    assert Selected(c[..0], busy, false) == [] && Skipped(c[..0], busy, false) == [];
    SelectedStep(c, 0, busy, false);
    assert StopsAt(c, 1, busy, false, 1) && !StopsAt(c, 0, busy, false, 1);
    ExaminedIs(c, 1, busy, false, 1);
    var p := Lease(c[0], deadline);
    assert Selected(c[..1], busy, false) == [c[0]] && Skipped(c[..1], busy, false) == [];
    assert Leases([c[0]], deadline) == [p];
    StoreStep(q.inFlight, [], p);
    assert [] + [p] == [p];
    OfferNone(q.(channel := c[1..], inFlight := q.inFlight[p.ackID := p]));
  }

  lemma {:induction false} NoneReleased(inFlight: map<string, Pending>, now: int, order: seq<string>)
    requires ExpiredKeys(inFlight, now) == {}
    ensures Released(inFlight, now, order) == []
  {
    if order != [] {
      var k := order[|order| - 1];
      NoneReleased(inFlight, now, order[..|order| - 1]);
      assert k in inFlight && Expired(inFlight[k], now) ==> k in ExpiredKeys(inFlight, now);
    }
  }

  /** A Pull of one message when no lease has expired. */
  lemma QuietPull(q: Queue, now: int, wait: int, order: seq<string>)
    requires ExpiredKeys(q.inFlight, now) == {} && q.channel != [] && WithinLimits(q.channel[0].message)
    ensures var p := Lease(q.channel[0], now + wait);
      Pull(q, now, 1, wait, false, order) ==
        (q.(channel := q.channel[1..], inFlight := q.inFlight[p.ackID := p]), Success([p]))
  {
    hide WithinLimits, LeaseFrom, ExpiredKeys, Released;
    NoneReleased(q.inFlight, now, order);
    assert q.inFlight - {} == q.inFlight;
    OfferNone(q);
    LeaseHead(q, now + wait);
  }

  /** What waits after the one lease there is has been taken back. */
  function Returned(q: Queue, id: string): seq<Pending>
    requires id in q.inFlight
  {
    q.channel + [q.inFlight[id].(deadline := NO_DEADLINE)]
  }

  /** A Pull of one message when the one lease there is has expired. */
  lemma ReturnPull(q: Queue, id: string, now: int, wait: int)
    requires |q.channel| < q.capacity && q.inFlight.Keys == {id}
    requires Expired(q.inFlight[id], now) && WithinLimits(Returned(q, id)[0].message)
    ensures Enumerates([id], q.inFlight.Keys) && id in ExpiredKeys(q.inFlight, now)
    ensures var p := Lease(Returned(q, id)[0], now + wait);
      Pull(q, now, 1, wait, false, [id]) ==
        (q.(channel := Returned(q, id)[1..], inFlight := map[p.ackID := p], notify := true), Success([p]))
  {
    hide WithinLimits, LeaseFrom;
    var back := q.inFlight[id].(deadline := NO_DEADLINE);
    assert [id][..0] == [];
    assert Released(q.inFlight, now, [id]) == [back];
    assert ExpiredKeys(q.inFlight, now) == {id};
    assert q.inFlight - {id} == map[];
    assert [back][..1] == [back];
    var q1 := Requeue(q, now, [id]);
    assert q1 == q.(channel := Returned(q, id), inFlight := map[], notify := true);
    LeaseHead(q1, now + wait);
  }

  // ----- The same at the end of a run

  lemma StartRun(capacity: nat)
    ensures var s := Start(capacity); Legal(s, []) && Run(s, []) == s && Inv(s)
  {
  }

  /** `more` is the run `es` with one event after it. */
  ghost predicate Extends(s: State, es: seq<Event>, e: Event, more: seq<Event>) {
    more == es + [e] && |more| == |es| + 1 && more[..|es|] == es && more[|es|] == e && Legal(s, more)
  }

  lemma OneMoreEvent(s: State, es: seq<Event>, e: Event)
    requires Legal(s, es) && CanHappen(Run(s, es), e)
    ensures Extends(s, es, e, es + [e]) && Run(s, es + [e]) == Next(Run(s, es), e)
  {
    assert (es + [e])[..|es|] == es;
  }

  lemma ThenSend(s: State, es: seq<Event>, id: string) returns (more: seq<Event>)
    requires Legal(s, es) && |Run(s, es).queue.channel| < Run(s, es).queue.capacity && id !in Run(s, es).issued
    ensures Extends(s, es, Enqueued([New(id)]), more)
    ensures var s1 := Run(s, es);
      Run(s, more) == State(s1.queue.(channel := s1.queue.channel + [New(id)], notify := true), s1.issued + {id})
  {
    hide Legal, Run, Extends, Enqueue, FreshCopies, IdSet, WithinLimits;
    var e := Enqueued([New(id)]);
    more := es + [e];
    NewIsFresh(id, Run(s, es).issued);
    SendWithRoom(Run(s, es).queue, New(id));
    OneMoreEvent(s, es, e);
  }

  lemma ThenQuietPull(s: State, es: seq<Event>, now: int, wait: int, order: seq<string>) returns (more: seq<Event>)
    requires Legal(s, es) && ClockRuns(now, wait)
    requires var q := Run(s, es).queue;
      && q.channel != [] && WithinLimits(q.channel[0].message)
      && Enumerates(order, q.inFlight.Keys) && ExpiredKeys(q.inFlight, now) == {}
    ensures Extends(s, es, Pulled(now, 1, wait, false, order), more)
    ensures var s1 := Run(s, es);
      var p := Lease(s1.queue.channel[0], now + wait);
      && Run(s, more) == s1.(queue :=
        s1.queue.(channel := s1.queue.channel[1..], inFlight := s1.queue.inFlight[p.ackID := p]))
      && Delivered(s1.queue, more[|es|]) == [p]
  {
    hide Legal, Run, Extends, Pull, IdSet, WithinLimits, Enumerates, ExpiredKeys;
    var e := Pulled(now, 1, wait, false, order);
    more := es + [e];
    NoCopies();
    QuietPull(Run(s, es).queue, now, wait, order);
    OneMoreEvent(s, es, e);
    assert more[|es|] == e;
  }

  lemma ThenReturnPull(s: State, es: seq<Event>, id: string, now: int, wait: int) returns (more: seq<Event>)
    requires Legal(s, es) && ClockRuns(now, wait)
    requires var q := Run(s, es).queue;
      && |q.channel| < q.capacity && q.inFlight.Keys == {id}
      && Expired(q.inFlight[id], now) && WithinLimits(Returned(q, id)[0].message)
    ensures Extends(s, es, Pulled(now, 1, wait, false, [id]), more)
    ensures var s1 := Run(s, es);
      var p := Lease(Returned(s1.queue, id)[0], now + wait);
      && Run(s, more) ==
        s1.(queue := s1.queue.(channel := Returned(s1.queue, id)[1..], inFlight := map[p.ackID := p], notify := true))
      && Delivered(s1.queue, more[|es|]) == [p]
  {
    hide Legal, Run, Extends, Pull, IdSet, WithinLimits, Enumerates, ExpiredKeys, Returned;
    var e := Pulled(now, 1, wait, false, [id]);
    more := es + [e];
    NoCopies();
    ReturnPull(Run(s, es).queue, id, now, wait);
    OneMoreEvent(s, es, e);
    assert more[|es|] == e;
  }

  lemma ThenExtend(s: State, es: seq<Event>, id: string, now: int, duration: int) returns (more: seq<Event>)
    requires Legal(s, es) && ClockRuns(now, duration)
    ensures Extends(s, es, Extended([id], now, duration), more)
    ensures var (s1, m) := (Run(s, es), Run(s, es).queue.inFlight);
      Run(s, more) ==
        s1.(queue := s1.queue.(inFlight := if id in m then m[id := m[id].(deadline := now + duration)] else m))
  {
    hide Legal, Run, Extends, IdSet;
    var s1, e := Run(s, es), Extended([id], now, duration);
    var m := s1.queue.inFlight;
    more := es + [e];
    NoCopies();
    assert Extend(s1.queue, [id], now + duration).inFlight ==
      if id in m then m[id := m[id].(deadline := now + duration)] else m;
    OneMoreEvent(s, es, e);
  }

  // ----- Counting along a run

  datatype Tally = Tally(leases: nat, nacks: nat, missed: nat, overridden: nat, ignored: nat, late: nat, givenUp: bool)

  function TallyOf(s: State, es: seq<Event>, id: string): Tally {
    Tally(LeaseCount(s, es, id), Nacks(s, es, id), Missed(s, es, id), Overridden(s, es, id), Ignored(s, es, id),
      Late(s, es, id), GivenUp(s, es, id))
  }

  lemma TallyNone(s: State, id: string)
    ensures TallyOf(s, [], id) == Tally(0, 0, 0, 0, 0, 0, false)
  {
  }

  lemma ExtendsIs(s: State, es: seq<Event>, e: Event, more: seq<Event>)
    requires Extends(s, es, e, more)
    ensures more != [] && more[..|more| - 1] == es && more[|more| - 1] == e && |more| - 1 == |es| && Legal(s, more)
  {
  }

  lemma TallySend(s: State, es: seq<Event>, e: Event, more: seq<Event>, id: string)
    requires Extends(s, es, e, more) && e.Enqueued? && !TallyOf(s, es, id).givenUp
    ensures TallyOf(s, more, id) == TallyOf(s, es, id)
  {
    hide Run, Apply, Extends, Legal;
    ExtendsIs(s, es, e, more);
    NoCopies();
  }

  lemma TallyPull(s: State, es: seq<Event>, e: Event, more: seq<Event>, id: string)
    requires Extends(s, es, e, more) && e.Pulled?
    requires TallyOf(s, es, id).givenUp ==> Ends(Run(s, es).queue, e, id)
    ensures var q, t := Run(s, es).queue, TallyOf(s, es, id);
      TallyOf(s, more, id) == t.(
        leases := t.leases + (if id in IdSet(Delivered(q, e)) then 1 else 0),
        missed := t.missed + (if id in q.inFlight && Expired(q.inFlight[id], e.now) && !t.givenUp then 1 else 0),
        givenUp := false)
  {
    hide Run, Apply, IdSet, Delivered, Extends, Legal;
    ExtendsIs(s, es, e, more);
  }

  lemma TallyExtend(s: State, es: seq<Event>, e: Event, more: seq<Event>, id: string)
    requires Extends(s, es, e, more) && e.Extended? && id in e.ids && TallyOf(s, es, id).leases > 0
    ensures var q, t := Run(s, es).queue, TallyOf(s, es, id);
      var nack, leased := e.duration == 0, id in q.inFlight;
      var late := leased && Expired(q.inFlight[id], e.now) && !t.givenUp;
      TallyOf(s, more, id) == Tally(t.leases,
        t.nacks + (if nack then 1 else 0), t.missed + (if late then 1 else 0),
        t.overridden + (if t.givenUp then 1 else 0),
        t.ignored + (if nack && !leased then 1 else 0), t.late + (if late then 1 else 0), nack && leased)
  {
    hide Run, GivenUp, Expired, Extends, Legal, Delivered, IdSet;
    ExtendsIs(s, es, e, more);
    ExtendGivesUp(s, es, e, more, id);
    ExtendDelivers(Run(s, es).queue, e);
  }

  lemma ExtendDelivers(q: Queue, e: Event)
    requires e.Extended?
    ensures IdSet(Delivered(q, e)) == {}
  {
  }

  lemma ExtendGivesUp(s: State, es: seq<Event>, e: Event, more: seq<Event>, id: string)
    requires Extends(s, es, e, more) && e.Extended? && id in e.ids
    ensures GivenUp(s, more, id) == (e.duration == 0 && id in Run(s, es).queue.inFlight)
  {
    hide Run, Extend, ExpiredKeys, Extends, Legal;
    ExtendsIs(s, es, e, more);
    ExtendKeepsKeys(Run(s, es).queue, e.ids, e.now + e.duration);
  }

  lemma NothingLeased(q: Queue)
    requires q.inFlight == map[]
    ensures Enumerates([], q.inFlight.Keys) && forall now :: ExpiredKeys(q.inFlight, now) == {}
  {
  }

  /** A message is sent and leased. */
  lemma LeasedRun(capacity: nat, wait: int) returns (es: seq<Event>)
    requires 0 < capacity && 0 <= wait <= MAX_DURATION
    ensures es == [Enqueued([New("a")]), Pulled(START, 1, wait, false, [])] && Legal(Start(capacity), es)
    ensures Run(Start(capacity), es) ==
      State(Queue(capacity, [], map["a" := Lease(New("a"), START + wait)], true), {"a"})
    ensures TallyOf(Start(capacity), es, "a") == Tally(1, 0, 0, 0, 0, 0, false)
  {
    hide Legal, Run, Extends, WithinLimits, Inv, Delivered, ExpiredKeys, Enumerates, IdSet, TallyOf, Apply, Increment;
    var s := Start(capacity);
    StartRun(capacity);
    NewWithinLimits("a");
    TallyNone(s, "a");
    var sent := ThenSend(s, [], "a");
    TallySend(s, [], Enqueued([New("a")]), sent, "a");
    IsTheRun(s, sent);
    NothingLeased(Run(s, sent).queue);
    es := ThenQuietPull(s, sent, START, wait, []);
    TallyPull(s, sent, Pulled(START, 1, wait, false, []), es, "a");
    IdSetOne(Lease(New("a"), START + wait));
    ExtendsIs(s, sent, Pulled(START, 1, wait, false, []), es);
    assert es == sent + [es[1]];
  }

  lemma IsTheRun(s: State, sent: seq<Event>)
    requires Extends(s, [], Enqueued([New("a")]), sent)
    ensures sent == [Enqueued([New("a")])] && Legal(s, sent)
  {
  }

  // ----- A lease is lost

  /** The lease of "a" has expired, but "b" has taken its place in the channel. */
  lemma LossyRun() returns (es: seq<Event>)
    ensures es == [Enqueued([New("a")]), Pulled(START, 1, 0, false, []), Enqueued([New("b")])] && Legal(Start(1), es)
    ensures Run(Start(1), es) == State(Queue(1, [New("b")], map["a" := Lease(New("a"), START)], true), {"a", "b"})
  {
    hide Legal, Run, WithinLimits, Inv, Delivered, ExpiredKeys, Next, CanHappen, Apply, Increment;
    es := LeasedRun(1, 0);
    es := ThenSend(Start(1), es, "b");
  }

  lemma LossyRequeue(q: Queue)
    requires q == Queue(1, [New("b")], map["a" := Lease(New("a"), START)], true)
    ensures Enumerates(["a"], q.inFlight.Keys) && ExpiredKeys(q.inFlight, START + 1) == {"a"}
    ensures Requeue(q, START + 1, ["a"]) == Queue(1, [New("b")], map[], true)
    ensures Live(q) == {"a", "b"} && Live(Queue(1, [New("b")], map[], true)) == {"b"}
  {
    hide WithinLimits;
    IdSetOne(New("b"));
    assert ExpiredKeys(q.inFlight, START + 1) == {"a"};
    assert q.inFlight - {"a"} == map[];
    var ps := Released(q.inFlight, START + 1, ["a"]);
    assert q.Room(|ps|) == 0;
    assert q.channel + ps[..0] == q.channel;
  }

  /** The next Pull loses it: neither acknowledged nor replaced, "a" is held no more. */
  lemma PullLoses() returns (es: seq<Event>, last: Event)
    ensures last == Pulled(START + 1, 1, 0, false, ["a"]) && Inv(Start(1)) && Legal(Start(1), es + [last])
    ensures Overflow(Run(Start(1), es).queue, last.now) == 1 && EverOverflows(Start(1), es + [last])
    ensures Dropped(Run(Start(1), es).queue, last) == {"a"} && "a" in Lost(Start(1), es + [last])
    ensures "a" !in Live(Run(Start(1), es + [last]).queue)
  {
    hide Legal, Run, IdSet, Enumerates, Requeue, Live, Left, Entered, Delivered, WellFormed, Pull;
    var s := Start(1);
    es := LossyRun();
    last := Pulled(START + 1, 1, 0, false, ["a"]);
    var q := Run(s, es).queue;
    LossyRequeue(q);
    StartRun(1);
    InvAlways(s, es);
    OneMoreEvent(s, es, last);
    PullKeeps(q, last.now, last.max, last.wait, last.ordered, last.order);
  }

  // ----- Attempts that the API does not describe

  /**
   A run that ends by handing out message "a" for the second time with attempt 2, when the API describes
   3; and which nacks and deadlines were not counted.
   */
  ghost predicate Undercounts(s: State, es: seq<Event>, p: Pending, overridden: nat, ignored: nat, late: nat) {
    && Inv(s) && Legal(s, es) && "a" !in s.issued && es != []
    && Delivered(Run(s, es[..|es| - 1]).queue, es[|es| - 1]) == [p] && p.ackID == "a" && p.attempt == 2
    && Documented(true, Nacks(s, es, "a"), Missed(s, es, "a")) == 3
    && Overridden(s, es, "a") == overridden && Ignored(s, es, "a") == ignored && Late(s, es, "a") == late
  }

  lemma UndercountsIs(s: State, es: seq<Event>, e: Event, more: seq<Event>, p: Pending, t: Tally)
    requires Inv(s) && "a" !in s.issued && Extends(s, es, e, more) && TallyOf(s, more, "a") == t
    requires Delivered(Run(s, es).queue, e) == [p] && p.ackID == "a" && p.attempt == 2 && t.nacks + t.missed == 2
    ensures Undercounts(s, more, p, t.overridden, t.ignored, t.late)
  {
    hide Inv, Extends, Legal, Run, Delivered, Nacks, Missed, Overridden, Ignored, Late, GivenUp, LeaseCount;
    ExtendsIs(s, es, e, more);
  }

  /** After an action on its lease the message is handed out when its deadline has passed. */
  lemma ThenHandedOut(es: seq<Event>, p: Pending, t: Tally) returns (more: seq<Event>, p': Pending)
    requires Legal(Start(1), es) && Run(Start(1), es) == State(Queue(1, [], map["a" := p], true), {"a"})
    requires p == New("a").(deadline := p.deadline, attempt := 1) && START <= p.deadline
    requires TallyOf(Start(1), es, "a") == t
    requires t.nacks + t.missed + (if t.givenUp then 0 else 1) == 2
    ensures Undercounts(Start(1), more, p', t.overridden, t.ignored, t.late)
    ensures Nacks(Start(1), more, "a") == t.nacks
  {
    hide Legal, Run, Extends, WithinLimits, Inv, Delivered, ExpiredKeys, IdSet, Apply, Undercounts, LeaseCount, Missed,
      Overridden, Ignored, Late, GivenUp, Nacks;
    var s, now := Start(1), p.deadline + 1;
    var e := Pulled(now, 1, 10, false, ["a"]);
    StartRun(1);
    NewWithinLimits("a");
    EmptyReturns(Run(s, es).queue, "a");
    more := ThenReturnPull(s, es, "a", now, 10);
    p' := Lease(p.(deadline := NO_DEADLINE), now + 10);
    EndsNow(Run(s, es).queue, e, "a");
    TallyPull(s, es, e, more, "a");
    ExtendsIs(s, es, e, more);
    UndercountsIs(s, es, e, more, p', TallyOf(s, more, "a"));
  }

  lemma EmptyReturns(q: Queue, id: string)
    requires q.channel == [] && id in q.inFlight
    ensures Returned(q, id) == [q.inFlight[id].(deadline := NO_DEADLINE)]
  {
  }

  lemma EndsNow(q: Queue, e: Event, id: string)
    requires e.Pulled? && id in q.inFlight && Expired(q.inFlight[id], e.now)
    ensures Ends(q, e, id)
  {
  }

  /** A message is leased, and at some time later its deadline is set. */
  lemma ExtendedRun(now: int, duration: int) returns (es: seq<Event>)
    requires START <= now && 0 <= duration <= MAX_DURATION
    ensures Legal(Start(1), es)
    ensures Run(Start(1), es) == State(Queue(1, [], map["a" := Lease(New("a"), now + duration)], true), {"a"})
    ensures var nack, late := duration == 0, START + 10 < now;
      TallyOf(Start(1), es, "a") ==
        Tally(1, if nack then 1 else 0, if late then 1 else 0, 0, 0, if late then 1 else 0, nack)
  {
    hide Legal, Run, Extends, WithinLimits, Inv, Delivered, ExpiredKeys, IdSet, TallyOf, Apply;
    var s := Start(1);
    var leased := LeasedRun(1, 10);
    es := ThenExtend(s, leased, "a", now, duration);
    TallyExtend(s, leased, Extended(["a"], now, duration), es, "a");
    ExtendsIs(s, leased, Extended(["a"], now, duration), es);
  }

  /** A message is nacked and, before a Pull, nacked again or extended: the first nack is overridden. */
  lemma NackOverridden(again: int) returns (es: seq<Event>, p: Pending)
    requires 0 <= again <= MAX_DURATION
    ensures Undercounts(Start(1), es, p, 1, 0, 0)
    ensures Nacks(Start(1), es, "a") == if again == 0 then 2 else 1
  {
    hide Legal, Run, Extends, WithinLimits, Inv, Delivered, ExpiredKeys, IdSet, TallyOf, Apply, Undercounts, Nacks;
    var s := Start(1);
    var nacked := ExtendedRun(START, 0);
    var twice := ThenExtend(s, nacked, "a", START, again);
    TallyExtend(s, nacked, Extended(["a"], START, again), twice, "a");
    ExtendsIs(s, nacked, Extended(["a"], START, again), twice);
    es, p := ThenHandedOut(twice, Lease(New("a"), START + again), TallyOf(s, twice, "a"));
  }

  /** A deadline passes before the message is extended or nacked. */
  lemma LateAction(now: int, duration: int) returns (es: seq<Event>, p: Pending)
    requires START + 10 < now && 0 <= duration <= MAX_DURATION
    ensures Undercounts(Start(1), es, p, 0, 0, 1)
    ensures Nacks(Start(1), es, "a") == if duration == 0 then 1 else 0
  {
    hide Legal, Run, WithinLimits, Inv, Delivered, IdSet, TallyOf, Undercounts, Nacks;
    var extended := ExtendedRun(now, duration);
    es, p := ThenHandedOut(extended, Lease(New("a"), now + duration), TallyOf(Start(1), extended, "a"));
  }

  /** The lease of "a" has expired; the Pull that takes it back leases "b", which comes first. */
  lemma TakenBackRun() returns (es: seq<Event>)
    ensures Legal(Start(2), es) && TallyOf(Start(2), es, "a") == Tally(1, 0, 1, 0, 0, 0, false)
    ensures Run(Start(2), es) ==
      State(Queue(2, [New("a").(attempt := 1)], map["b" := Lease(New("b"), START + 21)], true), {"a", "b"})
  {
    hide Legal, Run, Extends, WithinLimits, Inv, Delivered, ExpiredKeys, IdSet, TallyOf, Apply;
    var s := Start(2);
    var e := Pulled(START + 11, 1, 10, false, ["a"]);
    var leased := LeasedRun(2, 10);
    var both := ThenSend(s, leased, "b");
    TallySend(s, leased, Enqueued([New("b")]), both, "a");
    ExtendsIs(s, leased, Enqueued([New("b")]), both);
    NewWithinLimits("b");
    es := ThenReturnPull(s, both, "a", START + 11, 10);
    TallyPull(s, both, e, es, "a");
    IdSetOne(Lease(New("b"), START + 21));
    ExtendsIs(s, both, e, es);
  }

  lemma NotExpiredYet(q: Queue)
    requires q.inFlight == map["b" := Lease(New("b"), START + 21)]
    ensures Enumerates(["b"], q.inFlight.Keys) && ExpiredKeys(q.inFlight, START + 13) == {}
  {
  }

  /** A nack comes when a Pull has put the message back: it does nothing, but the API counts it. */
  lemma IgnoredNack() returns (es: seq<Event>, p: Pending)
    ensures Undercounts(Start(2), es, p, 0, 1, 0)
  {
    hide Legal, Run, Extends, WithinLimits, Inv, Delivered, ExpiredKeys, Enumerates, IdSet, TallyOf, Apply, Undercounts;
    var s := Start(2);
    var nack, e := Extended(["a"], START + 12, 0), Pulled(START + 13, 1, 10, false, ["b"]);
    StartRun(2);
    var back := TakenBackRun();
    var nacked := ThenExtend(s, back, "a", START + 12, 0);
    TallyExtend(s, back, nack, nacked, "a");
    ExtendsIs(s, back, nack, nacked);
    NotExpiredYet(Run(s, nacked).queue);
    NewWithinLimits("a");
    es := ThenQuietPull(s, nacked, START + 13, 10, ["b"]);
    p := Lease(New("a").(attempt := 1), START + 23);
    TallyPull(s, nacked, e, es, "a");
    ExtendsIs(s, nacked, e, es);
    UndercountsIs(s, nacked, e, es, p, TallyOf(s, es, "a"));
  }

  // ----- The attempt wraps around

  /** A message that is leased and never acknowledged, with a deadline of no length, after n Pulls. */
  function AfterPulls(n: nat): State {
    State(
      if n == 0 then Queue(1, [New("a")], map[], true)
      else Queue(1, [], map["a" := New("a").(deadline := START + n - 1, attempt := Wrap(n))], true), {"a"})
  }

  lemma {:induction false} Redelivered(n: nat) returns (es: seq<Event>)
    ensures Legal(Start(1), es) && LeaseCount(Start(1), es, "a") == n && Run(Start(1), es) == AfterPulls(n)
    decreases n
  {
    hide Legal, Run, LeaseCount, AfterPulls;
    if n == 0 {
      es := SentRun();
    } else {
      var before := Redelivered(n - 1);
      if n == 1 {
        es := FirstLease(before);
      } else {
        es := NextLease(before, n);
      }
    }
  }

  lemma SentRun() returns (es: seq<Event>)
    ensures Legal(Start(1), es) && LeaseCount(Start(1), es, "a") == 0 && Run(Start(1), es) == AfterPulls(0)
  {
    hide Legal, Run, Extends, LeaseCount;
    StartRun(1);
    es := ThenSend(Start(1), [], "a");
    LeaseCountSend(Start(1), [], Enqueued([New("a")]), es, "a");
    LeaseCountNone(Start(1), "a");
  }

  lemma FirstLease(before: seq<Event>) returns (es: seq<Event>)
    requires Legal(Start(1), before) && LeaseCount(Start(1), before, "a") == 0 && Run(Start(1), before) == AfterPulls(0)
    ensures Legal(Start(1), es) && LeaseCount(Start(1), es, "a") == 1 && Run(Start(1), es) == AfterPulls(1)
  {
    hide Legal, Run, Extends, WithinLimits, Delivered, LeaseCount, ExpiredKeys, Enumerates;
    var e := Pulled(START, 1, 0, false, []);
    NewWithinLimits("a");
    NothingLeased(Run(Start(1), before).queue);
    es := ThenQuietPull(Start(1), before, START, 0, []);
    ExtendsIs(Start(1), before, e, es);
    LeaseCountPull(Start(1), before, e, es, Lease(New("a"), START));
  }

  lemma NextLease(before: seq<Event>, n: nat) returns (es: seq<Event>)
    requires n > 1 && Legal(Start(1), before) && LeaseCount(Start(1), before, "a") == n - 1
    requires Run(Start(1), before) == AfterPulls(n - 1)
    ensures Legal(Start(1), es) && LeaseCount(Start(1), es, "a") == n && Run(Start(1), es) == AfterPulls(n)
  {
    hide Legal, Run, Extends, WithinLimits, Delivered, LeaseCount, Enumerates;
    var e := Pulled(START + n - 1, 1, 0, false, ["a"]);
    NewWithinLimits("a");
    EmptyReturns(Run(Start(1), before).queue, "a");
    es := ThenReturnPull(Start(1), before, "a", START + n - 1, 0);
    ExtendsIs(Start(1), before, e, es);
    LeaseCountPull(Start(1), before, e, es, New("a").(deadline := START + n - 1, attempt := Wrap(n)));
  }

  lemma LeaseCountNone(s: State, id: string)
    ensures LeaseCount(s, [], id) == 0
  {
  }

  lemma LeaseCountPull(s: State, es: seq<Event>, e: Event, more: seq<Event>, p: Pending)
    requires Extends(s, es, e, more) && Delivered(Run(s, es).queue, e) == [p]
    ensures LeaseCount(s, more, p.ackID) == LeaseCount(s, es, p.ackID) + 1
  {
    hide Extends, Run, IdSet, Delivered, Legal;
    ExtendsIs(s, es, e, more);
    IdSetOne(p);
  }

  lemma LeaseCountSend(s: State, es: seq<Event>, e: Event, more: seq<Event>, id: string)
    requires Extends(s, es, e, more) && e.Enqueued?
    ensures LeaseCount(s, more, id) == LeaseCount(s, es, id) && Legal(s, more)
  {
    hide Extends, Run, Legal;
    ExtendsIs(s, es, e, more);
    NoCopies();
  }

  /** After 2^31 leases the counter is negative, and a dead-letter policy has let one lease too many through. */
  lemma CounterWraps(maximum: nat) returns (es: seq<Event>)
    requires 0 < maximum <= 0x7FFF_FFFF
    ensures var s := Start(1);
      && Inv(s) && Legal(s, es) && "a" !in s.issued && KeptCount(s, es, "a", maximum) == maximum
      && "a" in Run(s, es).queue.inFlight && Run(s, es).queue.inFlight["a"].attempt == -0x8000_0000
  {
    hide Legal, Run, KeptCount, LeaseCount, Inv, BelowCount, Wrap;
    StartRun(1);
    es := Redelivered(0x8000_0000);
    WrapIs(0x8000_0000);
    KeptIsBelow(Start(1), es, "a", maximum);
    WrapHandsOutAgain(maximum);
  }
}
