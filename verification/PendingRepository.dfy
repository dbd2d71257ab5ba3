/** The repository of pending messages: the queues of all subscriptions, by name. */
module PendingRepositories {
  import opened QueueModel
  import opened SubscriptionQueues

  /** The mapper from a stored record to an entity, which is a copy of it; it enforces the entity's limits. */
  method ToEntity(r: Record) returns (e: Result<Pending>)
    ensures e == if WithinLimits(r.message) then Success(r.Value()) else Failure(MappingFailed)
  {
    e := if WithinLimits(r.message) then Success(r.Value()) else Failure(MappingFailed);
  }

  /** Leases a record that was just taken from the channel. */
  method LeaseRecord(q: SubscriptionQueue, r: Record, deadline: int)
    requires q.Valid() && r !in q.Records()
    modifies q, r
    ensures q.Valid() && q.channel == old(q.channel) && q.inFlight == old(q.inFlight)[r.ackID := r]
    ensures r.Value() == Lease(old(r.Value()), deadline)
    ensures q.View() == old(q.View()).(inFlight := old(q.View()).inFlight[r.ackID := r.Value()])
  {
    r.deadline := deadline;
    r.attempt := Increment(r.attempt);
    q.StoreInFlight(r);
    assert Values(q.channel) == old(Values(q.channel));
  }

  /** Leases a record and hands out a copy; a record that cannot be copied is sent back. */
  method LeaseOrSendBack(q: SubscriptionQueue, r: Record, deadline: int) returns (entity: Result<Pending>)
    requires q.Valid() && r !in q.Records()
    modifies q, r
    ensures q.Valid() && q.Records() <= old(q.Records()) + {r}
    ensures WithinLimits(r.message) ==>
      var p := Lease(old(r.Value()), deadline);
      && entity == Success(p) && q.channel == old(q.channel)
      && q.View() == old(q.View()).(inFlight := old(q.View()).inFlight[p.ackID := p])
    ensures !WithinLimits(r.message) ==>
      var p := Lease(old(r.Value()), NO_DEADLINE);
      && entity == Failure(MappingFailed)
      && q.View() == Offer(old(q.View()).(inFlight := old(q.View()).inFlight - {p.ackID}), [p])
  {
    hide Offer, WithinLimits;
    ghost var before := q.View();
    LeaseRecord(q, r, deadline);
    entity := ToEntity(r);
    if entity.Failure? {
      assert q.View().inFlight - {r.ackID} == before.inFlight - {r.ackID};
      q.Release(r.ackID);
    }
  }

  /** Distinct records that were in the queue and are so no more. */
  ghost predicate Aside(rs: seq<Record>, held: set<Record>, records: set<Record>) {
    && (forall i :: 0 <= i < |rs| ==> rs[i] in held && rs[i] !in records)
    && (forall i, j :: 0 <= i < j < |rs| ==> rs[i] != rs[j])
  }

  lemma AsideNone(held: set<Record>, records: set<Record>)
    ensures Aside([], held, records)
  {
  }

  /** Emptying the channel sets its records aside. */
  lemma AsideDrained(channel: seq<Record>, leased: set<Record>, held: set<Record>)
    requires forall i, j :: 0 <= i < j < |channel| ==> channel[i] != channel[j]
    requires forall r :: r in leased ==> r !in channel
    requires held == (set r | r in channel) + leased
    ensures Aside(channel, held, leased)
  {
  }

  lemma AsideKept(rs: seq<Record>, held: set<Record>, records: set<Record>, fewer: set<Record>)
    requires Aside(rs, held, records) && fewer <= records
    ensures Aside(rs, held, fewer)
    ensures forall r :: r in records ==> r !in rs
  {
  }

  lemma AsideMore(rs: seq<Record>, held: set<Record>, records: set<Record>, r: Record)
    requires Aside(rs, held, records) && r in held && r !in records && r !in rs
    ensures Aside(rs + [r], held, records)
  {
  }

  /** Sends records that the queue does not hold; those that do not fit are dropped. */
  method EnqueueEach(q: SubscriptionQueue, rs: seq<Record>, ghost held: set<Record>)
    requires q.Valid() && Aside(rs, held, q.Records())
    modifies q
    ensures q.Valid() && q.Records() <= old(q.Records()) + held
    ensures q.View() == Offer(old(q.View()), Values(rs))
  {
    hide Offer;
    OfferNone(q.View());
    assert Values(rs[..0]) == [];
    for i := 0 to |rs|
      invariant q.Valid() && q.inFlight == old(q.inFlight)
      invariant q.Records() <= old(q.Records()) + held
      invariant forall m :: i <= m < |rs| ==> rs[m] !in q.Records()
      invariant q.View() == Offer(old(q.View()), Values(rs[..i]))
    {
      OfferMore(old(q.View()), Values(rs[..i]), [rs[i].Value()]);
      assert Values(rs[..i + 1]) == Values(rs[..i]) + [rs[i].Value()];
      var _ := q.Enqueue(rs[i]);
    }
    assert rs[..|rs|] == rs;
  }

  /** The ordering keys that a Pull must not lease: those in flight and those of the messages examined so far. */
  ghost predicate BusyKeys(keys: set<string>, busy: set<string>, c: seq<Pending>, n: nat)
    requires n <= |c|
  {
    forall k :: k in keys <==> k in busy || (k != "" && exists m :: 0 <= m < n && c[m].Key() == k)
  }

  lemma BusyKeysNone(busy: set<string>, c: seq<Pending>)
    ensures BusyKeys(busy, busy, c, 0)
  {
  }

  lemma BusyKeysDecide(keys: set<string>, busy: set<string>, c: seq<Pending>, n: nat)
    requires n < |c| && BusyKeys(keys, busy, c, n) && "" !in busy
    ensures Eligible(c, n, busy, true) <==> c[n].Key() == "" || c[n].Key() !in keys
    ensures BusyKeys(if c[n].Key() == "" then keys else keys + {c[n].Key()}, busy, c, n + 1)
  {
  }

  lemma EligibleNow(keys: set<string>, q0: Queue, n: nat, ordered: bool)
    requires n < |q0.channel| && (ordered ==> BusyKeys(keys, LeasedKeys(q0.inFlight), q0.channel, n))
    ensures var key := q0.channel[n].Key();
      && (Eligible(q0.channel, n, LeasedKeys(q0.inFlight), ordered) <==> !(ordered && key != "" && key in keys))
      && (ordered && (key == "" || key in keys) ==> BusyKeys(keys, LeasedKeys(q0.inFlight), q0.channel, n + 1))
      && (ordered && key != "" ==> BusyKeys(keys + {key}, LeasedKeys(q0.inFlight), q0.channel, n + 1))
  {
    if ordered {
      assert q0.channel[n].Key() in keys ==> keys + {q0.channel[n].Key()} == keys;
      BusyKeysDecide(keys, LeasedKeys(q0.inFlight), q0.channel, n);
    }
  }

  method KeysInFlight(q: SubscriptionQueue) returns (keys: set<string>)
    requires q.Valid()
    ensures keys == LeasedKeys(q.View().inFlight)
  {
    var rs, order := q.ListInFlight();
    keys := {};
    for i := 0 to |rs|
      invariant keys == set m | 0 <= m < i && rs[m].message.orderingKey != "" :: rs[m].message.orderingKey
    {
      if rs[i].message.orderingKey != "" {
        keys := keys + {rs[i].message.orderingKey};
      }
    }
    var leased := LeasedKeys(q.View().inFlight);
    forall k ensures k in keys <==> k in leased {
      if k in leased {
        var id :| id in q.inFlight && q.inFlight[id].message.orderingKey == k && k != "";
        var m :| 0 <= m < |order| && order[m] == id;
        assert rs[m].message.orderingKey == k;
      }
      if k in keys {
        var m :| 0 <= m < |rs| && rs[m].message.orderingKey == k && k != "";
        assert order[m] in q.View().inFlight && q.View().inFlight[order[m]].Key() == k;
      }
    }
  }

  /** A Pull from `q0` that has examined n messages, without meeting a reason to stop. */
  ghost predicate Progress(q0: Queue, max: int, deadline: int, ordered: bool, n: nat, q: Queue, batch: seq<Pending>,
      skipped: seq<Pending>) {
    var c, busy := q0.channel, LeasedKeys(q0.inFlight);
    && n <= |c| && q == q0.(channel := c[n..], inFlight := Store(q0.inFlight, batch))
    && batch == Leases(Selected(c[..n], busy, ordered), deadline)
    && skipped == Skipped(c[..n], busy, ordered)
    && forall m :: 0 <= m < n ==> !StopsAt(c, m, busy, ordered, max)
  }

  lemma ProgressNone(q0: Queue, max: int, deadline: int, ordered: bool)
    ensures Progress(q0, max, deadline, ordered, 0, q0, [], [])
  {
  }

  /** The message at the head of the channel is the n-th one. */
  lemma ProgressHead(q0: Queue, max: int, deadline: int, ordered: bool, n: nat, q: Queue, batch: seq<Pending>,
      skipped: seq<Pending>)
    requires Progress(q0, max, deadline, ordered, n, q, batch, skipped)
    ensures n <= |q0.channel| && |q.channel| == |q0.channel| - n
    ensures q.channel != [] ==> q.channel[0] == q0.channel[n]
  {
  }

  lemma ProgressSkip(q0: Queue, max: int, deadline: int, ordered: bool, n: nat, q: Queue, batch: seq<Pending>,
      skipped: seq<Pending>)
    requires Progress(q0, max, deadline, ordered, n, q, batch, skipped) && |batch| < max
    requires n < |q0.channel| == n + |q.channel|
    requires !Eligible(q0.channel, n, LeasedKeys(q0.inFlight), ordered)
    ensures Progress(q0, max, deadline, ordered, n + 1, q.(channel := q.channel[1..]), batch, skipped + [q0.channel[n]])
  {
    hide Selected, Skipped, Eligible, Store, LeasedKeys, WithinLimits;
    SelectedStep(q0.channel, n, LeasedKeys(q0.inFlight), ordered);
  }

  lemma ProgressLease(q0: Queue, max: int, deadline: int, ordered: bool, n: nat, q: Queue, batch: seq<Pending>,
      skipped: seq<Pending>)
    requires Progress(q0, max, deadline, ordered, n, q, batch, skipped) && |batch| < max
    requires n < |q0.channel| == n + |q.channel|
    requires Eligible(q0.channel, n, LeasedKeys(q0.inFlight), ordered) && WithinLimits(q0.channel[n].message)
    ensures var p := Lease(q0.channel[n], deadline);
      Progress(q0, max, deadline, ordered, n + 1,
        q.(channel := q.channel[1..], inFlight := q.inFlight[p.ackID := p]), batch + [p], skipped)
  {
    hide Selected, Skipped, Eligible, Store, LeasedKeys, WithinLimits;
    SelectedStep(q0.channel, n, LeasedKeys(q0.inFlight), ordered);
    LeasesStep(Selected(q0.channel[..n], LeasedKeys(q0.inFlight), ordered), q0.channel[n], deadline);
    StoreStep(q0.inFlight, batch, Lease(q0.channel[n], deadline));
  }

  lemma ProgressFails(q0: Queue, max: int, deadline: int, ordered: bool, n: nat, q: Queue, batch: seq<Pending>,
      skipped: seq<Pending>)
    requires Progress(q0, max, deadline, ordered, n, q, batch, skipped) && |batch| < max
    requires n < |q0.channel| == n + |q.channel|
    requires Eligible(q0.channel, n, LeasedKeys(q0.inFlight), ordered) && !WithinLimits(q0.channel[n].message)
    ensures var bad := Lease(q0.channel[n], NO_DEADLINE);
      LeaseFrom(q0, max, deadline, ordered) ==
        (Offer(q.(channel := q.channel[1..], inFlight := q.inFlight - {bad.ackID}), [bad]), Failure(MappingFailed))
  {
    hide Selected, Skipped, Eligible, Store, LeasedKeys, WithinLimits, Offer;
    ExaminedIs(q0.channel, n, LeasedKeys(q0.inFlight), ordered, max);
  }

  lemma ProgressEnds(q0: Queue, max: int, deadline: int, ordered: bool, n: nat, q: Queue, batch: seq<Pending>,
      skipped: seq<Pending>)
    requires Progress(q0, max, deadline, ordered, n, q, batch, skipped) && (|batch| >= max || q.channel == [])
    ensures LeaseFrom(q0, max, deadline, ordered) == (Offer(q, skipped), Success(batch))
  {
    hide Selected, Skipped, Eligible, Store, LeasedKeys, WithinLimits, Offer;
    ExaminedIs(q0.channel, n, LeasedKeys(q0.inFlight), ordered, max);
  }

  /**
   A turn that leases: `q0` is the queue before the Pull, `q1` before this turn, and the record at its
   head has been taken. It is leased and handed out, or sent back when it cannot be.
   */
  method LeaseTurn(q: SubscriptionQueue, r: Record, max: int, deadline: int, ordered: bool,
    ghost q0: Queue, ghost n: nat, ghost q1: Queue, ghost batch: seq<Pending>, ghost skipped: seq<Record>,
    ghost held: set<Record>)
    returns (entity: Result<Pending>)
    requires q1.channel != [] && q.Valid() && r !in q.Records() && q.View() == q1.(channel := q1.channel[1..])
    requires Progress(q0, max, deadline, ordered, n, q1, batch, Values(skipped)) && |batch| < max
    requires n < |q0.channel| == n + |q1.channel| && r.Value() == q0.channel[n]
    requires Eligible(q0.channel, n, LeasedKeys(q0.inFlight), ordered)
    requires Aside(skipped, held, q.Records() + {r})
    modifies q, r
    ensures q.Valid() && q.Records() <= old(q.Records()) + {r}
    ensures entity.Success? ==>
      && |q.channel| == |old(q.channel)| && Aside(skipped, held, q.Records())
      && Progress(q0, max, deadline, ordered, n + 1, q.View(), batch + [entity.value], Values(skipped))
    ensures entity.Failure? ==> LeaseFrom(q0, max, deadline, ordered) == (q.View(), Failure(MappingFailed))
  {
    hide Progress, LeaseFrom, Offer, Eligible, LeasedKeys, WithinLimits, Aside, MapValues;
    ghost var records, aside := q.Records() + {r}, Values(skipped);
    AsideKept(skipped, held, records, records);
    entity := LeaseOrSendBack(q, r, deadline);
    if entity.Failure? {
      ProgressFails(q0, max, deadline, ordered, n, q1, batch, aside);
    } else {
      ProgressLease(q0, max, deadline, ordered, n, q1, batch, aside);
      AsideKept(skipped, held, records, q.Records());
      assert Values(skipped) == aside;
    }
  }

  /** A turn that skips: the record is set aside. */
  lemma SkipTurn(r: Record, max: int, deadline: int, ordered: bool,
    q0: Queue, n: nat, q1: Queue, batch: seq<Pending>, skipped: seq<Record>, held: set<Record>, records: set<Record>)
    requires q1.channel != [] && Progress(q0, max, deadline, ordered, n, q1, batch, Values(skipped)) && |batch| < max
    requires n < |q0.channel| == n + |q1.channel| && r.Value() == q0.channel[n]
    requires !Eligible(q0.channel, n, LeasedKeys(q0.inFlight), ordered)
    requires Aside(skipped, held, records + {r}) && r in held && r !in records
    ensures Progress(q0, max, deadline, ordered, n + 1, q1.(channel := q1.channel[1..]), batch, Values(skipped + [r]))
    ensures Aside(skipped + [r], held, records)
  {
    hide Progress, Eligible, LeasedKeys, Aside, Values;
    ProgressSkip(q0, max, deadline, ordered, n, q1, batch, Values(skipped));
    ValuesMore(skipped, r);
    AsideKept(skipped, held, records + {r}, records);
    AsideMore(skipped, held, records, r);
  }

  /** The loop of Pull: leases eligible messages and sets the others aside. */
  method LeaseEligible(q: SubscriptionQueue, max: int, deadline: int, ordered: bool)
    returns (result: Result<seq<Pending>>, skipped: seq<Record>)
    requires q.Valid()
    modifies q, q.Records()
    ensures q.Valid() && q.Records() <= old(q.Records()) && Aside(skipped, old(q.Records()), q.Records())
    ensures LeaseFrom(old(q.View()), max, deadline, ordered) ==
      (if result.Failure? then q.View() else Offer(q.View(), Values(skipped)), result)
  {
    hide Progress, LeaseFrom, Offer, Eligible, BusyKeys, LeasedKeys, WithinLimits, Aside, Values, MapValues;
    ghost var q0, n, held := q.View(), 0, q.Records();
    var leasedKeys := {};
    if ordered {
      leasedKeys := KeysInFlight(q);
      BusyKeysNone(leasedKeys, q0.channel);
    }
    var batch: seq<Pending> := [];
    skipped := [];
    ProgressNone(q0, max, deadline, ordered);
    AsideNone(held, q.Records());
    assert Values(skipped) == [];
    while |batch| < max
      invariant q.Valid() && n <= |q0.channel| == n + |q.channel| && q.Records() <= held
      invariant Progress(q0, max, deadline, ordered, n, q.View(), batch, Values(skipped))
      invariant Aside(skipped, held, q.Records())
      invariant ordered ==> BusyKeys(leasedKeys, LeasedKeys(q0.inFlight), q0.channel, n)
      decreases |q.channel|
    {
      ghost var q1, records := q.View(), q.Records();
      ProgressHead(q0, max, deadline, ordered, n, q1, batch, Values(skipped));
      var head := q.TryDequeue();
      if head == null {
        break;
      }
      var r: Record := head;
      AsideKept(skipped, held, records, q.Records() + {r});
      var key := r.message.orderingKey;
      EligibleNow(leasedKeys, q0, n, ordered);
      if ordered && key != "" && key in leasedKeys {
        SkipTurn(r, max, deadline, ordered, q0, n, q1, batch, skipped, held, q.Records());
        skipped := skipped + [r];
      } else {
        if ordered && key != "" {
          leasedKeys := leasedKeys + {key};
        }
        var entity := LeaseTurn(q, r, max, deadline, ordered, q0, n, q1, batch, skipped, held);
        if entity.Failure? {
          AsideNone(held, q.Records());
          return Failure(MappingFailed), [];
        }
        batch := batch + [entity.value];
      }
      n := n + 1;
    }
    ProgressEnds(q0, max, deadline, ordered, n, q.View(), batch, Values(skipped));
    result := Success(batch);
  }

  /** Leases a batch and sends the skipped messages again. */
  method LeaseBatch(q: SubscriptionQueue, max: int, deadline: int, ordered: bool) returns (result: Result<seq<Pending>>)
    requires q.Valid()
    modifies q, q.Records()
    ensures q.Valid() && q.Records() <= old(q.Records())
    ensures (q.View(), result) == LeaseFrom(old(q.View()), max, deadline, ordered)
  {
    hide LeaseFrom, Offer, Aside, Values, MapValues;
    var skipped;
    result, skipped := LeaseEligible(q, max, deadline, ordered);
    if result.Success? {
      EnqueueEach(q, skipped, old(q.Records()));
    }
  }


  method PullFrom(q: SubscriptionQueue, max: int, now: int, wait: int, ordered: bool)
    returns (result: Result<seq<Pending>>, ghost order: seq<string>)
    requires q.Valid()
    modifies q, q.Records()
    ensures q.Valid() && q.Records() <= old(q.Records())
    ensures Enumerates(order, old(q.View()).inFlight.Keys)
    ensures (q.View(), result) == Pull(old(q.View()), now, max, wait, ordered, order)
  {
    hide Requeue, LeaseFrom, Enumerates, Values, MapValues;
    ghost var q0 := q.View();
    order := q.RequeueExpired(now);
    assert q.View() == Requeue(q0, now, order);
    result := LeaseBatch(q, max, now + wait, ordered);
  }

  /** The first copy that is refused shows that not all fit. */
  lemma RefusedAt(q0: Queue, ps: seq<Pending>, n: nat)
    requires |q0.channel| <= q0.capacity && n < |ps| && |q0.channel| + n == q0.capacity
    ensures Enqueue(q0, ps) == (Offer(q0, ps[..n + 1]), Failure(ResourceExhausted))
  {
    hide Offer;
    OfferFull(q0, ps, n + 1);
  }

  lemma AllSent(q0: Queue, ps: seq<Pending>)
    requires |q0.channel| + |ps| <= q0.capacity
    ensures Enqueue(q0, ps) == (Offer(q0, ps), Success(()))
  {
    hide Offer;
  }

  /** Sends a copy of one more entity. */
  method EnqueueOne(q: SubscriptionQueue, ps: seq<Pending>, i: nat, ghost q0: Queue) returns (ok: bool)
    requires q.Valid() && i < |ps| && q.View() == Offer(q0, ps[..i]) && |q0.channel| <= q0.capacity
    modifies q
    ensures q.Valid() && fresh(q.Records() - old(q.Records())) && q.View() == Offer(q0, ps[..i + 1])
    ensures ok <==> |old(q.channel)| < q.capacity
    ensures ok ==> |q.channel| == |old(q.channel)| + 1
  {
    hide Offer, Values, MapValues;
    var r := new Record(ps[i]);
    assert ps[..i + 1] == ps[..i] + [ps[i]];
    OfferMore(q0, ps[..i], [ps[i]]);
    ok := q.Enqueue(r);
  }

  /** Sends copies of entities until one is refused. */
  method EnqueueNew(q: SubscriptionQueue, ps: seq<Pending>) returns (result: Result<()>)
    requires q.Valid()
    modifies q
    ensures q.Valid() && fresh(q.Records() - old(q.Records()))
    ensures (q.View(), result) == Enqueue(old(q.View()), ps)
  {
    hide Offer, Enqueue, Values, MapValues;
    ghost var q0 := q.View();
    OfferNone(q0);
    assert ps[..0] == [];
    for i := 0 to |ps|
      invariant q.Valid() && fresh(q.Records() - old(q.Records()))
      invariant q.View() == Offer(q0, ps[..i]) && |q.channel| == |q0.channel| + i
    {
      var ok := EnqueueOne(q, ps, i, q0);
      if !ok {
        RefusedAt(q0, ps, i);
        return Failure(ResourceExhausted);
      }
    }
    assert ps[..|ps|] == ps;
    AllSent(q0, ps);
    result := Success(());
  }

  lemma MoveHead(a: seq<Record>, b: seq<Record>, all: seq<Record>)
    requires b != [] && a + b == all
    ensures a + [b[0]] + b[1..] == all
  {
    assert b == [b[0]] + b[1..];
  }

  /** Takes everything out of the channel. */
  method Drain(q: SubscriptionQueue) returns (queued: seq<Record>)
    requires q.Valid()
    modifies q
    ensures q.Valid() && q.inFlight == old(q.inFlight) && queued == old(q.channel)
    ensures q.View() == old(q.View()).(channel := []) && Aside(queued, old(q.Records()), q.Records())
  {
    hide Aside, Values, MapValues;
    queued := [];
    AsideDrained(q.channel, q.inFlight.Values, q.Records());
    while true
      invariant q.Valid() && q.inFlight == old(q.inFlight) && q.notify == old(q.notify)
      invariant queued + q.channel == old(q.channel)
      decreases |q.channel|
    {
      ghost var channel := q.channel;
      var r := q.TryDequeue();
      if r == null {
        break;
      }
      var record: Record := r;
      MoveHead(queued, channel, old(q.channel));
      queued := queued + [record];
    }
    assert queued + [] == queued;
    assert q.Records() == q.inFlight.Values;
    assert Values(q.channel) == [];
  }

  /** Takes everything out of the channel and sends it again. */
  method Refill(q: SubscriptionQueue) returns (queued: seq<Record>)
    requires q.Valid()
    modifies q
    ensures q.Valid() && q.Records() <= old(q.Records()) && Values(queued) == old(q.View()).channel
    ensures q.View() == Relist(old(q.View())) && q.View().inFlight == old(q.View()).inFlight
  {
    hide Aside, Offer, Values, MapValues;
    ghost var q0 := q.View();
    queued := Drain(q);
    EnqueueEach(q, queued, old(q.Records()));
    OfferKeepsLeases(q0.(channel := []), q0.channel);
  }

  method ListFrom(q: SubscriptionQueue) returns (result: Result<seq<Pending>>, ghost order: seq<string>)
    requires q.Valid()
    modifies q
    ensures q.Valid() && q.Records() <= old(q.Records())
    ensures Enumerates(order, old(q.View()).inFlight.Keys)
    ensures q.View() == Relist(old(q.View())) && result == Copies(Listing(old(q.View()), order))
  {
    hide Relist, Enumerates, Copies, Listing, Values, MapValues;
    ghost var q0 := q.View();
    var queued := Refill(q);
    var leased;
    leased, order := q.ListInFlight();
    ListingIs(q0, order, Values(queued), Values(leased));
    ValuesConcat(queued, leased);
    result := ToEntities(queued + leased);
  }

  method ToEntities(rs: seq<Record>) returns (result: Result<seq<Pending>>)
    ensures result == Copies(Values(rs))
  {
    hide WithinLimits;
    var out: seq<Pending> := [];
    for i := 0 to |rs|
      invariant out == Values(rs[..i])
      invariant forall j :: 0 <= j < i ==> WithinLimits(rs[j].message)
    {
      var e := ToEntity(rs[i]);
      if e.Failure? {
        assert !WithinLimits(Values(rs)[i].message);
        return Failure(MappingFailed);
      }
      out := out + [e.value];
    }
    assert rs[..|rs|] == rs;
    result := Success(out);
  }

  method ReplaceIn(q: SubscriptionQueue, ps: seq<Pending>) returns (result: Result<()>)
    requires q.Valid()
    modifies q
    ensures q.Valid() && fresh(q.Records() - old(q.Records()))
    ensures (q.View(), result) == ReplaceAll(old(q.View()), ps)
  {
    var _ := Drain(q);
    q.ClearInFlight();
    assert q.View() == old(q.View()).(channel := [], inFlight := map[]);
    result := EnqueueNew(q, ps);
  }

  lemma AcknowledgeNone(q: Queue)
    ensures Acknowledge(q, []) == q
  {
    assert q.inFlight - {} == q.inFlight;
  }

  /** Acknowledging changes the leases, and nothing else. */
  lemma LeasesOnly(q: Queue, ids: seq<string>, q': Queue)
    requires q'.(inFlight := q.inFlight) == q
    ensures q'.inFlight == Acknowledge(q, ids).inFlight ==> q' == Acknowledge(q, ids)
  {
  }

  method AcknowledgeIn(q: SubscriptionQueue, ids: seq<string>)
    requires q.Valid()
    modifies q
    ensures q.Valid() && q.Records() <= old(q.Records())
    ensures q.View() == Acknowledge(old(q.View()), ids)
  {
    hide Acknowledge, Values;
    ghost var q0 := q.View();
    LeasesOnly(q0, ids, q0);
    AcknowledgeNone(q0);
    for i := 0 to |ids|
      invariant q.Valid() && q.Records() <= old(q.Records()) && q.channel == old(q.channel) && q.notify == old(q.notify)
      invariant MapValues(q.inFlight) == Acknowledge(q0, ids[..i]).inFlight
    {
      AcknowledgeStep(q0, ids, i);
      q.DeleteInFlight(ids[i]);
    }
    assert ids[..|ids|] == ids;
    LeasesOnly(q0, ids, q.View());
  }

  method ExtendIn(q: SubscriptionQueue, ids: seq<string>, deadline: int)
    requires q.Valid()
    modifies q.Records()
    ensures q.Valid() && q.Records() <= old(q.Records())
    ensures q.View() == Extend(old(q.View()), ids, deadline)
  {
    ghost var q0 := q.View();
    for i := 0 to |ids|
      invariant q.Valid() && Values(q.channel) == q0.channel
      invariant MapValues(q.inFlight) == Extend(q0, ids[..i], deadline).inFlight
    {
      ExtendStep(q0, ids, i, deadline);
      var r := q.LoadInFlight(ids[i]);
      if r != null {
        r.deadline := deadline;
      }
    }
    assert ids[..|ids|] == ids;
  }

  class PendingMessageRepository {
    const queueSize: nat
    var queues: map<string, SubscriptionQueue>

    constructor (queueSize: nat)
      ensures Valid() && View() == map[]
      ensures fresh(Footprint() - {this}) && this.queueSize == queueSize
    {
      this.queueSize, queues := queueSize, map[];
    }

    /** No two names share a queue, and no two queues share a record. */
    ghost predicate Valid()
      reads this, queues.Values
    {
      && (forall n :: n in queues ==> queues[n].Valid() && queues[n].capacity == queueSize)
      && (forall m, n :: m in queues && n in queues && m != n ==>
        queues[m] != queues[n] && queues[m].Records() !! queues[n].Records())
    }

    ghost function Footprint(): set<object>
      reads this, queues.Values
    {
      {this} + queues.Values + set n, r | n in queues && r in queues[n].Records() :: r
    }

    ghost function View(): map<string, Queue>
      reads Footprint()
    {
      map n | n in queues :: queues[n].View()
    }

    lemma ViewNames()
      ensures View().Keys == queues.Keys
    {
    }

    /** The other queues, and their records, are as they were. */
    twostate predicate OthersUnchanged(name: string)
      reads this, queues.Values, set n, r | n in queues && r in queues[n].Records() :: r
    {
      && queues == old(queues)
      && forall n :: n in queues && n != name ==> unchanged(queues[n]) && unchanged(queues[n].Records())
    }

    twostate lemma OthersAsBefore(name: string)
      requires name in queues && OthersUnchanged(name)
      ensures forall n :: n in queues && n != name ==>
        && (old(queues[n].Valid()) ==> queues[n].Valid())
        && queues[n].Records() == old(queues[n].Records()) && queues[n].View() == old(queues[n].View())
    {
      hide Values, MapValues, SubscriptionQueue.Valid, SubscriptionQueue.View;
    }

    twostate lemma OnlyViewChanged(name: string)
      requires name in queues && OthersUnchanged(name)
      ensures View() == old(View())[name := queues[name].View()] && old(View())[name] == old(queues[name].View())
    {
      hide OthersUnchanged, Values, MapValues, SubscriptionQueue.View;
      OthersAsBefore(name);
      SameQueues(name);
    }

    twostate lemma SameQueues(name: string)
      requires OthersUnchanged(name)
      ensures queues == old(queues)
    {
    }

    /** An operation on one queue leaves the repository valid, and the view changes under one name only. */
    twostate lemma OnlyQueueChanged(name: string)
      requires old(Valid()) && name in queues && OthersUnchanged(name)
      requires queues[name].Valid() && queues[name].capacity == queueSize
      requires forall r :: r in queues[name].Records() ==> r in old(queues[name].Records()) || !old(allocated(r))
      ensures Valid() && View() == old(View())[name := queues[name].View()]
      ensures old(View())[name] == old(queues[name].View())
      ensures forall o :: o in Footprint() ==> o in old(Footprint()) || !old(allocated(o))
    {
      hide OthersUnchanged, Values, MapValues, View, SubscriptionQueue.Valid, SubscriptionQueue.View;
      OthersAsBefore(name);
      OnlyViewChanged(name);
      SameQueues(name);
    }

    /** So does a new queue, which takes the place of any queue there was under its name. */
    twostate lemma QueueAdded(name: string, new q: SubscriptionQueue)
      requires old(Valid()) && queues == old(queues)[name := q]
      requires forall n :: n in old(queues) && n != name ==> unchanged(queues[n]) && unchanged(queues[n].Records())
      requires q.Valid() && q.capacity == queueSize && q.Records() == {} && !old(allocated(q))
      ensures Valid()
    {
      hide Values, MapValues, SubscriptionQueue.Valid, SubscriptionQueue.View, SubscriptionQueue.Records;
      forall m, n | m in queues && n in queues && m != n
        ensures queues[m] != queues[n] && queues[m].Records() !! queues[n].Records()
      {
        assert m != name ==> queues[m].Records() == old(queues[m].Records());
        assert n != name ==> queues[n].Records() == old(queues[n].Records());
      }
    }

    twostate lemma QueueAddedFootprint(name: string, new q: SubscriptionQueue)
      requires queues == old(queues)[name := q] && q.Records() == {} && !old(allocated(q))
      requires forall n :: n in old(queues) && n != name ==> unchanged(queues[n]) && unchanged(queues[n].Records())
      ensures forall o :: o in Footprint() ==> o in old(Footprint()) || o == q
    {
      hide Values, MapValues, SubscriptionQueue.Valid, SubscriptionQueue.View;
    }

    twostate lemma QueueAddedView(name: string, new q: SubscriptionQueue)
      requires queues == old(queues)[name := q]
      requires forall n :: n in old(queues) && n != name ==> unchanged(queues[n]) && unchanged(queues[n].Records())
      ensures View() == old(View())[name := q.View()]
    {
      hide Values, MapValues, SubscriptionQueue.View, SubscriptionQueue.Records;
      forall n | n in old(queues) && n != name ensures queues[n].View() == old(queues[n].View()) {
      }
    }

    method InitSubscription(name: string)
      requires Valid()
      modifies this
      ensures Valid() && fresh(Footprint() - old(Footprint()))
      ensures View() == old(View())[name := Empty(queueSize)]
    {
      hide Values, MapValues, SubscriptionQueue.Valid, SubscriptionQueue.View;
      var q := new SubscriptionQueue(queueSize);
      queues := queues[name := q];
      QueueAdded(name, q);
      QueueAddedFootprint(name, q);
      QueueAddedView(name, q);
    }

    method Pull(name: string, max: int, now: int, wait: int, ordered: bool)
      returns (result: Result<seq<Pending>>, ghost order: seq<string>)
      requires Valid()
      modifies Footprint()
      ensures Valid() && fresh(Footprint() - old(Footprint()))
      ensures name !in old(View()) ==> result == Failure(NotFound) && View() == old(View())
      ensures name in old(View()) ==>
        var (q, r) := QueueModel.Pull(old(View())[name], now, max, wait, ordered, order);
        Enumerates(order, old(View())[name].inFlight.Keys) && View() == old(View())[name := q] && result == r
    {
      hide QueueModel.Pull, Enumerates, Values, MapValues, View, SubscriptionQueue.Valid, SubscriptionQueue.View;
      order := [];
      ViewNames();
      if name !in queues {
        return Failure(NotFound), order;
      }
      result, order := PullFrom(queues[name], max, now, wait, ordered);
      OnlyQueueChanged(name);
    }

    method Enqueue(name: string, ps: seq<Pending>) returns (result: Result<()>)
      requires Valid()
      modifies Footprint()
      ensures Valid() && fresh(Footprint() - old(Footprint()))
      ensures name !in old(View()) ==> result == Failure(NotFound) && View() == old(View())
      ensures name in old(View()) ==>
        var (q, r) := QueueModel.Enqueue(old(View())[name], ps);
        View() == old(View())[name := q] && result == r
    {
      hide QueueModel.Enqueue, Values, MapValues, View, SubscriptionQueue.Valid, SubscriptionQueue.View;
      ViewNames();
      if name !in queues {
        return Failure(NotFound);
      }
      result := EnqueueNew(queues[name], ps);
      OnlyQueueChanged(name);
    }

    method ListAll(name: string) returns (result: Result<seq<Pending>>, ghost order: seq<string>)
      requires Valid()
      modifies Footprint()
      ensures Valid() && fresh(Footprint() - old(Footprint()))
      ensures name !in old(View()) ==> result == Failure(NotFound) && View() == old(View())
      ensures name in old(View()) ==>
        var q := old(View())[name];
        && Enumerates(order, q.inFlight.Keys) && View() == old(View())[name := Relist(q)]
        && result == Copies(Listing(q, order))
    {
      hide Relist, Copies, Listing, Enumerates, Values, MapValues, View, SubscriptionQueue.Valid,
        SubscriptionQueue.View;
      order := [];
      ViewNames();
      if name !in queues {
        return Failure(NotFound), order;
      }
      result, order := ListFrom(queues[name]);
      OnlyQueueChanged(name);
    }

    method ReplaceAll(name: string, ps: seq<Pending>) returns (result: Result<()>)
      requires Valid()
      modifies Footprint()
      ensures Valid() && fresh(Footprint() - old(Footprint()))
      ensures name !in old(View()) ==> result == Failure(NotFound) && View() == old(View())
      ensures name in old(View()) ==>
        var (q, r) := QueueModel.ReplaceAll(old(View())[name], ps);
        View() == old(View())[name := q] && result == r
    {
      hide QueueModel.ReplaceAll, Values, MapValues, View, SubscriptionQueue.Valid, SubscriptionQueue.View;
      ViewNames();
      if name !in queues {
        return Failure(NotFound);
      }
      result := ReplaceIn(queues[name], ps);
      OnlyQueueChanged(name);
    }

    method AcknowledgeByAckID(name: string, ids: seq<string>) returns (result: Result<()>)
      requires Valid()
      modifies Footprint()
      ensures Valid() && fresh(Footprint() - old(Footprint()))
      ensures name !in old(View()) ==> result == Failure(NotFound) && View() == old(View())
      ensures name in old(View()) ==>
        View() == old(View())[name := Acknowledge(old(View())[name], ids)] && result == Success(())
    {
      hide Acknowledge, Values, MapValues, View, SubscriptionQueue.Valid, SubscriptionQueue.View;
      ViewNames();
      if name !in queues {
        return Failure(NotFound);
      }
      AcknowledgeIn(queues[name], ids);
      OnlyQueueChanged(name);
      result := Success(());
    }

    /**
     Sets the deadlines of leases; one that has passed gives the lease up at the next Pull. The
     deadline is the current time plus the duration that the caller asks for.
     */
    method UpdateDeadline(name: string, ids: seq<string>, deadline: int) returns (result: Result<()>)
      requires Valid()
      modifies Footprint()
      ensures Valid() && fresh(Footprint() - old(Footprint()))
      ensures name !in old(View()) ==> result == Failure(NotFound) && View() == old(View())
      ensures name in old(View()) ==>
        View() == old(View())[name := Extend(old(View())[name], ids, deadline)] && result == Success(())
    {
      hide Extend, Values, MapValues, View, SubscriptionQueue.Valid, SubscriptionQueue.View;
      ViewNames();
      if name !in queues {
        return Failure(NotFound);
      }
      ExtendIn(queues[name], ids, deadline);
      OnlyQueueChanged(name);
      result := Success(());
    }
  }
}
