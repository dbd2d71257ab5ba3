/**
 Subscription queues as values: what each operation of a queue does to its state, in closed form.
 The classes of SubscriptionQueue and PendingRepository are proved to compute these functions, and
 the results about runs are proved about them.

 Times are integers on the clock of Go's `time.Time`, whose zero value is 0. `sync.Map.Range` visits
 entries in an order nobody controls; such an order is an argument here, a list of all keys.
 */
module QueueModel {

  datatype Result<+T> = Success(value: T) | Failure(error: Error)
  datatype Error = NotFound | AlreadyExists | MappingFailed | ResourceExhausted

  const NO_DEADLINE := 0

  datatype Message = Message(
    id: string, data: string, attributes: map<string, string>, orderingKey: string, publishTime: int)

  /** The limits that the setters of the message entity impose, hence also the mapper back to it. */
  predicate WithinLimits(m: Message) {
    && |m.data| <= 10 * 1024 * 1024
    && |m.attributes| <= 100
    && (forall k :: k in m.attributes ==> |k| <= 256 && !("goog." <= k) && |m.attributes[k]| <= 1024)
    && |m.orderingKey| <= 1024
  }

  /** A message on its way to a subscriber. */
  datatype Pending = Pending(message: Message, ackID: string, deadline: int, attempt: int)
  {
    function Key(): string { message.orderingKey }
  }

  /** A fresh copy of a message for a subscription: never delivered, no deadline. */
  predicate IsNew(p: Pending) {
    p.deadline == NO_DEADLINE && p.attempt == 0 && WithinLimits(p.message)
  }

  /** Go's `++` on the 32-bit delivery attempt. */
  function Increment(attempt: int): int {
    if attempt == 0x7FFF_FFFF then -0x8000_0000 else attempt + 1
  }

  /** Waiting messages are in the channel, leased ones in flight under their ack ID. */
  datatype Queue = Queue(capacity: nat, channel: seq<Pending>, inFlight: map<string, Pending>, notify: bool)
  {
    /** How many of `n` messages the channel still takes. */
    function Room(n: nat): nat {
      var free := if |channel| <= capacity then capacity - |channel| else 0;
      if n <= free then n else free
    }
  }

  function Empty(capacity: nat): Queue {
    Queue(capacity, [], map[], false)
  }

  /** The channel takes messages in order until it is full; whoever sends is told, the rest is not kept. */
  function Offer(q: Queue, ps: seq<Pending>): Queue {
    q.(channel := q.channel + ps[..q.Room(|ps|)], notify := q.notify || q.Room(|ps|) > 0)
  }

  /** A list of the keys of a map in the order in which they are visited. */
  ghost predicate Enumerates(order: seq<string>, keys: set<string>) {
    && (forall i, j :: 0 <= i < j < |order| ==> order[i] != order[j])
    && (forall k :: k in order <==> k in keys)
  }

  lemma VisitNone(keys: set<string>)
    ensures Enumerates([], keys - keys)
  {
  }

  lemma VisitedAll(order: seq<string>, keys: set<string>)
    requires Enumerates(order, keys - {})
    ensures Enumerates(order, keys)
  {
  }

  lemma VisitOne(order: seq<string>, keys: set<string>, todo: set<string>, k: string)
    requires Enumerates(order, keys - todo) && k in todo && todo <= keys
    ensures k !in order && Enumerates(order + [k], keys - (todo - {k}))
  {
  }

  lemma SomeOrder(keys: set<string>) returns (order: seq<string>)
    ensures Enumerates(order, keys)
  {
    order := [];
    if keys != {} {
      var k :| k in keys;
      order := SomeOrder(keys - {k});
      order := order + [k];
    }
  }

  // ----- Expiry

  predicate Expired(p: Pending, now: int) {
    p.deadline != NO_DEADLINE && p.deadline < now
  }

  function ExpiredKeys(inFlight: map<string, Pending>, now: int): set<string> {
    set k | k in inFlight && Expired(inFlight[k], now)
  }

  /** The expired ones among the records under `order`, in that order, without their deadline. */
  function Released(inFlight: map<string, Pending>, now: int, order: seq<string>): seq<Pending> {
    if order == [] then []
    else
      var k := order[|order| - 1];
      Released(inFlight, now, order[..|order| - 1])
      + if k in inFlight && Expired(inFlight[k], now) then [inFlight[k].(deadline := NO_DEADLINE)] else []
  }

  function Requeue(q: Queue, now: int, order: seq<string>): Queue {
    Offer(q.(inFlight := q.inFlight - ExpiredKeys(q.inFlight, now)), Released(q.inFlight, now, order))
  }

  /** The queue while its leases are visited, when those under `order` have been. */
  function Requeued(q: Queue, now: int, order: seq<string>): Queue {
    Offer(q.(inFlight := q.inFlight - set k | k in order && k in ExpiredKeys(q.inFlight, now)),
      Released(q.inFlight, now, order))
  }

  lemma RequeuedAll(q: Queue, now: int, order: seq<string>)
    requires Enumerates(order, q.inFlight.Keys)
    ensures Requeued(q, now, order) == Requeue(q, now, order)
  {
    assert (set k | k in order && k in ExpiredKeys(q.inFlight, now)) == ExpiredKeys(q.inFlight, now);
  }

  lemma RequeuedNone(q: Queue, now: int)
    ensures Requeued(q, now, []) == q
  {
    assert q.inFlight - {} == q.inFlight;
  }

  lemma OfferKeepsLeases(q: Queue, ps: seq<Pending>)
    ensures Offer(q, ps).inFlight == q.inFlight && Offer(q, ps).capacity == q.capacity
  {
  }

  lemma OfferNone(q: Queue)
    ensures Offer(q, []) == q
  {
    assert q.channel + [] == q.channel;
  }

  /** Once a message is refused, all later ones are. */
  lemma OfferFull(q: Queue, ps: seq<Pending>, n: nat)
    requires |q.channel| <= q.capacity && 0 < n <= |ps| && q.Room(n) < n
    ensures Offer(q, ps[..n]) == Offer(q, ps) && q.Room(|ps|) < |ps|
  {
    assert ps[..n][..q.Room(n)] == ps[..q.Room(|ps|)];
  }

  lemma OfferMore(q: Queue, ps: seq<Pending>, more: seq<Pending>)
    requires |q.channel| <= q.capacity
    ensures Offer(Offer(q, ps), more) == Offer(q, ps + more)
  {
    var all := ps + more;
    var n := q.Room(|ps|);
    if n < |ps| {
      assert all[..n] == ps[..n];
    } else {
      var m := Offer(q, ps).Room(|more|);
      assert ps[..n] == ps;
      assert all[..n + m] == ps + more[..m];
      assert q.channel + all[..n + m] == q.channel + ps + more[..m];
    }
  }

  lemma RequeuedStep(q: Queue, now: int, order: seq<string>, k: string)
    requires |q.channel| <= q.capacity && k in q.inFlight && k !in order
    ensures var s := Requeued(q, now, order);
      Requeued(q, now, order + [k]) ==
        if Expired(q.inFlight[k], now)
        then Offer(s.(inFlight := s.inFlight - {k}), [q.inFlight[k].(deadline := NO_DEADLINE)])
        else s
  {
    var next := order + [k];
    var gone := set k | k in order && k in ExpiredKeys(q.inFlight, now);
    var gone' := set k | k in next && k in ExpiredKeys(q.inFlight, now);
    assert next[..|next| - 1] == order;
    var back := Released(q.inFlight, now, order);
    if Expired(q.inFlight[k], now) {
      assert gone' == gone + {k};
      assert q.inFlight - gone' == (q.inFlight - gone) - {k};
      OfferMore(q.(inFlight := q.inFlight - gone'), back, [q.inFlight[k].(deadline := NO_DEADLINE)]);
    } else {
      assert gone' == gone;
      assert back + [] == back;
    }
  }

  // ----- Leasing

  function LeasedKeys(inFlight: map<string, Pending>): set<string> {
    set k | k in inFlight && inFlight[k].Key() != "" :: inFlight[k].Key()
  }

  /** May the n-th waiting message be leased, when the messages of `busy` keys may not? */
  predicate Eligible(c: seq<Pending>, n: nat, busy: set<string>, ordered: bool)
    requires n < |c|
  {
    !ordered || c[n].Key() == "" || (c[n].Key() !in busy && forall m :: 0 <= m < n ==> c[m].Key() != c[n].Key())
  }

  function Selected(c: seq<Pending>, busy: set<string>, ordered: bool): (r: seq<Pending>)
    ensures |r| <= |c|
  {
    if c == [] then []
    else
      Selected(c[..|c| - 1], busy, ordered)
      + if Eligible(c, |c| - 1, busy, ordered) then [c[|c| - 1]] else []
  }

  function Skipped(c: seq<Pending>, busy: set<string>, ordered: bool): (r: seq<Pending>)
    ensures |r| + |Selected(c, busy, ordered)| == |c|
  {
    if c == [] then []
    else
      Skipped(c[..|c| - 1], busy, ordered)
      + if Eligible(c, |c| - 1, busy, ordered) then [] else [c[|c| - 1]]
  }

  /**
   May a Pull that has examined n messages not go on: enough are leased, none is left, or the next cannot be
   mapped.
   */
  predicate StopsAt(c: seq<Pending>, n: nat, busy: set<string>, ordered: bool, max: int)
    requires n <= |c|
  {
    || |Selected(c[..n], busy, ordered)| >= max
    || n == |c|
    || (Eligible(c, n, busy, ordered) && !WithinLimits(c[n].message))
  }

  /** How many messages a Pull examines that has examined n so far. */
  function Examined(c: seq<Pending>, n: nat, busy: set<string>, ordered: bool, max: int): (r: nat)
    requires n <= |c|
    ensures n <= r <= |c| && StopsAt(c, r, busy, ordered, max)
    ensures forall m :: n <= m < r ==> !StopsAt(c, m, busy, ordered, max)
    decreases |c| - n
  {
    if StopsAt(c, n, busy, ordered, max) then n else Examined(c, n + 1, busy, ordered, max)
  }

  /** Where a Pull stops is determined by the two facts that `Examined` promises. */
  lemma ExaminedIs(c: seq<Pending>, n: nat, busy: set<string>, ordered: bool, max: int)
    requires n <= |c| && StopsAt(c, n, busy, ordered, max)
    requires forall m :: 0 <= m < n ==> !StopsAt(c, m, busy, ordered, max)
    ensures Examined(c, 0, busy, ordered, max) == n
  {
  }

  /** One more message is either selected or skipped. */
  lemma SelectedStep(c: seq<Pending>, n: nat, busy: set<string>, ordered: bool)
    requires n < |c|
    ensures Selected(c[..n + 1], busy, ordered) ==
      Selected(c[..n], busy, ordered) + if Eligible(c, n, busy, ordered) then [c[n]] else []
    ensures Skipped(c[..n + 1], busy, ordered) ==
      Skipped(c[..n], busy, ordered) + if Eligible(c, n, busy, ordered) then [] else [c[n]]
  {
    assert c[..n + 1][..n] == c[..n];
    assert Eligible(c[..n + 1], n, busy, ordered) == Eligible(c, n, busy, ordered);
  }

  function Lease(p: Pending, deadline: int): Pending {
    p.(deadline := deadline, attempt := Increment(p.attempt))
  }

  function Leases(ps: seq<Pending>, deadline: int): (r: seq<Pending>)
    ensures |r| == |ps| && forall i :: 0 <= i < |ps| ==> r[i] == Lease(ps[i], deadline)
  {
    seq(|ps|, i requires 0 <= i < |ps| => Lease(ps[i], deadline))
  }

  /** Records stored one after the other under their ack IDs. */
  function Store(inFlight: map<string, Pending>, ps: seq<Pending>): map<string, Pending> {
    if ps == [] then inFlight
    else Store(inFlight, ps[..|ps| - 1])[ps[|ps| - 1].ackID := ps[|ps| - 1]]
  }

  lemma StoreStep(inFlight: map<string, Pending>, ps: seq<Pending>, p: Pending)
    ensures Store(inFlight, ps + [p]) == Store(inFlight, ps)[p.ackID := p]
  {
    assert (ps + [p])[..|ps|] == ps;
  }

  lemma LeasesStep(ps: seq<Pending>, p: Pending, deadline: int)
    ensures Leases(ps + [p], deadline) == Leases(ps, deadline) + [Lease(p, deadline)]
  {
  }

  /** What a Pull does to a queue whose expired leases are back in the channel. */
  function LeaseFrom(q: Queue, max: int, deadline: int, ordered: bool): (Queue, Result<seq<Pending>>) {
    var c, busy := q.channel, LeasedKeys(q.inFlight);
    var n := Examined(c, 0, busy, ordered, max);
    var batch := Leases(Selected(c[..n], busy, ordered), deadline);
    if n < |c| && |batch| < max then
      // A record beyond the limits ends the Pull: it is sent back, and the skipped ones are forgotten.
      var bad := Lease(c[n], NO_DEADLINE);
      (Offer(q.(channel := c[n + 1..], inFlight := Store(q.inFlight, batch) - {bad.ackID}), [bad]),
        Failure(MappingFailed))
    else
      (Offer(q.(channel := c[n..], inFlight := Store(q.inFlight, batch)), Skipped(c[..n], busy, ordered)),
        Success(batch))
  }

  function Pull(q: Queue, now: int, max: int, wait: int, ordered: bool, order: seq<string>)
    : (Queue, Result<seq<Pending>>)
  {
    LeaseFrom(Requeue(q, now, order), max, now + wait, ordered)
  }

  // ----- The other operations

  /** `Enqueue` of the repository: an error tells that not all messages fit; those that did stay. */
  function Enqueue(q: Queue, ps: seq<Pending>): (Queue, Result<()>) {
    (Offer(q, ps), if q.Room(|ps|) == |ps| then Success(()) else Failure(ResourceExhausted))
  }

  /** `ListAll` drains the channel and fills it again. */
  function Relist(q: Queue): Queue {
    Offer(q.(channel := []), q.channel)
  }

  /** All records of a queue, the ones in flight in the order of the visit. */
  function Listing(q: Queue, order: seq<string>): seq<Pending>
    requires forall k :: k in order ==> k in q.inFlight
  {
    q.channel + seq(|order|, i requires 0 <= i < |order| => q.inFlight[order[i]])
  }

  lemma ListingIs(q: Queue, order: seq<string>, queued: seq<Pending>, leased: seq<Pending>)
    requires queued == q.channel && |leased| == |order|
    requires forall i :: 0 <= i < |order| ==> order[i] in q.inFlight && leased[i] == q.inFlight[order[i]]
    ensures Listing(q, order) == queued + leased
  {
  }

  function ReplaceAll(q: Queue, ps: seq<Pending>): (Queue, Result<()>) {
    Enqueue(q.(channel := [], inFlight := map[]), ps)
  }

  function Acknowledge(q: Queue, ids: seq<string>): Queue {
    q.(inFlight := q.inFlight - set id | id in ids)
  }

  function Extend(q: Queue, ids: seq<string>, deadline: int): Queue {
    q.(inFlight := map k | k in q.inFlight ::
      if k in ids then q.inFlight[k].(deadline := deadline) else q.inFlight[k])
  }

  lemma AcknowledgeStep(q: Queue, ids: seq<string>, i: nat)
    requires i < |ids|
    ensures Acknowledge(q, ids[..i + 1]).inFlight == Acknowledge(q, ids[..i]).inFlight - {ids[i]}
  {
    assert forall k :: k in ids[..i + 1] <==> k in ids[..i] || k == ids[i];
  }

  lemma ExtendStep(q: Queue, ids: seq<string>, i: nat, deadline: int)
    requires i < |ids|
    ensures Extend(q, ids[..i + 1], deadline) ==
      var s := Extend(q, ids[..i], deadline);
      if ids[i] in s.inFlight
      then s.(inFlight := s.inFlight[ids[i] := s.inFlight[ids[i]].(deadline := deadline)]) else s
  {
    assert forall k :: k in ids[..i + 1] <==> k in ids[..i] || k == ids[i];
  }

  /** What `ListAll` returns: copies of all records, or an error if one cannot be copied. */
  function Copies(ps: seq<Pending>): (r: Result<seq<Pending>>)
    ensures r == Success(ps) || r == Failure(MappingFailed)
  {
    if forall i :: 0 <= i < |ps| ==> WithinLimits(ps[i].message) then Success(ps) else Failure(MappingFailed)
  }
}
