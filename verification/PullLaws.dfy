/**
 What a Pull hands out, said of the queue before and the queue after, without the closed forms of
 QueueModel: which leases are taken back, which messages are chosen, what a lease is, and what waits on.
 */
module PullLaws {
  import opened QueueModel
  import opened QueueLaws
  import opened QueueRuns
  import opened Sublists

  // ----- The queue before

  /** A message that can be published: the limits of its parts, in bytes. */
  predicate Small(m: Message) {
    && |m.data| <= 10_485_760
    && |m.attributes| <= 100
    && (forall k :: k in m.attributes ==> |k| <= 256 && !("goog." <= k) && |m.attributes[k]| <= 1024)
    && |m.orderingKey| <= 1024
  }

  /** Nothing is held twice, what waits has no deadline, what is leased has one, and all messages are small. */
  ghost predicate Tidy(q: Queue) {
    && |q.channel| <= q.capacity
    && (forall i, j :: 0 <= i < j < |q.channel| ==> q.channel[i].ackID != q.channel[j].ackID)
    && (forall i :: 0 <= i < |q.channel| ==>
      q.channel[i].deadline == 0 && q.channel[i].ackID !in q.inFlight && Small(q.channel[i].message))
    && (forall k :: k in q.inFlight ==>
      q.inFlight[k].ackID == k && q.inFlight[k].deadline != 0 && Small(q.inFlight[k].message))
  }

  lemma SmallIs(m: Message)
    ensures Small(m) <==> WithinLimits(m)
  {
  }

  /** This is the invariant of a queue. */
  lemma TidyIs(q: Queue)
    ensures Tidy(q) <==> WellFormed(q)
  {
    hide WithinLimits, Small;
    forall m ensures Small(m) <==> WithinLimits(m) {
      SmallIs(m);
    }
    if WellFormed(q) {
      forall i | 0 <= i < |q.channel| ensures q.channel[i].ackID !in q.inFlight {
        assert q.channel[i].ackID in IdSet(q.channel);
      }
    }
  }

  // ----- Taking back

  /** The leases whose deadline has not passed. */
  function Current(q: Queue, now: int): map<string, Pending> {
    map k | k in q.inFlight && q.inFlight[k].deadline >= now :: q.inFlight[k]
  }

  /** The channel, and behind it the leases whose deadline has passed, without deadline, as far as they fit. */
  ghost predicate TakenBack(q: Queue, now: int, c: seq<Pending>) {
    && q.channel <= c && |c| <= q.capacity
    && (forall i, j :: 0 <= i < j < |c| ==> c[i].ackID != c[j].ackID)
    && (forall i :: |q.channel| <= i < |c| ==>
      var id := c[i].ackID;
      id in q.inFlight && q.inFlight[id].deadline < now && c[i] == q.inFlight[id].(deadline := 0))
    && (|c| == q.capacity || forall k :: k in q.inFlight && q.inFlight[k].deadline < now ==> HasId(c, k))
  }

  predicate HasId(c: seq<Pending>, id: string) {
    exists i :: 0 <= i < |c| && c[i].ackID == id
  }

  lemma CurrentIs(q: Queue, now: int)
    requires Leased(q.inFlight)
    ensures q.inFlight - ExpiredKeys(q.inFlight, now) == Current(q, now)
    ensures forall k :: k in ExpiredKeys(q.inFlight, now) <==> k in q.inFlight && q.inFlight[k].deadline < now
  {
    hide WithinLimits;
    assert (q.inFlight - ExpiredKeys(q.inFlight, now)).Keys == Current(q, now).Keys;
  }

  lemma RequeueTakesBack(q: Queue, now: int, order: seq<string>)
    requires WellFormed(q) && Enumerates(order, q.inFlight.Keys)
    ensures TakenBack(q, now, Requeue(q, now, order).channel)
    ensures var q1 := Requeue(q, now, order);
      WellFormed(q1) && q1.inFlight == Current(q, now) && q1.capacity == q.capacity
  {
    hide Requeue, Released, ExpiredKeys, Enumerates, Waiting, WithinLimits, IdSet, Current, HasId;
    RequeueKeeps(q, now, order);
    CurrentIs(q, now);
    var ps, c := Released(q.inFlight, now, order), Requeue(q, now, order).channel;
    forall i | |q.channel| <= i < |c|
      ensures var id := c[i].ackID;
        id in q.inFlight && q.inFlight[id].deadline < now && c[i] == q.inFlight[id].(deadline := 0)
    {
      IdOf(ps, i - |q.channel|);
    }
    if |c| < q.capacity {
      assert ps[..|ps|] == ps;
      forall k | k in q.inFlight && q.inFlight[k].deadline < now ensures HasId(c, k) {
        var i := RecordWithId(ps, k);
        IdAt(c, |q.channel| + i, k);
      }
    }
  }

  lemma IdOf(ps: seq<Pending>, i: nat)
    requires i < |ps|
    ensures ps[i].ackID in IdSet(ps)
  {
  }

  lemma IdAt(c: seq<Pending>, i: nat, id: string)
    requires i < |c| && c[i].ackID == id
    ensures HasId(c, id)
  {
  }

  // ----- Choosing

  function Limit(max: int): nat {
    if max <= 0 then 0 else max
  }

  /**
   May the j-th message be handed out? On an ordered subscription only if no message of its ordering key is
   leased or waits before it.
   */
  ghost predicate MayGo(c: seq<Pending>, j: nat, leased: map<string, Pending>, ordered: bool)
    requires j < |c|
  {
    var key := c[j].message.orderingKey;
    !ordered || key == "" || (
      && (forall k :: k in leased ==> leased[k].message.orderingKey != key)
      && (forall i :: 0 <= i < j ==> c[i].message.orderingKey != key))
  }

  /** The first `max` messages that may go, or all of them. */
  ghost predicate Chosen(c: seq<Pending>, leased: map<string, Pending>, at: seq<nat>, max: int, ordered: bool) {
    && Increasing(at, |c|) && |at| <= Limit(max)
    && (forall j :: 0 <= j < |c| && j in at ==> MayGo(c, j, leased, ordered))
    && (forall j :: 0 <= j < |c| && j !in at && MayGo(c, j, leased, ordered) ==>
      |at| == Limit(max) && forall i :: 0 <= i < |at| ==> at[i] < j)
  }

  lemma EligibleIs(c: seq<Pending>, j: nat, leased: map<string, Pending>, ordered: bool)
    requires j < |c|
    ensures Eligible(c, j, LeasedKeys(leased), ordered) <==> MayGo(c, j, leased, ordered)
  {
    var key := c[j].message.orderingKey;
    if k :| k in leased && leased[k].message.orderingKey == key && key != "" {
      assert leased[k].Key() in LeasedKeys(leased);
    }
  }

  // ----- Waiting on

  /** Up to here the channel has been gone through. */
  function Cut(c: seq<Pending>, at: seq<nat>, max: int): nat {
    if |at| < Limit(max) then |c| else if at == [] then 0 else at[|at| - 1] + 1
  }

  /** The other messages wait on in their order, those behind the cut first. */
  ghost predicate WaitOn(c: seq<Pending>, at: seq<nat>, cut: nat, rest: seq<nat>) {
    && (forall i :: 0 <= i < |rest| ==> rest[i] < |c|)
    && (forall j :: 0 <= j < |c| ==> (j in rest <==> j !in at))
    && (forall i, j :: 0 <= i < j < |rest| ==>
      if (rest[i] < cut) == (rest[j] < cut) then rest[i] < rest[j] else rest[j] < cut)
  }

  // ----- The law

  /** Go's `++` on 32 bits. */
  function OneMore(attempt: int): int {
    if attempt == 2147483647 then -2147483648 else attempt + 1
  }

  /** The chosen messages are leased until this deadline, each counted once more. */
  ghost predicate LeasedUntil(c: seq<Pending>, at: seq<nat>, deadline: int, batch: seq<Pending>) {
    && |batch| == |at|
    && forall i :: 0 <= i < |at| ==>
      at[i] < |c| && batch[i] == Pending(c[at[i]].message, c[at[i]].ackID, deadline, OneMore(c[at[i]].attempt))
  }

  /** In flight are the current leases, as they were, and the batch. */
  ghost predicate InFlight(after: map<string, Pending>, leased: map<string, Pending>, batch: seq<Pending>) {
    && (forall k :: k in after <==> k in leased || HasId(batch, k))
    && (forall k :: k in leased ==> k in after && after[k] == leased[k])
    && (forall i :: 0 <= i < |batch| ==> batch[i].ackID in after && after[batch[i].ackID] == batch[i])
  }

  ghost predicate HandsOutBy(q: Queue, q': Queue, now: int, max: int, wait: int, ordered: bool, batch: seq<Pending>,
      c: seq<Pending>, at: seq<nat>, rest: seq<nat>)
  {
    && TakenBack(q, now, c)
    && Chosen(c, Current(q, now), at, max, ordered)
    && LeasedUntil(c, at, now + wait, batch)
    && InFlight(q'.inFlight, Current(q, now), batch)
    && WaitOn(c, at, Cut(c, at, max), rest)
    && |q'.channel| == |rest| && (forall i :: 0 <= i < |rest| ==> q'.channel[i] == c[rest[i]])
    && q'.capacity == q.capacity
  }

  /** What a Pull of at most `max` messages with this ack deadline does to a queue. */
  ghost predicate HandsOut(q: Queue, q': Queue, now: int, max: int, wait: int, ordered: bool, batch: seq<Pending>) {
    exists c, at, rest :: HandsOutBy(q, q', now, max, wait, ordered, batch, c, at, rest)
  }

  // ----- The loop of a Pull

  lemma PickedPositions(c: seq<Pending>, n: nat, busy: set<string>, ordered: bool)
    returns (at: seq<nat>, skipped: seq<nat>)
    requires n <= |c|
    ensures Picks(c[..n], Selected(c[..n], busy, ordered), at) && Picks(c[..n], Skipped(c[..n], busy, ordered), skipped)
    ensures forall j :: 0 <= j < n ==> (j in at <==> Eligible(c, j, busy, ordered)) && (j in skipped <==> j !in at)
  {
    hide Selected, Skipped, Eligible, Picks;
    var ps := c[..n];
    var takes := seq(n, i requires 0 <= i < n => Eligible(c, i, busy, ordered));
    var leaves := seq(n, i requires 0 <= i < n => !Eligible(c, i, busy, ordered));
    var outs := seq(n + 1, i requires 0 <= i <= n => Selected(c[..i], busy, ordered));
    var others := seq(n + 1, i requires 0 <= i <= n => Skipped(c[..i], busy, ordered));
    NothingPicked(c, busy, ordered);
    forall i | 0 <= i < n
      ensures outs[i + 1] == outs[i] + if takes[i] then [ps[i]] else []
      ensures others[i + 1] == others[i] + if leaves[i] then [ps[i]] else []
    {
      SelectedStep(c, i, busy, ordered);
    }
    at := TakenInOrder(ps, outs, takes);
    skipped := TakenInOrder(ps, others, leaves);
  }

  lemma NothingPicked(c: seq<Pending>, busy: set<string>, ordered: bool)
    ensures Selected(c[..0], busy, ordered) == [] && Skipped(c[..0], busy, ordered) == []
  {
  }

  /** How far the loop gets. */
  ghost predicate GoesTo(c: seq<Pending>, n: nat, at: seq<nat>, busy: set<string>, ordered: bool, max: int) {
    && n <= |c| && Increasing(at, n) && |at| <= Limit(max) && (n < |c| ==> |at| >= max)
    && (forall j :: 0 <= j < n ==> (j in at <==> Eligible(c, j, busy, ordered)))
    && (n > 0 ==> max > 0 && (n - 1 in at || |at| < max))
  }

  lemma LoopGoes(c: seq<Pending>, n: nat, at: seq<nat>, busy: set<string>, ordered: bool, max: int)
    requires Waiting(c) && n == Examined(c, 0, busy, ordered, max)
    requires Increasing(at, n) && |at| == |Selected(c[..n], busy, ordered)|
    requires forall j :: 0 <= j < n ==> (j in at <==> Eligible(c, j, busy, ordered))
    ensures GoesTo(c, n, at, busy, ordered, max)
  {
    hide Selected, Eligible, Waiting, WithinLimits, Increasing, StopsAt;
    NotTooMany(c, n, busy, ordered, max);
    if n < |c| {
      NothingUnreadable(c, n, busy, ordered, max);
    }
    if n > 0 {
      LastTurn(c, n, busy, ordered, max);
    }
  }

  lemma LastTurn(c: seq<Pending>, n: nat, busy: set<string>, ordered: bool, max: int)
    requires 0 < n <= |c| && !StopsAt(c, n - 1, busy, ordered, max)
    ensures max > 0 && (Eligible(c, n - 1, busy, ordered) || |Selected(c[..n], busy, ordered)| < max)
  {
    hide Selected, Eligible, WithinLimits;
    SelectedStep(c, n - 1, busy, ordered);
  }

  lemma CutIs(c: seq<Pending>, n: nat, at: seq<nat>, busy: set<string>, ordered: bool, max: int)
    requires GoesTo(c, n, at, busy, ordered, max)
    ensures Cut(c, at, max) == n
  {
    hide Eligible;
    if n > 0 && n - 1 in at {
      var i :| 0 <= i < |at| && at[i] == n - 1;
      assert at[i] <= at[|at| - 1];
    }
  }

  lemma LoopChooses(c: seq<Pending>, n: nat, at: seq<nat>, leased: map<string, Pending>, ordered: bool, max: int)
    requires GoesTo(c, n, at, LeasedKeys(leased), ordered, max)
    ensures Chosen(c, leased, at, max, ordered)
  {
    hide Eligible, LeasedKeys, MayGo;
    forall j | 0 <= j < |c| ensures Eligible(c, j, LeasedKeys(leased), ordered) <==> MayGo(c, j, leased, ordered) {
      EligibleIs(c, j, leased, ordered);
    }
  }

  /** The unexamined positions, then the skipped ones. */
  lemma RestIs(c: seq<Pending>, n: nat, at: seq<nat>, skipped: seq<nat>, others: seq<Pending>) returns (rest: seq<nat>)
    requires n <= |c| && Picks(c[..n], others, skipped) && Increasing(at, n)
    requires forall j :: 0 <= j < n ==> (j in skipped <==> j !in at)
    ensures WaitOn(c, at, n, rest) && |rest| == |c| - n + |others|
    ensures forall i :: 0 <= i < |rest| ==> rest[i] < |c| && (c[n..] + others)[i] == c[rest[i]]
  {
    var tail := seq(|c| - n, i requires 0 <= i < |c| - n => n + i);
    rest := tail + skipped;
    forall j | 0 <= j < |c| ensures j in rest <==> j !in at {
      if j >= n {
        assert tail[j - n] == j;
      }
    }
  }

  lemma AllInFlight(inFlight: map<string, Pending>, batch: seq<Pending>)
    requires Distinct(batch) && forall k :: k in inFlight ==> !HasId(batch, k)
    ensures InFlight(Store(inFlight, batch), inFlight, batch)
  {
    hide Distinct, Store;
    StoreIs(inFlight, batch);
    forall k ensures k in IdSet(batch) <==> HasId(batch, k) {
    }
  }

  lemma LeasedAtPositions(c: seq<Pending>, n: nat, at: seq<nat>, chosen: seq<Pending>, deadline: int)
    requires n <= |c| && Picks(c[..n], chosen, at)
    ensures LeasedUntil(c, at, deadline, Leases(chosen, deadline))
  {
  }

  lemma LeaseChooses(q: Queue, max: int, deadline: int, ordered: bool) returns (at: seq<nat>, rest: seq<nat>)
    requires WellFormed(q) && deadline != NO_DEADLINE
    ensures var (q', r) := LeaseFrom(q, max, deadline, ordered);
      && r.Success? && Chosen(q.channel, q.inFlight, at, max, ordered)
      && LeasedUntil(q.channel, at, deadline, r.value) && InFlight(q'.inFlight, q.inFlight, r.value)
      && WaitOn(q.channel, at, Cut(q.channel, at, max), rest)
      && |q'.channel| == |rest| && (forall i :: 0 <= i < |rest| ==> q'.channel[i] == q.channel[rest[i]])
      && q'.capacity == q.capacity
  {
    hide Selected, Skipped, Eligible, WithinLimits, Store, LeasedKeys, LeaseFrom, StopsAt, Distinct, Waiting, Leased,
      IdSet, Chosen, LeasedUntil, InFlight, WaitOn, Cut, GoesTo, Leases;
    var c, busy := q.channel, LeasedKeys(q.inFlight);
    var n := Examined(c, 0, busy, ordered, max);
    PullTakesFirstEligible(q, max, deadline, ordered);
    var skipped;
    at, skipped := PickedPositions(c, n, busy, ordered);
    LoopGoes(c, n, at, busy, ordered, max);
    CutIs(c, n, at, busy, ordered, max);
    LoopChooses(c, n, at, q.inFlight, ordered, max);
    LeasedAtPositions(c, n, at, Selected(c[..n], busy, ordered), deadline);
    rest := RestIs(c, n, at, skipped, Skipped(c[..n], busy, ordered));
    LeaseKeeps(q, max, deadline, ordered);
    var batch := LeaseFrom(q, max, deadline, ordered).1.value;
    NotHeldYet(q, batch);
    AllInFlight(q.inFlight, batch);
  }

  lemma NotHeldYet(q: Queue, batch: seq<Pending>)
    requires WellFormed(q) && IdSet(batch) <= IdSet(q.channel)
    ensures forall k :: k in q.inFlight ==> !HasId(batch, k)
  {
    hide Distinct, Waiting, Leased;
    forall k ensures k in IdSet(batch) <==> HasId(batch, k) {
    }
  }

  /**
   The law of a Pull, for every maximum, ordering and order of the visit: a tidy queue stays tidy, the
   Pull succeeds, and it hands out what `HandsOut` says.
   */
  lemma PullHandsOut(q: Queue, now: int, max: int, wait: int, ordered: bool, order: seq<string>)
    requires Tidy(q) && ClockRuns(now, wait) && Enumerates(order, q.inFlight.Keys)
    ensures var (q', r) := Pull(q, now, max, wait, ordered, order);
      r.Success? && Tidy(q') && HandsOut(q, q', now, max, wait, ordered, r.value)
  {
    hide Tidy, WellFormed, LeaseFrom, Requeue, Enumerates, TakenBack, Chosen, LeasedUntil, InFlight, WaitOn, Cut,
      Current, IdSet, Live, Holds, Distinct;
    TidyIs(q);
    RequeueTakesBack(q, now, order);
    var q1 := Requeue(q, now, order);
    var at, rest := LeaseChooses(q1, max, now + wait, ordered);
    LeaseKeeps(q1, max, now + wait, ordered);
    var (q', r) := Pull(q, now, max, wait, ordered, order);
    TidyIs(q');
    assert HandsOutBy(q, q', now, max, wait, ordered, r.value, q1.channel, at, rest);
  }

  // ----- Consequences

  predicate MadeFrom(p: Pending, before: Pending) {
    p.message == before.message && p.ackID == before.ackID && p.attempt == OneMore(before.attempt)
  }

  /**
   Each message handed out waited or was leased with a passed deadline. It keeps its message and ack ID,
   is counted once more, and is leased until the ack deadline from now: in the answer and in flight.
   */
  lemma HandedOutAre(q: Queue, q': Queue, now: int, max: int, wait: int, ordered: bool, batch: seq<Pending>, i: nat)
    requires HandsOut(q, q', now, max, wait, ordered, batch) && i < |batch|
    ensures batch[i].deadline == now + wait && batch[i].ackID in q'.inFlight && q'.inFlight[batch[i].ackID] == batch[i]
    ensures
      || (exists j :: 0 <= j < |q.channel| && MadeFrom(batch[i], q.channel[j]))
      || (var id := batch[i].ackID;
          id in q.inFlight && q.inFlight[id].deadline < now && MadeFrom(batch[i], q.inFlight[id]))
  {
    hide Chosen, WaitOn, Cut, Current, HasId, OneMore;
    var c, at, rest :| HandsOutBy(q, q', now, max, wait, ordered, batch, c, at, rest);
    var j := at[i];
    if j < |q.channel| {
      assert c[j] == q.channel[j] && MadeFrom(batch[i], q.channel[j]);
    } else {
      assert MadeFrom(batch[i], q.inFlight[batch[i].ackID]);
    }
  }

  lemma {:induction false} AtLeastPosition(at: seq<nat>, n: nat, i: nat)
    requires Increasing(at, n) && i < |at|
    ensures i <= at[i] < n
  {
    if i > 0 {
      AtLeastPosition(at, n, i - 1);
    }
  }

  lemma {:induction false} FirstPositions(at: seq<nat>, n: nat, i: nat)
    requires Increasing(at, n) && i < |at| && forall j :: 0 <= j < |at| ==> j in at
    ensures forall j :: 0 <= j <= i ==> at[j] == j
  {
    if i > 0 {
      FirstPositions(at, n, i - 1);
    }
    AtLeastPosition(at, n, i);
    assert i in at;
    var p :| 0 <= p < |at| && at[p] == i;
    assert p >= i ==> at[i] <= at[p];
  }

  /** All may go, so the first ones do. */
  lemma AllChosen(c: seq<Pending>, leased: map<string, Pending>, at: seq<nat>, max: int)
    requires Chosen(c, leased, at, max, false)
    ensures |at| == if |c| < Limit(max) then |c| else Limit(max)
    ensures forall i :: 0 <= i < |at| ==> at[i] == i
  {
    var m := |at|;
    if m > 0 {
      AtLeastPosition(at, |c|, m - 1);
      forall j | 0 <= j < m ensures j in at {
        assert MayGo(c, j, leased, false);
      }
      FirstPositions(at, |c|, m - 1);
    }
    if m < |c| {
      assert m !in at && MayGo(c, m, leased, false);
    }
  }

  /**
   Without ordering the answer is the first `max` messages of the channel and the leases taken back, or all
   of them.
   */
  lemma UnorderedHandsOut(q: Queue, q': Queue, now: int, max: int, wait: int, batch: seq<Pending>)
    returns (c: seq<Pending>)
    requires HandsOut(q, q', now, max, wait, false, batch)
    ensures TakenBack(q, now, c) && |batch| == (if |c| < Limit(max) then |c| else Limit(max))
    ensures forall i :: 0 <= i < |batch| ==>
      batch[i] == Pending(c[i].message, c[i].ackID, now + wait, OneMore(c[i].attempt))
  {
    hide TakenBack, InFlight, WaitOn, Cut, Current, OneMore, Chosen;
    var c', at, rest :| HandsOutBy(q, q', now, max, wait, false, batch, c', at, rest);
    c := c';
    AllChosen(c, Current(q, now), at, max);
  }

  /**
   The message that waits first is handed out by a Pull of at least one, unless its ordering key is leased:
   no message that can be published is too large for it.
   */
  lemma HeadIsHandedOut(q: Queue, now: int, max: int, wait: int, ordered: bool, order: seq<string>)
    requires Tidy(q) && ClockRuns(now, wait) && Enumerates(order, q.inFlight.Keys) && max > 0 && q.channel != []
    requires ordered && q.channel[0].message.orderingKey != "" ==> forall k :: k in q.inFlight ==>
      q.inFlight[k].deadline < now || q.inFlight[k].message.orderingKey != q.channel[0].message.orderingKey
    ensures var r := Pull(q, now, max, wait, ordered, order).1;
      && r.Success? && r.value != [] && r.value[0].ackID == q.channel[0].ackID
      && r.value[0].message == q.channel[0].message && r.value[0].deadline == now + wait
  {
    hide Tidy, Pull, TakenBack, InFlight, WaitOn, Cut, Enumerates;
    PullHandsOut(q, now, max, wait, ordered, order);
    var (q', r) := Pull(q, now, max, wait, ordered, order);
    var c, at, rest :| HandsOutBy(q, q', now, max, wait, ordered, r.value, c, at, rest);
    HeadStays(q, now, c);
    assert MayGo(c, 0, Current(q, now), ordered);
    FirstChosen(c, Current(q, now), at, max, ordered);
  }

  lemma HeadStays(q: Queue, now: int, c: seq<Pending>)
    requires TakenBack(q, now, c) && q.channel != []
    ensures c != [] && c[0] == q.channel[0]
  {
  }

  lemma FirstChosen(c: seq<Pending>, leased: map<string, Pending>, at: seq<nat>, max: int, ordered: bool)
    requires Chosen(c, leased, at, max, ordered) && max > 0 && c != [] && MayGo(c, 0, leased, ordered)
    ensures at != [] && at[0] == 0
  {
    hide MayGo;
    if 0 in at {
      var i :| 0 <= i < |at| && at[i] == 0;
      assert at[0] <= at[i];
    }
  }

  // ----- Held until the deadline

  /** The message is not waiting, and if it is leased, then until this time. */
  ghost predicate HeldUntil(q: Queue, id: string, until: int) {
    && (forall i :: 0 <= i < |q.channel| ==> q.channel[i].ackID != id)
    && (id in q.inFlight ==> q.inFlight[id].deadline == until)
  }

  /** The event neither sets the deadline of this lease nor is a Pull after its deadline. */
  predicate LeavesLease(e: Event, id: string, until: int) {
    match e
    case Extended(ids, _, _) => id !in ids
    case Pulled(now, _, _, _, _) => now <= until
    case _ => true
  }

  lemma HeldIsNotWaiting(q: Queue, id: string, until: int)
    ensures HeldUntil(q, id, until) <==>
      id !in IdSet(q.channel) && (id in q.inFlight ==> q.inFlight[id].deadline == until)
  {
  }

  lemma PullKeepsHeld(s: State, e: Event, id: string, until: int)
    requires Inv(s) && CanHappen(s, e) && e.Pulled? && LeavesLease(e, id, until) && HeldUntil(s.queue, id, until)
    ensures HeldUntil(Apply(s.queue, e), id, until) && id !in IdSet(Delivered(s.queue, e))
  {
    hide IdSet, Distinct, Waiting, Leased, Requeue, LeaseFrom, Enumerates, Released, Live, HeldUntil, Back, Holds;
    var q, q1 := s.queue, Requeue(s.queue, e.now, e.order);
    HeldIsNotWaiting(q, id, until);
    PullMoves(q, e.now, e.max, e.wait, e.ordered, e.order);
    RequeueKeeps(q, e.now, e.order);
    LeaseKeeps(q1, e.max, e.now + e.wait, e.ordered);
    HeldIsNotWaiting(Apply(q, e), id, until);
  }

  lemma OthersKeepHeld(s: State, e: Event, id: string, until: int)
    requires Inv(s) && CanHappen(s, e) && !e.Pulled? && LeavesLease(e, id, until)
    requires HeldUntil(s.queue, id, until) && id in s.issued
    ensures HeldUntil(Apply(s.queue, e), id, until) && Delivered(s.queue, e) == []
  {
    hide WithinLimits, Distinct, Waiting, Leased;
    if e.Enqueued? || e.Replaced? {
      NewAreOthers(s.issued, NewCopies(e), id);
    }
  }

  lemma NewAreOthers(issued: set<string>, ps: seq<Pending>, id: string)
    requires FreshCopies(issued, ps) && id in issued
    ensures forall i :: 0 <= i < |ps| ==> ps[i].ackID != id
  {
    hide Distinct, IsNew;
    forall i | 0 <= i < |ps| ensures ps[i].ackID != id {
      IdOf(ps, i);
    }
  }

  lemma HeldStep(s: State, e: Event, id: string, until: int)
    requires Inv(s) && CanHappen(s, e) && LeavesLease(e, id, until) && HeldUntil(s.queue, id, until) && id in s.issued
    ensures HeldUntil(Apply(s.queue, e), id, until) && id !in IdSet(Delivered(s.queue, e))
  {
    hide Inv, CanHappen, Apply, IdSet, Delivered, HeldUntil, LeavesLease;
    NoCopies();
    if e.Pulled? {
      PullKeepsHeld(s, e, id, until);
    } else {
      OthersKeepHeld(s, e, id, until);
    }
  }

  lemma {:induction false} HeldAlways(s: State, es: seq<Event>, id: string, until: int)
    requires Inv(s) && Legal(s, es) && id in s.issued && HeldUntil(s.queue, id, until)
    requires forall i :: 0 <= i < |es| ==> LeavesLease(es[i], id, until)
    ensures HeldUntil(Run(s, es).queue, id, until) && id in Run(s, es).issued
  {
    hide Inv, CanHappen, Apply, IdSet, HeldUntil, Balanced, LeavesLease;
    if es != [] {
      var n := |es| - 1;
      HeldAlways(s, es[..n], id, until);
      InvAlways(s, es[..n]);
      HeldStep(Run(s, es[..n]), es[n], id, until);
    }
  }
}
