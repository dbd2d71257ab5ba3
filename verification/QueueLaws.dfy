/**
 What one operation of a queue does to its records: which ack IDs it keeps, and which messages a
 Pull chooses. The state invariant of a queue is here as well.
 */
module QueueLaws {
  import opened QueueModel

  function IdSet(ps: seq<Pending>): set<string> {
    set i | 0 <= i < |ps| :: ps[i].ackID
  }

  ghost predicate Distinct(ps: seq<Pending>) {
    forall i, j :: 0 <= i < j < |ps| ==> ps[i].ackID != ps[j].ackID
  }

  /** The ack IDs of all records that a queue holds. */
  function Live(q: Queue): set<string> {
    IdSet(q.channel) + q.inFlight.Keys
  }

  /** Waiting records have no deadline, and could be copied out of the store. */
  ghost predicate Waiting(ps: seq<Pending>) {
    forall i :: 0 <= i < |ps| ==> ps[i].deadline == NO_DEADLINE && WithinLimits(ps[i].message)
  }

  /** Leased records have a deadline and are found under their own ack ID. */
  ghost predicate Leased(inFlight: map<string, Pending>) {
    forall k :: k in inFlight ==>
      inFlight[k].ackID == k && inFlight[k].deadline != NO_DEADLINE && WithinLimits(inFlight[k].message)
  }

  /** Every record is held once, waiting or leased. */
  ghost predicate WellFormed(q: Queue) {
    && |q.channel| <= q.capacity && Distinct(q.channel) && Waiting(q.channel) && Leased(q.inFlight)
    && IdSet(q.channel) !! q.inFlight.Keys
  }

  // ----- Lists of records

  lemma IdSetConcat(a: seq<Pending>, b: seq<Pending>)
    ensures IdSet(a + b) == IdSet(a) + IdSet(b)
    ensures Distinct(a + b) <==> Distinct(a) && Distinct(b) && IdSet(a) !! IdSet(b)
    ensures Waiting(a + b) <==> Waiting(a) && Waiting(b)
  {
    var c := a + b;
    forall i | 0 <= i < |b| ensures b[i].ackID in IdSet(c) {
      assert c[|a| + i] == b[i];
    }
    forall i | 0 <= i < |a| ensures a[i].ackID in IdSet(c) {
      assert c[i] == a[i];
    }
    if Distinct(c) {
      forall i, j | 0 <= i < j < |b| ensures b[i].ackID != b[j].ackID {
        assert c[|a| + i] == b[i] && c[|a| + j] == b[j];
      }
      forall i, j | 0 <= i < |a| && 0 <= j < |b| ensures a[i].ackID != b[j].ackID {
        assert c[i] == a[i] && c[|a| + j] == b[j];
      }
      forall i, j | 0 <= i < j < |a| ensures a[i].ackID != a[j].ackID {
        assert c[i] == a[i] && c[j] == a[j];
      }
    }
    if Waiting(c) {
      forall i | 0 <= i < |b| ensures b[i].deadline == NO_DEADLINE && WithinLimits(b[i].message) {
        assert c[|a| + i] == b[i];
      }
      forall i | 0 <= i < |a| ensures a[i].deadline == NO_DEADLINE && WithinLimits(a[i].message) {
        assert c[i] == a[i];
      }
    }
  }

  lemma IdSetOne(p: Pending)
    ensures IdSet([p]) == {p.ackID} && Distinct([p]) && IdSet([]) == {} && Distinct([])
    ensures Waiting([p]) <==> p.deadline == NO_DEADLINE && WithinLimits(p.message)
  {
    assert [p][0].ackID in IdSet([p]);
    assert Waiting([p]) ==> [p][0].deadline == NO_DEADLINE;
  }

  lemma SplitAt(c: seq<Pending>, n: nat)
    requires n <= |c|
    ensures IdSet(c) == IdSet(c[..n]) + IdSet(c[n..])
    ensures Distinct(c) <==> Distinct(c[..n]) && Distinct(c[n..]) && IdSet(c[..n]) !! IdSet(c[n..])
    ensures Waiting(c) <==> Waiting(c[..n]) && Waiting(c[n..])
  {
    hide IdSet, Distinct, Waiting;
    assert c == c[..n] + c[n..];
    IdSetConcat(c[..n], c[n..]);
  }

  /** A list of records is its first ones and its last. */
  lemma SplitLast(ps: seq<Pending>)
    requires ps != []
    ensures var n := |ps| - 1;
      && IdSet(ps) == IdSet(ps[..n]) + {ps[n].ackID}
      && (Distinct(ps) <==> Distinct(ps[..n]) && ps[n].ackID !in IdSet(ps[..n]))
      && (Waiting(ps) <==> Waiting(ps[..n]) && ps[n].deadline == NO_DEADLINE && WithinLimits(ps[n].message))
  {
    hide IdSet, Distinct, Waiting;
    var n := |ps| - 1;
    SplitAt(ps, n);
    IdSetOne(ps[n]);
    assert ps[n..] == [ps[n]];
  }

  /** A set of ack IDs has as many members as there are records under them. */
  lemma {:induction false} Count(ps: seq<Pending>)
    requires Distinct(ps)
    ensures |IdSet(ps)| == |ps|
  {
    hide Distinct;
    if ps != [] {
      var n := |ps| - 1;
      SplitLast(ps);
      Count(ps[..n]);
    }
  }

  // ----- Expiry

  /** Records as they were leased, except for the deadline. */
  ghost predicate Back(ps: seq<Pending>, inFlight: map<string, Pending>) {
    forall i :: 0 <= i < |ps| ==> ps[i].ackID in inFlight && ps[i] == inFlight[ps[i].ackID].(deadline := NO_DEADLINE)
  }

  /** The messages taken back are the expired ones, each once, and they carry no deadline any more. */
  lemma {:induction false} ReleasedAre(inFlight: map<string, Pending>, now: int, order: seq<string>)
    requires forall i, j :: 0 <= i < j < |order| ==> order[i] != order[j]
    requires Leased(inFlight)
    ensures var ps := Released(inFlight, now, order);
      && Distinct(ps) && Waiting(ps) && (forall k :: k in IdSet(ps) <==> k in order && k in ExpiredKeys(inFlight, now))
      && Back(ps, inFlight)
  {
    hide IdSet, WithinLimits;
    IdSetOne(Pending(Message("", "", map[], "", 0), "", 0, 0));
    if order != [] {
      var n := |order| - 1;
      var k := order[n];
      var ps := Released(inFlight, now, order[..n]);
      ReleasedAre(inFlight, now, order[..n]);
      assert order == order[..n] + [k];
      if k in inFlight && Expired(inFlight[k], now) {
        var p := inFlight[k].(deadline := NO_DEADLINE);
        IdSetOne(p);
        IdSetConcat(ps, [p]);
      } else {
        assert ps + [] == ps;
      }
    }
  }

  lemma ExpiredAreLeased(inFlight: map<string, Pending>, now: int)
    ensures ExpiredKeys(inFlight, now) <= inFlight.Keys
  {
  }

  lemma LeasedMinus(m: map<string, Pending>, ks: set<string>)
    requires Leased(m)
    ensures Leased(m - ks)
  {
  }

  lemma KeysMinus(m: map<string, Pending>, ks: set<string>)
    requires ks <= m.Keys
    ensures (m - ks).Keys == m.Keys - ks && |(m - ks).Keys| == |m.Keys| - |ks|
  {
    assert (m - ks).Keys == m.Keys - ks;
  }

  lemma ReleasedIds(inFlight: map<string, Pending>, now: int, order: seq<string>)
    requires Leased(inFlight) && Enumerates(order, inFlight.Keys)
    ensures var ps := Released(inFlight, now, order);
      && |ps| == |ExpiredKeys(inFlight, now)| && IdSet(ps) == ExpiredKeys(inFlight, now)
      && Distinct(ps) && Waiting(ps) && Back(ps, inFlight)
  {
    hide IdSet, Distinct, Waiting, Leased, Released, Expired, Back;
    var ps := Released(inFlight, now, order);
    ReleasedAre(inFlight, now, order);
    assert IdSet(ps) == ExpiredKeys(inFlight, now);
    Count(ps);
  }

  /**
   Taking expired leases back keeps the queue well formed and puts what fits, in the order of the
   visit, at the tail of the channel.
   */
  lemma RequeueKeeps(q: Queue, now: int, order: seq<string>)
    requires WellFormed(q) && Enumerates(order, q.inFlight.Keys)
    ensures var q' := Requeue(q, now, order);
      var expired, ps := ExpiredKeys(q.inFlight, now), Released(q.inFlight, now, order);
      && WellFormed(q') && q'.capacity == q.capacity
      && expired <= q.inFlight.Keys && q'.inFlight == q.inFlight - expired
      && |ps| == |expired| && IdSet(ps) == expired && Distinct(ps) && Back(ps, q.inFlight)
      && q'.channel == q.channel + ps[..q.Room(|ps|)]
      && IdSet(q'.channel) == IdSet(q.channel) + IdSet(ps[..q.Room(|ps|)])
  {
    hide IdSet, Distinct, Waiting, Leased, Released, ExpiredKeys, Enumerates, Back;
    LeasedMinus(q.inFlight, ExpiredKeys(q.inFlight, now));
    var ps := Released(q.inFlight, now, order);
    ReleasedIds(q.inFlight, now, order);
    ExpiredAreLeased(q.inFlight, now);
    SplitAt(ps, q.Room(|ps|));
    IdSetConcat(q.channel, ps[..q.Room(|ps|)]);
  }

  function Overflow(q: Queue, now: int): int {
    |q.channel| + |ExpiredKeys(q.inFlight, now)| - q.capacity
  }

  /**
   It keeps every record as long as the channel has room for the expired ones. Without room it
   loses exactly as many as do not fit.
   */
  lemma RequeueLosesOverflow(q: Queue, now: int, order: seq<string>)
    requires WellFormed(q) && Enumerates(order, q.inFlight.Keys)
    ensures var q' := Requeue(q, now, order);
      && Live(q') <= Live(q)
      && |Live(q)| - |Live(q')| == (if Overflow(q, now) > 0 then Overflow(q, now) else 0)
      && (Live(q') == Live(q) <==> Overflow(q, now) <= 0)
  {
    hide Requeue, Released, Expired, ExpiredKeys, IdSet, Distinct, WellFormed, Live, Enumerates, Back;
    RequeueLeaves(q, now, order);
    var q' := Requeue(q, now, order);
    RequeueSizes(q, now, order);
    if Live(q') != Live(q) {
      ProperSubsetSize(Live(q'), Live(q));
    }
  }

  lemma ProperSubsetSize(a: set<string>, b: set<string>)
    requires a <= b && a != b
    ensures |a| < |b|
  {
    assert b == a + (b - a);
  }

  lemma RequeueLeaves(q: Queue, now: int, order: seq<string>)
    requires WellFormed(q) && Enumerates(order, q.inFlight.Keys)
    ensures Live(Requeue(q, now, order)) <= Live(q)
  {
    hide Requeue, Released, Expired, ExpiredKeys, IdSet, Distinct, Waiting, Leased, Enumerates, Back;
    var ps := Released(q.inFlight, now, order);
    RequeueKeeps(q, now, order);
    SplitAt(ps, q.Room(|ps|));
  }

  lemma RequeueSizes(q: Queue, now: int, order: seq<string>)
    requires WellFormed(q) && Enumerates(order, q.inFlight.Keys)
    ensures |Live(q)| - |Live(Requeue(q, now, order))| == if Overflow(q, now) > 0 then Overflow(q, now) else 0
  {
    hide Requeue, Released, Expired, ExpiredKeys, IdSet, Distinct, Waiting, Leased, Enumerates, Back, Live;
    RequeueKeeps(q, now, order);
    LiveCount(q);
    LiveCount(Requeue(q, now, order));
    KeysMinus(q.inFlight, ExpiredKeys(q.inFlight, now));
  }

  lemma LiveCount(q: Queue)
    requires WellFormed(q)
    ensures |Live(q)| == |q.channel| + |q.inFlight.Keys|
  {
    hide IdSet, Distinct, Waiting, Leased;
    Count(q.channel);
  }

  // ----- Choice

  /** Selected and skipped messages are all the messages there are, each once. */
  lemma {:induction false} Partition(c: seq<Pending>, busy: set<string>, ordered: bool)
    requires Distinct(c) && Waiting(c)
    ensures var s, t := Selected(c, busy, ordered), Skipped(c, busy, ordered);
      && Distinct(s) && Distinct(t) && IdSet(s) !! IdSet(t) && IdSet(s) + IdSet(t) == IdSet(c)
      && Waiting(s) && Waiting(t)
  {
    hide IdSet, Distinct, Waiting, WithinLimits, Eligible;
    IdSetOne(Pending(Message("", "", map[], "", 0), "", 0, 0));
    if c != [] {
      var n := |c| - 1;
      var s, t := Selected(c[..n], busy, ordered), Skipped(c[..n], busy, ordered);
      SplitLast(c);
      Partition(c[..n], busy, ordered);
      IdSetOne(c[n]);
      IdSetConcat(s, [c[n]]);
      IdSetConcat(t, [c[n]]);
      assert s + [] == s && t + [] == t;
    }
  }

  /** What is selected from a part of the channel is the first part of what is selected from all of it. */
  lemma {:induction false} SelectedPrefix(c: seq<Pending>, n: nat, busy: set<string>, ordered: bool)
    requires n <= |c|
    ensures Selected(c[..n], busy, ordered) <= Selected(c, busy, ordered)
    ensures |Selected(c[..n], busy, ordered)| < |Selected(c, busy, ordered)| <==>
      exists m :: n <= m < |c| && Eligible(c, m, busy, ordered)
    decreases |c| - n
  {
    hide Selected, Eligible;
    if n == |c| {
      assert c[..n] == c;
    } else {
      SelectedPrefix(c, n + 1, busy, ordered);
      SelectedStep(c, n, busy, ordered);
    }
  }

  /** Every listed record is found under its own ack ID. */
  ghost predicate Holds(m: map<string, Pending>, ps: seq<Pending>) {
    forall i :: 0 <= i < |ps| ==> ps[i].ackID in m && m[ps[i].ackID] == ps[i]
  }

  lemma HoldsMore(m: map<string, Pending>, ps: seq<Pending>)
    requires ps != [] && Holds(m, ps[..|ps| - 1]) && Distinct(ps)
    ensures Holds(m[ps[|ps| - 1].ackID := ps[|ps| - 1]], ps)
  {
    forall i | 0 <= i < |ps| - 1 ensures ps[i].ackID in m && m[ps[i].ackID] == ps[i] {
      assert ps[..|ps| - 1][i] == ps[i];
    }
  }

  lemma NoIds()
    ensures IdSet([]) == {} && Distinct([])
  {
  }

  lemma {:induction false} StoreKeys(inFlight: map<string, Pending>, ps: seq<Pending>)
    ensures Store(inFlight, ps).Keys == inFlight.Keys + IdSet(ps)
    ensures forall k :: k in inFlight && k !in IdSet(ps) ==> Store(inFlight, ps)[k] == inFlight[k]
  {
    hide IdSet, Distinct, Waiting;
    NoIds();
    if ps != [] {
      SplitLast(ps);
      StoreKeys(inFlight, ps[..|ps| - 1]);
    }
  }

  lemma {:induction false} StoreHolds(inFlight: map<string, Pending>, ps: seq<Pending>)
    requires Distinct(ps)
    ensures Holds(Store(inFlight, ps), ps)
  {
    hide IdSet, Distinct, Holds, Waiting;
    if ps == [] {
      HoldsNone(inFlight);
    } else {
      SplitLast(ps);
      StoreHolds(inFlight, ps[..|ps| - 1]);
      HoldsMore(Store(inFlight, ps[..|ps| - 1]), ps);
    }
  }

  /** Storing different records adds their ack IDs and leaves the other leases as they are. */
  lemma StoreIs(inFlight: map<string, Pending>, ps: seq<Pending>)
    requires Distinct(ps)
    ensures var m := Store(inFlight, ps);
      && m.Keys == inFlight.Keys + IdSet(ps) && Holds(m, ps)
      && (forall k :: k in inFlight && k !in IdSet(ps) ==> m[k] == inFlight[k])
  {
    hide IdSet, Distinct, Holds, Store;
    StoreKeys(inFlight, ps);
    StoreHolds(inFlight, ps);
  }

  lemma HoldsNone(m: map<string, Pending>)
    ensures Holds(m, [])
  {
  }

  /** The record under an ack ID. */
  lemma RecordWithId(ps: seq<Pending>, k: string) returns (i: nat)
    requires k in IdSet(ps)
    ensures i < |ps| && ps[i].ackID == k
  {
    i :| i < |ps| && ps[i].ackID == k;
  }

  lemma LeasesKeepIds(ps: seq<Pending>, deadline: int)
    ensures IdSet(Leases(ps, deadline)) == IdSet(ps) && (Distinct(Leases(ps, deadline)) <==> Distinct(ps))
  {
    forall i | 0 <= i < |ps| ensures Leases(ps, deadline)[i].ackID == ps[i].ackID {
    }
  }

  /** How many of the eligible messages a Pull takes. */
  function Quota(eligible: seq<Pending>, max: int): (k: nat)
    ensures k <= |eligible|
  {
    if max <= 0 then 0 else if max < |eligible| then max else |eligible|
  }

  /** The examined part of the channel holds the first `max` eligible messages. */
  lemma ExaminedHoldsQuota(c: seq<Pending>, busy: set<string>, ordered: bool, max: int)
    requires Waiting(c)
    ensures var n, eligible := Examined(c, 0, busy, ordered, max), Selected(c, busy, ordered);
      && Selected(c[..n], busy, ordered) == eligible[..Quota(eligible, max)]
      && (n < |c| ==> |Selected(c[..n], busy, ordered)| >= max)
  {
    hide Selected, Eligible, WithinLimits;
    var n := Examined(c, 0, busy, ordered, max);
    SelectedPrefix(c, n, busy, ordered);
    NotTooMany(c, n, busy, ordered, max);
    if n < |c| {
      NothingUnreadable(c, n, busy, ordered, max);
    }
    assert c[..|c|] == c;
  }

  lemma NotTooMany(c: seq<Pending>, n: nat, busy: set<string>, ordered: bool, max: int)
    requires n <= |c| && forall m :: 0 <= m < n ==> !StopsAt(c, m, busy, ordered, max)
    ensures |Selected(c[..n], busy, ordered)| <= (if max <= 0 then 0 else max)
  {
    hide Selected, Eligible, WithinLimits;
    if n > 0 {
      assert !StopsAt(c, n - 1, busy, ordered, max);
      SelectedStep(c, n - 1, busy, ordered);
    } else {
      SelectedNone(c, busy, ordered);
      assert Selected(c[..n], busy, ordered) == [];
    }
  }

  lemma NothingUnreadable(c: seq<Pending>, n: nat, busy: set<string>, ordered: bool, max: int)
    requires Waiting(c) && n < |c| && StopsAt(c, n, busy, ordered, max)
    ensures |Selected(c[..n], busy, ordered)| >= max
  {
    hide Selected, Eligible, WithinLimits;
    assert WithinLimits(c[n].message);
  }

  lemma SelectedNone(c: seq<Pending>, busy: set<string>, ordered: bool)
    ensures Selected(c[..0], busy, ordered) == []
  {
  }

  /**
   A Pull leases the first `max` eligible messages. It leaves the unexamined end of the channel,
   followed by the skipped messages in order; sending these again never overflows, and a mapping
   failure never happens to records within the limits.
   */
  lemma PullTakesFirstEligible(q: Queue, max: int, deadline: int, ordered: bool)
    requires WellFormed(q)
    ensures var (q', r) := LeaseFrom(q, max, deadline, ordered);
      var c, busy := q.channel, LeasedKeys(q.inFlight);
      var eligible, n := Selected(c, busy, ordered), Examined(c, 0, busy, ordered, max);
      && r == Success(Leases(eligible[..Quota(eligible, max)], deadline))
      && eligible[..Quota(eligible, max)] == Selected(c[..n], busy, ordered)
      && q'.channel == c[n..] + Skipped(c[..n], busy, ordered)
      && q'.inFlight == Store(q.inFlight, r.value)
      && q'.capacity == q.capacity
  {
    hide Selected, Skipped, Eligible, WithinLimits, Quota, Store, LeasedKeys;
    var c, busy := q.channel, LeasedKeys(q.inFlight);
    var n := Examined(c, 0, busy, ordered, max);
    ExaminedHoldsQuota(c, busy, ordered, max);
    var skipped := Skipped(c[..n], busy, ordered);
    assert skipped[..|skipped|] == skipped;
  }

  /** A Pull keeps the queue well formed and every record in it; what it leases was waiting. */
  lemma LeaseKeeps(q: Queue, max: int, deadline: int, ordered: bool)
    requires WellFormed(q) && deadline != NO_DEADLINE
    ensures var (q', r) := LeaseFrom(q, max, deadline, ordered);
      && r.Success? && Distinct(r.value) && IdSet(r.value) <= IdSet(q.channel) <= Live(q)
      && WellFormed(q') && q'.capacity == q.capacity && Live(q') == Live(q)
      && IdSet(q'.channel) == IdSet(q.channel) - IdSet(r.value)
      && q'.inFlight.Keys == q.inFlight.Keys + IdSet(r.value)
      && (forall k :: k in q.inFlight ==> q'.inFlight[k] == q.inFlight[k])
      && Holds(q'.inFlight, r.value)
  {
    hide IdSet, Distinct, Waiting, WithinLimits, Selected, Skipped, Store, LeaseFrom, LeasedKeys, Quota, StopsAt, Holds;
    var (q', r) := LeaseFrom(q, max, deadline, ordered);
    var c, busy := q.channel, LeasedKeys(q.inFlight);
    var n := Examined(c, 0, busy, ordered, max);
    PullTakesFirstEligible(q, max, deadline, ordered);
    SplitAt(c, n);
    Partition(c[..n], busy, ordered);
    var s, t := Selected(c[..n], busy, ordered), Skipped(c[..n], busy, ordered);
    LeasesKeepIds(s, deadline);
    StoreIs(q.inFlight, r.value);
    IdSetConcat(c[n..], t);
    LeasedStore(q.inFlight, s, deadline);
  }

  lemma LeasedStore(inFlight: map<string, Pending>, s: seq<Pending>, deadline: int)
    requires Leased(inFlight) && Distinct(s) && Waiting(s) && deadline != NO_DEADLINE
    ensures Leased(Store(inFlight, Leases(s, deadline)))
  {
    hide IdSet, Distinct, WithinLimits, Store;
    var ps := Leases(s, deadline);
    LeasesKeepIds(s, deadline);
    StoreIs(inFlight, ps);
    forall k | k in IdSet(ps)
      ensures var p := Store(inFlight, ps)[k]; p.ackID == k && p.deadline != NO_DEADLINE && WithinLimits(p.message)
    {
      var i := RecordWithId(ps, k);
      assert ps[i] == Lease(s[i], deadline);
    }
  }
}
