/**
 Message ordering: at most one lease per ordering key at any time, and, over whole runs, leases in
 the order in which the messages of a key arrived in the channel. Fan-outs of two Publishes may arrive
 in either order.
 */
module OrderingRuns {
  import opened QueueModel
  import opened QueueLaws
  import opened QueueRuns

  // ----- One lease per key

  /** No two leased messages share a non-empty ordering key. */
  ghost predicate KeyExclusive(inFlight: map<string, Pending>) {
    forall a, b :: a in inFlight && b in inFlight && a != b && inFlight[a].Key() != "" ==>
      inFlight[a].Key() != inFlight[b].Key()
  }

  ghost predicate KeysApart(ps: seq<Pending>) {
    forall i, j :: 0 <= i < j < |ps| && ps[i].Key() != "" ==> ps[i].Key() != ps[j].Key()
  }

  lemma {:induction false} SelectedFrom(c: seq<Pending>, busy: set<string>, ordered: bool)
    ensures forall i :: 0 <= i < |Selected(c, busy, ordered)| ==> Selected(c, busy, ordered)[i] in c
  {
    if c != [] {
      SelectedFrom(c[..|c| - 1], busy, ordered);
    }
  }

  lemma {:induction false} SelectedKeys(c: seq<Pending>, busy: set<string>)
    ensures var s := Selected(c, busy, true);
      KeysApart(s) && forall i :: 0 <= i < |s| ==> s[i].Key() == "" || s[i].Key() !in busy
  {
    if c != [] {
      var n := |c| - 1;
      SelectedKeys(c[..n], busy);
      SelectedFrom(c[..n], busy, true);
    }
  }

  lemma LeasedApart(m: map<string, Pending>, s: seq<Pending>, deadline: int)
    requires KeyExclusive(m) && KeysApart(s) && Distinct(s)
    requires forall i :: 0 <= i < |s| ==> s[i].Key() == "" || s[i].Key() !in LeasedKeys(m)
    ensures KeyExclusive(Store(m, Leases(s, deadline)))
  {
    hide IdSet, Distinct, Store;
    var ps := Leases(s, deadline);
    var m' := Store(m, ps);
    LeasesKeepIds(s, deadline);
    StoreIs(m, ps);
    forall a, b | a in m' && b in m' && a != b && m'[a].Key() != "" ensures m'[a].Key() != m'[b].Key() {
      if a in IdSet(ps) {
        var i := RecordWithId(ps, a);
        assert m'[a].Key() == s[i].Key();
        if b in IdSet(ps) {
          var j := RecordWithId(ps, b);
          assert m'[b].Key() == s[j].Key() && i != j;
        }
      } else if b in IdSet(ps) {
        var j := RecordWithId(ps, b);
        assert m'[b].Key() == s[j].Key();
      }
    }
  }

  lemma PullKeepsKeyExclusive(q: Queue, now: int, max: int, wait: int, order: seq<string>)
    requires WellFormed(q) && KeyExclusive(q.inFlight) && Enumerates(order, q.inFlight.Keys)
    ensures KeyExclusive(Pull(q, now, max, wait, true, order).0.inFlight)
  {
    hide IdSet, Distinct, Waiting, Leased, KeysApart, Enumerates, Requeue, LeaseFrom, Released, LeasedKeys, Selected,
      Skipped, Store;
    RequeueKeeps(q, now, order);
    var q1 := Requeue(q, now, order);
    var c, busy := q1.channel, LeasedKeys(q1.inFlight);
    var n := Examined(c, 0, busy, true, max);
    PullTakesFirstEligible(q1, max, now + wait, true);
    SplitAt(c, n);
    Partition(c[..n], busy, true);
    SelectedKeys(c[..n], busy);
    LeasedApart(q1.inFlight, Selected(c[..n], busy, true), now + wait);
  }

  ghost predicate AlwaysOrdered(es: seq<Event>) {
    forall i :: 0 <= i < |es| && es[i].Pulled? ==> es[i].ordered
  }

  lemma StepKeepsKeyExclusive(s: State, e: Event)
    requires Inv(s) && CanHappen(s, e) && KeyExclusive(s.queue.inFlight) && (e.Pulled? ==> e.ordered)
    ensures KeyExclusive(Next(s, e).queue.inFlight)
  {
    hide WellFormed, Live, Pull, IdSet, Enumerates;
    if e.Pulled? {
      PullKeepsKeyExclusive(s.queue, e.now, e.max, e.wait, e.order);
    }
  }

  /**
   On an ordered subscription the leases have pairwise distinct ordering keys in every reachable
   state, whatever is enqueued, pulled, listed, replaced, acknowledged or extended.
   */
  lemma {:induction false} OneLeasePerKey(s: State, es: seq<Event>)
    requires Inv(s) && Legal(s, es) && AlwaysOrdered(es) && KeyExclusive(s.queue.inFlight)
    ensures KeyExclusive(Run(s, es).queue.inFlight)
  {
    hide Inv, CanHappen, KeyExclusive, Next, Balanced;
    if es != [] {
      var n := |es| - 1;
      OneLeasePerKey(s, es[..n]);
      assert es[..n + 1] == es;
      RunStep(s, es, n);
      StepKeepsKeyExclusive(Run(s, es[..n]), es[n]);
    }
  }

  // ----- Order within a key

  /** The ack IDs of the messages with ordering key `k`, in order. */
  function KeyIds(ps: seq<Pending>, k: string): seq<string> {
    if ps == [] then []
    else KeyIds(ps[..|ps| - 1], k) + if ps[|ps| - 1].Key() == k then [ps[|ps| - 1].ackID] else []
  }

  lemma {:induction false} KeyIdsConcat(a: seq<Pending>, b: seq<Pending>, k: string)
    ensures KeyIds(a + b, k) == KeyIds(a, k) + KeyIds(b, k)
    decreases |b|
  {
    if b == [] {
      assert a + b == a;
    } else {
      var n := |b| - 1;
      assert (a + b)[..|a + b| - 1] == a + b[..n];
      KeyIdsConcat(a, b[..n], k);
    }
  }

  lemma {:induction false} KeyIdsIn(ps: seq<Pending>, k: string)
    ensures forall id :: id in KeyIds(ps, k) ==> id in IdSet(ps)
    ensures Distinct(ps) ==> forall i, j :: 0 <= i < j < |KeyIds(ps, k)| ==> KeyIds(ps, k)[i] != KeyIds(ps, k)[j]
  {
    hide IdSet, Distinct;
    if ps != [] {
      SplitLast(ps);
      KeyIdsIn(ps[..|ps| - 1], k);
    }
  }

  lemma {:induction false} NoneOfKey(ps: seq<Pending>, k: string)
    ensures KeyIds(ps, k) == [] <==> forall i :: 0 <= i < |ps| ==> ps[i].Key() != k
  {
    if ps != [] {
      NoneOfKey(ps[..|ps| - 1], k);
    }
  }

  lemma {:induction false} KeyIdsOfLeases(ps: seq<Pending>, deadline: int, k: string)
    ensures KeyIds(Leases(ps, deadline), k) == KeyIds(ps, k)
  {
    if ps != [] {
      var n := |ps| - 1;
      KeyIdsOfLeases(ps[..n], deadline, k);
      assert Leases(ps, deadline)[..n] == Leases(ps[..n], deadline);
    }
  }

  lemma KeyIdsOne(p: Pending, k: string)
    ensures KeyIds([p], k) == if p.Key() == k then [p.ackID] else []
  {
    assert [p][..0] == [];
  }

  lemma EligibleForKey(c: seq<Pending>, n: nat, busy: set<string>)
    requires n < |c| && c[n].Key() != ""
    ensures Eligible(c, n, busy, true) <==> c[n].Key() !in busy && KeyIds(c[..n], c[n].Key()) == []
  {
    NoneOfKey(c[..n], c[n].Key());
  }

  /** Of the messages of one key, an ordered Pull selects the first, unless the key is busy, and skips the others. */
  lemma {:induction false} FirstOfKey(c: seq<Pending>, n: nat, busy: set<string>, k: string)
    requires k != "" && n <= |c|
    ensures KeyIds(c[..n], k) == KeyIds(Selected(c[..n], busy, true), k) + KeyIds(Skipped(c[..n], busy, true), k)
    ensures |KeyIds(Selected(c[..n], busy, true), k)| == if k in busy || KeyIds(c[..n], k) == [] then 0 else 1
  {
    hide Selected, Skipped, KeyIds, Eligible;
    if n == 0 {
      SelectedNone(c, busy, true);
      SkippedNone(c, busy);
      KeyIdsNone(k);
      assert c[..0] == [];
    } else {
      var m := n - 1;
      FirstOfKey(c, m, busy, k);
      SelectedStep(c, m, busy, true);
      KeyIdsOne(c[m], k);
      assert c[..n] == c[..m] + [c[m]];
      KeyIdsConcat(c[..m], [c[m]], k);
      KeyIdsConcat(Selected(c[..m], busy, true), [c[m]], k);
      KeyIdsConcat(Skipped(c[..m], busy, true), [c[m]], k);
      assert Selected(c[..m], busy, true) + [] == Selected(c[..m], busy, true);
      assert Skipped(c[..m], busy, true) + [] == Skipped(c[..m], busy, true);
      if c[m].Key() == k {
        EligibleForKey(c, m, busy);
      }
    }
  }

  lemma SkippedNone(c: seq<Pending>, busy: set<string>)
    ensures Skipped(c[..0], busy, true) == []
  {
  }

  lemma KeyIdsNone(k: string)
    ensures KeyIds([], k) == []
  {
  }

  /** The part of the channel that an ordered Pull leaves unexamined, and the messages it skips. */
  function Unexamined(q: Queue, max: int): seq<Pending> {
    q.channel[Examined(q.channel, 0, LeasedKeys(q.inFlight), true, max)..]
  }

  function SkippedBy(q: Queue, max: int): seq<Pending> {
    var busy := LeasedKeys(q.inFlight);
    Skipped(q.channel[..Examined(q.channel, 0, busy, true, max)], busy, true)
  }

  /** No message of the key is skipped, or none is left unexamined behind the skipped ones. */
  predicate KeepsInOrder(q: Queue, max: int, k: string) {
    KeyIds(SkippedBy(q, max), k) == [] || KeyIds(Unexamined(q, max), k) == []
  }

  /**
   A Pull on an ordered subscription keeps the messages of a key in order, the leased one first,
   exactly when it skips none of the key or leaves none of it unexamined.
   */
  lemma PullKeepsKeyOrder(q: Queue, max: int, deadline: int, k: string)
    requires WellFormed(q) && k != ""
    ensures var (q', r) := LeaseFrom(q, max, deadline, true);
      && r.Success?
      && |KeyIds(r.value, k)| <= 1 && (k in LeasedKeys(q.inFlight) ==> KeyIds(r.value, k) == [])
      && (KeyIds(q.channel, k) == KeyIds(r.value, k) + KeyIds(q'.channel, k) <==> KeepsInOrder(q, max, k))
  {
    hide IdSet, Distinct, Waiting, Leased, Selected, Skipped, LeaseFrom, LeasedKeys, KeyIds, Store;
    var c, busy := q.channel, LeasedKeys(q.inFlight);
    var n := Examined(c, 0, busy, true, max);
    var s, skipped, rest := Selected(c[..n], busy, true), SkippedBy(q, max), Unexamined(q, max);
    PullTakesFirstEligible(q, max, deadline, true);
    KeyIdsOfLeases(s, deadline, k);
    FirstOfKey(c, n, busy, k);
    KeyIdsConcat(c[..n], rest, k);
    assert c == c[..n] + rest;
    KeyIdsConcat(rest, skipped, k);
    SplitAt(c, n);
    Partition(c[..n], busy, true);
    KeyIdsIn(skipped, k);
    KeyIdsIn(rest, k);
    SwapOnlyIfEmpty(KeyIds(s, k), KeyIds(skipped, k), KeyIds(rest, k));
  }

  /** A caller can make sure of the order: a Pull of as many messages as wait leaves none unexamined. */
  lemma LargePullKeepsOrder(q: Queue, max: int, k: string)
    requires Waiting(q.channel) && max >= |q.channel|
    ensures KeepsInOrder(q, max, k)
  {
    hide Selected, Skipped, Eligible, LeasedKeys, WithinLimits;
    var c, busy := q.channel, LeasedKeys(q.inFlight);
    var n := Examined(c, 0, busy, true, max);
    ExaminedHoldsQuota(c, busy, true, max);
    assert c[|c|..] == [];
    KeyIdsNone(k);
  }

  lemma SwapOnlyIfEmpty(h: seq<string>, a: seq<string>, b: seq<string>)
    requires forall x :: x in a ==> x !in b
    ensures h + a + b == h + (b + a) <==> a == [] || b == []
  {
    if a == [] || b == [] {
      assert h + a + b == h + (b + a);
    } else {
      assert (h + a + b)[|h|] == a[0] && (h + (b + a))[|h|] == b[0];
      assert a[0] in a && b[0] in b;
    }
  }

  // ----- Order over runs

  /** The ack IDs of key `k` that found room in the channel, in the order of their arrival. */
  function Accepted(s: State, es: seq<Event>, k: string): seq<string> {
    if es == [] then []
    else
      var q, e := Run(s, es[..|es| - 1]).queue, es[|es| - 1];
      Accepted(s, es[..|es| - 1], k) + if e.Enqueued? then KeyIds(e.ps[..q.Room(|e.ps|)], k) else []
  }

  /** The ack IDs of key `k` that were handed out, in that order. */
  function HandedOut(s: State, es: seq<Event>, k: string): seq<string> {
    if es == [] then []
    else HandedOut(s, es[..|es| - 1], k) + KeyIds(Delivered(Run(s, es[..|es| - 1]).queue, es[|es| - 1]), k)
  }

  /** No Seek, no expired lease, and every Pull is ordered and keeps the key in order. */
  ghost predicate Undisturbed(q: Queue, e: Event, k: string) {
    match e
    case Pulled(now, max, _, ordered, _) => ordered && ExpiredKeys(q.inFlight, now) == {} && KeepsInOrder(q, max, k)
    case Replaced(_) => false
    case _ => true
  }

  ghost predicate AlwaysUndisturbed(s: State, es: seq<Event>, k: string) {
    es == [] || (AlwaysUndisturbed(s, es[..|es| - 1], k) && Undisturbed(Run(s, es[..|es| - 1]).queue, es[|es| - 1], k))
  }

  /** With no expired lease, a Pull starts from the queue as it is. */
  lemma NothingExpired(q: Queue, now: int, order: seq<string>)
    requires WellFormed(q) && Enumerates(order, q.inFlight.Keys) && ExpiredKeys(q.inFlight, now) == {}
    ensures Requeue(q, now, order).channel == q.channel && Requeue(q, now, order).inFlight == q.inFlight
  {
    hide IdSet, Distinct, Waiting, Leased, Requeue, Released;
    RequeueKeeps(q, now, order);
    assert q.inFlight - {} == q.inFlight;
  }

  lemma LeaseIgnoresNotify(q: Queue, q1: Queue, max: int, deadline: int)
    requires WellFormed(q) && WellFormed(q1) && q1 == q.(notify := q1.notify)
    ensures LeaseFrom(q, max, deadline, true).1 == LeaseFrom(q1, max, deadline, true).1
    ensures LeaseFrom(q, max, deadline, true).0.channel == LeaseFrom(q1, max, deadline, true).0.channel
    ensures LeaseFrom(q, max, deadline, true).0.inFlight == LeaseFrom(q1, max, deadline, true).0.inFlight
  {
    hide Selected, Skipped, Store, LeasedKeys, WithinLimits;
    PullTakesFirstEligible(q, max, deadline, true);
    PullTakesFirstEligible(q1, max, deadline, true);
  }

  /** What one event does to the messages of a key, when nothing disturbs their order. */
  ghost predicate KeyStep(q: Queue, e: Event, q': Queue, k: string) {
    var out := KeyIds(Delivered(q, e), k);
    var arrived := if e.Enqueued? then KeyIds(e.ps[..q.Room(|e.ps|)], k) else [];
    && KeyIds(q.channel, k) + arrived == out + KeyIds(q'.channel, k)
    && |out| <= 1 && (k in LeasedKeys(q.inFlight) ==> out == [])
    && (forall id :: id in q.inFlight && id !in Leaving(q, e) ==>
      id in q'.inFlight && q'.inFlight[id].Key() == q.inFlight[id].Key())
    && (forall id :: id in out ==> id in q'.inFlight && q'.inFlight[id].Key() == k)
  }

  lemma PullIsLease(s: State, e: Event)
    requires Inv(s) && CanHappen(s, e) && e.Pulled? && e.ordered && ExpiredKeys(s.queue.inFlight, e.now) == {}
    ensures var (q', r) := LeaseFrom(s.queue, e.max, e.now + e.wait, true);
      && r.Success? && Delivered(s.queue, e) == r.value
      && Next(s, e).queue.channel == q'.channel && Next(s, e).queue.inFlight == q'.inFlight
  {
    hide IdSet, WellFormed, Live, LeaseFrom, Requeue, Enumerates, Holds, ExpiredKeys, Released;
    var q := s.queue;
    var q1 := Requeue(q, e.now, e.order);
    RequeueKeeps(q, e.now, e.order);
    NothingExpired(q, e.now, e.order);
    assert q1 == q.(notify := q1.notify);
    LeaseIgnoresNotify(q, q1, e.max, e.now + e.wait);
    LeaseKeeps(q, e.max, e.now + e.wait, true);
  }

  lemma PullKeyStep(s: State, e: Event, k: string)
    requires Inv(s) && CanHappen(s, e) && e.Pulled? && Undisturbed(s.queue, e, k) && k != ""
    ensures KeyStep(s.queue, e, Next(s, e).queue, k)
  {
    hide IdSet, WellFormed, LeaseFrom, Apply, Delivered, LeasedKeys, KeyIds, KeepsInOrder, Enumerates, ExpiredKeys,
      Holds;
    var q, deadline := s.queue, e.now + e.wait;
    PullIsLease(s, e);
    PullKeepsKeyOrder(q, e.max, deadline, k);
    LeaseKeeps(q, e.max, deadline, true);
    var (q', r) := LeaseFrom(q, e.max, deadline, true);
    HeldKey(q'.inFlight, r.value, k);
    assert KeyIds(q.channel, k) + [] == KeyIds(q.channel, k);
  }

  lemma {:induction false} HeldKey(m: map<string, Pending>, ps: seq<Pending>, k: string)
    requires Holds(m, ps)
    ensures forall id :: id in KeyIds(ps, k) ==> id in m && m[id].Key() == k
  {
    if ps != [] {
      HeldKey(m, ps[..|ps| - 1], k);
      assert m[ps[|ps| - 1].ackID] == ps[|ps| - 1];
    }
  }

  lemma OtherKeyStep(s: State, e: Event, k: string)
    requires Inv(s) && CanHappen(s, e) && !e.Pulled? && Undisturbed(s.queue, e, k)
    ensures KeyStep(s.queue, e, Next(s, e).queue, k)
  {
    hide IdSet, Distinct, Waiting, Leased, KeyIds, Relist;
    var q := s.queue;
    KeyIdsNone(k);
    if e.Enqueued? {
      KeyIdsConcat(q.channel, e.ps[..q.Room(|e.ps|)], k);
    }
    if e.Listed? {
      RelistIs(q);
    }
    assert KeyIds(q.channel, k) + [] == KeyIds(q.channel, k);
    assert [] + KeyIds(Next(s, e).queue.channel, k) == KeyIds(Next(s, e).queue.channel, k);
  }

  lemma EachKeyStep(s: State, e: Event, k: string)
    requires Inv(s) && CanHappen(s, e) && Undisturbed(s.queue, e, k) && k != ""
    ensures KeyStep(s.queue, e, Next(s, e).queue, k)
  {
    hide Inv, CanHappen, Undisturbed, KeyStep, Next;
    if e.Pulled? {
      PullKeyStep(s, e, k);
    } else {
      OtherKeyStep(s, e, k);
    }
  }

  lemma LeasedKeyIs(m: map<string, Pending>, id: string, k: string)
    requires id in m && m[id].Key() == k && k != ""
    ensures k in LeasedKeys(m)
  {
  }

  /**
   Over any undisturbed run of an ordered subscription, the messages of an ordering key are handed
   out in the order of their arrival, each once: what was handed out, followed by what waits, is
   what waited and what arrived. All but the last one handed out were acknowledged, and the last one
   was, too, unless it is still leased.
   */
  lemma {:induction false} LeasedInOrder(s: State, es: seq<Event>, k: string)
    requires Inv(s) && Legal(s, es) && AlwaysUndisturbed(s, es, k) && k != ""
    ensures KeyIds(s.queue.channel, k) + Accepted(s, es, k) == HandedOut(s, es, k) + KeyIds(Run(s, es).queue.channel, k)
    ensures forall i :: 0 <= i < |HandedOut(s, es, k)| ==>
      var id := HandedOut(s, es, k)[i];
      id in Left(s, es) || (i == |HandedOut(s, es, k)| - 1 && id in Run(s, es).queue.inFlight
        && Run(s, es).queue.inFlight[id].Key() == k)
  {
    hide Inv, CanHappen, Undisturbed, KeyIds, Next, Balanced, LeasedKeys, Leaving, Delivered;
    if es == [] {
      assert KeyIds(s.queue.channel, k) + [] == [] + KeyIds(s.queue.channel, k);
    } else {
      var n := |es| - 1;
      var s1, e := Run(s, es[..n]), es[n];
      var before, out := HandedOut(s, es[..n], k), KeyIds(Delivered(s1.queue, e), k);
      LeasedInOrder(s, es[..n], k);
      assert es[..n + 1] == es;
      RunStep(s, es, n);
      EachKeyStep(s1, e, k);
      AppendStep(KeyIds(s.queue.channel, k), Accepted(s, es[..n], k), before, KeyIds(s1.queue.channel, k),
        if e.Enqueued? then KeyIds(e.ps[..s1.queue.Room(|e.ps|)], k) else [], out, KeyIds(Run(s, es).queue.channel, k));
      forall i | 0 <= i < |before + out|
        ensures (before + out)[i] in Left(s, es) || (i == |before + out| - 1
          && (before + out)[i] in Run(s, es).queue.inFlight && Run(s, es).queue.inFlight[(before + out)[i]].Key() == k)
      {
        if i < |before| {
          var id := before[i];
          if id !in Left(s, es[..n]) && out != [] {
            LeasedKeyIs(s1.queue.inFlight, id, k);
          }
        } else {
          assert (before + out)[i] == out[0];
        }
      }
    }
  }

  lemma AppendStep(c0: seq<string>, accepted: seq<string>, before: seq<string>, c1: seq<string>,
      arrived: seq<string>, out: seq<string>, c2: seq<string>)
    requires c0 + accepted == before + c1 && c1 + arrived == out + c2
    ensures c0 + (accepted + arrived) == (before + out) + c2
  {
    assert c0 + (accepted + arrived) == (c0 + accepted) + arrived;
    assert before + c1 + arrived == before + (c1 + arrived);
    assert before + (out + c2) == (before + out) + c2;
  }

  /** When a message of the key is handed out, all those handed out before were acknowledged. */
  lemma NextOnlyAfterAck(s: State, es: seq<Event>, n: nat, k: string)
    requires Inv(s) && Legal(s, es) && AlwaysUndisturbed(s, es, k) && k != "" && n < |es|
    requires KeyIds(Delivered(Run(s, es[..n]).queue, es[n]), k) != []
    ensures forall id :: id in HandedOut(s, es[..n], k) ==> id in Left(s, es[..n])
  {
    hide Inv, CanHappen, Undisturbed, KeyIds, Next, Balanced, LeasedKeys, Leaving, Delivered, HandedOut, Left;
    LegalPrefix(s, es, n);
    UndisturbedPrefix(s, es, n, k);
    LeasedInOrder(s, es[..n], k);
    RunStep(s, es, n);
    var s1 := Run(s, es[..n]);
    EachKeyStep(s1, es[n], k);
    forall id | id in HandedOut(s, es[..n], k) ensures id in Left(s, es[..n]) {
      if id !in Left(s, es[..n]) {
        LeasedKeyIs(s1.queue.inFlight, id, k);
      }
    }
  }

  lemma {:induction false} UndisturbedPrefix(s: State, es: seq<Event>, n: nat, k: string)
    requires AlwaysUndisturbed(s, es, k) && n < |es|
    ensures AlwaysUndisturbed(s, es[..n], k) && Undisturbed(Run(s, es[..n]).queue, es[n], k)
  {
    hide Undisturbed, Run;
    var m := |es| - 1;
    if n < m {
      UndisturbedPrefix(s, es[..m], n, k);
      assert es[..m][..n] == es[..n];
    }
  }

  function Sample(id: string, key: string, deadline: int, attempt: int): Pending {
    Pending(Message("m", "", map[], key, 1), id, deadline, attempt)
  }

  /** "1" is leased; "2" and "4" have its key, "3" has none. */
  function SampleQueue(): Queue {
    Queue(4, [Sample("2", "k", 0, 0), Sample("3", "", 0, 0), Sample("4", "k", 0, 0)],
      map["1" := Sample("1", "k", 9, 1)], false)
  }

  /**
   The condition matters: here a Pull of one message skips "2", whose key is leased, leases the
   key-less "3", and puts "2" behind "4" of the same key.
   */
  lemma RotatesKeyOrder()
    ensures var q' := LeaseFrom(SampleQueue(), 1, 9, true).0;
      && KeyIds(SampleQueue().channel, "k") == ["2", "4"] && KeyIds(q'.channel, "k") == ["4", "2"]
      && !KeepsInOrder(SampleQueue(), 1, "k")
  {
    hide WithinLimits, LeaseFrom, WellFormed, LeasedKeys, Selected, Skipped, KeyIds, KeepsInOrder, Eligible, StopsAt;
    var a, b, c := Sample("2", "k", 0, 0), Sample("3", "", 0, 0), Sample("4", "k", 0, 0);
    var q := SampleQueue();
    var busy := LeasedKeys(q.inFlight);
    LeasedKeyIs(q.inFlight, "1", "k");
    SampleWithinLimits(b);
    SampleScan(a, b, c, busy);
    SampleWellFormed();
    PullTakesFirstEligible(q, 1, 9, true);
    PullKeepsKeyOrder(q, 1, 9, "k");
    KeyIdsThree(a, b, c, "k");
    assert [a, b, c][2..] == [c] && [c] + [a] == [c, a];
    var out := KeyIds(LeaseFrom(q, 1, 9, true).1.value, "k");
    assert (out + ["4", "2"])[0] == "4" != ["2", "4"][0];
  }

  lemma SampleWithinLimits(p: Pending)
    requires p == Sample("3", "", 0, 0)
    ensures WithinLimits(p.message)
  {
  }

  lemma SampleWellFormed()
    ensures WellFormed(SampleQueue())
  {
    hide IdSet, Distinct;
    var q := SampleQueue();
    var a, b, c := q.channel[0], q.channel[1], q.channel[2];
    IdSetOne(a);
    IdSetOne(b);
    IdSetOne(c);
    IdSetConcat([a], [b]);
    IdSetConcat([a, b], [c]);
    assert [a] + [b] == [a, b] && [a, b] + [c] == q.channel;
  }

  lemma SampleScan(a: Pending, b: Pending, c: Pending, busy: set<string>)
    requires a.Key() == "k" == c.Key() && b.Key() == "" && "k" in busy && WithinLimits(b.message)
    ensures var ch := [a, b, c];
      Examined(ch, 0, busy, true, 1) == 2 && Skipped(ch[..2], busy, true) == [a]
  {
    hide Selected, Skipped, WithinLimits;
    var ch := [a, b, c];
    ExaminedIs(ch, 2, busy, true, 1) by {
      SampleSelected(a, b, c, busy);
    }
    SelectedNone(ch, busy, true);
    SkippedNone(ch, busy);
    SelectedStep(ch, 0, busy, true);
    SelectedStep(ch, 1, busy, true);
  }

  lemma SampleSelected(a: Pending, b: Pending, c: Pending, busy: set<string>)
    requires a.Key() == "k" == c.Key() && b.Key() == "" && "k" in busy && WithinLimits(b.message)
    ensures var ch := [a, b, c];
      StopsAt(ch, 2, busy, true, 1) && forall m :: 0 <= m < 2 ==> !StopsAt(ch, m, busy, true, 1)
  {
    hide Selected, Skipped, WithinLimits;
    var ch := [a, b, c];
    SelectedNone(ch, busy, true);
    SelectedStep(ch, 0, busy, true);
    SelectedStep(ch, 1, busy, true);
  }

  lemma KeyIdsThree(a: Pending, b: Pending, c: Pending, k: string)
    requires a.Key() == k && b.Key() != k && c.Key() == k
    ensures KeyIds([a, b, c], k) == [a.ackID, c.ackID] && KeyIds([c, a], k) == [c.ackID, a.ackID]
    ensures KeyIds([a], k) == [a.ackID] && KeyIds([c], k) == [c.ackID]
  {
    KeyIdsOne(a, k);
    KeyIdsOne(b, k);
    KeyIdsOne(c, k);
    KeyIdsConcat([a], [b], k);
    KeyIdsConcat([a, b], [c], k);
    KeyIdsConcat([c], [a], k);
    assert [a] + [b] + [c] == [a, b, c] && [c] + [a] == [c, a];
  }
}
