/**
 Delivery attempts over runs: the number a message carries is the number of its leases, and a
 dead-letter policy bounds how often it is handed out.
 */
module DeliveryRuns {
  import opened QueueModel
  import opened QueueLaws
  import opened QueueRuns
  import opened OrderingRuns

  /** The 32-bit counter after n increments. */
  function Wrap(n: nat): int {
    if n == 0 then 0 else Increment(Wrap(n - 1))
  }

  lemma {:induction false} WrapIs(n: nat)
    ensures Wrap(n) == (n + 0x8000_0000) % 0x1_0000_0000 - 0x8000_0000
    ensures n < 0x8000_0000 ==> Wrap(n) == n
  {
    if n > 0 {
      WrapIs(n - 1);
    }
  }

  /** How many Pulls handed out the message. */
  function LeaseCount(s: State, es: seq<Event>, id: string): nat {
    if es == [] then 0
    else
      LeaseCount(s, es[..|es| - 1], id)
      + if id in IdSet(Delivered(Run(s, es[..|es| - 1]).queue, es[|es| - 1])) then 1 else 0
  }

  /** Does a Pull find the lease of the message ended, by expiry or because it was given up? */
  predicate Ends(q: Queue, e: Event, id: string) {
    e.Pulled? && id in ExpiredKeys(q.inFlight, e.now)
  }

  function EndedCount(s: State, es: seq<Event>, id: string): nat {
    if es == [] then 0
    else EndedCount(s, es[..|es| - 1], id) + if Ends(Run(s, es[..|es| - 1]).queue, es[|es| - 1], id) then 1 else 0
  }

  /** All listed records of the message carry this attempt. */
  ghost predicate Carry(ps: seq<Pending>, id: string, attempt: int) {
    forall i :: 0 <= i < |ps| && ps[i].ackID == id ==> ps[i].attempt == attempt
  }

  lemma CarrySome(ps: seq<Pending>, all: seq<Pending>, id: string, attempt: int)
    requires Carry(all, id, attempt) && forall i :: 0 <= i < |ps| ==> ps[i] in all
    ensures Carry(ps, id, attempt)
  {
  }

  lemma CarryBoth(a: seq<Pending>, b: seq<Pending>, id: string, attempt: int)
    ensures Carry(a + b, id, attempt) <==> Carry(a, id, attempt) && Carry(b, id, attempt)
  {
    if Carry(a + b, id, attempt) {
      forall i | 0 <= i < |a| && a[i].ackID == id ensures a[i].attempt == attempt {
        assert (a + b)[i] == a[i];
      }
      forall i | 0 <= i < |b| && b[i].ackID == id ensures b[i].attempt == attempt {
        assert (a + b)[|a| + i] == b[i];
      }
    }
  }

  lemma CarryNone(ps: seq<Pending>, id: string, attempt: int)
    requires id !in IdSet(ps)
    ensures Carry(ps, id, attempt)
  {
  }

  lemma {:induction false} SkippedFrom(c: seq<Pending>, busy: set<string>, ordered: bool)
    ensures forall i :: 0 <= i < |Skipped(c, busy, ordered)| ==> Skipped(c, busy, ordered)[i] in c
  {
    if c != [] {
      SkippedFrom(c[..|c| - 1], busy, ordered);
    }
  }

  lemma CarryLeases(ps: seq<Pending>, deadline: int, id: string, attempt: int)
    requires Carry(ps, id, attempt)
    ensures Carry(Leases(ps, deadline), id, Increment(attempt))
  {
  }

  /** A Pull counts one attempt for what it leases, and leaves the other records as they are. */
  lemma LeaseCounts(q: Queue, max: int, deadline: int, ordered: bool, id: string, attempt: int)
    requires WellFormed(q) && Carry(q.channel, id, attempt)
    ensures var (q', r) := LeaseFrom(q, max, deadline, ordered);
      r.Success? && Carry(q'.channel, id, attempt) && Carry(r.value, id, Increment(attempt))
  {
    hide WellFormed, Selected, Skipped, LeaseFrom, LeasedKeys, Carry, Store, Quota, StopsAt;
    var c, busy := q.channel, LeasedKeys(q.inFlight);
    var n := Examined(c, 0, busy, ordered, max);
    var s, t := Selected(c[..n], busy, ordered), Skipped(c[..n], busy, ordered);
    PullTakesFirstEligible(q, max, deadline, ordered);
    assert c == c[..n] + c[n..];
    CarryBoth(c[..n], c[n..], id, attempt);
    SelectedFrom(c[..n], busy, ordered);
    SkippedFrom(c[..n], busy, ordered);
    CarrySome(s, c[..n], id, attempt);
    CarrySome(t, c[..n], id, attempt);
    CarryBoth(c[n..], t, id, attempt);
    CarryLeases(s, deadline, id, attempt);
  }

  /** Taking a lease back does not change the attempt. */
  lemma RequeueCounts(q: Queue, now: int, order: seq<string>, id: string, attempt: int)
    requires WellFormed(q) && Enumerates(order, q.inFlight.Keys) && Carry(q.channel, id, attempt)
    requires id in ExpiredKeys(q.inFlight, now) ==> q.inFlight[id].attempt == attempt
    ensures Carry(Requeue(q, now, order).channel, id, attempt)
  {
    hide IdSet, WellFormed, Carry, Requeue, Released, ExpiredKeys, Enumerates, Back;
    var ps := Released(q.inFlight, now, order);
    RequeueKeeps(q, now, order);
    ReleasedCarry(ps, q.inFlight, now, id, attempt);
    assert ps == ps[..q.Room(|ps|)] + ps[q.Room(|ps|)..];
    CarryBoth(ps[..q.Room(|ps|)], ps[q.Room(|ps|)..], id, attempt);
    CarryBoth(q.channel, ps[..q.Room(|ps|)], id, attempt);
  }

  lemma ReleasedCarry(ps: seq<Pending>, inFlight: map<string, Pending>, now: int, id: string, attempt: int)
    requires Back(ps, inFlight)
    requires IdSet(ps) == ExpiredKeys(inFlight, now)
    requires id in ExpiredKeys(inFlight, now) ==> inFlight[id].attempt == attempt
    ensures Carry(ps, id, attempt)
  {
  }

  /** The attempt of a waiting message is the number of its ended leases, that of a leased one is one more. */
  ghost predicate Counted(s: State, leases: nat, ended: nat, id: string) {
    && (id !in s.issued ==> leases == 0 == ended)
    && (id in IdSet(s.queue.channel) ==> leases == ended && Carry(s.queue.channel, id, Wrap(ended)))
    && (id in s.queue.inFlight ==> leases == ended + 1 && s.queue.inFlight[id].attempt == Wrap(leases))
  }

  lemma HeldCarries(m: map<string, Pending>, ps: seq<Pending>, id: string, attempt: int)
    requires Holds(m, ps) && Carry(ps, id, attempt) && id in IdSet(ps)
    ensures id in m && m[id].attempt == attempt
  {
    var i := RecordWithId(ps, id);
  }

  /** What a Pull does to the attempts of one message, waiting with the given attempt or leased. */
  lemma PullCarries(q: Queue, now: int, max: int, wait: int, ordered: bool, order: seq<string>, id: string,
        attempt: int)
    requires WellFormed(q) && ClockRuns(now, wait) && Enumerates(order, q.inFlight.Keys)
    requires Carry(q.channel, id, attempt)
    requires id in ExpiredKeys(q.inFlight, now) ==> q.inFlight[id].attempt == attempt
    ensures var (q', r) := Pull(q, now, max, wait, ordered, order);
      && r.Success? && Carry(q'.channel, id, attempt) && Carry(r.value, id, Increment(attempt))
      && (id in IdSet(r.value) ==> id in q'.inFlight && q'.inFlight[id].attempt == Increment(attempt))
      && (id in q'.inFlight && id !in IdSet(r.value) ==>
        id in q.inFlight && id !in ExpiredKeys(q.inFlight, now) && q'.inFlight[id] == q.inFlight[id])
      && (id in q.inFlight && id !in ExpiredKeys(q.inFlight, now) ==> id in q'.inFlight && id !in IdSet(r.value))
      && IdSet(q'.channel) !! q'.inFlight.Keys
  {
    hide IdSet, Distinct, Waiting, Leased, Requeue, LeaseFrom, Enumerates, Carry, ExpiredKeys, Holds, Released, Back;
    var q1, deadline := Requeue(q, now, order), now + wait;
    var (q', r) := LeaseFrom(q1, max, deadline, ordered);
    RequeueKeeps(q, now, order);
    LeaseKeeps(q1, max, deadline, ordered);
    RequeueCounts(q, now, order, id, attempt);
    LeaseCounts(q1, max, deadline, ordered, id, attempt);
    if id in IdSet(r.value) {
      HeldCarries(q'.inFlight, r.value, id, Increment(attempt));
    }
  }

  lemma PullCounted(s: State, e: Event, leases: nat, ended: nat, id: string)
    requires Inv(s) && CanHappen(s, e) && e.Pulled? && Counted(s, leases, ended, id)
    ensures Counted(Next(s, e),
      leases + if id in IdSet(Delivered(s.queue, e)) then 1 else 0,
      ended + if Ends(s.queue, e, id) then 1 else 0, id)
    ensures Carry(Delivered(s.queue, e), id, Wrap(leases + 1))
  {
    hide IdSet, Distinct, Waiting, Leased, Pull, Enumerates, Carry, ExpiredKeys;
    var q, attempt := s.queue, Wrap(leases);
    NoCopies();
    ExpiredAreLeased(q.inFlight, e.now);
    if id !in IdSet(q.channel) {
      CarryNone(q.channel, id, attempt);
    }
    PullCarries(q, e.now, e.max, e.wait, e.ordered, e.order, id, attempt);
    PullMoves(q, e.now, e.max, e.wait, e.ordered, e.order);
  }

  lemma OtherCounted(s: State, e: Event, leases: nat, ended: nat, id: string)
    requires Inv(s) && CanHappen(s, e) && !e.Pulled? && Counted(s, leases, ended, id)
    ensures Counted(Next(s, e), leases, ended, id) && Delivered(s.queue, e) == []
  {
    hide IdSet, Distinct, Waiting, Leased, Carry, Relist, Wrap;
    var q := s.queue;
    match e {
      case Enqueued(ps) => NewCounted(s, e, q.channel, ps, leases, ended, id);
      case Listed => RelistIs(q);
      case Replaced(ps) => NewCounted(s, e, [], ps, leases, ended, id);
      case Acked(_) =>
      case Extended(_, _, _) =>
    }
    NoCopies();
  }

  /** New copies of messages carry no attempt yet, and ack IDs that were never leased. */
  lemma NewCounted(s: State, e: Event, rest: seq<Pending>, ps: seq<Pending>, leases: nat, ended: nat, id: string)
    requires Inv(s) && CanHappen(s, e) && NewCopies(e) == ps && (e.Enqueued? || e.Replaced?)
    requires Counted(s, leases, ended, id)
    requires rest == if e.Enqueued? then s.queue.channel else []
    ensures Counted(Next(s, e), leases, ended, id)
  {
    hide IdSet, Distinct, Waiting, Leased, Carry;
    var q' := Next(s, e).queue;
    var n := if e.Enqueued? then s.queue.Room(|ps|) else Empty(s.queue.capacity).Room(|ps|);
    assert q'.channel == rest + ps[..n];
    IdSetConcat(rest, ps[..n]);
    SplitAt(ps, n);
    NoCopies();
    LiveIssued(s);
    assert IdSet(rest) <= Live(s.queue);
    var attempt := Wrap(ended);
    if id in IdSet(ps) {
      CarryNone(rest, id, attempt);
      NewCarry(ps[..n], id);
    } else {
      CarryNone(ps[..n], id, attempt);
      if id !in IdSet(rest) {
        CarryNone(rest, id, attempt);
      }
    }
    CarryBoth(rest, ps[..n], id, attempt);
  }

  lemma NewCarry(ps: seq<Pending>, id: string)
    requires forall i :: 0 <= i < |ps| ==> IsNew(ps[i])
    ensures Carry(ps, id, Wrap(0))
  {
  }

  /**
   Over any run, the attempt of a message is the number of its leases as a 32-bit counter: a waiting
   message carries the number of its leases that ended, a leased one carries one more. A message
   that is handed out carries the number of times it was handed out, this one included.
   */
  lemma {:induction false} AttemptsAreLeases(s: State, es: seq<Event>, id: string)
    requires Inv(s) && Legal(s, es) && id !in s.issued
    ensures Counted(Run(s, es), LeaseCount(s, es, id), EndedCount(s, es, id), id)
  {
    hide Inv, CanHappen, Counted, Next, Ends, IdSet, Delivered, Balanced;
    if es == [] {
      UnissuedCounted(s, id);
    } else {
      var n := |es| - 1;
      AttemptsAreLeases(s, es[..n], id);
      assert es[..n + 1] == es;
      RunStep(s, es, n);
      AnyCounted(Run(s, es[..n]), es[n], LeaseCount(s, es[..n], id), EndedCount(s, es[..n], id), id);
    }
  }

  lemma UnissuedCounted(s: State, id: string)
    requires Inv(s) && id !in s.issued
    ensures Counted(s, 0, 0, id)
  {
    LiveIssued(s);
  }

  lemma AnyCounted(s: State, e: Event, leases: nat, ended: nat, id: string)
    requires Inv(s) && CanHappen(s, e) && Counted(s, leases, ended, id)
    ensures Counted(Next(s, e),
      leases + if id in IdSet(Delivered(s.queue, e)) then 1 else 0,
      ended + if Ends(s.queue, e, id) then 1 else 0, id)
    ensures Carry(Delivered(s.queue, e), id, Wrap(leases + 1))
  {
    hide Inv, CanHappen, Counted, Next, Carry, Delivered, IdSet, Wrap;
    if e.Pulled? {
      PullCounted(s, e, leases, ended, id);
    } else {
      OtherCounted(s, e, leases, ended, id);
      NoCopies();
      CarryNone([], id, Wrap(leases + 1));
    }
  }

  lemma HandedOutAttempt(s: State, es: seq<Event>, n: nat, id: string)
    requires Inv(s) && Legal(s, es) && id !in s.issued && n < |es|
    ensures Carry(Delivered(Run(s, es[..n]).queue, es[n]), id, Wrap(LeaseCount(s, es[..n], id) + 1))
  {
    hide Inv, CanHappen, Counted, Next, Carry, Delivered, Balanced, Wrap;
    LegalPrefix(s, es, n);
    AttemptsAreLeases(s, es[..n], id);
    RunStep(s, es, n);
    AnyCounted(Run(s, es[..n]), es[n], LeaseCount(s, es[..n], id), EndedCount(s, es[..n], id), id);
  }

  // ----- Bounded redelivery

  /** Does the list hold the message with fewer attempts than the maximum of a dead-letter policy? */
  predicate HasBelow(ps: seq<Pending>, id: string, maximum: int) {
    exists i :: 0 <= i < |ps| && ps[i].ackID == id && ps[i].attempt < maximum
  }

  /** How many Pulls handed out the message below the maximum; only then does it reach a consumer. */
  function KeptCount(s: State, es: seq<Event>, id: string, maximum: int): nat {
    if es == [] then 0
    else
      KeptCount(s, es[..|es| - 1], id, maximum)
      + if HasBelow(Delivered(Run(s, es[..|es| - 1]).queue, es[|es| - 1]), id, maximum) then 1 else 0
  }

  /** How many of the numbers 1..n are below the maximum, as 32-bit counters. */
  function BelowCount(n: nat, maximum: int): nat {
    if n == 0 then 0 else BelowCount(n - 1, maximum) + if Wrap(n) < maximum then 1 else 0
  }

  lemma CarryBelow(ps: seq<Pending>, id: string, attempt: int, maximum: int)
    requires Carry(ps, id, attempt)
    ensures HasBelow(ps, id, maximum) <==> id in IdSet(ps) && attempt < maximum
  {
    if id in IdSet(ps) {
      var i := RecordWithId(ps, id);
    }
  }

  /** Over any run, a message reaches a consumer as often as the number of its lease is below the maximum. */
  lemma {:induction false} KeptIsBelow(s: State, es: seq<Event>, id: string, maximum: int)
    requires Inv(s) && Legal(s, es) && id !in s.issued
    ensures KeptCount(s, es, id, maximum) == BelowCount(LeaseCount(s, es, id), maximum)
  {
    hide Inv, CanHappen, Carry, Delivered, IdSet, HasBelow, Wrap, Run;
    if es != [] {
      var n := |es| - 1;
      KeptIsBelow(s, es[..n], id, maximum);
      HandedOutAttempt(s, es, n, id);
      CarryBelow(Delivered(Run(s, es[..n]).queue, es[n]), id, Wrap(LeaseCount(s, es[..n], id) + 1), maximum);
    }
  }

  lemma {:induction false} BelowCountIs(n: nat, maximum: nat)
    requires 0 < maximum && n < 0x8000_0000
    ensures BelowCount(n, maximum) == if n < maximum then n else maximum - 1
  {
    WrapIs(n);
    if n > 0 {
      BelowCountIs(n - 1, maximum);
    }
  }

  lemma {:induction false} BelowCountGrows(n: nat, m: nat, maximum: int)
    requires n <= m
    ensures BelowCount(n, maximum) <= BelowCount(m, maximum)
    decreases m
  {
    hide Wrap;
    if n < m {
      BelowCountGrows(n, m - 1, maximum);
    }
  }

  /** The first lease after the counter has wrapped around is handed out again. */
  lemma WrapHandsOutAgain(maximum: nat)
    requires 0 < maximum <= 0x7FFF_FFFF
    ensures BelowCount(0x8000_0000, maximum) == maximum
  {
    hide BelowCount;
    BelowCountIs(0x7FFF_FFFF, maximum);
    WrapIs(0x8000_0000);
    BelowCountStep(0x8000_0000, maximum);
  }

  /**
   Under a dead-letter policy a message reaches a consumer at most maximum - 1 times, however often
   it is leased: exactly until its 32-bit counter wraps around.
   */
  lemma BoundedRedelivery(s: State, es: seq<Event>, id: string, maximum: nat)
    requires Inv(s) && Legal(s, es) && id !in s.issued && 0 < maximum <= 0x7FFF_FFFF
    ensures KeptCount(s, es, id, maximum) <= maximum - 1 <==> LeaseCount(s, es, id) < 0x8000_0000
    ensures LeaseCount(s, es, id) < maximum ==> KeptCount(s, es, id, maximum) == LeaseCount(s, es, id)
  {
    hide KeptCount, LeaseCount, BelowCount, Inv, Legal;
    KeptIsBelow(s, es, id, maximum);
    var n := LeaseCount(s, es, id);
    if n < 0x8000_0000 {
      BelowCountIs(n, maximum);
    } else {
      WrapHandsOutAgain(maximum);
      BelowCountGrows(0x8000_0000, n, maximum);
    }
  }

  lemma BelowCountStep(n: nat, maximum: int)
    requires n > 0
    ensures BelowCount(n, maximum) == BelowCount(n - 1, maximum) + if Wrap(n) < maximum then 1 else 0
  {
  }

  /** How many deliveries the policy still allows a message that carries this attempt. */
  function AttemptsLeft(maximum: int, attempt: int): nat {
    if attempt < maximum then maximum - attempt else 0
  }

  lemma {:induction false} LeaseCountGrows(s: State, es: seq<Event>, i: nat, j: nat, id: string)
    requires i < j <= |es| && id in IdSet(Delivered(Run(s, es[..i]).queue, es[i]))
    ensures LeaseCount(s, es[..i], id) < LeaseCount(s, es[..j], id)
    decreases j
  {
    hide IdSet, Delivered, Run;
    assert es[..j][..j - 1] == es[..j - 1];
    if i < j - 1 {
      LeaseCountGrows(s, es, i, j - 1, id);
    }
  }

  /** From one lease of a message to any later one, the deliveries left become fewer, until none is left. */
  lemma AttemptsRunOut(s: State, es: seq<Event>, i: nat, j: nat, id: string, maximum: int)
    requires Inv(s) && Legal(s, es) && id !in s.issued && i < j < |es|
    requires id in IdSet(Delivered(Run(s, es[..i]).queue, es[i])) && LeaseCount(s, es[..j], id) + 1 < 0x8000_0000
    ensures var before, after := LeaseCount(s, es[..i], id) + 1, LeaseCount(s, es[..j], id) + 1;
      && Carry(Delivered(Run(s, es[..i]).queue, es[i]), id, before)
      && Carry(Delivered(Run(s, es[..j]).queue, es[j]), id, after)
      && (|| AttemptsLeft(maximum, after) < AttemptsLeft(maximum, before)
          || AttemptsLeft(maximum, before) == 0 == AttemptsLeft(maximum, after))
  {
    hide Inv, Legal, Run, LeaseCount, IdSet, Delivered, Carry, Wrap;
    LeaseCountGrows(s, es, i, j, id);
    HandedOutAttempt(s, es, i, id);
    HandedOutAttempt(s, es, j, id);
    WrapIs(LeaseCount(s, es[..i], id) + 1);
    WrapIs(LeaseCount(s, es[..j], id) + 1);
  }
}
