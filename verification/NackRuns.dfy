/**
 The delivery attempt as the API describes it: one, plus the number of nacks, plus the number of ack
 deadlines that passed, and zero without a dead-letter policy. The program counts leases instead; here
 is the difference between the two, and when there is none.
 */
module NackRuns {
  import opened QueueModel
  import opened QueueLaws
  import opened QueueRuns
  import opened DeliveryRuns

  /** A nack: a call that sets the ack deadline of the message to now, wherever the message is. */
  predicate IsNack(e: Event, id: string) {
    e.Extended? && e.duration == 0 && id in e.ids
  }

  /** How often the message was nacked, once it had been handed out. */
  function Nacks(s: State, es: seq<Event>, id: string): nat {
    if es == [] then 0
    else
      Nacks(s, es[..|es| - 1], id)
      + if IsNack(es[|es| - 1], id) && LeaseCount(s, es[..|es| - 1], id) > 0 then 1 else 0
  }

  /** Is the message leased, and the last thing done to its lease a nack? */
  predicate GivenUp(s: State, es: seq<Event>, id: string) {
    es != [] && (
      var q, e, before := Run(s, es[..|es| - 1]).queue, es[|es| - 1], GivenUp(s, es[..|es| - 1], id);
      && id in Apply(q, e).inFlight
      && match e
         case Extended(ids, _, duration) => if id in ids then duration == 0 else before
         case Pulled(_, _, _, _, _) => before && !Ends(q, e, id)
         case _ => before)
  }

  /** The event takes back or replaces the deadline of a lease, and this deadline has passed. */
  predicate Passed(q: Queue, e: Event, id: string) {
    && id in q.inFlight
    && match e
       case Pulled(now, _, _, _, _) => Expired(q.inFlight[id], now)
       case Extended(ids, now, _) => id in ids && Expired(q.inFlight[id], now)
       case _ => false
  }

  /** How many ack deadlines passed before the message was acknowledged; what a nack sets is none. */
  function Missed(s: State, es: seq<Event>, id: string): nat {
    if es == [] then 0
    else
      Missed(s, es[..|es| - 1], id)
      + if Passed(Run(s, es[..|es| - 1]).queue, es[|es| - 1], id) && !GivenUp(s, es[..|es| - 1], id) then 1 else 0
  }

  // ----- What the program does not count

  /** Nacks of a message that is not leased at the time: a Pull has put it back. */
  function Ignored(s: State, es: seq<Event>, id: string): nat {
    if es == [] then 0
    else
      Ignored(s, es[..|es| - 1], id)
      + if IsNack(es[|es| - 1], id) && LeaseCount(s, es[..|es| - 1], id) > 0
        && id !in Run(s, es[..|es| - 1]).queue.inFlight
        then 1 else 0
  }

  /** Deadlines that had passed when a late extension or nack replaced them, before any Pull. */
  function Late(s: State, es: seq<Event>, id: string): nat {
    if es == [] then 0
    else
      var e := es[|es| - 1];
      Late(s, es[..|es| - 1], id)
      + if e.Extended? && Passed(Run(s, es[..|es| - 1]).queue, e, id) && !GivenUp(s, es[..|es| - 1], id) then 1 else 0
  }

  /** Does the event act on the lease of the message: extend, nack, acknowledge or replace it? */
  predicate ActsOn(e: Event, id: string) {
    match e
    case Extended(ids, _, _) => id in ids
    case Acked(ids) => id in ids
    case Replaced(_) => true
    case _ => false
  }

  /** Nacks that came to nothing: something else was done to the lease before a Pull took it back. */
  function Overridden(s: State, es: seq<Event>, id: string): nat {
    if es == [] then 0
    else Overridden(s, es[..|es| - 1], id) + if GivenUp(s, es[..|es| - 1], id) && ActsOn(es[|es| - 1], id) then 1 else 0
  }

  function Uncounted(s: State, es: seq<Event>, id: string): nat {
    Overridden(s, es, id) + Ignored(s, es, id) + Late(s, es, id)
  }

  // ----- Nacks and passed deadlines against ended leases

  lemma GivenUpIsLeased(s: State, es: seq<Event>, id: string)
    ensures GivenUp(s, es, id) ==> id in Run(s, es).queue.inFlight
  {
    hide Apply;
  }

  /** A lease that has not ended outlasts every event that does not act on it. */
  lemma LeaseStays(s: State, e: Event, id: string)
    requires Inv(s) && CanHappen(s, e) && id in s.queue.inFlight && !Ends(s.queue, e, id) && !ActsOn(e, id)
    ensures id in Apply(s.queue, e).inFlight
  {
    hide IdSet, Distinct, Waiting, Leased, Enumerates, ExpiredKeys, Requeue, LeaseFrom, Released, Back;
    if e.Pulled? {
      RequeueKeeps(s.queue, e.now, e.order);
      LeaseKeeps(Requeue(s.queue, e.now, e.order), e.max, e.now + e.wait, e.ordered);
    }
  }

  lemma ExtendKeepsKeys(q: Queue, ids: seq<string>, deadline: int)
    ensures Extend(q, ids, deadline).inFlight.Keys == q.inFlight.Keys
  {
  }

  lemma GivenUpStep(s: State, es: seq<Event>, id: string)
    requires es != [] && Inv(Run(s, es[..|es| - 1])) && CanHappen(Run(s, es[..|es| - 1]), es[|es| - 1])
    ensures var q, e, before := Run(s, es[..|es| - 1]).queue, es[|es| - 1], GivenUp(s, es[..|es| - 1], id);
      GivenUp(s, es, id) ==
        ((IsNack(e, id) && id in q.inFlight) || (before && !Ends(q, e, id) && !ActsOn(e, id)))
  {
    hide Inv, CanHappen, Run, ExpiredKeys;
    var s1, e := Run(s, es[..|es| - 1]), es[|es| - 1];
    GivenUpIsLeased(s, es[..|es| - 1], id);
    if GivenUp(s, es[..|es| - 1], id) && !Ends(s1.queue, e, id) && !ActsOn(e, id) {
      LeaseStays(s1, e, id);
    }
    if e.Extended? {
      ExtendKeepsKeys(s1.queue, e.ids, e.now + e.duration);
    }
  }

  /** What is leased has been handed out. */
  lemma LeasedWasHandedOut(s: State, es: seq<Event>, id: string)
    requires Inv(s) && Legal(s, es) && id !in s.issued && id in Run(s, es).queue.inFlight
    ensures LeaseCount(s, es, id) > 0
  {
    hide Inv, Legal, Run, LeaseCount, EndedCount, Carry, IdSet, Wrap;
    AttemptsAreLeases(s, es, id);
  }

  lemma PassedIsEnded(q: Queue, e: Event, id: string)
    ensures e.Pulled? ==> (Passed(q, e, id) <==> Ends(q, e, id))
  {
  }

  /**
   Over any run every nack and every deadline that passed ends one lease, except for those that the
   program does not count, and a nack that no Pull has honoured yet.
   */
  lemma {:induction false} NacksAndMisses(s: State, es: seq<Event>, id: string)
    requires Inv(s) && Legal(s, es) && id !in s.issued
    ensures Nacks(s, es, id) + Missed(s, es, id) ==
      EndedCount(s, es, id) + Uncounted(s, es, id) + if GivenUp(s, es, id) then 1 else 0
  {
    hide Inv, CanHappen, Next, Run, Balanced, ExpiredKeys, GivenUp, LeaseCount, Passed;
    if es != [] {
      var n := |es| - 1;
      NacksAndMisses(s, es[..n], id);
      assert es[..n + 1] == es;
      RunStep(s, es, n);
      GivenUpStep(s, es, id);
      GivenUpIsLeased(s, es[..n], id);
      PassedIsEnded(Run(s, es[..n]).queue, es[n], id);
      PassedIsLeased(Run(s, es[..n]).queue, es[n], id);
      if id in Run(s, es[..n]).queue.inFlight {
        LeasedWasHandedOut(s, es[..n], id);
      }
    } else {
      NotGivenUp(s, id);
    }
  }

  lemma NotGivenUp(s: State, id: string)
    ensures !GivenUp(s, [], id)
  {
  }

  lemma PassedIsLeased(q: Queue, e: Event, id: string)
    ensures Passed(q, e, id) ==> id in q.inFlight && (e.Pulled? || (e.Extended? && id in e.ids))
  {
  }

  // ----- What the API promises

  /** The delivery attempt that the API describes. */
  function Documented(hasPolicy: bool, nacks: nat, missed: nat): nat {
    if hasPolicy then 1 + nacks + missed else 0
  }

  lemma WrapFacts(n: nat)
    ensures Wrap(n) <= n && (Wrap(n) == n <==> n < 0x8000_0000) && (Wrap(n) == 0 <==> n % 0x1_0000_0000 == 0)
  {
    hide Wrap;
    WrapIs(n);
    var r := n % 0x1_0000_0000;
    assert Wrap(n) == if r < 0x8000_0000 then r else r - 0x1_0000_0000;
  }

  /** A message handed out by the last event carries one more than the number of its leases that ended. */
  lemma HandedOutEnded(s: State, es: seq<Event>, id: string)
    requires Inv(s) && Legal(s, es) && id !in s.issued && es != []
    requires id in IdSet(Delivered(Run(s, es[..|es| - 1]).queue, es[|es| - 1]))
    ensures Carry(Delivered(Run(s, es[..|es| - 1]).queue, es[|es| - 1]), id, Wrap(EndedCount(s, es, id) + 1))
    ensures !GivenUp(s, es, id)
  {
    hide Inv, CanHappen, Next, Run, Balanced, Carry, IdSet, Delivered, Wrap, Apply;
    var n := |es| - 1;
    assert es[..n + 1] == es;
    RunStep(s, es, n);
    HandedOutAttempt(s, es, n, id);
    AttemptsAreLeases(s, es, id);
    DeliveredIsLeased(Run(s, es[..n]), es[n], id);
    DeliveredWasFree(Run(s, es[..n]), es[n], id);
    GivenUpIsLeased(s, es[..n], id);
  }

  /**
   The attempt that a message is handed out with is the documented one if and only if the subscription
   has a dead-letter policy, the number fits into 32 bits, and the program has counted every nack and
   every deadline: no nack was overridden by another action on the lease, none came when the message
   was not leased, and no deadline had passed when an extension or a nack replaced it. (Without a policy
   zero is documented, which the counter shows once in 2^32 leases.)
   */
  lemma AttemptAsDocumented(s: State, es: seq<Event>, id: string, p: Pending, hasPolicy: bool)
    requires Inv(s) && Legal(s, es) && id !in s.issued && es != []
    requires p in Delivered(Run(s, es[..|es| - 1]).queue, es[|es| - 1]) && p.ackID == id
    ensures p.attempt == Documented(hasPolicy, Nacks(s, es, id), Missed(s, es, id)) <==>
      if hasPolicy then
        && Overridden(s, es, id) == 0 && Ignored(s, es, id) == 0 && Late(s, es, id) == 0
        && 1 + Nacks(s, es, id) + Missed(s, es, id) <= 0x7FFF_FFFF
      else (EndedCount(s, es, id) + 1) % 0x1_0000_0000 == 0
  {
    hide Inv, Legal, Run, Nacks, Missed, Overridden, Ignored, Late, EndedCount, GivenUp, Delivered, IdSet, Wrap;
    MemberId(Delivered(Run(s, es[..|es| - 1]).queue, es[|es| - 1]), p);
    HandedOutEnded(s, es, id);
    NacksAndMisses(s, es, id);
    WrapFacts(EndedCount(s, es, id) + 1);
  }

  lemma MemberId(ps: seq<Pending>, p: Pending)
    requires p in ps
    ensures p.ackID in IdSet(ps)
  {
  }
}
