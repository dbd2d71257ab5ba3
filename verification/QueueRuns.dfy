/**
 Runs of one subscription queue, of any length: what the queue holds is accounted for exactly, what
 has left never comes back, and leases are exclusive.

 Each call of the repository is one atomic step. Ack IDs are random in the program; here a new copy
 of a message carries one that was never issued before.
 */
module QueueRuns {
  import opened QueueModel
  import opened QueueLaws

  /** Longer than any duration a request can carry (32-bit seconds), in nanoseconds. */
  const MAX_DURATION := 0x8000_0000 * 1_000_000_000

  datatype Event =
    | Enqueued(ps: seq<Pending>)
    | Pulled(now: int, max: int, wait: int, ordered: bool, order: seq<string>)
    | Listed
    | Replaced(ps: seq<Pending>)
    | Acked(ids: seq<string>)
    | Extended(ids: seq<string>, now: int, duration: int)

  /** A queue, and the ack IDs issued so far. */
  datatype State = State(queue: Queue, issued: set<string>)

  function NewCopies(e: Event): seq<Pending> {
    match e
    case Enqueued(ps) => ps
    case Replaced(ps) => ps
    case _ => []
  }

  ghost predicate FreshCopies(issued: set<string>, ps: seq<Pending>) {
    Distinct(ps) && IdSet(ps) !! issued && forall i :: 0 <= i < |ps| ==> IsNew(ps[i])
  }

  /** The clock reads a date long after the zero time, so that no deadline is mistaken for none. */
  predicate ClockRuns(now: int, duration: int) {
    now > MAX_DURATION && -MAX_DURATION <= duration <= MAX_DURATION
  }

  ghost predicate CanHappen(s: State, e: Event) {
    match e
    case Pulled(now, _, wait, _, order) => ClockRuns(now, wait) && Enumerates(order, s.queue.inFlight.Keys)
    case Extended(_, now, duration) => ClockRuns(now, duration)
    case _ => FreshCopies(s.issued, NewCopies(e))
  }

  function Apply(q: Queue, e: Event): Queue {
    match e
    case Enqueued(ps) => Enqueue(q, ps).0
    case Pulled(now, max, wait, ordered, order) => Pull(q, now, max, wait, ordered, order).0
    case Listed => Relist(q)
    case Replaced(ps) => ReplaceAll(q, ps).0
    case Acked(ids) => Acknowledge(q, ids)
    case Extended(ids, now, duration) => Extend(q, ids, now + duration)
  }

  /** The messages that an event hands out. */
  function Delivered(q: Queue, e: Event): seq<Pending> {
    match e
    case Pulled(now, max, wait, ordered, order) =>
      var r := Pull(q, now, max, wait, ordered, order).1;
      if r.Success? then r.value else []
    case _ => []
  }

  function Next(s: State, e: Event): State {
    State(Apply(s.queue, e), s.issued + IdSet(NewCopies(e)))
  }

  function Run(s: State, es: seq<Event>): State {
    if es == [] then s else Next(Run(s, es[..|es| - 1]), es[|es| - 1])
  }

  ghost predicate Legal(s: State, es: seq<Event>) {
    es == [] || (Legal(s, es[..|es| - 1]) && CanHappen(Run(s, es[..|es| - 1]), es[|es| - 1]))
  }

  ghost predicate Inv(s: State) {
    WellFormed(s.queue) && Live(s.queue) <= s.issued
  }

  // ----- What enters and what leaves

  /** The ack IDs of the new copies that find room. */
  function Entering(q: Queue, e: Event): set<string> {
    match e
    case Enqueued(ps) => IdSet(ps[..q.Room(|ps|)])
    case Replaced(ps) => IdSet(ps[..Empty(q.capacity).Room(|ps|)])
    case _ => {}
  }

  /** The ack IDs that are acknowledged while leased, or replaced by a Seek. */
  function Leaving(q: Queue, e: Event): set<string> {
    match e
    case Acked(ids) => set id | id in ids && id in q.inFlight
    case Replaced(_) => Live(q)
    case _ => {}
  }

  /** The ack IDs of expired leases that do not fit back into the channel. */
  function Dropped(q: Queue, e: Event): set<string> {
    match e
    case Pulled(now, _, _, _, order) => Live(q) - Live(Requeue(q, now, order))
    case _ => {}
  }

  /** Would a Pull at this moment find no room for all expired leases? */
  predicate Overflows(q: Queue, e: Event) {
    e.Pulled? && Overflow(q, e.now) > 0
  }

  lemma NewAreWaiting(issued: set<string>, ps: seq<Pending>)
    requires FreshCopies(issued, ps)
    ensures Waiting(ps)
  {
  }

  lemma RelistIs(q: Queue)
    requires |q.channel| <= q.capacity
    ensures Relist(q) == q.(notify := q.notify || q.channel != [])
  {
    assert [] + q.channel[..|q.channel|] == q.channel;
  }

  lemma OfferKeeps(q: Queue, ps: seq<Pending>)
    requires WellFormed(q) && Distinct(ps) && Waiting(ps) && IdSet(ps) !! Live(q)
    ensures WellFormed(Offer(q, ps)) && Offer(q, ps).capacity == q.capacity
    ensures Live(Offer(q, ps)) == Live(q) + IdSet(ps[..q.Room(|ps|)])
    ensures IdSet(ps[..q.Room(|ps|)]) <= IdSet(ps)
  {
    hide IdSet, Distinct, Waiting, Leased;
    SplitAt(ps, q.Room(|ps|));
    IdSetConcat(q.channel, ps[..q.Room(|ps|)]);
  }

  /** One event: the state stays well formed, and the books balance. */
  ghost predicate Balanced(s: State, e: Event) {
    var q, q' := s.queue, Apply(s.queue, e);
    && WellFormed(q') && q'.capacity == q.capacity
    && Live(q') == (Live(q) - Leaving(q, e) - Dropped(q, e)) + Entering(q, e)
    && Leaving(q, e) <= Live(q) && Dropped(q, e) <= Live(q) && Leaving(q, e) !! Dropped(q, e)
    && Entering(q, e) <= IdSet(NewCopies(e)) && IdSet(NewCopies(e)) !! s.issued
    && (Dropped(q, e) == {} <==> !Overflows(q, e))
    && IdSet(Delivered(q, e)) <= Live(q)
  }

  lemma NoCopies()
    ensures IdSet([]) == {}
  {
  }

  lemma EnqueueBalances(s: State, ps: seq<Pending>)
    requires Inv(s) && FreshCopies(s.issued, ps)
    ensures Balanced(s, Enqueued(ps))
  {
    hide IdSet, Distinct, Waiting, WellFormed, Live, Offer, IsNew, Overflow;
    NewAreWaiting(s.issued, ps);
    OfferKeeps(s.queue, ps);
    NoCopies();
  }

  lemma ReplaceBalances(s: State, ps: seq<Pending>)
    requires Inv(s) && FreshCopies(s.issued, ps)
    ensures Balanced(s, Replaced(ps))
  {
    hide IdSet, Distinct, Waiting, WellFormed, Live, Offer, IsNew, Overflow;
    NewAreWaiting(s.issued, ps);
    var q := s.queue.(channel := [], inFlight := map[]);
    EmptyIsWellFormed(q);
    OfferKeeps(q, ps);
    NoCopies();
  }

  lemma EmptyIsWellFormed(q: Queue)
    requires q.channel == [] && q.inFlight == map[]
    ensures WellFormed(q) && Live(q) == {}
  {
  }

  lemma AckBalances(s: State, ids: seq<string>)
    requires Inv(s)
    ensures Balanced(s, Acked(ids))
  {
    hide IdSet, Distinct, Waiting, Leased, Overflow;
    var q := s.queue;
    var gone := set id | id in ids;
    LeasedMinus(q.inFlight, gone);
    assert (q.inFlight - gone).Keys == q.inFlight.Keys - gone;
    NoCopies();
  }

  lemma ExtendBalances(s: State, ids: seq<string>, now: int, duration: int)
    requires Inv(s) && ClockRuns(now, duration)
    ensures Balanced(s, Extended(ids, now, duration))
  {
    hide IdSet, Distinct, Waiting, Leased, WithinLimits, Overflow;
    var q := s.queue;
    LeasedExtended(q, ids, now + duration);
    assert Extend(q, ids, now + duration).inFlight.Keys == q.inFlight.Keys;
    NoCopies();
  }

  lemma LeasedExtended(q: Queue, ids: seq<string>, deadline: int)
    requires Leased(q.inFlight) && deadline != NO_DEADLINE
    ensures Leased(Extend(q, ids, deadline).inFlight)
  {
  }

  lemma PullKeeps(q: Queue, now: int, max: int, wait: int, ordered: bool, order: seq<string>)
    requires WellFormed(q) && ClockRuns(now, wait) && Enumerates(order, q.inFlight.Keys)
    ensures var (q', r) := Pull(q, now, max, wait, ordered, order);
      && WellFormed(q') && q'.capacity == q.capacity && Live(q') == Live(Requeue(q, now, order)) <= Live(q)
      && r.Success? && IdSet(r.value) <= Live(q)
  {
    hide IdSet, Distinct, WellFormed, Live, Requeue, LeaseFrom, Enumerates;
    var q1 := Requeue(q, now, order);
    RequeueKeeps(q, now, order);
    RequeueLosesOverflow(q, now, order);
    LeaseKeeps(q1, max, now + wait, ordered);
  }

  /** What a Pull hands out or leaves in the channel was waiting, or its lease had expired. */
  lemma PullMoves(q: Queue, now: int, max: int, wait: int, ordered: bool, order: seq<string>)
    requires WellFormed(q) && ClockRuns(now, wait) && Enumerates(order, q.inFlight.Keys)
    ensures var (q', r) := Pull(q, now, max, wait, ordered, order);
      && r.Success? && IdSet(r.value) <= q'.inFlight.Keys
      && IdSet(r.value) + IdSet(q'.channel) <= IdSet(q.channel) + ExpiredKeys(q.inFlight, now)
      && IdSet(q.channel) !! q.inFlight.Keys
  {
    hide IdSet, Distinct, Waiting, Leased, Requeue, LeaseFrom, Enumerates, Released, ExpiredKeys;
    var ps := Released(q.inFlight, now, order);
    RequeueKeeps(q, now, order);
    SplitAt(ps, q.Room(|ps|));
    LeaseKeeps(Requeue(q, now, order), max, now + wait, ordered);
  }

  lemma PullBalances(s: State, now: int, max: int, wait: int, ordered: bool, order: seq<string>)
    requires Inv(s) && CanHappen(s, Pulled(now, max, wait, ordered, order))
    ensures Balanced(s, Pulled(now, max, wait, ordered, order))
  {
    hide IdSet, Distinct, WellFormed, Live, Requeue, Pull, Enumerates, Overflow;
    PullKeeps(s.queue, now, max, wait, ordered, order);
    RequeueLosesOverflow(s.queue, now, order);
    NoCopies();
  }

  lemma ListBalances(s: State)
    requires Inv(s)
    ensures Balanced(s, Listed)
  {
    hide IdSet, Distinct, Waiting, Leased, Relist, Overflow;
    RelistIs(s.queue);
    NoCopies();
  }

  lemma StepBalances(s: State, e: Event)
    requires Inv(s) && CanHappen(s, e)
    ensures Balanced(s, e) && Inv(Next(s, e))
  {
    hide IdSet, Distinct, WellFormed, Live, Apply, Balanced, FreshCopies, Enumerates, ClockRuns;
    match e {
      case Enqueued(ps) => EnqueueBalances(s, ps);
      case Pulled(now, max, wait, ordered, order) => PullBalances(s, now, max, wait, ordered, order);
      case Listed => ListBalances(s);
      case Replaced(ps) => ReplaceBalances(s, ps);
      case Acked(ids) => AckBalances(s, ids);
      case Extended(ids, now, duration) => ExtendBalances(s, ids, now, duration);
    }
    BalancedInv(s, e);
  }

  lemma BalancedInv(s: State, e: Event)
    requires Inv(s) && Balanced(s, e)
    ensures Inv(Next(s, e))
  {
    hide IdSet, WellFormed, Live, Apply, Overflow, Leaving, Dropped, Entering;
  }

  // ----- Conservation

  lemma {:induction false} InvAlways(s: State, es: seq<Event>)
    requires Inv(s) && Legal(s, es)
    ensures Inv(Run(s, es))
  {
    hide Inv, CanHappen, Next;
    if es != [] {
      InvAlways(s, es[..|es| - 1]);
      StepBalances(Run(s, es[..|es| - 1]), es[|es| - 1]);
    }
  }

  lemma {:induction false} LegalPrefix(s: State, es: seq<Event>, i: nat)
    requires Legal(s, es) && i <= |es|
    ensures Legal(s, es[..i])
  {
    hide CanHappen, Run;
    if i == |es| {
      assert es[..i] == es;
    } else {
      LegalPrefix(s, es[..|es| - 1], i);
      assert es[..|es| - 1][..i] == es[..i];
    }
  }

  /** One more event of a run. */
  lemma RunStep(s: State, es: seq<Event>, i: nat)
    requires Legal(s, es) && i < |es| && Inv(s)
    ensures CanHappen(Run(s, es[..i]), es[i]) && Run(s, es[..i + 1]) == Next(Run(s, es[..i]), es[i])
    ensures Inv(Run(s, es[..i])) && Balanced(Run(s, es[..i]), es[i])
  {
    hide CanHappen, Next, Inv, Balanced;
    LegalPrefix(s, es, i);
    LegalPrefix(s, es, i + 1);
    assert es[..i + 1][..i] == es[..i];
    InvAlways(s, es[..i]);
    StepBalances(Run(s, es[..i]), es[i]);
  }

  /** All ack IDs that found room during a run. */
  function Entered(s: State, es: seq<Event>): set<string> {
    if es == [] then {} else Entered(s, es[..|es| - 1]) + Entering(Run(s, es[..|es| - 1]).queue, es[|es| - 1])
  }

  /** All ack IDs that were acknowledged while leased, or replaced by a Seek. */
  function Left(s: State, es: seq<Event>): set<string> {
    if es == [] then {} else Left(s, es[..|es| - 1]) + Leaving(Run(s, es[..|es| - 1]).queue, es[|es| - 1])
  }

  /** All ack IDs that were lost for want of room. */
  function Lost(s: State, es: seq<Event>): set<string> {
    if es == [] then {} else Lost(s, es[..|es| - 1]) + Dropped(Run(s, es[..|es| - 1]).queue, es[|es| - 1])
  }

  predicate EverOverflows(s: State, es: seq<Event>) {
    es != [] && (EverOverflows(s, es[..|es| - 1]) || Overflows(Run(s, es[..|es| - 1]).queue, es[|es| - 1]))
  }

  /**
   Over any run, a queue holds exactly what it held, plus what found room, minus what was
   acknowledged or replaced and what was lost; and it loses something if and only if some Pull finds
   less room than expired leases.
   */
  lemma {:induction false} Conservation(s: State, es: seq<Event>)
    requires Inv(s) && Legal(s, es)
    ensures Live(Run(s, es).queue) == (Live(s.queue) + Entered(s, es)) - (Left(s, es) + Lost(s, es))
    ensures Left(s, es) + Lost(s, es) <= Live(s.queue) + Entered(s, es) && Left(s, es) !! Lost(s, es)
    ensures Entered(s, es) !! s.issued && s.issued + Entered(s, es) <= Run(s, es).issued
    ensures Lost(s, es) == {} <==> !EverOverflows(s, es)
  {
    hide CanHappen, Live, Leaving, Dropped, Entering, Overflows, WellFormed, IdSet, Apply;
    if es != [] {
      var n := |es| - 1;
      Conservation(s, es[..n]);
      assert es[..n + 1] == es;
      RunStep(s, es, n);
    }
  }

  /** A caller can rule out losses: never let queue and leases together outgrow the channel. */
  ghost predicate KeepsWithin(s: State, es: seq<Event>) {
    es == [] || (
      KeepsWithin(s, es[..|es| - 1]) &&
      var q, e := Run(s, es[..|es| - 1]).queue, es[|es| - 1];
      match e
      case Enqueued(ps) => |q.channel| + |q.inFlight.Keys| + |ps| <= q.capacity
      case _ => true)
  }

  lemma {:induction false} RoomForAll(s: State, es: seq<Event>)
    requires Inv(s) && Legal(s, es) && KeepsWithin(s, es)
    requires |s.queue.channel| + |s.queue.inFlight.Keys| <= s.queue.capacity
    ensures !EverOverflows(s, es) && Run(s, es).queue.capacity == s.queue.capacity
    ensures |Live(Run(s, es).queue)| <= s.queue.capacity
  {
    hide CanHappen, Inv, Live, IdSet, Overflow, Apply;
    if es == [] {
      InvAlways(s, es);
      LiveSize(s);
    } else {
      var n := |es| - 1;
      var s1, e := Run(s, es[..n]), es[n];
      RoomForAll(s, es[..n]);
      assert es[..n + 1] == es;
      RunStep(s, es, n);
      StaysWithin(s1, e);
    }
  }

  lemma LiveSize(s: State)
    requires Inv(s)
    ensures |Live(s.queue)| == |s.queue.channel| + |s.queue.inFlight.Keys|
  {
    LiveCount(s.queue);
  }

  lemma StaysWithin(s: State, e: Event)
    requires Inv(s) && CanHappen(s, e) && |Live(s.queue)| <= s.queue.capacity
    requires e.Enqueued? ==> |s.queue.channel| + |s.queue.inFlight.Keys| + |e.ps| <= s.queue.capacity
    ensures !Overflows(s.queue, e) && |Live(Next(s, e).queue)| <= s.queue.capacity
  {
    hide IdSet, WellFormed, CanHappen, Live, Leaving, Dropped, Overflow, Apply;
    StepBalances(s, e);
    LiveSize(s);
    ExpiredSize(s.queue, e);
    var before, after := Live(s.queue), Live(Next(s, e).queue);
    if e.Enqueued? {
      FreshSize(s, e);
      SubsetSize(after, before + IdSet(e.ps));
    } else if e.Replaced? {
      LiveSize(Next(s, e));
      ReplacedSize(s.queue, e);
    } else {
      SubsetSize(after, before);
    }
  }

  lemma ReplacedSize(q: Queue, e: Event)
    requires e.Replaced?
    ensures |Apply(q, e).channel| + |Apply(q, e).inFlight.Keys| <= q.capacity
  {
  }

  lemma FreshSize(s: State, e: Event)
    requires CanHappen(s, e) && e.Enqueued?
    ensures |IdSet(e.ps)| == |e.ps|
  {
    Count(e.ps);
  }

  lemma ExpiredSize(q: Queue, e: Event)
    requires |q.channel| + |q.inFlight.Keys| <= q.capacity
    ensures !Overflows(q, e)
  {
    if e.Pulled? {
      assert ExpiredKeys(q.inFlight, e.now) <= q.inFlight.Keys;
      SubsetSize(ExpiredKeys(q.inFlight, e.now), q.inFlight.Keys);
    }
  }

  lemma SubsetSize(a: set<string>, b: set<string>)
    requires a <= b
    ensures |a| <= |b|
  {
    assert b == a + (b - a);
  }

  // ----- Finality

  /** What was issued and is held no more is never held again. */
  lemma {:induction false} GoneForGood(s: State, es: seq<Event>, i: nat, j: nat, id: string)
    requires Inv(s) && Legal(s, es) && i <= j <= |es|
    requires id in Run(s, es[..i]).issued && id !in Live(Run(s, es[..i]).queue)
    ensures id in Run(s, es[..j]).issued && id !in Live(Run(s, es[..j]).queue)
    decreases j
  {
    hide Inv, CanHappen, Run, Live, IdSet, Legal, WellFormed, Entering, Leaving, Dropped, Overflows;
    if i < j {
      GoneForGood(s, es, i, j - 1, id);
      RunStep(s, es, j - 1);
    }
  }

  /**
   An ack ID that was acknowledged while leased, replaced by a Seek, or lost, is in no later Pull;
   acknowledging or extending it again changes nothing.
   */
  lemma Finality(s: State, es: seq<Event>, i: nat, j: nat, id: string)
    requires Inv(s) && Legal(s, es) && i < j < |es|
    requires id in Leaving(Run(s, es[..i]).queue, es[i]) + Dropped(Run(s, es[..i]).queue, es[i])
    ensures var q := Run(s, es[..j]).queue;
      && id !in Live(q) && id !in IdSet(Delivered(q, es[j]))
      && Acknowledge(q, [id]) == q && forall d :: Extend(q, [id], d) == q
  {
    hide Inv, CanHappen, Run, IdSet, Legal, WellFormed, Entering, Leaving, Dropped, Overflows, Apply;
    RunStep(s, es, i);
    LiveIssued(Run(s, es[..i]));
    GoneForGood(s, es, i + 1, j, id);
    RunStep(s, es, j);
    NotLeased(Run(s, es[..j]).queue, id);
  }

  lemma LiveIssued(s: State)
    requires Inv(s)
    ensures Live(s.queue) <= s.issued
  {
  }

  lemma NotLeased(q: Queue, id: string)
    requires id !in q.inFlight
    ensures Acknowledge(q, [id]) == q && forall d :: Extend(q, [id], d) == q
  {
    assert q.inFlight - (set k | k in [id]) == q.inFlight;
    forall d ensures Extend(q, [id], d) == q {
      assert Extend(q, [id], d).inFlight == q.inFlight;
    }
  }

  // ----- Exclusive leases

  /** A leased record gets back into the channel only when a Pull finds its deadline passed. */
  lemma BackInChannel(s: State, e: Event, id: string)
    requires Inv(s) && CanHappen(s, e) && id in s.queue.inFlight && id in IdSet(Next(s, e).queue.channel)
    ensures e.Pulled? && Expired(s.queue.inFlight[id], e.now)
  {
    hide IdSet, Distinct, Waiting, Leased, Pull, Relist, Enumerates, WithinLimits;
    var q := s.queue;
    match e {
      case Enqueued(ps) => SplitAt(ps, q.Room(|ps|)); IdSetConcat(q.channel, ps[..q.Room(|ps|)]);
      case Pulled(now, max, wait, ordered, order) => PullMoves(q, now, max, wait, ordered, order);
      case Listed => RelistIs(q);
      case Replaced(ps) => ReplaceBalances(s, ps);
      case Acked(_) =>
      case Extended(_, _, _) =>
    }
  }

  /** Between a lease and the record's return to the channel, a Pull came after the deadline it then had. */
  lemma {:induction false} LeaseEnded(s: State, es: seq<Event>, i: nat, j: nat, id: string) returns (k: nat)
    requires Inv(s) && Legal(s, es) && i <= j <= |es|
    requires id in Run(s, es[..i]).queue.inFlight && id in IdSet(Run(s, es[..j]).queue.channel)
    ensures i <= k < j && es[k].Pulled? && id in Run(s, es[..k]).queue.inFlight
    ensures Expired(Run(s, es[..k]).queue.inFlight[id], es[k].now)
    decreases j
  {
    hide CanHappen, Run, IdSet, Legal, Entering, Leaving, Dropped, Overflows, Apply, Delivered, Distinct, Waiting,
      Leased;
    if i == j {
      InvAlways(s, es[..i]) by { LegalPrefix(s, es, i); }
      assert false;
    } else {
      RunStep(s, es, j - 1);
      var s1 := Run(s, es[..j - 1]);
      if id in s1.queue.inFlight {
        BackInChannel(s1, es[j - 1], id);
        k := j - 1;
      } else {
        StillLive(s, es, i, j, id);
        k := LeaseEnded(s, es, i, j - 1, id);
      }
    }
  }

  lemma StillLive(s: State, es: seq<Event>, i: nat, j: nat, id: string)
    requires Inv(s) && Legal(s, es) && i < j <= |es|
    requires id in Run(s, es[..i]).queue.inFlight && id in IdSet(Run(s, es[..j]).queue.channel)
    ensures id in Live(Run(s, es[..j - 1]).queue)
  {
    hide CanHappen, Run, IdSet, Legal, WellFormed, Entering, Leaving, Dropped, Overflows, Apply;
    if id !in Live(Run(s, es[..j - 1]).queue) {
      RunStep(s, es, i);
      IssuedGrows(s, es, i, j - 1);
      GoneForGood(s, es, j - 1, j, id);
    }
  }

  lemma {:induction false} IssuedGrows(s: State, es: seq<Event>, i: nat, j: nat)
    requires Inv(s) && Legal(s, es) && i <= j <= |es|
    ensures Run(s, es[..i]).issued <= Run(s, es[..j]).issued
    decreases j
  {
    hide Inv, CanHappen, Run, IdSet, Legal, Balanced, Apply;
    if i < j {
      IssuedGrows(s, es, i, j - 1);
      RunStep(s, es, j - 1);
    }
  }

  /**
   A lease is exclusive: when the same ack ID is handed out twice, some Pull in between, or the
   second one itself, came after the deadline that the lease had at that moment.
   */
  lemma ExclusiveLease(s: State, es: seq<Event>, i: nat, j: nat, id: string) returns (k: nat)
    requires Inv(s) && Legal(s, es) && i < j < |es|
    requires id in IdSet(Delivered(Run(s, es[..i]).queue, es[i]))
    requires id in IdSet(Delivered(Run(s, es[..j]).queue, es[j]))
    ensures i < k <= j && es[k].Pulled? && id in Run(s, es[..k]).queue.inFlight
    ensures Expired(Run(s, es[..k]).queue.inFlight[id], es[k].now)
  {
    hide CanHappen, Run, IdSet, Legal, Apply, Entering, Leaving, Dropped, Overflows, Inv, Delivered;
    RunStep(s, es, i);
    RunStep(s, es, j);
    DeliveredIsLeased(Run(s, es[..i]), es[i], id);
    var s1 := Run(s, es[..j]);
    DeliveredWasFree(s1, es[j], id);
    if id in s1.queue.inFlight {
      k := j;
    } else {
      k := LeaseEnded(s, es, i + 1, j, id);
    }
  }

  lemma DeliveredIsLeased(s: State, e: Event, id: string)
    requires Inv(s) && CanHappen(s, e) && id in IdSet(Delivered(s.queue, e))
    ensures id in Next(s, e).queue.inFlight
  {
    hide IdSet, WellFormed, Pull, Enumerates;
    NoCopies();
    if e.Pulled? {
      PullMoves(s.queue, e.now, e.max, e.wait, e.ordered, e.order);
    }
  }

  /** A message that is handed out was waiting, or its lease had expired. */
  lemma DeliveredWasFree(s: State, e: Event, id: string)
    requires Inv(s) && CanHappen(s, e) && id in IdSet(Delivered(s.queue, e))
    ensures e.Pulled?
    ensures if id in s.queue.inFlight then Expired(s.queue.inFlight[id], e.now) else id in IdSet(s.queue.channel)
  {
    hide IdSet, WellFormed, Pull, Enumerates;
    NoCopies();
    if e.Pulled? {
      PullMoves(s.queue, e.now, e.max, e.wait, e.ordered, e.order);
    }
  }
}
