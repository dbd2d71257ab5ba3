/**
 A run of a broker, from its empty start, in which a message is handed over to a dead-letter topic and
 yet stays with its subscription: before the hand-off of its batch, a later Pull has taken it back.
 */
module SampleDeadLetters {
  import opened Text
  import opened QueueModel
  import opened QueueLaws
  import opened QueueRuns
  import opened MessageLogs
  import FilterSyntax
  import opened BrokerModel
  import opened BrokerRuns
  import opened BrokerSafety
  import DeadLetters
  import SampleRuns

  const TOPIC := "p/p/t/t"
  const DEAD_TOPIC := "p/p/t/d"
  const MAX_ATTEMPTS := 5
  const WAIT := 10

  function Sub(): Subscription {
    Subscription(TOPIC, "", WAIT, false, Some(DeadLetterPolicy(DEAD_TOPIC, MAX_ATTEMPTS)))
  }

  /** Before anything was published; nobody subscribes to the dead-letter topic. */
  function Before(): Broker {
    Broker({TOPIC, DEAD_TOPIC}, map["s" := Sub()], map[], map[], map["s" := Empty(2)], 0, {}, multiset{})
  }

  /** A message without attributes, as it is published. */
  function Sent(): Message {
    Message("", "", map[], "", 0)
  }

  /** The two messages, and their ack IDs. */
  function TheMessage(id: string): Message {
    Sent().(id := MessageID(if id == "a" then 1 else 2), publishTime := SampleRuns.START)
  }

  function OnTheWay(): FanOut {
    FanOut("s", "", [TheMessage("a"), TheMessage("b")])
  }

  function Sending(): Action {
    Published(TOPIC, [Sent(), Sent()], SampleRuns.START, ["s"])
  }

  function Arriving(): Action {
    FannedOut(OnTheWay(), ["a", "b"])
  }

  /** The broker once both messages have arrived, with this queue. */
  function With(q: Queue): Broker {
    Before().(
      log := Logged(map[], TOPIC, OnTheWay().messages), messageCount := 2, issued := {"a", "b"},
      queues := map["s" := q])
  }

  function Since(): Broker {
    Before().(log := Logged(map[], TOPIC, OnTheWay().messages), messageCount := 2, fanOuts := multiset{OnTheWay()})
  }

  function Record(id: string, deadline: int, attempt: int): Pending {
    Pending(TheMessage(id), id, deadline, attempt)
  }

  function Loaded(): Queue {
    Queue(2, [Record("a", NO_DEADLINE, 0), Record("b", NO_DEADLINE, 0)], map[], true)
  }

  lemma WithinTheLimits(id: string)
    ensures WithinLimits(Sent()) && WithinLimits(TheMessage(id))
  {
    hide MessageID;
  }

  lemma Publishes()
    ensures Possible(Before(), Sending()) && Step(Before(), Sending()) == Since()
  {
    hide MessageID, WithinLimits, Logged;
    var b, stamped := Before(), Stamp([Sent(), Sent()], 0, SampleRuns.START);
    WithinTheLimits("a");
    assert Subscribers(b.subscriptions, TOPIC) == {"s"};
    assert stamped == OnTheWay().messages;
    assert ["s"][..0] == [];
    assert FanOuts(b.subscriptions, ["s"], stamped) == multiset{OnTheWay()};
  }

  lemma MatchesAll(m: Message)
    ensures FilterSyntax.Matches("", m.attributes)
  {
    hide FilterSyntax.ParseOr;
  }

  lemma AllMatch()
    ensures Matching(OnTheWay().messages, "") == OnTheWay().messages
  {
    hide TheMessage, FilterSyntax.Matches;
    var ms := OnTheWay().messages;
    MatchesAll(ms[0]);
    MatchesAll(ms[1]);
    assert ms[..1] == [ms[0]] && ms[..1][..0] == [];
    assert Matching(ms[..1], "") == [ms[0]];
  }

  lemma Arrives()
    ensures Possible(Since(), Arriving()) && Step(Since(), Arriving()) == With(Loaded())
  {
    hide MessageID, Matching, Logged, TheMessage;
    AllMatch();
    var ps := NewPending(OnTheWay().messages, ["a", "b"]);
    assert ps == Loaded().channel && [] + ps[..2] == ps;
    assert IdsIn(["a", "b"]) == {"a", "b"};
    assert {} + {"a", "b"} == {"a", "b"};
    assert Since().queues["s" := Loaded()] == map["s" := Loaded()];
    assert multiset{OnTheWay()} - multiset{OnTheWay()} == multiset{};
  }

  // ----- Pulls of one message, each after the deadline of the one before

  function Name(i: nat): string {
    if i % 2 == 0 then "a" else "b"
  }

  function Clock(i: nat): int {
    SampleRuns.START + (WAIT + 1) * i
  }

  /** Pull number i, counted from 0, takes back what the one before it leased. */
  function PullAt(i: nat): Action {
    LeasedBatch("s", 1, Clock(i), if i == 0 then [] else [Name(i - 1)])
  }

  /** What it leases: the messages take turns. */
  function LeasedAt(i: nat): Pending {
    Record(Name(i), Clock(i) + WAIT, i / 2 + 1)
  }

  /** The queue after it. */
  function Turn(i: nat): Queue {
    Queue(2, [Record(Name(i + 1), NO_DEADLINE, (i + 1) / 2)], map[Name(i) := LeasedAt(i)], true)
  }

  function At(i: nat): Queue {
    if i == 0 then Loaded() else Turn(i - 1)
  }

  lemma FirstPull()
    ensures Enumerates([], Loaded().inFlight.Keys)
    ensures Pull(Loaded(), Clock(0), 1, WAIT, false, []) == (Turn(0), Success([LeasedAt(0)]))
  {
    hide MessageID, WithinLimits, Pull, LeaseFrom;
    WithinTheLimits("a");
    assert ExpiredKeys(Loaded().inFlight, Clock(0)) == {};
    SampleRuns.QuietPull(Loaded(), Clock(0), WAIT, []);
    assert Loaded().channel[1..] == Turn(0).channel;
    assert Loaded().inFlight["a" := LeasedAt(0)] == Turn(0).inFlight;
  }

  lemma NextPull(i: nat)
    requires i < 100
    ensures Enumerates([Name(i)], Turn(i).inFlight.Keys)
    ensures Pull(Turn(i), Clock(i + 1), 1, WAIT, false, [Name(i)]) == (Turn(i + 1), Success([LeasedAt(i + 1)]))
  {
    hide MessageID, WithinLimits, Pull, TheMessage;
    WithinTheLimits(Name(i + 1));
    var q := Turn(i);
    SampleRuns.ReturnPull(q, Name(i), Clock(i + 1), WAIT);
    assert SampleRuns.Returned(q, Name(i))[1..] == [Record(Name(i), NO_DEADLINE, i / 2 + 1)];
    assert (i + 2) / 2 == i / 2 + 1 && Name(i + 2) == Name(i);
  }

  lemma PullsAt(i: nat)
    requires i < 100
    ensures Possible(With(At(i)), PullAt(i)) && Step(With(At(i)), PullAt(i)) == With(At(i + 1))
    ensures HandedOut(With(At(i)), PullAt(i)) == [LeasedAt(i)]
  {
    hide MessageID, Pull, Enumerates, Logged, LeasedAt, TheMessage;
    if i == 0 {
      FirstPull();
    } else {
      NextPull(i - 1);
    }
    assert With(At(i)).queues["s" := At(i + 1)] == map["s" := At(i + 1)];
  }

  function Pulls(i: nat): seq<Action> {
    if i == 0 then [Sending(), Arriving()] else Pulls(i - 1) + [PullAt(i - 1)]
  }

  lemma PullsStart()
    ensures Course(Before(), Pulls(0)) && After(Before(), Pulls(0)) == With(At(0))
  {
    hide Possible, Step, Course, After, Before, With, Sending, Arriving, Since;
    Publishes();
    Arrives();
    RunOfOne(Before(), Sending());
    OneMoreAction(Before(), [Sending()], Arriving());
    assert [Sending()] + [Arriving()] == Pulls(0);
  }

  lemma PullsStep(i: nat)
    requires i > 0
    ensures Pulls(i) == Pulls(i - 1) + [PullAt(i - 1)]
  {
  }

  lemma {:induction false} PullsRun(i: nat)
    requires i < 100
    ensures Course(Before(), Pulls(i)) && After(Before(), Pulls(i)) == With(At(i))
  {
    hide Possible, Step, Course, After, Before, With, At, PullAt, Pulls, Turn, Loaded, Name, Clock, Sending, Arriving,
      Since, Sub, Record, LeasedAt, OnTheWay, TheMessage, Sent;
    if i == 0 {
      PullsStart();
    } else {
      PullsRun(i - 1);
      PullsAt(i - 1);
      PullsStep(i);
      OneMoreAction(Before(), Pulls(i - 1), PullAt(i - 1));
    }
  }

  // ----- The hand-off

  /** The batch of the ninth Pull: the fifth lease of the first message. */
  function Handing(): Action {
    DeadLettered("s", [LeasedAt(8)], Clock(9), [], [])
  }

  lemma IsDeadNow()
    ensures Dead([LeasedAt(8)], MAX_ATTEMPTS) == [LeasedAt(8)] && "a" in IdSet([LeasedAt(8)])
  {
    hide MessageID;
    var p := LeasedAt(8);
    assert [p][..0] == [];
    assert [p][0].ackID == "a";
  }

  lemma HandsOver()
    ensures var b := With(At(10));
      && Possible(b, Handing()) && DeadLetters.HasDead(b, Handing()) && DeadLetters.Outcome(b, Handing()).Success?
      && PolicyOf(b, "s").value.maxAttempts == MAX_ATTEMPTS && "a" in IdSet(Dead([LeasedAt(8)], MAX_ATTEMPTS))
  {
    hide MessageID, Logged, TheMessage, WithinLimits, Dead, IdSet, FreshForwards, Visits, LeasedAt, At;
    var b, p := With(At(10)), LeasedAt(8);
    WithinTheLimits("a");
    LeasedMessage(8);
    IsDeadNow();
    assert Subscribers(b.subscriptions, DEAD_TOPIC) == {};
    assert Enumerates([], {});
    VisitsPart([], [], {}, true);
    NothingForwarded(Stamp(MessagesOf([p]), b.messageCount, Clock(9)), b.issued);
    ForwardNone(b.queues);
  }

  lemma LeasedMessage(i: nat)
    ensures LeasedAt(i).message == TheMessage(Name(i))
  {
  }

  lemma WaitsAgain()
    ensures var b := With(At(10)); "a" in b.issued && "a" in IdSet(b.queues["s"].channel)
  {
    hide MessageID, Logged, TheMessage;
    assert With(At(10)).queues["s"].channel[0].ackID == "a";
  }

  lemma StartsSane()
    ensures Sane(Before())
  {
  }

  /**
   The ninth Pull leases "a" for the fifth time, which makes it a dead letter. Before its batch is handed
   over, the tenth Pull takes "a" back. The hand-off succeeds; "a" waits at the source as before.
   */
  lemma DeadStays() returns (b: Broker, pulled: Action, between: seq<Action>, handled: Action)
    ensures Sane(Before()) && Course(Before(), Pulls(8)) && b == After(Before(), Pulls(8))
    ensures Possible(b, pulled) && pulled.LeasedBatch? && Course(Step(b, pulled), between)
    ensures var b1 := After(Step(b, pulled), between);
      && Possible(b1, handled) && handled.DeadLettered? && handled.name == pulled.name == "s"
      && handled.batch == HandedOut(b, pulled)
      && DeadLetters.HasDead(b1, handled) && DeadLetters.Outcome(b1, handled).Success?
      && "a" in IdSet(Dead(handled.batch, PolicyOf(b1, "s").value.maxAttempts))
      && "s" in Step(b1, handled).queues && "a" in IdSet(Step(b1, handled).queues["s"].channel)
  {
    hide Possible, Step, Before, With, At, Sane, Dead, IdSet, HandedOut, DeadLetters.HasDead, DeadLetters.Outcome,
      LeasedAt;
    b, pulled, between, handled := With(At(8)), PullAt(8), [PullAt(9)], Handing();
    StartsSane();
    PullsRun(8);
    PullsAt(8);
    PullsAt(9);
    RunOfOne(With(At(9)), PullAt(9));
    PullsRun(10);
    SaneAlways(Before(), Pulls(10));
    HandsOver();
    WaitsAgain();
    DeadIdAtSource(With(At(10)), handled, "a");
  }
}
