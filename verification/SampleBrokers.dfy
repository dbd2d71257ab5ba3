/**
 Concrete runs of a broker with one topic and one subscription: a Seek brings back a message that the
 filter does not let through, a snapshot misses a message that is on its way, and a Seek wipes one that
 arrives between its two calls.
 */
module SampleBrokers {
  import opened Text
  import opened QueueModel
  import opened QueueLaws
  import opened QueueRuns
  import opened FilterSyntax
  import opened MessageLogs
  import opened BrokerModel
  import opened BrokerRuns
  import opened StoreRuns
  import opened SnapshotRuns
  import opened FilterRuns
  import FilterPrinter

  const TOPIC := "p/p/t/t"

  /** When the message is published. */
  const THEN := 1

  function Sub(filter: string): Subscription {
    Subscription(TOPIC, filter, 10, false, None)
  }

  /** Before anything was published. */
  function Before(filter: string): Broker {
    Broker({TOPIC}, map["s" := Sub(filter)], map[], map[], map["s" := Empty(1)], 0, {}, multiset{})
  }

  /** A message without attributes, as it is published. */
  function Sent(): Message {
    Message("", "", map[], "", 0)
  }

  function TheMessage(): Message {
    Sent().(id := MessageID(1), publishTime := THEN)
  }

  function OnItsWay(filter: string): FanOut {
    FanOut("s", filter, [TheMessage()])
  }

  function Sending(): Action {
    Published(TOPIC, [Sent()], THEN, ["s"])
  }

  /** After the message was published. */
  function Since(filter: string): Broker {
    Before(filter).(
      log := map[Key(TOPIC, MessageID(1)) := TheMessage()], messageCount := 1, fanOuts := multiset{OnItsWay(filter)})
  }

  lemma TopicDepth()
    ensures Slashes(TOPIC) == DEPTH
  {
    SlashesConcat("p/p", "/t/t");
    assert TOPIC == "p/p" + "/t/t";
    SlashesConcat("p/", "p");
    assert "p/p" == "p/" + "p";
    SlashesConcat("/t", "/t");
    assert "/t/t" == "/t" + "/t";
    assert Slashes("p/") == 1 && Slashes("p") == 0 && Slashes("/t") == 1;
  }

  lemma BeforeIsConsistent(filter: string)
    ensures Consistent(Before(filter)) && Filtered(Before(filter), "s")
  {
    hide Slashes, Matches;
    TopicDepth();
    StartsConsistent(Before(filter));
  }

  lemma SentWithinLimits()
    ensures WithinLimits(Sent()) && AllWithinLimits([Sent()])
  {
  }

  lemma Publishes(filter: string)
    ensures Possible(Before(filter), Sending()) && Step(Before(filter), Sending()) == Since(filter)
  {
    hide Key, MessageID, WithinLimits;
    var b, stamped := Before(filter), Stamp([Sent()], 0, THEN);
    SentWithinLimits();
    assert Subscribers(b.subscriptions, TOPIC) == {"s"};
    assert stamped == [TheMessage()];
    assert [TheMessage()][..0] == [] && ["s"][..0] == [];
    assert Logged(map[], TOPIC, stamped) == map[Key(TOPIC, MessageID(1)) := TheMessage()];
    assert FanOuts(b.subscriptions, ["s"], stamped) == multiset{OnItsWay(filter)};
  }

  lemma SinceIsConsistent(filter: string)
    ensures Consistent(Since(filter)) && Filtered(Since(filter), "s")
  {
    hide Consistent, Possible, Step, Since, Before, Filtered;
    BeforeIsConsistent(filter);
    Publishes(filter);
    StepKeepsConsistent(Before(filter), Sending());
    StepKeepsFiltered(Before(filter), Sending(), "s");
  }

  lemma OnlyOneStored(filter: string)
    ensures StoredUnder(Since(filter).log, TOPIC) == {TheMessage()}
  {
    hide Prefix;
    StoredUnderIs(Since(filter).log, TOPIC);
    assert Key(TOPIC, MessageID(1)) in Since(filter).log;
  }

  // ----- A Seek does not look at the filter

  /** A filter that asks for an attribute, as its text is printed. */
  function AsksForKey(): string {
    FilterPrinter.Print(Has("k"), FilterPrinter.OR)
  }

  lemma FilteredOut()
    ensures !Lets(AsksForKey(), TheMessage()) && AsksForKey() != ""
  {
    hide FilterPrinter.Print, FilterPrinter.Body, ParseOr, MessageID;
    FilterPrinter.RoundTrip(Has("k"));
    FilterPrinter.PrintStart(Has("k"), FilterPrinter.OR);
  }

  function SeekBack(): Action {
    Sought("s", ToTime(THEN), [Key(TOPIC, MessageID(1))], ["x"])
  }

  lemma SeekWants(filter: string)
    ensures Seekable(Since(filter), "s", ToTime(THEN)) && Restored(Since(filter), "s", ToTime(THEN)) == {TheMessage()}
  {
    hide Key, MessageID, StoredUnder;
    OnlyOneStored(filter);
    assert Restored(Since(filter), "s", ToTime(THEN)) == {TheMessage()};
  }

  lemma SeekFinds(filter: string)
    ensures Possible(Since(filter), SeekBack()) && Seekable(Since(filter), "s", ToTime(THEN))
    ensures Restored(Since(filter), "s", ToTime(THEN)) == {TheMessage()}
  {
    hide Key, MessageID, Consistent, Backlog, Restored, Seekable, Possible;
    var b := Since(filter);
    SinceIsConsistent(filter);
    SeekWants(filter);
    KeyOfLog(filter);
    BacklogIsRestored(b, "s", ToTime(THEN), SeekBack().order);
    OneIdPossible(b);
  }

  lemma KeyOfLog(filter: string)
    ensures Enumerates([Key(TOPIC, MessageID(1))], Since(filter).log.Keys)
  {
    hide Key, MessageID;
  }

  lemma OneIdPossible(b: Broker)
    requires b.issued == {} && Seekable(b, "s", ToTime(THEN)) && Enumerates(SeekBack().order, b.log.Keys)
    requires Backlog(b, "s", ToTime(THEN), SeekBack().order).Success?
    requires |Backlog(b, "s", ToTime(THEN), SeekBack().order).value| == 1
    ensures Possible(b, SeekBack())
  {
    hide Backlog, Enumerates;
  }

  /**
   The subscription holds what its filter lets through before the Seek, and a message that the filter
   keeps out afterwards.
   */
  lemma SeekBreaksFilter() returns (b: Broker, sought: Action)
    ensures Consistent(b) && Filtered(b, "s") && Possible(b, sought) && sought.Sought? && sought.name == "s"
    ensures Course(Before(AsksForKey()), [Sending()]) && b == After(Before(AsksForKey()), [Sending()])
    ensures !Filtered(Step(b, sought), "s")
  {
    hide Consistent, Possible, Step, Since, Before, Filtered, Restored, SeekOutcome, Lets, AsksForKey, HoldsExactly,
      FullOf, Backlog;
    b, sought := Since(AsksForKey()), SeekBack();
    FilteredOut();
    SinceIsConsistent(AsksForKey());
    RunOfOne(Before(AsksForKey()), Sending()) by { Publishes(AsksForKey()); }
    Publishes(AsksForKey());
    SeekFinds(AsksForKey());
    SinceShape(AsksForKey());
    SeekRestores(b, sought);
    SeekKeepsFilter(b, sought);
    assert TheMessage() in Restored(b, "s", ToTime(THEN));
  }

  lemma SinceShape(filter: string)
    ensures var b := Since(filter);
      "s" in b.queues && b.queues["s"].capacity == 1 && "s" in b.subscriptions && b.subscriptions["s"].filter == filter
    ensures forall t :: Seekable(Since(filter), "s", ToTime(t))
  {
  }

  // ----- A snapshot misses what is on its way

  function Snap(): Action {
    SnapshotTaken("snap", "s", THEN + 1, [])
  }

  /** The message arrives. */
  function Arrive(): Action {
    FannedOut(OnItsWay(""), ["x"])
  }

  function SeekSnap(): Action {
    Sought("s", ToSnapshot("snap"), [Key(TOPIC, MessageID(1))], [])
  }

  /** After the snapshot was taken. */
  function Snapped(): Broker {
    Since("").(snapshots := map["snap" := Snapshot("s", TOPIC, THEN + 1, [])])
  }

  lemma TakesSnapshot()
    ensures Possible(Since(""), Snap()) && Step(Since(""), Snap()) == Snapped()
    ensures Snapped() == Since("").(snapshots := Snapped().snapshots)
  {
    hide Key, MessageID;
    var q := Empty(1);
    assert Listing(q, []) == [];
    assert IdsOf(MessagesOf([])) == [];
    assert q.channel + q.channel[..0] == q.channel;
    assert Since("").queues["s" := Relist(q)] == Since("").queues;
  }

  lemma AllMatchEmptyFilter()
    ensures Matching([TheMessage()], "") == [TheMessage()]
  {
    hide Key, MessageID, ParseOr;
    assert [TheMessage()][..0] == [];
  }

  lemma SentOne(q: Queue)
    requires q == Empty(1)
    ensures Enqueue(q, NewPending([TheMessage()], ["x"])).0 ==
      q.(channel := [Pending(TheMessage(), "x", NO_DEADLINE, 0)], notify := true)
  {
    hide MessageID;
    var ps := NewPending([TheMessage()], ["x"]);
    assert ps == [Pending(TheMessage(), "x", NO_DEADLINE, 0)] && [] + ps[..1] == ps;
  }

  lemma ArrivesAfter(b: Broker)
    requires b == Since("").(snapshots := b.snapshots)
    ensures Possible(b, Arrive())
    ensures var b' := Step(b, Arrive());
      && b'.log == b.log && b'.subscriptions == b.subscriptions && b'.snapshots == b.snapshots
      && "s" in b'.queues && MessagesOf(b'.queues["s"].channel) == [TheMessage()]
  {
    hide Key, MessageID, Matching, Enqueue, NewPending, IdsIn;
    AllMatchEmptyFilter();
    SentOne(Empty(1));
    assert b.queues["s"] == Empty(1);
  }

  /** The Seek wants nothing: the one stored message is not in the snapshot and was published before it. */
  lemma SnapshotWantsNothing(b: Broker)
    requires b == Step(Snapped(), Arrive()) && Possible(Snapped(), Arrive()) && Consistent(b)
    ensures Seekable(b, "s", ToSnapshot("snap")) && Restored(b, "s", ToSnapshot("snap")) == {}
    ensures Possible(b, SeekSnap())
  {
    hide Key, MessageID, Consistent, Backlog, StoredUnder, WithinLimits, Step, Possible;
    ArrivesAfter(Snapped());
    OnlyOneStored("");
    assert Restored(b, "s", ToSnapshot("snap")) == {};
    LogKeys();
    BacklogIsRestored(b, "s", ToSnapshot("snap"), SeekSnap().order);
    NoIdsPossible(b);
  }

  lemma LogKeys()
    ensures Enumerates([Key(TOPIC, MessageID(1))], Snapped().log.Keys) && Snapped().log == Since("").log
  {
    hide Key, MessageID;
  }

  lemma NoIdsPossible(b: Broker)
    requires Seekable(b, "s", ToSnapshot("snap")) && Enumerates(SeekSnap().order, b.log.Keys)
    requires Backlog(b, "s", ToSnapshot("snap"), SeekSnap().order).Success?
    requires |Backlog(b, "s", ToSnapshot("snap"), SeekSnap().order).value| == 0
    ensures Possible(b, SeekSnap())
  {
    hide Backlog, Enumerates;
  }

  /**
   A message that was published before a snapshot and arrives after it is neither acknowledged nor
   brought back by a Seek to the snapshot, although it waits in the queue when the Seek comes.
   */
  lemma SnapshotMisses() returns (b: Broker, taken: Action, done: seq<Action>, sought: Action)
    ensures Course(Before(""), [Sending()]) && b == After(Before(""), [Sending()])
    ensures TakenAndSought(b, taken, done, sought)
    ensures NotArrived(b, "s", TheMessage()) && sought.name == taken.name == "s"
    ensures var b' := After(Step(b, taken), done);
      && "s" in b'.queues && HeldMessage(b'.queues["s"], TheMessage())
      && "s" in Step(b', sought).queues && !HeldMessage(Step(b', sought).queues["s"], TheMessage())
      && SeekOutcome(b', sought) == Success(())
  {
    hide Consistent, Possible, Step, Since, Before, Snapped, Restored, SeekOutcome, HeldMessage, NotArrived, Fresh,
      MessagesOf;
    b, taken, done, sought := Since(""), Snap(), [Arrive()], SeekSnap();
    SinceIsConsistent("");
    RunOfOne(Before(""), Sending()) by { Publishes(""); }
    Publishes("");
    TakesSnapshot();
    ArrivesAfter(Snapped());
    StepKeepsConsistent(b, taken);
    StepKeepsConsistent(Snapped(), Arrive());
    RunOfOne(Snapped(), Arrive());
    var b' := Step(Snapped(), Arrive());
    SnapshotWantsNothing(b');
    SnapShape();
    SeekRestores(b', sought);
    WaitsThere(b'.queues["s"]);
    GoneThere(Step(b', sought).queues["s"]);
  }

  lemma SnapShape()
    ensures var b := Since(""); "s" in b.subscriptions && "s" in b.queues && b.snapshots == map[]
    ensures NotArrived(Since(""), "s", TheMessage())
  {
    assert [TheMessage()][..0] == [];
    assert OnItsWay("") in Since("").fanOuts && Matching([TheMessage()], "") == [TheMessage()];
  }

  lemma WaitsThere(q: Queue)
    requires MessagesOf(q.channel) == [TheMessage()]
    ensures HeldMessage(q, TheMessage())
  {
    assert q.channel[0].message == MessagesOf(q.channel)[0];
  }

  lemma GoneThere(q: Queue)
    requires HoldsExactly(q, {})
    ensures !HeldMessage(q, TheMessage())
  {
  }

  // ----- A Seek wipes what comes between its calls

  lemma SeekListsNothing()
    ensures Enumerates([], Before("").log.Keys) && FreshIds([], {}) && Seekable(Before(""), "s", ToTime(THEN))
    ensures Restored(Before(""), "s", ToTime(THEN)) == {}
  {
    hide Key, Prefix;
    assert StoredUnder(Before("").log, TOPIC) == {};
  }

  lemma NoLongerFresh(issued: set<string>)
    ensures FreshIds([], issued)
  {
  }

  lemma WantsTheMessage(b: Broker)
    requires b.log == Since("").log && b.subscriptions == Since("").subscriptions
    ensures Seekable(b, "s", ToTime(THEN)) && TheMessage() in Restored(b, "s", ToTime(THEN))
  {
    hide Key, MessageID, StoredUnder;
    OnlyOneStored("");
  }

  /**
   A Seek to a time lists the log; then a message is published, at that time, and arrives; then the Seek
   replaces the queue and succeeds. The message waited, the Seek wants it, and it is gone.
   */
  lemma SeekWipes() returns (b: Broker, done: seq<Action>, target: Target)
    ensures SoughtInParts(b, "s", target, [], done, []) && b == Before("") && done == [Sending(), Arrive()]
    ensures var (ms, b1) := (Backlog(b, "s", target, []), After(b, done));
      && ms == Success([])
      && "s" in b1.queues && HeldMessage(b1.queues["s"], TheMessage())
      && Seekable(b1, "s", target) && TheMessage() in Restored(b1, "s", target)
      && Replay(b1, "s", [], []).1 == Success(())
      && "s" in Replay(b1, "s", [], []).0.queues && !HeldMessage(Replay(b1, "s", [], []).0.queues["s"], TheMessage())
  {
    hide Consistent, Possible, Step, Since, Before, Restored, Replay, HeldMessage, Fresh, MessagesOf, Seekable, Backlog,
      Enumerates, FreshIds, After, Course;
    b, done, target := Before(""), [Sending(), Arrive()], ToTime(THEN);
    BeforeIsConsistent("");
    Publishes("");
    ArrivesAfter(Since(""));
    RunOfOne(b, Sending());
    OneMoreAction(b, [Sending()], Arrive());
    assert [Sending()] + [Arrive()] == done;
    var b1 := After(b, done);
    SeekListsNothing();
    NoLongerFresh(b1.issued);
    BacklogIsRestored(b, "s", target, []);
    BeforeShape();
    SeekInParts(b, "s", target, [], done, []);
    WantsTheMessage(b1);
    WaitsThere(b1.queues["s"]);
    GoneThere(Replay(b1, "s", [], []).0.queues["s"]);
  }

  lemma BeforeShape()
    ensures "s" in Before("").queues && "s" in Before("").subscriptions
  {
  }
}
