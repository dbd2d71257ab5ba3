/** The message log: every published message is stored under its topic and ID. */
module MessageLogs {
  import opened QueueModel

  // ----- Message IDs

  function Digit(d: nat): char
    requires d < 10
  {
    "0123456789"[d]
  }

  /** The number in decimal, as `%d` prints it. */
  function Decimal(n: nat): (r: string)
    ensures r != ""
  {
    if n < 10 then [Digit(n)] else Decimal(n / 10) + [Digit(n % 10)]
  }

  /** The ID of the n-th message of the process. */
  function MessageID(n: nat): string {
    "msg-" + Decimal(n)
  }

  predicate IsNumeral(s: string) {
    forall i :: 0 <= i < |s| ==> '0' <= s[i] <= '9'
  }

  /** The number that decimal digits stand for, the last one for the units. */
  function ValueOf(s: string): int {
    if s == "" then 0 else 10 * ValueOf(s[..|s| - 1]) + (s[|s| - 1] as int - '0' as int)
  }

  lemma DigitIs(d: nat)
    requires d < 10
    ensures '0' <= Digit(d) <= '9' && Digit(d) as int - '0' as int == d
  {
    assert d == 0 || d == 1 || d == 2 || d == 3 || d == 4 || d == 5 || d == 6 || d == 7 || d == 8 || d == 9;
  }

  lemma {:induction false} DecimalIs(n: nat)
    ensures IsNumeral(Decimal(n)) && ValueOf(Decimal(n)) == n && (n > 0 ==> Decimal(n)[0] != '0')
  {
    DigitIs(n % 10);
    var s := Decimal(n);
    if n < 10 {
      assert s[..|s| - 1] == "" && ValueOf("") == 0;
    } else {
      DecimalIs(n / 10);
      assert s[..|s| - 1] == Decimal(n / 10);
    }
  }

  /** An ID is "msg-" and the number in decimal digits, without leading zeros. */
  lemma MessageIDIs(n: nat)
    ensures var id := MessageID(n);
      && |id| > 4 && id[..4] == "msg-" && IsNumeral(id[4..]) && ValueOf(id[4..]) == n && (n > 0 ==> id[4] != '0')
  {
    DecimalIs(n);
    assert MessageID(n)[4..] == Decimal(n);
  }

  predicate NoSlash(id: string) {
    forall i :: 0 <= i < |id| ==> id[i] != '/'
  }

  lemma {:induction false} DecimalNoSlash(n: nat)
    ensures NoSlash(Decimal(n))
  {
    if n >= 10 {
      DecimalNoSlash(n / 10);
    }
  }

  lemma {:induction false} DecimalInjective(m: nat, n: nat)
    requires Decimal(m) == Decimal(n)
    ensures m == n
  {
    var s, t := Decimal(m), Decimal(n);
    assert s[|s| - 1] == Digit(m % 10) && t[|t| - 1] == Digit(n % 10);
    if m >= 10 && n >= 10 {
      assert s[..|s| - 1] == Decimal(m / 10) && t[..|t| - 1] == Decimal(n / 10);
      DecimalInjective(m / 10, n / 10);
    }
  }

  /** No two messages share an ID, and no ID looks like a path. */
  lemma MessageIDs(m: nat, n: nat)
    ensures MessageID(m) == MessageID(n) <==> m == n
    ensures NoSlash(MessageID(n))
  {
    DecimalNoSlash(n);
    if MessageID(m) == MessageID(n) {
      assert MessageID(m)[4..] == Decimal(m) && MessageID(n)[4..] == Decimal(n);
      DecimalInjective(m, n);
    }
  }

  // ----- Keys

  function Prefix(topic: string): string {
    topic + "/messages/"
  }

  function Key(topic: string, id: string): string {
    Prefix(topic) + id
  }

  lemma NoSlashInId(q: string, id: string, i: nat)
    requires NoSlash(id) && |q| <= i < |q + id|
    ensures (q + id)[i] != '/'
  {
    assert (q + id)[i] == id[i - |q|];
  }

  /** A listing by topic sees the messages of another one exactly when its prefix is a prefix of the other's. */
  lemma KeyUnderPrefix(topic: string, other: string, id: string)
    requires NoSlash(id)
    ensures Prefix(topic) <= Key(other, id) <==> Prefix(topic) <= Prefix(other)
  {
    var p, q := Prefix(topic), Prefix(other);
    if |q| < |p| <= |q + id| {
      NoSlashInId(q, id, |p| - 1);
    }
    if |p| <= |q| {
      assert (q + id)[..|p|] == q[..|p|];
    }
  }

  /** Two messages have the same key only if they are the same message of the same topic. */
  lemma KeyInjective(topic: string, id: string, topic': string, id': string)
    requires NoSlash(id) && NoSlash(id') && Key(topic, id) == Key(topic', id')
    ensures topic == topic' && id == id'
  {
    KeyUnderPrefix(topic, topic', id');
    KeyUnderPrefix(topic', topic, id);
    assert Prefix(topic) == Prefix(topic');
    assert topic == Prefix(topic)[..|topic|] && topic' == Prefix(topic')[..|topic'|];
    assert id == Key(topic, id)[|Prefix(topic)|..];
  }

  function Slashes(s: string): nat {
    if s == "" then 0 else Slashes(s[..|s| - 1]) + if s[|s| - 1] == '/' then 1 else 0
  }

  lemma {:induction false} SlashesConcat(s: string, t: string)
    ensures Slashes(s + t) == Slashes(s) + Slashes(t)
    decreases |t|
  {
    if t == "" {
      assert s + t == s;
    } else {
      assert (s + t)[..|s + t| - 1] == s + t[..|t| - 1];
      SlashesConcat(s, t[..|t| - 1]);
    }
  }

  lemma EndsWithSlash(s: string)
    ensures s != "" && s[|s| - 1] == '/' ==> Slashes(s) > 0
  {
  }

  /** Topics named `projects/P/topics/T`, or any topics with equally many slashes, never see each other's messages. */
  lemma SameDepthSeparates(topic: string, other: string)
    requires Slashes(topic) == Slashes(other)
    ensures Prefix(topic) <= Prefix(other) <==> topic == other
  {
    var p, q := Prefix(topic), Prefix(other);
    if p <= q {
      var rest := q[|p|..];
      assert q == p + rest;
      EndsWithSlash(rest);
      SlashesConcat(topic, "/messages/");
      SlashesConcat(other, "/messages/");
      SlashesConcat(p, rest);
      assert topic == p[..|topic|] && other == q[..|other|];
    }
  }

  /** Without that, they can: the second topic's name continues the first one's prefix. */
  lemma NestedTopicLeaks(id: string)
    requires NoSlash(id)
    ensures var topic, other := "projects/p/topics/t", "projects/p/topics/t/messages/u";
      topic != other && Prefix(topic) <= Key(other, id)
  {
    var topic, other := "projects/p/topics/t", "projects/p/topics/t/messages/u";
    assert other == Prefix(topic) + "u";
    assert Key(other, id) == Prefix(topic) + ("u" + "/messages/" + id);
  }

  // ----- Storing and listing

  /** The log after messages have been stored under a topic one by one. */
  function Logged(log: map<string, Message>, topic: string, ms: seq<Message>): map<string, Message> {
    if ms == [] then log
    else Logged(log, topic, ms[..|ms| - 1])[Key(topic, ms[|ms| - 1].id) := ms[|ms| - 1]]
  }

  lemma LoggedNone(log: map<string, Message>, topic: string)
    ensures Logged(log, topic, []) == log
  {
  }

  lemma LoggedStep(log: map<string, Message>, topic: string, ms: seq<Message>, m: Message)
    ensures Logged(log, topic, ms + [m]) == Logged(log, topic, ms)[Key(topic, m.id) := m]
  {
    assert (ms + [m])[..|ms|] == ms;
  }

  /** The messages under the topic's prefix, in the order in which the log is visited. */
  function Under(log: map<string, Message>, topic: string, order: seq<string>): seq<Message> {
    if order == [] then []
    else
      var k := order[|order| - 1];
      Under(log, topic, order[..|order| - 1]) + if k in log && Prefix(topic) <= k then [log[k]] else []
  }

  function Readable(ms: seq<Message>): Result<seq<Message>> {
    if forall i :: 0 <= i < |ms| ==> WithinLimits(ms[i]) then Success(ms) else Failure(MappingFailed)
  }

  class MessageRepository {
    var messages: map<string, Message>

    constructor ()
      ensures messages == map[]
    {
      messages := map[];
    }

    method StoreMessage(key: string, m: Message)
      modifies this
      ensures messages == old(messages)[key := m]
    {
      messages := messages[key := m];
    }

    method ListMessagesByTopic(topic: string) returns (result: Result<seq<Message>>, ghost order: seq<string>)
      ensures Enumerates(order, messages.Keys)
      ensures result == Readable(Under(messages, topic, order))
    {
      var prefix := topic + "/messages/";
      var raw: seq<Message> := [];
      order := [];
      var todo := messages.Keys;
      while todo != {}
        invariant todo <= messages.Keys && Enumerates(order, messages.Keys - todo)
        invariant raw == Under(messages, topic, order)
      {
        var k :| k in todo;
        VisitOne(order, messages.Keys, todo, k);
        todo := todo - {k};
        if prefix <= k {
          raw := raw + [messages[k]];
        }
        assert (order + [k])[..|order|] == order;
        order := order + [k];
      }
      VisitedAll(order, messages.Keys);
      result := ReadAll(raw);
    }
  }

  method ReadAll(raw: seq<Message>) returns (result: Result<seq<Message>>)
    ensures result == Readable(raw)
  {
    hide WithinLimits;
    var out: seq<Message> := [];
    for i := 0 to |raw|
      invariant out == raw[..i] && forall j :: 0 <= j < i ==> WithinLimits(raw[j])
    {
      if !WithinLimits(raw[i]) {
        return Failure(MappingFailed);
      }
      out := out + [raw[i]];
    }
    assert raw[..|raw|] == raw;
    result := Success(out);
  }
}
