/**
 The queue of one subscription: a bounded channel of waiting records and a map of leased ones.
 The records are objects that are changed in place. `View` is the queue as a value, and every
 operation is proved to take it where QueueModel says.
 */
module SubscriptionQueues {
  import opened QueueModel

  /** models.PendingMessage. Only the deadline and the attempt are ever changed. */
  class Record {
    const message: Message
    const ackID: string
    var deadline: int
    var attempt: int

    constructor (p: Pending)
      ensures Value() == p
    {
      message, ackID, deadline, attempt := p.message, p.ackID, p.deadline, p.attempt;
    }

    function Value(): Pending
      reads this
    {
      Pending(message, ackID, deadline, attempt)
    }
  }

  ghost function Values(rs: seq<Record>): (ps: seq<Pending>)
    reads rs
    ensures |ps| == |rs| && forall i :: 0 <= i < |rs| ==> ps[i] == rs[i].Value()
  {
    seq(|rs|, i requires 0 <= i < |rs| reads rs => rs[i].Value())
  }

  lemma ValuesMore(rs: seq<Record>, r: Record)
    ensures Values(rs + [r]) == Values(rs) + [r.Value()]
  {
  }

  lemma ValuesConcat(rs: seq<Record>, more: seq<Record>)
    ensures Values(rs + more) == Values(rs) + Values(more)
  {
  }

  ghost function MapValues(m: map<string, Record>): (r: map<string, Pending>)
    reads m.Values
    ensures r.Keys == m.Keys && forall k :: k in m ==> r[k] == m[k].Value()
  {
    map k | k in m :: m[k].Value()
  }

  class SubscriptionQueue {
    const capacity: nat
    var channel: seq<Record>
    var inFlight: map<string, Record>
    var notify: bool

    constructor (capacity: nat)
      ensures Valid() && View() == Empty(capacity) && Records() == {} && this.capacity == capacity
    {
      this.capacity, channel, inFlight, notify := capacity, [], map[], false;
    }

    ghost function Records(): set<Record>
      reads this
    {
      (set r | r in channel) + inFlight.Values
    }

    /** No record is held twice, and leased records are found under their own ack ID. */
    ghost predicate Valid()
      reads this
    {
      && |channel| <= capacity
      && (forall i, j :: 0 <= i < j < |channel| ==> channel[i] != channel[j])
      && (forall k :: k in inFlight ==> inFlight[k].ackID == k && inFlight[k] !in channel)
    }

    ghost function View(): Queue
      reads this, Records()
    {
      Queue(capacity, Values(channel), MapValues(inFlight), notify)
    }

    /** Sends a record that the queue does not hold; refused when the channel is full. */
    method Enqueue(r: Record) returns (ok: bool)
      requires Valid() && r !in Records()
      modifies this
      ensures Valid() && View() == Offer(old(View()), [r.Value()])
      ensures ok <==> |old(channel)| < capacity
      ensures notify <==> old(notify) || ok
      ensures channel == old(channel) + (if ok then [r] else []) && inFlight == old(inFlight)
    {
      ok := |channel| < capacity;
      if ok {
        channel := channel + [r];
        notify := true;
      }
      assert [r.Value()][..1] == [r.Value()];
    }

    method TryDequeue() returns (r: Record?)
      requires Valid()
      modifies this
      ensures Valid() && inFlight == old(inFlight) && notify == old(notify)
      ensures r == null <==> old(channel) == []
      ensures r == null ==> channel == old(channel) && View() == old(View())
      ensures r != null ==> channel == old(channel)[1..] && r == old(channel)[0] && r !in Records()
      ensures r != null ==>
        r.Value() == old(View()).channel[0] && View() == old(View()).(channel := old(View()).channel[1..])
    {
      r := null;
      if channel != [] {
        r := channel[0];
        channel := channel[1..];
      }
    }

    method StoreInFlight(r: Record)
      requires Valid() && r !in channel
      modifies this
      ensures Valid() && inFlight == old(inFlight)[r.ackID := r] && channel == old(channel) && notify == old(notify)
    {
      inFlight := inFlight[r.ackID := r];
    }

    method DeleteInFlight(ackID: string)
      requires Valid()
      modifies this
      ensures Valid() && inFlight == old(inFlight) - {ackID} && channel == old(channel) && notify == old(notify)
    {
      inFlight := inFlight - {ackID};
    }

    method LoadInFlight(ackID: string) returns (r: Record?)
      requires Valid()
      ensures r != null <==> ackID in inFlight
      ensures r != null ==> r == inFlight[ackID]
    {
      r := if ackID in inFlight then inFlight[ackID] else null;
    }

    /** The leased records, in the order in which the map happens to be visited. */
    method ListInFlight() returns (rs: seq<Record>, ghost order: seq<string>)
      requires Valid()
      ensures Enumerates(order, inFlight.Keys)
      ensures |rs| == |order| && forall i :: 0 <= i < |order| ==> order[i] in inFlight && rs[i] == inFlight[order[i]]
    {
      rs, order := [], [];
      var todo := inFlight.Keys;
      while todo != {}
        invariant todo <= inFlight.Keys
        invariant Enumerates(order, inFlight.Keys - todo)
        invariant |rs| == |order| && forall i :: 0 <= i < |order| ==>
          order[i] in inFlight && rs[i] == inFlight[order[i]]
      {
        var k :| k in todo;
        todo := todo - {k};
        rs, order := rs + [inFlight[k]], order + [k];
      }
      assert inFlight.Keys - todo == inFlight.Keys;
    }

    method ClearInFlight()
      requires Valid()
      modifies this
      ensures Valid() && inFlight == map[] && channel == old(channel) && notify == old(notify)
    {
      var todo := inFlight.Keys;
      while todo != {}
        invariant Valid() && inFlight.Keys == todo
        invariant channel == old(channel) && notify == old(notify)
      {
        var k :| k in todo;
        todo := todo - {k};
        inFlight := inFlight - {k};
      }
    }

    /** Takes a lease back: the record loses its deadline and goes to the tail of the channel, if there is room. */
    method Release(k: string)
      requires Valid() && k in inFlight
      modifies this, inFlight[k]
      ensures Valid() && Records() <= old(Records()) && inFlight == old(inFlight) - {k}
      ensures View() == Offer(old(View()).(inFlight := old(View()).inFlight - {k}),
        [old(View()).inFlight[k].(deadline := NO_DEADLINE)])
    {
      hide Offer;
      var r := inFlight[k];
      inFlight := inFlight - {k};
      r.deadline := NO_DEADLINE;
      assert Values(channel) == old(Values(channel));
      assert MapValues(inFlight) == old(MapValues(inFlight)) - {k};
      var _ := Enqueue(r);
    }

    /** Moves every record whose deadline has passed back to the channel, if there is room. */
    method RequeueExpired(now: int) returns (ghost order: seq<string>)
      requires Valid()
      modifies this, inFlight.Values
      ensures Valid() && Records() <= old(Records())
      ensures Enumerates(order, old(inFlight).Keys)
      ensures View() == Requeue(old(View()), now, order)
    {
      hide Requeued, Requeue, Released, Offer, ExpiredKeys, Enumerates, Values, MapValues;
      order := [];
      ghost var before := View();
      RequeuedNone(before, now);
      VisitNone(inFlight.Keys);
      var todo := inFlight.Keys;
      while todo != {}
        invariant Valid() && todo <= inFlight.Keys <= before.inFlight.Keys && inFlight.Values <= old(inFlight).Values
        invariant Records() <= old(Records())
        invariant forall k :: k in todo ==> inFlight[k] == old(inFlight)[k] && unchanged(inFlight[k])
        invariant Enumerates(order, old(inFlight).Keys - todo)
        invariant View() == Requeued(before, now, order)
      {
        var k :| k in todo;
        VisitOne(order, old(inFlight).Keys, todo, k);
        RequeuedStep(before, now, order, k);
        todo := todo - {k};
        var r := inFlight[k];
        if r.deadline != NO_DEADLINE && r.deadline < now {
          assert forall j :: j in todo ==> inFlight[j] != r;
          Release(k);
        }
        order := order + [k];
      }
      VisitedAll(order, old(inFlight).Keys);
      RequeuedAll(before, now, order);
    }
  }
}
