/** The objects behind the message bus, each method run without interruption: the reference counts of a
    message, a post over all subscribed buses, and the loop of a bus thread. */
module MessageBusObjects {
  import opened Collections
  import opened MessageBus

  class MessageOrigin {
    var refs: int
    var table: set<OwrBus>

    constructor ()
      ensures refs == 0 && table == {}
    {
      refs, table := 0, {};
    }

    /** One turn of the loop over the subscribed buses. */
    method Visit(bus: OwrBus, message: OwrMessage)
      requires message.origin == this
      modifies this, bus`queue, message`refCount
      ensures table == if bus.alive then old(table) else old(table) - {bus}
      ensures bus.queue == old(bus.queue) + Offered(bus, message)
      ensures message.refCount == old(message.refCount) + |Offered(bus, message)|
      ensures refs == old(refs) + |Offered(bus, message)|
    {
      if bus.alive {
        bus.PostMessage(message);
      } else {
        table := table - {bus};
      }
    }

    /** The first `done` buses have been looked at: they have been offered the message and left the table
        if dead; the others are as before. */
    ghost predicate Looked(order: seq<OwrBus>, queues: seq<seq<OwrMessage?>>, message: OwrMessage, done: nat)
      requires |queues| == |order|
      reads this, order
    {
      QueuesFilled(order, queues, message, done) && Pruned(order, done)
    }

    ghost predicate Pruned(order: seq<OwrBus>, done: nat)
      reads this`table, order`alive
    {
      && (forall bus :: bus in table ==> bus in order)
      && (forall j :: 0 <= j < |order| ==> (order[j] in table <==> order[j].alive || j >= done))
    }

    method VisitNext(bus: OwrBus, message: OwrMessage,
        ghost order: seq<OwrBus>, ghost queues: seq<seq<OwrMessage?>>, ghost done: nat)
      requires |queues| == |order| && done < |order| && Distinct(order) && message.origin == this
      requires bus == order[done] && Looked(order, queues, message, done)
      modifies this, bus`queue, message`refCount
      ensures Looked(order, queues, message, done + 1)
      ensures message.refCount == old(message.refCount) + |Offered(bus, message)|
      ensures refs == old(refs) + |Offered(bus, message)|
    {
      Visit(bus, message);
      assert Pruned(order, done + 1) by { hide QueuesFilled; }
      hide Pruned;
      assert forall j :: 0 <= j < |order| && j != done ==>
        order[j].queue == old(order[j].queue) && Offered(order[j], message) == old(Offered(order[j], message));
    }

    /** owr_message_origin_post_message; `order` is the order in which the hash table iterates. Every live
        bus whose mask matches gets the message once, dead buses leave the table and nothing else does. */
    method PostMessage(kind: Mask, order: seq<OwrBus>) returns (message: OwrMessage)
      requires Distinct(order) && forall bus :: bus in order <==> bus in table
      modifies this, table`queue
      ensures fresh(message) && message.origin == this && message.kind == kind
      ensures table == set bus | bus in old(table) && bus.alive
      ensures forall j :: 0 <= j < |order| ==> order[j].queue == old(order[j].queue) + Offered(order[j], message)
      ensures message.refCount == |Accepting(order, kind)|
      ensures message.frees == One(Accepting(order, kind) == [])
      ensures refs == old(refs) + message.refCount
    {
      hide Looked, Accepting, Distinct;
      message := new OwrMessage(this, kind);
      ghost var queues := Queues(order);
      var done := 0;
      assert Looked(order, queues, message, 0) by { LookedNone(order, queues, message); }
      assert Accepting(order[..0], kind) == [] by { AcceptingNone(kind); }
      while done < |order|
        invariant 0 <= done <= |order|
        invariant Looked(order, queues, message, done)
        invariant message.refCount == 1 + |Accepting(order[..done], kind)| && message.frees == 0
        invariant refs == old(refs) + message.refCount
        invariant forall bus :: bus in order ==> bus.alive == old(bus.alive) && bus.mask == old(bus.mask)
      {
        VisitNext(order[done], message, order, queues, done);
        AcceptingOne(order, done, kind, message);
        done := done + 1;
      }
      assert order[..done] == order;
      AllLooked(order, queues, message);
      message.Unref();
    }

    lemma LookedNone(order: seq<OwrBus>, queues: seq<seq<OwrMessage?>>, message: OwrMessage)
      requires |queues| == |order| && forall j :: 0 <= j < |order| ==> order[j].queue == queues[j]
      requires forall bus :: bus in order <==> bus in table
      ensures Looked(order, queues, message, 0)
    {
    }

    lemma AllLooked(order: seq<OwrBus>, queues: seq<seq<OwrMessage?>>, message: OwrMessage)
      requires |queues| == |order| && Looked(order, queues, message, |order|)
      ensures table == set bus | bus in order && bus.alive
      ensures forall j :: 0 <= j < |order| ==> order[j].queue == queues[j] + Offered(order[j], message)
    {
    }
  }

  ghost predicate QueuesFilled(order: seq<OwrBus>, queues: seq<seq<OwrMessage?>>, message: OwrMessage, done: nat)
    requires |queues| == |order|
    reads order
  {
    forall j :: 0 <= j < |order| ==>
      order[j].queue == if j < done then queues[j] + Offered(order[j], message) else queues[j]
  }

  function Queues(order: seq<OwrBus>): (queues: seq<seq<OwrMessage?>>)
    reads order`queue
    ensures |queues| == |order| && forall j :: 0 <= j < |order| ==> queues[j] == order[j].queue
  {
    if order == [] then [] else Queues(order[..|order| - 1]) + [order[|order| - 1].queue]
  }

  function Counts(messages: seq<OwrMessage>): (counts: seq<int>)
    reads messages`refCount
    ensures |counts| == |messages| && forall i :: 0 <= i < |messages| ==> counts[i] == messages[i].refCount
  {
    if messages == [] then [] else Counts(messages[..|messages| - 1]) + [messages[|messages| - 1].refCount]
  }

  function Frees(messages: seq<OwrMessage>): (frees: seq<nat>)
    reads messages`frees
    ensures |frees| == |messages| && forall i :: 0 <= i < |messages| ==> frees[i] == messages[i].frees
  {
    if messages == [] then [] else Frees(messages[..|messages| - 1]) + [messages[|messages| - 1].frees]
  }

  lemma AcceptingNone(kind: Mask)
    ensures Accepting([], kind) == []
  {
  }

  lemma AcceptingOne(order: seq<OwrBus>, done: nat, kind: Mask, message: OwrMessage)
    requires done < |order| && message.kind == kind
    ensures |Accepting(order[..done + 1], kind)| == |Accepting(order[..done], kind)| + |Offered(order[done], message)|
  {
    assert order[..done + 1][..done] == order[..done];
  }

  /** What a look at a bus adds to its queue. */
  ghost function Offered(bus: OwrBus, message: OwrMessage): seq<OwrMessage>
    reads bus`alive, bus`mask
  {
    if bus.alive && Common(message.kind, bus.mask) then [message] else []
  }

  class OwrMessage {
    const origin: MessageOrigin
    const kind: Mask
    var refCount: int
    var frees: nat

    constructor (origin: MessageOrigin, kind: Mask)
      modifies origin`refs
      ensures this.origin == origin && this.kind == kind && refCount == 1 && frees == 0
      ensures origin.refs == old(origin.refs) + 1
    {
      this.origin, this.kind, refCount, frees := origin, kind, 1, 0;
      new;
      origin.refs := origin.refs + 1;
    }

    method Ref()
      modifies this`refCount, origin`refs
      ensures refCount == old(refCount) + 1 && origin.refs == old(origin.refs) + 1
    {
      origin.refs := origin.refs + 1;
      refCount := refCount + 1;
    }

    method Unref()
      modifies this`refCount, this`frees, origin`refs
      ensures refCount == old(refCount) - 1 && origin.refs == old(origin.refs) - 1
      ensures frees == old(frees) + One(refCount == 0)
    {
      origin.refs := origin.refs - 1;
      refCount := refCount - 1;
      if refCount == 0 {
        frees := frees + 1;
      }
    }
  }

  /** The buses that accept a message, in the order of the visits. */
  ghost function Accepting(order: seq<OwrBus>, kind: Mask): seq<OwrBus>
    reads order`alive, order`mask
  {
    if order == [] then []
    else
      var earlier, last := Accepting(order[..|order| - 1], kind), order[|order| - 1];
      if last.alive && Common(kind, last.mask) then earlier + [last] else earlier
  }

  class OwrBus {
    var alive: bool
    var mask: Mask
    var queue: seq<OwrMessage?>
    ghost var consumed: seq<OwrMessage>

    constructor ()
      ensures alive && mask == DEFAULT_MASK && queue == [] && consumed == []
    {
      alive, mask, queue, consumed := true, DEFAULT_MASK, [], [];
    }

    method PostMessage(message: OwrMessage)
      modifies this`queue, message`refCount, message.origin`refs
      ensures queue == old(queue) + if Common(message.kind, mask) then [message] else []
      ensures message.refCount == old(message.refCount) + One(Common(message.kind, mask))
      ensures message.origin.refs == old(message.origin.refs) + One(Common(message.kind, mask))
    {
      MatchesIff(message.kind, mask);
      hide Common;
      if message.kind & mask != 0 {
        message.Ref();
        queue := queue + [message];
      }
    }

    method Pop() returns (message: OwrMessage?)
      requires queue != []
      modifies this`queue
      ensures message == old(queue)[0] && queue == old(queue)[1..]
    {
      message := queue[0];
      queue := queue[1..];
    }

    method Release(message: OwrMessage, ghost before: seq<OwrMessage>, ghost counts: seq<int>, ghost frees: seq<nat>, ghost done: nat)
      requires |counts| == |before| && |frees| == |before| && done < |before| && Distinct(before)
      requires message == before[done] && Released(before, counts, frees, done)
      modifies message`refCount, message`frees, message.origin`refs
      ensures Released(before, counts, frees, done + 1)
    {
      message.Unref();
    }

    /** In the loop, with `message` in hand and `done` messages consumed of `before`, which the queue `all`
        began with. */
    ghost predicate Consuming(all: seq<OwrMessage?>, before: seq<OwrMessage>, consumedBefore: seq<OwrMessage>,
        done: nat, message: OwrMessage?)
      reads this
    {
      && done <= |before| < |all| && message == all[done] && queue == all[done + 1..]
      && all[..|before|] == before && all[|before|] == null
      && consumed == consumedBefore + before[..done]
    }

    method Take(ghost all: seq<OwrMessage?>, ghost before: seq<OwrMessage>, ghost consumedBefore: seq<OwrMessage>,
        ghost done: nat, message: OwrMessage) returns (next: OwrMessage?)
      requires done < |before| && Consuming(all, before, consumedBefore, done, message)
      modifies this`queue, this`consumed
      ensures Consuming(all, before, consumedBefore, done + 1, next)
    {
      assert all[..|before|][done] == all[done];
      assert before[..done + 1] == before[..done] + [message];
      consumed := consumed + [message];
      next := Pop();
    }

    /** bus_thread_func, when `before` is all that is queued ahead of the end marker (null). */
    method ThreadFunc(ghost before: seq<OwrMessage>)
      requires |before| < |queue| && queue[|before|] == null && queue[..|before|] == before
      requires Distinct(before)
      modifies this`queue, this`consumed
      modifies before`refCount, before`frees, (set i | 0 <= i < |before| :: before[i].origin)`refs
      ensures consumed == old(consumed) + before && queue == old(queue)[|before| + 1..]
      ensures Released(before, old(Counts(before)), old(Frees(before)), |before|)
    {
      ghost var all, consumedBefore, counts, frees := queue, consumed, Counts(before), Frees(before);
      ghost var done := 0;
      var message := Pop();
      assert Released(before, counts, frees, 0) by { ReleasedNone(before, counts, frees); }
      hide Released, Distinct;
      assert Consuming(all, before, consumedBefore, 0, message);
      while message != null
        invariant done <= |before|
        invariant Consuming(all, before, consumedBefore, done, message)
        invariant Released(before, counts, frees, done)
        decreases |before| - done
      {
        NotLast(all, before, consumedBefore, done, message);
        hide Consuming;
        Release(message, before, counts, frees, done);
        message := Take(all, before, consumedBefore, done, message);
        done := done + 1;
      }
      AtLast(all, before, consumedBefore, done);
    }

    lemma NotLast(all: seq<OwrMessage?>, before: seq<OwrMessage>, consumedBefore: seq<OwrMessage>, done: nat, message: OwrMessage)
      requires Consuming(all, before, consumedBefore, done, message)
      ensures done < |before| && message == before[done]
    {
      if done < |before| { assert all[..|before|][done] == all[done]; }
    }

    lemma AtLast(all: seq<OwrMessage?>, before: seq<OwrMessage>, consumedBefore: seq<OwrMessage>, done: nat)
      requires Consuming(all, before, consumedBefore, done, null)
      ensures done == |before| && before[..done] == before
    {
      forall i | 0 <= i < |before| ensures all[i] == before[i] { assert all[..|before|][i] == all[i]; }
    }
  }

  /** The first `done` messages have lost a reference, and are freed if it was the last. */
  ghost predicate Released(before: seq<OwrMessage>, counts: seq<int>, frees: seq<nat>, done: nat)
    requires |counts| == |before| && |frees| == |before|
    reads before
  {
    forall i :: 0 <= i < |before| ==>
      if i < done then before[i].refCount == counts[i] - 1 && before[i].frees == frees[i] + One(before[i].refCount == 0)
      else before[i].refCount == counts[i] && before[i].frees == frees[i]
  }

  lemma ReleasedNone(before: seq<OwrMessage>, counts: seq<int>, frees: seq<nat>)
    requires |counts| == |before| && |frees| == |before|
    requires forall i :: 0 <= i < |before| ==> before[i].refCount == counts[i] && before[i].frees == frees[i]
    ensures Released(before, counts, frees, 0)
  {
  }
}
