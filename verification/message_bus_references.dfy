/** Why each step of the message bus keeps the reference counts of messages and origins. */
module MessageBusReferences {
  import opened Collections
  import opened MessageBus
  import opened MessageBusSteps

  // ----- Reference counts -----

  lemma HoldingUpdate(buses: seq<Bus>, b: nat, bus: Bus, m: nat)
    requires b < |buses|
    ensures |HoldingBuses(buses[b := bus], m)| == |HoldingBuses(buses, m)| + One(Holds(bus, m)) - One(Holds(buses[b], m))
  {
    hide Holds;
    var before, after := HoldingBuses(buses, m), HoldingBuses(buses[b := bus], m);
    assert before - {b} == after - {b};
    assert before == if Holds(buses[b], m) then (before - {b}) + {b} else before - {b};
    assert after == if Holds(bus, m) then (after - {b}) + {b} else after - {b};
  }

  lemma SameHolding(buses: seq<Bus>, others: seq<Bus>, m: nat)
    requires forall b: nat :: b < |buses| && Holds(buses[b], m) <==> b < |others| && Holds(others[b], m)
    ensures HoldingBuses(buses, m) == HoldingBuses(others, m)
  {
  }

  /** No bus holds a message that does not exist yet. */
  lemma NobodyHolds(w: World)
    requires HistoryOk(w) && forall b :: QueueOk(w, b)
    ensures HoldingBuses(w.buses, |w.messages|) == {}
  {
    hide Got, MarkerOk;
    FreshMessage(w);
    forall b: nat | b < |w.buses| ensures !Holds(w.buses[b], |w.messages|) {
      if Holds(w.buses[b], |w.messages|) {
        assert QueueOk(w, b);
        HeldIsAccepted(w, b, |w.messages|);
        AcceptedWasVisited(w.history, b, |w.messages|);
      }
    }
  }

  /** A poster about to push has not pushed to this bus before. */
  lemma NotHeldBeforePush(w: World, o: nat)
    requires Invariant(w) && Enabled(w, PushMessage(o))
    ensures !Holds(w.buses[w.origins[o].post.value.stage.bus], w.origins[o].post.value.message)
  {
    hide CountOk, RefsOk, HistoryOk, RetainOk, MarkerOk, Got, VisitsOf, Accepted;
    var post := w.origins[o].post.value;
    var b := post.stage.bus;
    assert OriginOk(w, o) && QueueOk(w, b) && MessageOk(w, post.message);
    Apart(VisitsOf(w.history, post.message), post.remaining);
    if Holds(w.buses[b], post.message) {
      HeldIsAccepted(w, b, post.message);
      AcceptedWasVisited(w.history, b, post.message);
    }
  }

  lemma VisitedOnce(w: World)
    requires Invariant(w)
    ensures forall m :: Distinct(VisitsOf(w.history, m))
  {
    hide CountOk, RefsOk, RetainOk, QueueOk, VisitsOf;
    forall m: nat ensures Distinct(VisitsOf(w.history, m)) {
      assert MessageOk(w, m);
      if m >= |w.messages| {
        VisitsNone(w.history, m);
      } else if IsPosting(w.origins[w.messages[m].origin], m) {
        assert OriginOk(w, w.messages[m].origin);
        Apart(VisitsOf(w.history, m), w.origins[w.messages[m].origin].post.value.remaining);
      }
    }
  }

  lemma GotDistinct(w: World, b: nat)
    requires Invariant(w) && b < |w.buses|
    ensures Distinct(Got(w.buses[b]))
  {
    hide Got, VisitsOf, Accepted, MarkerOk;
    assert QueueOk(w, b);
    VisitedOnce(w);
    AcceptedDistinct(w.history, b);
  }

  lemma CountPush(w: World, o: nat, m: nat)
    requires Invariant(w) && Enabled(w, PushMessage(o))
    ensures CountOk(OnPush(w, o), m)
  {
    hide QueueOk, MessageOk, RefsOk, RetainOk, HistoryOk, HoldingBuses, Matches;
    var b, w' := w.origins[o].post.value.stage.bus, OnPush(w, o);
    assert CountOk(w, m) && OriginOk(w, o);
    NotHeldBeforePush(w, o);
    HoldingUpdate(w.buses, b, w'.buses[b], m);
    assert w'.buses == w.buses[b := w'.buses[b]];
  }

  lemma CountEnd(w: World, o: nat, m: nat)
    requires Invariant(w) && Enabled(w, EndPost(o))
    ensures CountOk(OnEndPost(w, o), m)
  {
    hide QueueOk, MessageOk, RefsOk, RetainOk, HistoryOk, HoldingBuses, VisitsOf;
    assert CountOk(w, m) && OriginOk(w, o);
  }

  lemma CountFinish(w: World, b: nat, m: nat)
    requires Invariant(w) && Enabled(w, FinishMessage(b))
    ensures CountOk(OnFinishMessage(w, b), m)
  {
    hide QueueOk, MessageOk, RefsOk, RetainOk, HistoryOk, OriginOk, HoldingBuses;
    var bus, w' := w.buses[b], OnFinishMessage(w, b);
    var done := bus.thread.message;
    assert CountOk(w, m);
    GotDistinct(w, b);
    MessagesIn(bus.queue, done);
    Apart(bus.consumed + InHand(bus.thread), Messages(bus.queue));
    HoldingUpdate(w.buses, b, w'.buses[b], m);
    assert w'.buses == w.buses[b := w'.buses[b]];
  }

  lemma CountBegin(w: World, o: nat, kind: Mask, order: seq<nat>, m: nat)
    requires Invariant(w) && Enabled(w, BeginPost(o, kind, order))
    ensures CountOk(OnBeginPost(w, o, kind, order), m)
  {
    hide QueueOk, RefsOk, RetainOk, HistoryOk, OriginOk, HoldingBuses;
    assert CountOk(w, m) && MessageOk(w, m);
    NobodyHolds(w);
  }

  lemma CountFrame(w: World, e: Event, m: nat)
    requires Invariant(w) && Enabled(w, e)
    requires !e.PushMessage? && !e.EndPost? && !e.FinishMessage? && !e.BeginPost?
    ensures CountOk(Step(w, e), m)
  {
    hide QueueOk, RefsOk, RetainOk, HistoryOk, OriginOk, HoldingBuses, VisitsOf;
    assert CountOk(w, m);
    SameHolders(w, e, m);
    if m < |w.messages| && w.messages[m].origin < |w.origins| { SamePosting(w, e, m); }
    assert MessageOk(w, m);
    MessagesUntouched(w, e);
  }

  lemma MessagesUntouched(w: World, e: Event)
    requires Enabled(w, e)
    requires !e.PushMessage? && !e.EndPost? && !e.FinishMessage? && !e.BeginPost?
    ensures Step(w, e).messages == w.messages
  {
  }

  lemma SameHolders(w: World, e: Event, m: nat)
    requires Enabled(w, e)
    requires !e.PushMessage? && !e.EndPost? && !e.FinishMessage? && !e.BeginPost?
    ensures HoldingBuses(Step(w, e).buses, m) == HoldingBuses(w.buses, m)
  {
    SameHolding(w.buses, Step(w, e).buses, m);
  }

  lemma CountStep(w: World, e: Event, m: nat)
    requires Invariant(w) && Enabled(w, e)
    ensures CountOk(Step(w, e), m)
  {
    hide CountOk, Invariant;
    match e
    case PushMessage(o) => CountPush(w, o, m);
    case EndPost(o) => CountEnd(w, o, m);
    case FinishMessage(b) => CountFinish(w, b, m);
    case BeginPost(o, kind, order) => CountBegin(w, o, kind, order, m);
    case _ => CountFrame(w, e, m);
  }

  // ----- References on origins -----

  lemma {:induction false} SumRefsUpdate(messages: seq<Message>, m: nat, msg: Message, o: nat)
    requires m < |messages| && msg.origin == messages[m].origin
    ensures SumRefs(messages[m := msg], o) == SumRefs(messages, o) + if msg.origin == o then msg.refCount - messages[m].refCount else 0
  {
    var last := |messages| - 1;
    if m < last {
      SumRefsUpdate(messages[..last], m, msg, o);
      assert messages[m := msg][..last] == messages[..last][m := msg];
    } else {
      assert messages[m := msg][..last] == messages[..last];
    }
  }

  lemma {:induction false} SumRefsNone(messages: seq<Message>, o: nat)
    requires forall m :: 0 <= m < |messages| ==> messages[m].origin != o
    ensures SumRefs(messages, o) == 0
  {
    if messages != [] { SumRefsNone(messages[..|messages| - 1], o); }
  }

  lemma SumRefsAppend(messages: seq<Message>, msg: Message, o: nat)
    ensures SumRefs(messages + [msg], o) == SumRefs(messages, o) + if msg.origin == o then msg.refCount else 0
  {
    assert (messages + [msg])[..|messages|] == messages;
  }

  lemma RefsMessage(w: World, m: nat, o: nat)
    requires RefsOk(w, o) && m < |w.messages| && w.messages[m].origin < |w.origins|
    ensures RefsOk(MessageRef(w, m), o) && RefsOk(MessageUnref(w, m), o)
  {
    SumRefsUpdate(w.messages, m, MessageRef(w, m).messages[m], o);
    SumRefsUpdate(w.messages, m, MessageUnref(w, m).messages[m], o);
  }

  lemma RefsFrame(w: World, w': World, o: nat)
    requires RefsOk(w, o) && w.messages == w'.messages && |w.origins| == |w'.origins|
    requires o < |w.origins| ==> w'.origins[o].refs == w.origins[o].refs
    ensures RefsOk(w', o)
  {
  }

  lemma RefsMoves(w: World, e: Event, o: nat)
    requires Invariant(w) && Enabled(w, e) && (e.PushMessage? || e.EndPost? || e.FinishMessage?)
    ensures RefsOk(Step(w, e), o)
  {
    hide QueueOk, MessageOk, CountOk, RetainOk, HistoryOk, OriginOk, SumRefs, Matches;
    assert RefsOk(w, o);
    match e
    case PushMessage(p) =>
      var post := w.origins[p].post.value;
      var looked := Look(w, p, true, w.buses[post.stage.bus].mask, w.origins[p].table, Visited(post.stage.bus));
      RefsFrame(w, looked, o);
      if Matches(w.messages[post.message].kind, w.buses[post.stage.bus].mask) {
        RefsMessage(looked, post.message, o);
        RefsFrame(MessageRef(looked, post.message), Step(w, e), o);
      }
    case EndPost(p) =>
      RefsMessage(w, w.origins[p].post.value.message, o);
    case FinishMessage(b) =>
      RefsMessage(w, w.buses[b].thread.message, o);
  }

  lemma RefsStep(w: World, e: Event, o: nat)
    requires Invariant(w) && Enabled(w, e)
    ensures RefsOk(Step(w, e), o)
  {
    hide QueueOk, CountOk, RetainOk, HistoryOk, OriginOk, SumRefs, Matches, OnPush, OnEndPost, OnFinishMessage;
    assert RefsOk(w, o);
    match e
    case PushMessage(_) => RefsMoves(w, e, o);
    case EndPost(_) => RefsMoves(w, e, o);
    case FinishMessage(_) => RefsMoves(w, e, o);
    case BeginPost(p, kind, order) => SumRefsAppend(w.messages, Message(p, kind, 1, 0, order), o);
    case NewOrigin =>
      forall m: nat | m < |w.messages| ensures w.messages[m].origin != |w.origins| { assert MessageOk(w, m); }
      SumRefsNone(w.messages, |w.origins|);
    case _ =>
  }
}
