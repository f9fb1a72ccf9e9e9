/** The invariant of the message bus, and why each step keeps its parts about buses, posters and visits. */
module MessageBusSteps {
  import opened Collections
  import opened MessageBus

  // ----- What every step keeps -----

  ghost predicate RetainOk(w: World, b: nat)
  {
    b < |w.buses| ==> w.buses[b].strong == w.buses[b].app + |Retainers(w.origins, b)|
  }

  /** The end marker is queued when the last reference goes, and it is the last item ever. */
  predicate MarkerOk(bus: Bus)
  {
    && (bus.strong > 0 ==> Last !in bus.queue && !bus.thread.Exited? && !bus.finalized)
    && (bus.strong <= 0 ==> if bus.thread.Exited? then bus.queue == []
                            else bus.queue != [] && bus.queue[|bus.queue| - 1] == Last && Last !in bus.queue[..|bus.queue| - 1])
    && (bus.finalized ==> bus.thread.Exited?)
  }

  ghost predicate QueueOk(w: World, b: nat)
  {
    b < |w.buses| ==> MarkerOk(w.buses[b]) && Got(w.buses[b]) == Accepted(w.history, b)
  }

  ghost predicate PostOk(w: World, o: nat, post: Post)
  {
    && post.message < |w.messages| && w.messages[post.message].origin == o
    && VisitsOf(w.history, post.message) + post.remaining == w.messages[post.message].subscribers
    && match post.stage
       case Between => true
       case Holding(b) => b < |w.buses| && post.remaining != [] && post.remaining[0] == b
       case Visited(b) => b < |w.buses|
       case Joining(b) => b < |w.buses| && w.buses[b].strong <= 0
  }

  ghost predicate OriginOk(w: World, o: nat)
  {
    o < |w.origins| ==>
      && (forall b :: b in w.origins[o].table ==> b < |w.buses|)
      && (w.origins[o].post.Some? ==> PostOk(w, o, w.origins[o].post.value))
  }

  ghost predicate MessageOk(w: World, m: nat)
  {
    m < |w.messages| ==>
      var msg := w.messages[m];
      && msg.origin < |w.origins| && Distinct(msg.subscribers) && (forall b :: b in msg.subscribers ==> b < |w.buses|)
      && (!IsPosting(w.origins[msg.origin], m) ==> VisitsOf(w.history, m) == msg.subscribers)
  }

  ghost predicate CountOk(w: World, m: nat)
  {
    m < |w.messages| && w.messages[m].origin < |w.origins| ==>
      && w.messages[m].refCount == |HoldingBuses(w.buses, m)| + One(IsPosting(w.origins[w.messages[m].origin], m))
      && w.messages[m].frees == One(w.messages[m].refCount == 0)
  }

  ghost predicate RefsOk(w: World, o: nat)
  {
    o < |w.origins| ==> w.origins[o].refs == SumRefs(w.messages, o)
  }

  ghost predicate HistoryOk(w: World)
  {
    forall i :: 0 <= i < |w.history| ==>
      var v := w.history[i];
      v.message < |w.messages| && v.bus < |w.buses| && v.kind == w.messages[v.message].kind
  }

  ghost predicate Invariant(w: World)
  {
    && (forall b :: RetainOk(w, b)) && (forall b :: QueueOk(w, b)) && (forall o :: OriginOk(w, o))
    && (forall m :: MessageOk(w, m)) && (forall m :: CountOk(w, m)) && (forall o :: RefsOk(w, o)) && HistoryOk(w)
  }

  // ----- Retained buses -----

  lemma RetainersUpdate(origins: seq<Origin>, o: nat, origin: Origin, b: nat)
    requires o < |origins|
    ensures |Retainers(origins[o := origin], b)| == |Retainers(origins, b)|
      + One(Retains(origin, b)) - One(Retains(origins[o], b))
  {
    hide Retains;
    var before, after := Retainers(origins, b), Retainers(origins[o := origin], b);
    assert before - {o} == after - {o};
    assert before == if Retains(origins[o], b) then (before - {o}) + {o} else before - {o};
    assert after == if Retains(origin, b) then (after - {o}) + {o} else after - {o};
  }

  lemma SameRetainers(origins: seq<Origin>, others: seq<Origin>, b: nat)
    requires forall o: nat :: o < |origins| && Retains(origins[o], b) <==> o < |others| && Retains(others[o], b)
    ensures Retainers(origins, b) == Retainers(others, b)
  {
  }

  lemma NoRetainers(w: World, b: nat)
    requires forall o :: OriginOk(w, o)
    requires b >= |w.buses|
    ensures Retainers(w.origins, b) == {}
  {
    forall o: nat | o < |w.origins| ensures !Retains(w.origins[o], b) { assert OriginOk(w, o); }
  }

  lemma RetainGetBus(w: World, o: nat, b: nat)
    requires Invariant(w) && Enabled(w, GetBus(o))
    ensures RetainOk(OnGetBus(w, o), b)
  {
    hide QueueOk, OriginOk, MessageOk, CountOk, RefsOk, HistoryOk, Retainers;
    assert RetainOk(w, b);
    var w' := OnGetBus(w, o);
    RetainersUpdate(w.origins, o, w'.origins[o], b);
    assert w'.origins == w.origins[o := w'.origins[o]];
  }

  lemma RetainUnrefBus(w: World, o: nat, b: nat)
    requires Invariant(w) && Enabled(w, UnrefBus(o))
    ensures RetainOk(OnUnrefBus(w, o), b)
  {
    hide QueueOk, OriginOk, MessageOk, CountOk, RefsOk, HistoryOk, Retainers;
    assert RetainOk(w, b);
    var w' := OnUnrefBus(w, o);
    RetainersUpdate(w.origins, o, w'.origins[o], b);
    assert w'.origins == w.origins[o := w'.origins[o]];
  }

  lemma RetainMessages(w: World, e: Event, b: nat)
    requires Invariant(w) && Enabled(w, e)
    requires e.PushMessage? || e.EndPost? || e.FinishMessage? || e.BeginPost? || e.AddOrigin? || e.RemoveOrigin?
    ensures RetainOk(Step(w, e), b)
  {
    hide QueueOk, OriginOk, MessageOk, CountOk, RefsOk, HistoryOk, Retainers;
    assert RetainOk(w, b);
    SameRetainers(w.origins, Step(w, e).origins, b);
  }

  lemma RetainStep(w: World, e: Event, b: nat)
    requires Invariant(w) && Enabled(w, e)
    ensures RetainOk(Step(w, e), b)
  {
    hide QueueOk, OriginOk, MessageOk, CountOk, RefsOk, HistoryOk, Retainers, OnGetBus, OnUnrefBus;
    assert RetainOk(w, b);
    match e
    case NewBus => NoRetainers(w, |w.buses|);
    case NewOrigin => SameRetainers(w.origins, Step(w, e).origins, b);
    case GetBus(o) => RetainGetBus(w, o, b);
    case UnrefBus(o) => RetainUnrefBus(w, o, b);
    case JoinBus(o) => SameRetainers(w.origins, Step(w, e).origins, b);
    case SetMask(_, _) =>
    case RefBus(_) =>
    case DropBus(_) =>
    case Pop(_) =>
    case FinalizeReturns(_) =>
    case _ => RetainMessages(w, e, b);
  }

  // ----- What a bus has got -----

  lemma AcceptedAppend(history: seq<Visit>, v: Visit, b: nat)
    ensures Accepted(history + [v], b)
         == if v.bus == b && v.alive && Common(v.kind, v.mask) then Accepted(history, b) + [v.message] else Accepted(history, b)
  {
    assert (history + [v])[..|history|] == history;
  }

  lemma VisitsAppend(history: seq<Visit>, v: Visit, m: nat)
    ensures VisitsOf(history + [v], m) == if v.message == m then VisitsOf(history, m) + [v.bus] else VisitsOf(history, m)
  {
    assert (history + [v])[..|history|] == history;
  }

  lemma {:induction false} AcceptedNone(history: seq<Visit>, b: nat)
    requires forall i :: 0 <= i < |history| ==> history[i].bus != b
    ensures Accepted(history, b) == []
  {
    if history != [] { AcceptedNone(history[..|history| - 1], b); }
  }

  lemma {:induction false} VisitsNone(history: seq<Visit>, m: nat)
    requires forall i :: 0 <= i < |history| ==> history[i].message != m
    ensures VisitsOf(history, m) == []
  {
    if history != [] { VisitsNone(history[..|history| - 1], m); }
  }

  lemma {:induction false} AcceptedWasVisited(history: seq<Visit>, b: nat, m: nat)
    requires m in Accepted(history, b)
    ensures b in VisitsOf(history, m)
  {
    var rest, last := history[..|history| - 1], history[|history| - 1];
    if m in Accepted(rest, b) { AcceptedWasVisited(rest, b, m); }
  }

  lemma Apart(a: seq<nat>, b: seq<nat>)
    requires Distinct(a + b)
    ensures Distinct(a) && forall x :: x in a ==> x !in b
  {
    assert forall i :: 0 <= i < |a| ==> a[i] == (a + b)[i];
    assert forall i :: 0 <= i < |b| ==> b[i] == (a + b)[|a| + i];
  }

  /** A bus that is visited at most once with each message accepts each at most once. */
  lemma {:induction false} AcceptedDistinct(history: seq<Visit>, b: nat)
    requires forall m :: Distinct(VisitsOf(history, m))
    ensures Distinct(Accepted(history, b))
  {
    if history != [] {
      var rest, last := history[..|history| - 1], history[|history| - 1];
      assert history == rest + [last];
      forall m ensures Distinct(VisitsOf(rest, m)) {
        VisitsAppend(rest, last, m);
        assert Distinct(VisitsOf(history, m));
        assert forall i: nat :: i < |VisitsOf(rest, m)| ==> VisitsOf(rest, m)[i] == VisitsOf(history, m)[i];
      }
      AcceptedDistinct(rest, b);
      if last.bus == b && last.message in Accepted(rest, b) {
        VisitsAppend(rest, last, last.message);
        assert Distinct(VisitsOf(history, last.message));
        Apart(VisitsOf(rest, last.message), [b]);
        AcceptedWasVisited(rest, b, last.message);
      }
    }
  }

  lemma MessagesAppend(queue: seq<Item>, item: Item)
    ensures Messages(queue + [item]) == if item.Queued? then Messages(queue) + [item.message] else Messages(queue)
  {
    assert (queue + [item])[..|queue|] == queue;
  }

  lemma {:induction false} MessagesPop(queue: seq<Item>)
    requires queue != []
    ensures Messages(queue) == (if queue[0].Queued? then [queue[0].message] else []) + Messages(queue[1..])
  {
    if |queue| > 1 {
      var front := queue[..|queue| - 1];
      MessagesPop(front);
      assert front[1..] == queue[1..][..|queue| - 2];
    }
  }

  lemma {:induction false} MessagesIn(queue: seq<Item>, m: nat)
    ensures Queued(m) in queue <==> m in Messages(queue)
  {
    if queue != [] {
      MessagesIn(queue[..|queue| - 1], m);
      assert queue == queue[..|queue| - 1] + [queue[|queue| - 1]];
    }
  }

  lemma HeldIsAccepted(w: World, b: nat, m: nat)
    requires QueueOk(w, b) && b < |w.buses| && Holds(w.buses[b], m)
    ensures m in Accepted(w.history, b)
  {
    MessagesIn(w.buses[b].queue, m);
  }

  /** Who retains a bus keeps it alive. */
  lemma RetainedLives(w: World, o: nat, b: nat)
    requires RetainOk(w, b) && b < |w.buses| && o < |w.origins| && Retains(w.origins[o], b)
    ensures w.buses[b].strong > w.buses[b].app
  {
    assert o in Retainers(w.origins, b);
  }

  lemma QueuePop(w: World, b: nat)
    requires QueueOk(w, b) && Enabled(w, Pop(b))
    ensures QueueOk(OnPop(w, b), b)
  {
    hide Accepted, Messages;
    MessagesPop(w.buses[b].queue);
  }

  lemma QueueFinish(w: World, b: nat)
    requires QueueOk(w, b) && Enabled(w, FinishMessage(b))
    ensures QueueOk(OnFinishMessage(w, b), b)
  {
    hide Accepted, Messages;
  }

  lemma UnrefKeepsMarker(bus: Bus)
    requires MarkerOk(bus) && bus.strong > 0
    ensures MarkerOk(BusUnref(bus)) && Got(BusUnref(bus)) == Got(bus)
  {
    MessagesAppend(bus.queue, Last);
  }

  lemma QueuePush(w: World, o: nat, b: nat)
    requires Invariant(w) && Enabled(w, PushMessage(o))
    ensures QueueOk(OnPush(w, o), b)
  {
    hide Accepted, Messages, MessageOk, CountOk, RefsOk, HistoryOk, Matches, Common;
    var post := w.origins[o].post.value;
    var at := post.stage.bus;
    var visit := Visit(post.message, post.remaining[0], w.messages[post.message].kind, true, w.buses[at].mask);
    assert OriginOk(w, o) && RetainOk(w, at) && QueueOk(w, b);
    RetainedLives(w, o, at);
    MatchesIff(visit.kind, visit.mask);
    AcceptedAppend(w.history, visit, b);
    MessagesAppend(w.buses[at].queue, Queued(post.message));
  }

  lemma QueueGetBus(w: World, o: nat, b: nat)
    requires Invariant(w) && Enabled(w, GetBus(o))
    ensures QueueOk(OnGetBus(w, o), b)
  {
    hide Accepted, Messages, MessageOk, CountOk, RefsOk, HistoryOk;
    var post := w.origins[o].post.value;
    assert QueueOk(w, b);
    AcceptedAppend(w.history, Visit(post.message, post.remaining[0], w.messages[post.message].kind, false, 0), b);
  }

  lemma QueueUnrefBus(w: World, e: Event, b: nat)
    requires Invariant(w) && Enabled(w, e) && (e.UnrefBus? || e.DropBus?)
    ensures QueueOk(Step(w, e), b)
  {
    hide Accepted, MessageOk, CountOk, RefsOk, HistoryOk, MarkerOk, Got, BusUnref;
    assert QueueOk(w, b) && RetainOk(w, b);
    if e.UnrefBus? { RetainedLives(w, e.origin, w.origins[e.origin].post.value.stage.bus); }
    if b < |w.buses| && w.buses[b].strong > 0 { UnrefKeepsMarker(w.buses[b]); AppIsIrrelevant(BusUnref(w.buses[b])); }
  }

  lemma AppIsIrrelevant(bus: Bus)
    requires MarkerOk(bus)
    ensures forall app :: MarkerOk(bus.(app := app)) && Got(bus.(app := app)) == Got(bus)
  {
  }

  lemma QueueStep(w: World, e: Event, b: nat)
    requires Invariant(w) && Enabled(w, e)
    ensures QueueOk(Step(w, e), b)
  {
    hide Accepted, OriginOk, MessageOk, CountOk, RefsOk, OnGetBus, OnUnrefBus, OnPush, OnPop, OnFinishMessage;
    assert QueueOk(w, b);
    match e
    case NewBus => if b == |w.buses| { AcceptedNone(w.history, b); }
    case GetBus(o) => QueueGetBus(w, o, b);
    case PushMessage(o) => QueuePush(w, o, b);
    case UnrefBus(o) => QueueUnrefBus(w, e, b);
    case DropBus(_) => QueueUnrefBus(w, e, b);
    case Pop(c) => if b == c { QueuePop(w, b); } else { PopElsewhere(w, c, b); }
    case FinishMessage(c) => if b == c { QueueFinish(w, b); } else { PopElsewhere(w, c, b); }
    case RefBus(_) => assert RetainOk(w, b);
    case _ =>
  }

  lemma PopElsewhere(w: World, c: nat, b: nat)
    requires QueueOk(w, b) && b != c
    ensures Enabled(w, Pop(c)) ==> QueueOk(OnPop(w, c), b)
    ensures Enabled(w, FinishMessage(c)) ==> QueueOk(OnFinishMessage(w, c), b)
  {
  }

  // ----- Posters and their visits -----

  /** What a step leaves of everything: identities, who was subscribed, and the dead stay dead. */
  ghost predicate Extends(w: World, w': World)
  {
    && |w.buses| <= |w'.buses| && |w.origins| <= |w'.origins| && |w.messages| <= |w'.messages|
    && (forall b: nat :: b < |w.buses| && w.buses[b].strong <= 0 ==> w'.buses[b].strong <= 0)
    && (forall m: nat :: m < |w.messages| ==>
          w'.messages[m].origin == w.messages[m].origin && w'.messages[m].kind == w.messages[m].kind
          && w'.messages[m].subscribers == w.messages[m].subscribers)
  }

  lemma UnrefBusExtends(w: World, o: nat)
    requires Invariant(w) && Enabled(w, UnrefBus(o))
    ensures Extends(w, OnUnrefBus(w, o)) && OnUnrefBus(w, o).messages == w.messages
  {
    hide QueueOk, OriginOk, MessageOk, CountOk, RefsOk, HistoryOk, RetainOk;
  }

  lemma MessageStepExtends(w: World, e: Event)
    requires Enabled(w, e) && (e.PushMessage? || e.EndPost? || e.FinishMessage? || e.BeginPost?)
    ensures Extends(w, Step(w, e)) && (!e.BeginPost? ==> |Step(w, e).messages| == |w.messages|)
  {
    hide Matches;
  }

  lemma StepExtends(w: World, e: Event)
    requires Invariant(w) && Enabled(w, e)
    ensures Extends(w, Step(w, e)) && (!e.BeginPost? ==> |Step(w, e).messages| == |w.messages|)
  {
    hide QueueOk, OriginOk, MessageOk, CountOk, RefsOk, HistoryOk, Retainers, OnUnrefBus, OnPush, OnEndPost, OnFinishMessage, OnBeginPost;
    match e
    case RefBus(b) => assert RetainOk(w, b);
    case UnrefBus(o) => UnrefBusExtends(w, o);
    case PushMessage(_) => MessageStepExtends(w, e);
    case EndPost(_) => MessageStepExtends(w, e);
    case FinishMessage(_) => MessageStepExtends(w, e);
    case BeginPost(_, _, _) => MessageStepExtends(w, e);
    case _ =>
  }

  ghost predicate Looks(w: World, e: Event, m: nat)
    requires Enabled(w, e)
  {
    (e.GetBus? || e.PushMessage?) && w.origins[e.origin].post.value.message == m
  }

  lemma VisitsFrame(w: World, e: Event, m: nat)
    requires Enabled(w, e) && !Looks(w, e, m)
    ensures VisitsOf(Step(w, e).history, m) == VisitsOf(w.history, m)
  {
    hide VisitsOf;
    if e.GetBus? || e.PushMessage? {
      var history := Step(w, e).history;
      if history != w.history {
        assert history == w.history + [history[|history| - 1]];
        VisitsAppend(w.history, history[|history| - 1], m);
      }
    }
  }

  lemma PostFrame(w: World, w': World, o: nat)
    requires OriginOk(w, o) && o < |w.origins| && Extends(w, w')
    requires w'.origins[o].table == w.origins[o].table && w'.origins[o].post == w.origins[o].post
    requires w.origins[o].post.Some? ==>
      VisitsOf(w'.history, w.origins[o].post.value.message) == VisitsOf(w.history, w.origins[o].post.value.message)
    ensures OriginOk(w', o)
  {
  }

  lemma LookKeepsPost(w: World, o: nat, alive: bool, mask: Mask, table: set<nat>, stage: Stage)
    requires OriginOk(w, o) && Posting(w, o) && w.origins[o].post.value.remaining != []
    requires table <= w.origins[o].table && !stage.Holding? && (stage.Visited? ==> stage.bus < |w.buses|) && !stage.Joining?
    ensures OriginOk(Look(w, o, alive, mask, table, stage), o)
  {
    var post := w.origins[o].post.value;
    VisitsAppend(w.history, Visit(post.message, post.remaining[0], w.messages[post.message].kind, alive, mask), post.message);
  }

  lemma OwnPost(w: World, e: Event)
    requires Invariant(w) && Enabled(w, e) && (e.GetBus? || e.PushMessage?)
    ensures OriginOk(Step(w, e), e.origin)
  {
    hide QueueOk, CountOk, RefsOk, HistoryOk, VisitsOf, RetainOk;
    var o := e.origin;
    var post := w.origins[o].post.value;
    assert OriginOk(w, o);
    if e.GetBus? {
      LookKeepsPost(w, o, false, 0, w.origins[o].table - {post.remaining[0]}, Between);
    } else {
      LookKeepsPost(w, o, true, w.buses[post.stage.bus].mask, w.origins[o].table, Visited(post.stage.bus));
    }
  }

  lemma OriginStep(w: World, e: Event, o: nat)
    requires Invariant(w) && Enabled(w, e)
    ensures OriginOk(Step(w, e), o)
  {
    hide QueueOk, CountOk, RefsOk, HistoryOk, VisitsOf, MarkerOk, RetainOk, Extends, Matches, MessageOk, PostOk, BusUnref;
    var w' := Step(w, e);
    assert OriginOk(w, o);
    StepExtends(w, e);
    if o < |w.origins| && w'.origins[o].table == w.origins[o].table && w'.origins[o].post == w.origins[o].post {
      if w.origins[o].post.Some? { OthersLook(w, e, o); }
      PostFrame(w, w', o);
    } else if e.GetBus? || e.PushMessage? {
      if o < |w.origins| { OwnPost(w, e); }
    } else {
      hide OnGetBus, OnPush;
      OwnStage(w, e, o);
    }
  }

  /** No other step looks at a bus with this poster's message. */
  lemma OthersLook(w: World, e: Event, o: nat)
    requires Invariant(w) && Enabled(w, e) && o < |w.origins| && w.origins[o].post.Some?
    requires Step(w, e).origins[o].post == w.origins[o].post
    ensures VisitsOf(Step(w, e).history, w.origins[o].post.value.message) == VisitsOf(w.history, w.origins[o].post.value.message)
  {
    hide QueueOk, CountOk, RefsOk, HistoryOk, VisitsOf, MarkerOk, RetainOk, MessageOk;
    assert OriginOk(w, o);
    if Looks(w, e, w.origins[o].post.value.message) {
      assert OriginOk(w, e.origin) && e.origin == o;
    } else {
      VisitsFrame(w, e, w.origins[o].post.value.message);
    }
  }

  lemma OwnStage(w: World, e: Event, o: nat)
    requires Invariant(w) && Enabled(w, e) && !e.GetBus? && !e.PushMessage?
    requires o < |w.origins| ==> Step(w, e).origins[o].(refs := 0) != w.origins[o].(refs := 0)
    ensures OriginOk(Step(w, e), o)
  {
    hide QueueOk, CountOk, RefsOk, MarkerOk, RetainOk;
    assert OriginOk(w, o);
    if e.BeginPost? && e.origin == o { FreshMessage(w); }
  }

  lemma FreshMessage(w: World)
    requires HistoryOk(w)
    ensures VisitsOf(w.history, |w.messages|) == []
  {
    VisitsNone(w.history, |w.messages|);
  }

  lemma MessageStep(w: World, e: Event, m: nat)
    requires Invariant(w) && Enabled(w, e)
    ensures MessageOk(Step(w, e), m)
  {
    hide QueueOk, CountOk, RefsOk, HistoryOk, RetainOk, Extends, OnGetBus, OnPush, OnUnrefBus, OnPop, OnFinishMessage;
    assert MessageOk(w, m);
    StepExtends(w, e);
    if Looks(w, e, m) {
      MessageLooked(w, e, m);
    } else if (e.EndPost? || e.BeginPost?) {
      VisitsFrame(w, e, m);
      MessageEnds(w, e, m);
    } else {
      VisitsFrame(w, e, m);
      if m < |w.messages| { SamePosting(w, e, m); }
      MessageFrame(w, Step(w, e), m);
    }
  }

  lemma MessageFrame(w: World, w': World, m: nat)
    requires MessageOk(w, m) && Extends(w, w') && |w'.messages| == |w.messages|
    requires VisitsOf(w'.history, m) == VisitsOf(w.history, m)
    requires m < |w.messages| && w.messages[m].origin < |w.origins| ==>
      (IsPosting(w'.origins[w.messages[m].origin], m) <==> IsPosting(w.origins[w.messages[m].origin], m))
    ensures MessageOk(w', m)
  {
  }

  lemma SamePosting(w: World, e: Event, m: nat)
    requires Invariant(w) && Enabled(w, e) && !e.EndPost? && !e.BeginPost? && m < |w.messages| && w.messages[m].origin < |w.origins|
    ensures var o := w.messages[m].origin; IsPosting(Step(w, e).origins[o], m) <==> IsPosting(w.origins[o], m)
  {
    hide Invariant, Matches;
  }

  lemma MessageLooked(w: World, e: Event, m: nat)
    requires Invariant(w) && Enabled(w, e) && Looks(w, e, m)
    ensures MessageOk(Step(w, e), m)
  {
    hide QueueOk, CountOk, RefsOk, HistoryOk, VisitsOf, MarkerOk, RetainOk, Matches;
    assert OriginOk(w, e.origin) && MessageOk(w, m);
    StepExtends(w, e);
  }

  lemma MessageEnds(w: World, e: Event, m: nat)
    requires Invariant(w) && Enabled(w, e) && (e.EndPost? || e.BeginPost?)
    requires VisitsOf(Step(w, e).history, m) == VisitsOf(w.history, m)
    ensures MessageOk(Step(w, e), m)
  {
    hide QueueOk, CountOk, RefsOk, HistoryOk, VisitsOf, RetainOk;
    assert MessageOk(w, m) && OriginOk(w, e.origin);
  }

  lemma HistoryStep(w: World, e: Event)
    requires Invariant(w) && Enabled(w, e)
    ensures HistoryOk(Step(w, e))
  {
    hide QueueOk, CountOk, RefsOk, VisitsOf, MarkerOk, RetainOk, Matches, MessageOk;
    StepExtends(w, e);
    if e.PushMessage? { assert OriginOk(w, e.origin); }
  }
}
