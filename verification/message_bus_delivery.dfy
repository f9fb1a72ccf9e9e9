/** What every interleaving delivers and who stays subscribed, said of its events and states alone. */
module MessageBusDelivery {
  import opened Collections
  import opened MessageBus
  import opened MessageBusSteps
  import opened MessageBusRuns

  // ----- Visits -----

  ghost predicate PostsTo(w: World, e: Event, o: nat, m: nat)
  {
    Enabled(w, e) && (e == PushMessage(o) || e == GetBus(o)) && IsPosting(w.origins[o], m)
  }

  /** The poster of a message offers it to a bus that it holds. */
  ghost predicate Offers(w: World, e: Event, b: nat, m: nat)
  {
    e.PushMessage? && PostsTo(w, e, e.origin, m) && w.origins[e.origin].post.value.stage == Holding(b)
  }

  /** The poster comes to a bus to which no reference is left. */
  ghost predicate FindsDead(w: World, e: Event, b: nat, m: nat)
  {
    && e.GetBus? && PostsTo(w, e, e.origin, m) && w.origins[e.origin].post.value.remaining[0] == b
    && w.buses[b].strong <= 0
  }

  /** An offer that the mask of that moment lets pass. */
  ghost predicate Delivers(w: World, e: Event, b: nat, m: nat)
  {
    Offers(w, e, b, m) && Common(w.messages[m].kind, w.buses[b].mask)
  }

  /** What a step adds to the history: the visit it makes, if any. */
  ghost function NewVisits(w: World, e: Event): seq<Visit>
  {
    if e.PushMessage? && Enabled(w, e) then
      var post := w.origins[e.origin].post.value;
      [Visit(post.message, post.remaining[0], w.messages[post.message].kind, true, w.buses[post.stage.bus].mask)]
    else if e.GetBus? && Enabled(w, e) && w.buses[w.origins[e.origin].post.value.remaining[0]].strong <= 0 then
      var post := w.origins[e.origin].post.value;
      [Visit(post.message, post.remaining[0], w.messages[post.message].kind, false, 0)]
    else []
  }

  lemma HistoryGrows(w: World, e: Event)
    requires Enabled(w, e)
    ensures Step(w, e).history == w.history + NewVisits(w, e)
  {
    hide Matches;
  }

  lemma AcceptedStep(w: World, e: Event, b: nat, m: nat)
    requires Invariant(w) && Enabled(w, e)
    ensures m in Accepted(Step(w, e).history, b) <==> m in Accepted(w.history, b) || Delivers(w, e, b, m)
    ensures b in VisitsOf(Step(w, e).history, m) <==>
              b in VisitsOf(w.history, m) || Offers(w, e, b, m) || FindsDead(w, e, b, m)
  {
    hide RetainOk, QueueOk, MessageOk, CountOk, RefsOk, HistoryOk, Accepted, VisitsOf, Common, Step;
    HistoryGrows(w, e);
    if e.GetBus? || e.PushMessage? { assert OriginOk(w, e.origin); }
    if NewVisits(w, e) == [] {
      assert Step(w, e).history == w.history;
    } else {
      var visit := NewVisits(w, e)[0];
      assert Step(w, e).history == w.history + [visit];
      AcceptedAppend(w.history, visit, b);
      VisitsAppend(w.history, visit, m);
    }
  }

  lemma {:induction false} AcceptedIff(worlds: seq<World>, events: seq<Event>, i: nat, b: nat, m: nat)
    requires IsRun(worlds, events) && i < |worlds|
    ensures m in Accepted(worlds[i].history, b) <==> exists t :: 0 <= t < i && Delivers(worlds[t], events[t], b, m)
    ensures b in VisitsOf(worlds[i].history, m) <==>
              exists t :: 0 <= t < i && (Offers(worlds[t], events[t], b, m) || FindsDead(worlds[t], events[t], b, m))
  {
    hide Invariant, Enabled, Step, Delivers, Offers, FindsDead;
    if i > 0 {
      hide Accepted, VisitsOf;
      AcceptedIff(worlds, events, i - 1, b, m);
      RunsKeepInvariant(worlds, events, i - 1);
      AcceptedStep(worlds[i - 1], events[i - 1], b, m);
    }
  }

  // ----- Messages keep what they are -----

  lemma {:induction false} MessageKept(worlds: seq<World>, events: seq<Event>, i: nat, k: nat, m: nat)
    requires IsRun(worlds, events) && i <= k < |worlds|
    ensures |worlds[i].messages| <= |worlds[k].messages| && |worlds[i].buses| <= |worlds[k].buses|
    ensures m < |worlds[i].messages| ==>
      && worlds[k].messages[m].origin == worlds[i].messages[m].origin && worlds[k].messages[m].kind == worlds[i].messages[m].kind
      && worlds[k].messages[m].subscribers == worlds[i].messages[m].subscribers
  {
    hide Invariant, Enabled, Step;
    if i < k {
      MessageKept(worlds, events, i, k - 1, m);
      RunsKeepInvariant(worlds, events, k - 1);
      StepExtends(worlds[k - 1], events[k - 1]);
    }
  }

  /** The origin of a message is the one that posts it, and the bus it comes to next was subscribed. */
  lemma PostedByOrigin(w: World, e: Event, o: nat, m: nat)
    requires Invariant(w) && PostsTo(w, e, o, m)
    ensures m < |w.messages| && w.messages[m].origin == o
    ensures var remaining := w.origins[o].post.value.remaining;
      && remaining != [] && VisitsOf(w.history, m) + remaining == w.messages[m].subscribers
      && (e.PushMessage? && w.origins[o].post.value.stage.Holding? ==> remaining[0] == w.origins[o].post.value.stage.bus)
  {
    hide RetainOk, QueueOk, MessageOk, CountOk, RefsOk, HistoryOk, VisitsOf;
    assert OriginOk(w, o);
  }

  /** Who offers a message, or finds the bus dead, has begun the post before and had the bus subscribed. */
  lemma VisitDuringPost(worlds: seq<World>, events: seq<Event>, j: nat, t: nat, o: nat, kind: Mask, order: seq<nat>, b: nat)
    requires IsRun(worlds, events) && j < |events| && t < |events| && events[j] == BeginPost(o, kind, order)
    requires var m := |worlds[j].messages|;
      Offers(worlds[t], events[t], b, m) || FindsDead(worlds[t], events[t], b, m)
    ensures j < t && b in order && events[t].origin == o && worlds[t].messages[|worlds[j].messages|].kind == kind
    ensures b < |worlds[t].buses|
  {
    hide Invariant, Step, VisitsOf;
    var m := |worlds[j].messages|;
    RunsKeepInvariant(worlds, events, t);
    PostedByOrigin(worlds[t], events[t], events[t].origin, m);
    if t <= j { MessageKept(worlds, events, t, j, m); }
    Begun(worlds, events, j, t, o, kind, order);
    var remaining := worlds[t].origins[o].post.value.remaining;
    assert remaining[0] in VisitsOf(worlds[t].history, m) + remaining;
  }

  lemma Begun(worlds: seq<World>, events: seq<Event>, j: nat, i: nat, o: nat, kind: Mask, order: seq<nat>)
    requires IsRun(worlds, events) && j < i < |worlds| && events[j] == BeginPost(o, kind, order)
    ensures var m := |worlds[j].messages|;
      && m < |worlds[i].messages| && worlds[i].messages[m].origin == o
      && worlds[i].messages[m].kind == kind && worlds[i].messages[m].subscribers == order
  {
    var m := |worlds[j].messages|;
    assert worlds[j + 1] == Step(worlds[j], events[j]);
    assert worlds[j + 1].messages == worlds[j].messages + [Message(o, kind, 1, 0, order)];
    hide IsRun, Step;
    MessageKept(worlds, events, j + 1, i, m);
  }

  /** A message is offered to a bus at most once. */
  lemma OfferedOnce(worlds: seq<World>, events: seq<Event>, t: nat, u: nat, b: nat, m: nat)
    requires IsRun(worlds, events) && t < u < |events| && Offers(worlds[t], events[t], b, m)
    ensures !Offers(worlds[u], events[u], b, m)
  {
    hide Invariant, Step, VisitsOf;
    if Offers(worlds[u], events[u], b, m) {
      AcceptedIff(worlds, events, u, b, m);
      RunsKeepInvariant(worlds, events, u);
      var w := worlds[u];
      var remaining := w.origins[events[u].origin].post.value.remaining;
      PostedByOrigin(w, events[u], events[u].origin, m);
      assert Distinct(w.messages[m].subscribers) by { SubscribersDistinct(w, m); }
      assert remaining[0] in remaining;
      Apart(VisitsOf(w.history, m), remaining);
    }
  }

  lemma SubscribersDistinct(w: World, m: nat)
    requires Invariant(w) && m < |w.messages|
    ensures Distinct(w.messages[m].subscribers)
  {
    hide RetainOk, QueueOk, OriginOk, CountOk, RefsOk, HistoryOk, VisitsOf;
    assert MessageOk(w, m);
  }

  lemma GotIsAccepted(w: World, b: nat)
    requires Invariant(w) && b < |w.buses|
    ensures Got(w.buses[b]) == Accepted(w.history, b)
  {
    hide RetainOk, MessageOk, OriginOk, CountOk, RefsOk, HistoryOk, VisitsOf, Got, Accepted;
    assert QueueOk(w, b);
  }

  lemma AppKeepsAlive(w: World, b: nat)
    requires Invariant(w) && b < |w.buses|
    ensures w.buses[b].strong >= w.buses[b].app
  {
    hide QueueOk, MessageOk, OriginOk, CountOk, RefsOk, HistoryOk, Retainers;
    assert RetainOk(w, b);
  }

  /** A bus has got a message exactly if a poster offered it and the mask of that moment let it pass. */
  lemma GotIff(worlds: seq<World>, events: seq<Event>, i: nat, b: nat, m: nat)
    requires IsRun(worlds, events) && i < |worlds| && b < |worlds[i].buses|
    ensures m in Got(worlds[i].buses[b]) <==> exists t :: 0 <= t < i && Delivers(worlds[t], events[t], b, m)
  {
    hide IsRun, Invariant, Delivers, Offers, FindsDead, Got, Accepted, VisitsOf;
    RunsKeepInvariant(worlds, events, i);
    GotIsAccepted(worlds[i], b);
    AcceptedIff(worlds, events, i, b, m);
  }

  // ----- Whole posts -----

  /** The application holds the bus in every world of the post of m by o between begin and i. */
  ghost predicate HeldThroughout(worlds: seq<World>, begin: nat, i: nat, o: nat, m: nat, b: nat)
    requires begin <= i < |worlds|
  {
    forall t :: begin < t < i && o < |worlds[t].origins| && IsPosting(worlds[t].origins[o], m) && b < |worlds[t].buses| ==>
      worlds[t].buses[b].app > 0
  }

  /** A post that is over has offered its message to every bus that was subscribed when it began and that the
      application held meanwhile: once, and the bus has got it exactly if a type of the message is in the mask
      it had at that moment. */
  lemma PostReaches(worlds: seq<World>, events: seq<Event>, begin: nat, i: nat, o: nat, kind: Mask, order: seq<nat>, b: nat)
    returns (at: nat)
    requires IsRun(worlds, events) && begin < i < |worlds| && events[begin] == BeginPost(o, kind, order)
    requires o < |worlds[i].origins| && !IsPosting(worlds[i].origins[o], |worlds[begin].messages|)
    requires b in worlds[begin].origins[o].table && HeldThroughout(worlds, begin, i, o, |worlds[begin].messages|, b)
    ensures begin < at < i && Offers(worlds[at], events[at], b, |worlds[begin].messages|)
    ensures forall t :: 0 <= t < |events| && Offers(worlds[t], events[t], b, |worlds[begin].messages|) ==> t == at
    ensures b < |worlds[at].buses| && b < |worlds[i].buses|
    ensures |worlds[begin].messages| in Got(worlds[i].buses[b]) <==> Common(kind, worlds[at].buses[b].mask)
  {
    var m := |worlds[begin].messages|;
    assert Enabled(worlds[begin], events[begin]);
    assert b in order;
    hide Step, Enabled, Got, Common, VisitsOf, Offers, FindsDead, Invariant, IsRun, HeldThroughout, Distinct;
    at := VisitOf(worlds, events, begin, i, o, kind, order, b);
    VisitDuringPost(worlds, events, begin, at, o, kind, order, b);
    NotDead(worlds, events, begin, at, i, o, m, b);
    GotByOffer(worlds, events, at, i, b, m);
  }

  /** The one offer of a message to a bus decides. */
  lemma GotByOffer(worlds: seq<World>, events: seq<Event>, at: nat, i: nat, b: nat, m: nat)
    requires IsRun(worlds, events) && at < i < |worlds| && b < |worlds[at].buses| && Offers(worlds[at], events[at], b, m)
    ensures forall t :: 0 <= t < |events| && Offers(worlds[t], events[t], b, m) ==> t == at
    ensures m < |worlds[at].messages| && b < |worlds[i].buses|
    ensures m in Got(worlds[i].buses[b]) <==> Common(worlds[at].messages[m].kind, worlds[at].buses[b].mask)
  {
    OnlyOffer(worlds, events, at, b, m);
    MessageKept(worlds, events, at, i, m);
    GotIff(worlds, events, i, b, m);
    assert |worlds| == |events| + 1 && m < |worlds[at].messages|;
    hide IsRun, Got, Common, Offers;
  }

  lemma VisitOf(worlds: seq<World>, events: seq<Event>, begin: nat, i: nat, o: nat, kind: Mask, order: seq<nat>, b: nat)
    returns (at: nat)
    requires IsRun(worlds, events) && begin < i < |worlds| && events[begin] == BeginPost(o, kind, order) && b in order
    requires o < |worlds[i].origins| && !IsPosting(worlds[i].origins[o], |worlds[begin].messages|)
    ensures var m := |worlds[begin].messages|;
      at < i && (Offers(worlds[at], events[at], b, m) || FindsDead(worlds[at], events[at], b, m))
  {
    hide Step, Enabled, VisitsOf, Offers, FindsDead, Invariant, Distinct;
    var m := |worlds[begin].messages|;
    Begun(worlds, events, begin, i, o, kind, order);
    RunsKeepInvariant(worlds, events, i);
    AllVisited(worlds[i], m);
    AcceptedIff(worlds, events, i, b, m);
    at :| 0 <= at < i && (Offers(worlds[at], events[at], b, m) || FindsDead(worlds[at], events[at], b, m));
  }

  lemma AllVisited(w: World, m: nat)
    requires Invariant(w) && m < |w.messages|
    ensures w.messages[m].origin < |w.origins|
    ensures !IsPosting(w.origins[w.messages[m].origin], m) ==> VisitsOf(w.history, m) == w.messages[m].subscribers
  {
    hide RetainOk, QueueOk, OriginOk, CountOk, RefsOk, HistoryOk, VisitsOf;
    assert MessageOk(w, m);
  }

  lemma NotDead(worlds: seq<World>, events: seq<Event>, begin: nat, at: nat, i: nat, o: nat, m: nat, b: nat)
    requires IsRun(worlds, events) && begin < at < i < |worlds| && b < |worlds[at].buses|
    requires HeldThroughout(worlds, begin, i, o, m, b) && (events[at].GetBus? || events[at].PushMessage?) && events[at].origin == o
    ensures !FindsDead(worlds[at], events[at], b, m)
  {
    hide Invariant, Step;
    RunsKeepInvariant(worlds, events, at);
    AppKeepsAlive(worlds[at], b);
  }

  lemma OnlyOffer(worlds: seq<World>, events: seq<Event>, at: nat, b: nat, m: nat)
    requires IsRun(worlds, events) && at < |events| && Offers(worlds[at], events[at], b, m)
    ensures forall t :: 0 <= t < |events| && Offers(worlds[t], events[t], b, m) ==> t == at
  {
    hide Enabled, Step, Offers;
    forall t | 0 <= t < |events| && Offers(worlds[t], events[t], b, m) ensures t == at {
      if t < at { OfferedOnce(worlds, events, t, at, b, m); }
      if at < t { OfferedOnce(worlds, events, at, t, b, m); }
    }
  }

  /** Nobody else gets a message: only buses subscribed when its post began. */
  lemma OnlySubscribers(worlds: seq<World>, events: seq<Event>, begin: nat, i: nat, o: nat, kind: Mask, order: seq<nat>, b: nat)
    requires IsRun(worlds, events) && begin < i < |worlds| && events[begin] == BeginPost(o, kind, order)
    requires b < |worlds[i].buses| && |worlds[begin].messages| in Got(worlds[i].buses[b])
    ensures b in worlds[begin].origins[o].table
  {
    var m := |worlds[begin].messages|;
    assert Enabled(worlds[begin], events[begin]);
    hide Step, Got, Common, Offers, FindsDead, Invariant;
    GotIff(worlds, events, i, b, m);
    var t :| 0 <= t < i && Delivers(worlds[t], events[t], b, m);
    VisitDuringPost(worlds, events, begin, t, o, kind, order, b);
  }

  // ----- Masks -----

  /** A bus has the mask that was set last, or that it was made with: ERROR, STATS and EVENT. */
  lemma {:induction false} MaskIsLastSet(worlds: seq<World>, events: seq<Event>, t: nat, i: nat, b: nat, mask: Mask)
    requires IsRun(worlds, events) && t < i < |worlds|
    requires events[t] == SetMask(b, mask) || (events[t] == NewBus && b == |worlds[t].buses| && mask == 1 | 2 | 4)
    requires MaskLeft(events, t + 1, i, b)
    ensures b < |worlds[i].buses| && worlds[i].buses[b].mask == mask
  {
    assert Enabled(worlds[t], events[t]) && worlds[t + 1] == Step(worlds[t], events[t]);
    hide Step, Enabled;
    MaskStays(worlds, events, t + 1, i, b);
  }

  lemma LastStep(worlds: seq<World>, events: seq<Event>, i: nat)
    requires IsRun(worlds, events) && 0 < i < |worlds|
    ensures |worlds| == |events| + 1
    ensures Enabled(worlds[i - 1], events[i - 1]) && worlds[i] == Step(worlds[i - 1], events[i - 1])
  {
    hide Enabled, Step;
  }

  /** Nobody sets the mask of the bus from the event numbered t up to the one numbered i. */
  ghost predicate MaskLeft(events: seq<Event>, t: nat, i: nat, b: nat)
  {
    forall u: nat :: t <= u < i && u < |events| ==> !(events[u].SetMask? && events[u].bus == b)
  }

  lemma LeftBefore(events: seq<Event>, t: nat, i: nat, b: nat)
    requires MaskLeft(events, t, i, b) && t < i <= |events|
    ensures MaskLeft(events, t, i - 1, b) && !(events[i - 1].SetMask? && events[i - 1].bus == b)
  {
  }

  lemma {:induction false} MaskStays(worlds: seq<World>, events: seq<Event>, t: nat, i: nat, b: nat)
    requires IsRun(worlds, events) && t <= i < |worlds| && b < |worlds[t].buses| && MaskLeft(events, t, i, b)
    ensures b < |worlds[i].buses| && worlds[i].buses[b].mask == worlds[t].buses[b].mask
  {
    if t < i {
      hide IsRun, Step, Enabled, MaskLeft;
      LastStep(worlds, events, i);
      LeftBefore(events, t, i, b);
      MaskStays(worlds, events, t, i - 1, b);
      OthersKeepMask(worlds[i - 1], events[i - 1], b);
    }
  }

  lemma OthersKeepMask(w: World, e: Event, b: nat)
    requires Enabled(w, e) && b < |w.buses| && !(e.SetMask? && e.bus == b)
    ensures b < |Step(w, e).buses| && Step(w, e).buses[b].mask == w.buses[b].mask
  {
    hide Matches;
  }

  /** With the mask left alone during the post, the mask at its beginning decides. */
  lemma PostReachesSteadily(worlds: seq<World>, events: seq<Event>, begin: nat, i: nat, o: nat, kind: Mask, order: seq<nat>, b: nat)
    requires IsRun(worlds, events) && begin < i < |worlds| && events[begin] == BeginPost(o, kind, order)
    requires o < |worlds[i].origins| && !IsPosting(worlds[i].origins[o], |worlds[begin].messages|)
    requires b in worlds[begin].origins[o].table && HeldThroughout(worlds, begin, i, o, |worlds[begin].messages|, b)
    requires MaskLeft(events, begin, i, b)
    ensures b < |worlds[begin].buses| && b < |worlds[i].buses|
    ensures |worlds[begin].messages| in Got(worlds[i].buses[b]) <==> Common(kind, worlds[begin].buses[b].mask)
  {
    assert Enabled(worlds[begin], events[begin]);
    hide Enabled, Step, Got, Common, HeldThroughout, Offers;
    InTableExists(worlds, events, begin, o, b);
    var at := PostReaches(worlds, events, begin, i, o, kind, order, b);
    MaskStays(worlds, events, begin, at, b);
  }

  lemma InTableExists(worlds: seq<World>, events: seq<Event>, i: nat, o: nat, b: nat)
    requires IsRun(worlds, events) && i < |worlds| && o < |worlds[i].origins| && b in worlds[i].origins[o].table
    ensures b < |worlds[i].buses|
  {
    hide IsRun, RetainOk, QueueOk, MessageOk, CountOk, RefsOk, HistoryOk, PostOk;
    RunsKeepInvariant(worlds, events, i);
    assert OriginOk(worlds[i], o);
  }

  // ----- Subscriptions and references of the application -----

  ghost predicate Subscribed(w: World, o: nat, b: nat)
  {
    o < |w.origins| && b in w.origins[o].table
  }

  /** What takes a bus out of a table: its removal, or a poster that finds it dead. */
  ghost predicate Leaves(w: World, e: Event, o: nat, b: nat)
  {
    e == RemoveOrigin(b, o) || (e == GetBus(o) && Enabled(w, e) && w.origins[o].post.value.remaining[0] == b && w.buses[b].strong <= 0)
  }

  lemma SubscribedStep(w: World, e: Event, o: nat, b: nat)
    requires Enabled(w, e)
    ensures Subscribed(Step(w, e), o, b) <==> e == AddOrigin(b, o) || (Subscribed(w, o, b) && !Leaves(w, e, o, b))
  {
    if e.GetBus? {
      LookedUpStep(w, e.origin, o, b);
    } else if e.AddOrigin? || e.RemoveOrigin? || e.NewOrigin? {
      hide OnGetBus, OnPush, OnUnrefBus, OnEndPost, OnBeginPost, OnPop, OnFinishMessage;
    } else {
      hide Subscribed, Leaves;
      TablesStay(w, e, o, b);
    }
  }

  lemma TablesStay(w: World, e: Event, o: nat, b: nat)
    requires Enabled(w, e) && !e.GetBus? && !e.AddOrigin? && !e.RemoveOrigin? && !e.NewOrigin?
    ensures Subscribed(Step(w, e), o, b) <==> Subscribed(w, o, b)
    ensures !Leaves(w, e, o, b)
  {
    hide Matches, OnGetBus;
  }

  lemma LookedUpStep(w: World, poster: nat, o: nat, b: nat)
    requires Enabled(w, GetBus(poster))
    ensures Subscribed(OnGetBus(w, poster), o, b) <==> Subscribed(w, o, b) && !Leaves(w, GetBus(poster), o, b)
  {
  }

  /** The j-th event added the bus to the table, and none before the i-th took it out again. */
  ghost predicate SubscribedSince(worlds: seq<World>, events: seq<Event>, j: nat, i: nat, o: nat, b: nat)
    requires IsRun(worlds, events) && i < |worlds|
  {
    j < i && events[j] == AddOrigin(b, o) && forall t :: j < t < i ==> !Leaves(worlds[t], events[t], o, b)
  }

  lemma SinceStep(worlds: seq<World>, events: seq<Event>, j: nat, i: nat, o: nat, b: nat)
    requires IsRun(worlds, events) && 0 < i < |worlds|
    ensures SubscribedSince(worlds, events, j, i, o, b) <==>
      if j == i - 1 then events[j] == AddOrigin(b, o)
      else SubscribedSince(worlds, events, j, i - 1, o, b) && !Leaves(worlds[i - 1], events[i - 1], o, b)
  {
    hide Step, Enabled, Leaves;
  }

  /** A bus is subscribed exactly if it was added and has not left since. */
  lemma {:induction false} SubscribedIff(worlds: seq<World>, events: seq<Event>, i: nat, o: nat, b: nat)
    requires IsRun(worlds, events) && i < |worlds|
    ensures Subscribed(worlds[i], o, b) <==> exists j: nat :: SubscribedSince(worlds, events, j, i, o, b)
  {
    if i > 0 {
      LastStep(worlds, events, i);
      hide IsRun, Step, Enabled, Subscribed, Leaves, SubscribedSince;
      SubscribedIff(worlds, events, i - 1, o, b);
      SubscribedStep(worlds[i - 1], events[i - 1], o, b);
      forall j: nat { SinceStep(worlds, events, j, i, o, b); }
      NotYetSince(worlds, events, i - 1, o, b);
      SinceStep(worlds, events, i - 1, i, o, b);
    }
  }

  lemma NotYetSince(worlds: seq<World>, events: seq<Event>, i: nat, o: nat, b: nat)
    requires IsRun(worlds, events) && i < |worlds|
    ensures !SubscribedSince(worlds, events, i, i, o, b)
  {
  }

  /** What the application has taken of a bus since it made it, less what it has given back. */
  ghost function Taken(events: seq<Event>, b: nat): int
  {
    if events == [] then 0
    else
      var earlier, last := Taken(events[..|events| - 1], b), events[|events| - 1];
      if last == RefBus(b) then earlier + 1 else if last == DropBus(b) then earlier - 1 else earlier
  }

  lemma ShareStep(w: World, e: Event, b: nat)
    requires Enabled(w, e) && b < |Step(w, e).buses|
    ensures Step(w, e).buses[b].app == (if b < |w.buses| then w.buses[b].app else 1) + Taken([e], b)
    ensures b >= |w.buses| ==> Taken([e], b) == 0
  {
    hide Matches;
    assert [e][..0] == [];
  }

  lemma NoShareStep(w: World, e: Event, b: nat)
    requires Enabled(w, e) && b >= |Step(w, e).buses|
    ensures b >= |w.buses| && Taken([e], b) == 0
  {
    hide Matches;
    assert [e][..0] == [];
  }

  lemma {:induction false} ShareIs(worlds: seq<World>, events: seq<Event>, i: nat, b: nat)
    requires IsRun(worlds, events) && i < |worlds|
    ensures b < |worlds[i].buses| ==> worlds[i].buses[b].app == 1 + Taken(events[..i], b)
    ensures b >= |worlds[i].buses| ==> Taken(events[..i], b) == 0
  {
    if i > 0 {
      LastStep(worlds, events, i);
      hide IsRun, Step, Enabled;
      ShareIs(worlds, events, i - 1, b);
      assert events[..i][..i - 1] == events[..i - 1];
      assert [events[i - 1]][..0] == [];
      if b < |worlds[i].buses| {
        ShareStep(worlds[i - 1], events[i - 1], b);
      } else {
        NoShareStep(worlds[i - 1], events[i - 1], b);
      }
    }
  }

  // ----- The last reference -----

  ghost predicate WaitsFor(w: World, o: nat, b: nat)
  {
    o < |w.origins| && b < |w.buses| && w.origins[o].post.Some? && w.origins[o].post.value.stage == Joining(b)
  }

  lemma KeepsWaiting(w: World, e: Event, o: nat, b: nat)
    requires Enabled(w, e) && WaitsFor(w, o, b) && !w.buses[b].finalized
    ensures WaitsFor(Step(w, e), o, b)
  {
    hide Matches;
  }

  lemma {:induction false} FinalizedOrWaiting(worlds: seq<World>, events: seq<Event>, t: nat, i: nat, o: nat, b: nat)
    requires IsRun(worlds, events) && t <= i < |worlds| && WaitsFor(worlds[t], o, b)
    ensures b < |worlds[i].buses| && (worlds[i].buses[b].finalized || WaitsFor(worlds[i], o, b))
  {
    if t < i {
      LastStep(worlds, events, i);
      hide IsRun, Enabled, Step;
      FinalizedOrWaiting(worlds, events, t, i - 1, o, b);
      var w, e := worlds[i - 1], events[i - 1];
      if w.buses[b].finalized { StaysFinalized(w, e, b); } else { KeepsWaiting(w, e, o, b); }
    }
  }

  lemma StaysFinalized(w: World, e: Event, b: nat)
    requires Enabled(w, e) && b < |w.buses| && w.buses[b].finalized
    ensures b < |Step(w, e).buses| && Step(w, e).buses[b].finalized
  {
    hide Matches;
  }

  /** A poster that has dropped the last reference to a bus does nothing more, nor is there another post of its
      origin, before the finalizer of the bus has returned. */
  lemma JoinsTheThread(worlds: seq<World>, events: seq<Event>, t: nat, u: nat, o: nat, b: nat)
    requires IsRun(worlds, events) && t < u < |events| && events[t] == UnrefBus(o)
    requires worlds[t].origins[o].post.value.stage == Visited(b) && worlds[t].buses[b].strong == 1
    requires match events[u]
      case GetBus(p) => p == o
      case PushMessage(p) => p == o
      case UnrefBus(p) => p == o
      case JoinBus(p) => p == o
      case EndPost(p) => p == o
      case BeginPost(p, _, _) => p == o
      case _ => false
    ensures b < |worlds[u].buses| && worlds[u].buses[b].finalized
  {
    assert WaitsFor(worlds[t + 1], o, b);
    FinalizedOrWaiting(worlds, events, t + 1, u, o, b);
  }
}
