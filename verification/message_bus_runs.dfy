/** What holds in every interleaving of posters, bus threads and the application. */
module MessageBusRuns {
  import opened Collections
  import opened MessageBus
  import opened MessageBusSteps
  import opened MessageBusReferences

  // ----- Over every interleaving -----

  lemma StepKeepsInvariant(w: World, e: Event)
    requires Invariant(w) && Enabled(w, e)
    ensures Invariant(Step(w, e))
  {
    hide RetainOk, QueueOk, OriginOk, MessageOk, CountOk, RefsOk, HistoryOk, Step, Enabled;
    var w' := Step(w, e);
    forall b ensures RetainOk(w', b) && QueueOk(w', b) { RetainStep(w, e, b); QueueStep(w, e, b); }
    forall o ensures OriginOk(w', o) && RefsOk(w', o) { OriginStep(w, e, o); RefsStep(w, e, o); }
    forall m ensures MessageOk(w', m) && CountOk(w', m) { MessageStep(w, e, m); CountStep(w, e, m); }
    HistoryStep(w, e);
  }

  lemma {:induction false} RunsKeepInvariant(worlds: seq<World>, events: seq<Event>, i: nat)
    requires IsRun(worlds, events) && i < |worlds|
    ensures Invariant(worlds[i])
  {
    hide Invariant, Enabled, Step;
    if i == 0 {
      StartInvariant();
    } else {
      RunsKeepInvariant(worlds, events, i - 1);
      StepKeepsInvariant(worlds[i - 1], events[i - 1]);
    }
  }

  lemma StartInvariant()
    ensures Invariant(START)
  {
  }

  /** In every interleaving: what a bus has consumed, has in hand and has queued is, in order and without
      duplicates, exactly what was posted while it was subscribed, alive and its mask matched; and a post
      that is over has visited each bus subscribed when it began, once. */
  lemma Delivery(worlds: seq<World>, events: seq<Event>, i: nat, b: nat, m: nat)
    requires IsRun(worlds, events) && i < |worlds| && b < |worlds[i].buses| && m < |worlds[i].messages|
    ensures Got(worlds[i].buses[b]) == Accepted(worlds[i].history, b) && Distinct(Got(worlds[i].buses[b]))
    ensures worlds[i].messages[m].origin < |worlds[i].origins| && Distinct(worlds[i].messages[m].subscribers)
    ensures !IsPosting(worlds[i].origins[worlds[i].messages[m].origin], m) ==>
              VisitsOf(worlds[i].history, m) == worlds[i].messages[m].subscribers
  {
    hide IsRun, Got, Accepted, VisitsOf, RetainOk, OriginOk, CountOk, RefsOk, HistoryOk;
    RunsKeepInvariant(worlds, events, i);
    GotDistinct(worlds[i], b);
    assert QueueOk(worlds[i], b) && MessageOk(worlds[i], m);
  }

  /** When the finalizer of a bus returns, and ever after, all that it accepted has been consumed. */
  lemma FinalizeDrains(worlds: seq<World>, events: seq<Event>, i: nat, b: nat)
    requires IsRun(worlds, events) && i < |worlds| && b < |worlds[i].buses| && worlds[i].buses[b].finalized
    ensures worlds[i].buses[b].consumed == Accepted(worlds[i].history, b) && worlds[i].buses[b].queue == []
  {
    hide IsRun, Accepted, RetainOk, OriginOk, CountOk, RefsOk, HistoryOk, MessageOk;
    RunsKeepInvariant(worlds, events, i);
    assert QueueOk(worlds[i], b);
  }

  /** In every interleaving: a message has one reference for each bus that has it queued or in hand and
      one for its poster, it has been freed once exactly if nobody has it, and its origin carries the
      references of all its messages. */
  lemma ReferencesBalance(worlds: seq<World>, events: seq<Event>, i: nat, m: nat)
    requires IsRun(worlds, events) && i < |worlds| && m < |worlds[i].messages|
    ensures var w, msg := worlds[i], worlds[i].messages[m];
      && msg.origin < |w.origins|
      && msg.refCount == |HoldingBuses(w.buses, m)| + One(IsPosting(w.origins[msg.origin], m))
      && msg.frees == One(HoldingBuses(w.buses, m) == {} && !IsPosting(w.origins[msg.origin], m))
      && w.origins[msg.origin].refs == SumRefs(w.messages, msg.origin)
  {
    hide IsRun, HoldingBuses, SumRefs, RetainOk, OriginOk, QueueOk, HistoryOk;
    RunsKeepInvariant(worlds, events, i);
    var w := worlds[i];
    assert MessageOk(w, m) && CountOk(w, m) && RefsOk(w, w.messages[m].origin);
  }

  ghost predicate PosterCanGoOn(w: World, o: nat)
  {
    Enabled(w, GetBus(o)) || Enabled(w, PushMessage(o)) || Enabled(w, UnrefBus(o)) || Enabled(w, JoinBus(o)) || Enabled(w, EndPost(o))
  }

  ghost predicate BusCanGoOn(w: World, b: nat)
  {
    Enabled(w, Pop(b)) || Enabled(w, FinishMessage(b)) || Enabled(w, FinalizeReturns(b))
  }

  /** A poster is never stuck but for the finalizer it waits for, and never looks outside. */
  lemma PosterGoesOn(worlds: seq<World>, events: seq<Event>, i: nat, o: nat)
    requires IsRun(worlds, events) && i < |worlds| && o < |worlds[i].origins| && worlds[i].origins[o].post.Some?
    ensures var w, stage := worlds[i], worlds[i].origins[o].post.value.stage;
      PosterCanGoOn(w, o)
      || (stage.Joining? && stage.bus < |w.buses| && w.buses[stage.bus].strong == 0 && !w.buses[stage.bus].finalized)
  {
    hide IsRun, QueueOk, CountOk, RefsOk, HistoryOk, VisitsOf;
    RunsKeepInvariant(worlds, events, i);
    var w := worlds[i];
    var post := w.origins[o].post.value;
    assert OriginOk(w, o) && MessageOk(w, post.message);
    if post.stage.Between? && post.remaining != [] {
      var visited := VisitsOf(w.history, post.message);
      assert (visited + post.remaining)[|visited|] in w.messages[post.message].subscribers;
    }
    if post.stage.Joining? { assert RetainOk(w, post.stage.bus); }
  }

  /** A bus whose last reference is gone is never stuck: its thread has a message to take or to finish, or
      the finalizer returns. */
  lemma BusGoesOn(worlds: seq<World>, events: seq<Event>, i: nat, b: nat)
    requires IsRun(worlds, events) && i < |worlds| && b < |worlds[i].buses| && worlds[i].buses[b].strong <= 0
    ensures BusCanGoOn(worlds[i], b)
  {
    hide IsRun, CountOk, RefsOk, OriginOk, Retainers, Accepted;
    RunsKeepInvariant(worlds, events, i);
    var w := worlds[i];
    assert RetainOk(w, b) && QueueOk(w, b);
    if w.buses[b].thread.Handling? {
      var m := w.buses[b].thread.message;
      HeldIsAccepted(w, b, m);
      AcceptedWasVisited(w.history, b, m);
      VisitedExists(w, b, m);
      assert MessageOk(w, m);
    }
  }

  lemma VisitedExists(w: World, b: nat, m: nat)
    requires HistoryOk(w) && b in VisitsOf(w.history, m)
    ensures m < |w.messages|
  {
    if m >= |w.messages| { VisitsNone(w.history, m); }
  }

  /** No interleaving deadlocks: whenever a post is under way, its poster or the thread it waits for has a
      next step. */
  lemma NothingDeadlocks(worlds: seq<World>, events: seq<Event>, i: nat, o: nat)
    requires IsRun(worlds, events) && i < |worlds| && o < |worlds[i].origins| && worlds[i].origins[o].post.Some?
    ensures PosterCanGoOn(worlds[i], o)
      || (worlds[i].origins[o].post.value.stage.Joining? && BusCanGoOn(worlds[i], worlds[i].origins[o].post.value.stage.bus))
  {
    hide IsRun, PosterCanGoOn, BusCanGoOn;
    PosterGoesOn(worlds, events, i, o);
    var stage := worlds[i].origins[o].post.value.stage;
    if stage.Joining? && !PosterCanGoOn(worlds[i], o) { BusGoesOn(worlds, events, i, stage.bus); }
  }
}
