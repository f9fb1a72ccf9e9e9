/** Message origins posting to the buses subscribed to them. Each bus has a queue, a type mask and a
    thread that consumes the queue; a message is reference counted by the queues, the consumers and the
    poster holding it. Every event below is one atomic step of one thread, and the steps of the
    application, of all posters and of all bus threads interleave freely. */
module MessageBus {
  import opened Collections

  type Mask = bv32

  /** ERROR, STATS and EVENT. */
  const DEFAULT_MASK: Mask := 7

  predicate Matches(kind: Mask, mask: Mask)
  {
    kind & mask != 0
  }

  /** One message type: a mask of one bit. */
  predicate IsType(t: Mask)
  {
    t != 0 && t & (t - 1) == 0
  }

  predicate Has(mask: Mask, t: Mask)
  {
    mask & t == t
  }

  /** There is a message type in both. */
  ghost predicate Common(kind: Mask, mask: Mask)
  {
    exists t :: IsType(t) && Has(kind, t) && Has(mask, t)
  }

  /** The mask test accepts exactly the kinds that have a message type in common with the mask. */
  lemma MatchesIff(kind: Mask, mask: Mask)
    ensures Matches(kind, mask) <==> Common(kind, mask)
  {
    if Matches(kind, mask) {
      var t := SomeType(kind & mask);
      InBoth(kind, mask, t);
    } else {
      forall t | IsType(t) ensures !(Has(kind, t) && Has(mask, t)) { NotInBoth(kind, mask, t); }
    }
  }

  /** A mask that is not empty has a message type: clear its lowest bit until one is left. */
  lemma {:induction false} SomeType(mask: Mask) returns (t: Mask)
    requires mask != 0
    ensures IsType(t) && Has(mask, t)
    decreases mask
  {
    if IsType(mask) {
      t := mask;
    } else {
      var fewer := mask & (mask - 1);
      Fewer(mask);
      t := SomeType(fewer);
      InBoth(mask, mask - 1, t);
    }
  }

  lemma Fewer(mask: Mask)
    requires mask != 0
    ensures mask & (mask - 1) < mask
  {
  }

  lemma InBoth(kind: Mask, mask: Mask, t: Mask)
    requires Has(kind & mask, t)
    ensures Has(kind, t) && Has(mask, t)
  {
  }

  lemma NotInBoth(kind: Mask, mask: Mask, t: Mask)
    requires kind & mask == 0 && t != 0
    ensures !(Has(kind, t) && Has(mask, t))
  {
  }

  /** A message of one type is accepted exactly if the mask has the type; the empty mask accepts nothing, and
      a new bus accepts each of ERROR, STATS and EVENT and nothing else. */
  lemma MasksSelect(t: Mask, mask: Mask)
    requires IsType(t)
    ensures Matches(t, mask) <==> Has(mask, t)
    ensures !Matches(t, 0)
    ensures Matches(t, DEFAULT_MASK) <==> t == 1 || t == 2 || t == 4
  {
  }

  datatype Item = Queued(message: nat) | Last

  datatype Thread = Waiting | Handling(message: nat) | Exited

  /** `strong` is the reference count of the bus and `app` the application's share of it; `consumed`
      observes. */
  datatype Bus = Bus(strong: int, app: nat, mask: Mask, queue: seq<Item>, thread: Thread, consumed: seq<nat>,
    finalized: bool)

  /** Between two visits; with a reference to a bus, before and after the mask test; waiting for the
      thread of a bus whose last reference it has dropped. */
  datatype Stage = Between | Holding(bus: nat) | Visited(bus: nat) | Joining(bus: nat)

  datatype Post = Post(message: nat, remaining: seq<nat>, stage: Stage)

  /** `post` is present while the origin's mutex is held by a poster; `refs` are the references that
      messages hold on the origin. */
  datatype Origin = Origin(refs: int, table: set<nat>, post: Option<Post>)

  /** `subscribers` observes the buses in the table when the message was posted, `frees` how often it was
      freed. */
  datatype Message = Message(origin: nat, kind: Mask, refCount: int, frees: nat, subscribers: seq<nat>)

  /** A poster's look at one bus: was it alive, and if so with which mask. */
  datatype Visit = Visit(message: nat, bus: nat, kind: Mask, alive: bool, mask: Mask)

  datatype World = World(buses: seq<Bus>, origins: seq<Origin>, messages: seq<Message>, history: seq<Visit>)

  datatype Event =
    | NewBus
    | NewOrigin
    | SetMask(bus: nat, mask: Mask)
    | RefBus(bus: nat)
    | DropBus(bus: nat)
    | AddOrigin(bus: nat, origin: nat)
    | RemoveOrigin(bus: nat, origin: nat)
    | BeginPost(origin: nat, kind: Mask, order: seq<nat>)
    | GetBus(origin: nat)
    | PushMessage(origin: nat)
    | UnrefBus(origin: nat)
    | JoinBus(origin: nat)
    | EndPost(origin: nat)
    | Pop(bus: nat)
    | FinishMessage(bus: nat)
    | FinalizeReturns(bus: nat)

  const START := World([], [], [], [])

  function One(condition: bool): nat
  {
    if condition then 1 else 0
  }

  // ----- The steps -----

  function MessageRef(w: World, m: nat): World
    requires m < |w.messages| && w.messages[m].origin < |w.origins|
  {
    var msg := w.messages[m];
    var o := w.origins[msg.origin];
    w.(messages := w.messages[m := msg.(refCount := msg.refCount + 1)],
      origins := w.origins[msg.origin := o.(refs := o.refs + 1)])
  }

  function MessageUnref(w: World, m: nat): World
    requires m < |w.messages| && w.messages[m].origin < |w.origins|
  {
    var msg := w.messages[m];
    var o := w.origins[msg.origin];
    var left := msg.refCount - 1;
    w.(messages := w.messages[m := msg.(refCount := left, frees := msg.frees + One(left == 0))],
      origins := w.origins[msg.origin := o.(refs := o.refs - 1)])
  }

  /** Dropping the last reference starts the finalizer, which pushes the end marker. */
  function BusUnref(bus: Bus): Bus
  {
    bus.(strong := bus.strong - 1, queue := if bus.strong == 1 then bus.queue + [Last] else bus.queue)
  }

  predicate HasBus(w: World, b: nat)
  {
    b < |w.buses|
  }

  predicate Unlocked(w: World, o: nat)
  {
    o < |w.origins| && w.origins[o].post.None?
  }

  predicate Posting(w: World, o: nat)
  {
    && o < |w.origins| && w.origins[o].post.Some? && w.origins[o].post.value.message < |w.messages|
    && w.messages[w.origins[o].post.value.message].origin < |w.origins|
  }

  ghost predicate Enabled(w: World, e: Event)
  {
    match e
    case NewBus => true
    case NewOrigin => true
    case SetMask(b, mask) => HasBus(w, b) && w.buses[b].app > 0
    case RefBus(b) => HasBus(w, b) && w.buses[b].app > 0
    case DropBus(b) => HasBus(w, b) && w.buses[b].app > 0
    case AddOrigin(b, o) => HasBus(w, b) && w.buses[b].app > 0 && Unlocked(w, o)
    case RemoveOrigin(b, o) => HasBus(w, b) && w.buses[b].app > 0 && Unlocked(w, o)
    case BeginPost(o, kind, order) => Unlocked(w, o) && Distinct(order) && forall b :: b in order <==> b in w.origins[o].table
    case GetBus(o) =>
      && Posting(w, o) && w.origins[o].post.value.stage.Between? && w.origins[o].post.value.remaining != []
      && HasBus(w, w.origins[o].post.value.remaining[0])
    case PushMessage(o) =>
      && Posting(w, o) && w.origins[o].post.value.stage.Holding? && w.origins[o].post.value.remaining != []
      && HasBus(w, w.origins[o].post.value.stage.bus)
    case UnrefBus(o) => Posting(w, o) && w.origins[o].post.value.stage.Visited? && HasBus(w, w.origins[o].post.value.stage.bus)
    case JoinBus(o) =>
      && Posting(w, o) && w.origins[o].post.value.stage.Joining? && HasBus(w, w.origins[o].post.value.stage.bus)
      && w.buses[w.origins[o].post.value.stage.bus].finalized
    case EndPost(o) => Posting(w, o) && w.origins[o].post.value.stage.Between? && w.origins[o].post.value.remaining == []
    case Pop(b) => HasBus(w, b) && w.buses[b].thread.Waiting? && w.buses[b].queue != []
    case FinishMessage(b) =>
      && HasBus(w, b) && w.buses[b].thread.Handling? && w.buses[b].thread.message < |w.messages|
      && w.messages[w.buses[b].thread.message].origin < |w.origins|
    case FinalizeReturns(b) => HasBus(w, b) && w.buses[b].strong == 0 && w.buses[b].thread.Exited?
  }

  function SetBus(w: World, b: nat, bus: Bus): World
    requires HasBus(w, b)
  {
    w.(buses := w.buses[b := bus])
  }

  function SetOrigin(w: World, o: nat, origin: Origin): World
    requires o < |w.origins|
  {
    w.(origins := w.origins[o := origin])
  }

  function SetStage(w: World, o: nat, stage: Stage): World
    requires Posting(w, o)
  {
    SetOrigin(w, o, w.origins[o].(post := Some(w.origins[o].post.value.(stage := stage))))
  }

  /** The poster has looked at the first of its remaining buses. */
  function Look(w: World, o: nat, alive: bool, mask: Mask, table: set<nat>, stage: Stage): World
    requires Posting(w, o) && w.origins[o].post.value.remaining != []
  {
    var post := w.origins[o].post.value;
    SetOrigin(w, o, Origin(w.origins[o].refs, table, Some(Post(post.message, post.remaining[1..], stage))))
      .(history := w.history + [Visit(post.message, post.remaining[0], w.messages[post.message].kind, alive, mask)])
  }

  /** g_weak_ref_get: a reference to a live bus; a dead one is pruned from the table. */
  function OnGetBus(w: World, o: nat): World
    requires Posting(w, o) && w.origins[o].post.value.remaining != [] && HasBus(w, w.origins[o].post.value.remaining[0])
  {
    var b := w.origins[o].post.value.remaining[0];
    if w.buses[b].strong > 0 then SetStage(SetBus(w, b, w.buses[b].(strong := w.buses[b].strong + 1)), o, Holding(b))
    else Look(w, o, false, 0, w.origins[o].table - {b}, Between)
  }

  /** _owr_bus_post_message */
  function OnPush(w: World, o: nat): World
    requires Posting(w, o) && w.origins[o].post.value.remaining != []
    requires w.origins[o].post.value.stage.Holding? && HasBus(w, w.origins[o].post.value.stage.bus)
  {
    var post := w.origins[o].post.value;
    var b := post.stage.bus;
    var looked := Look(w, o, true, w.buses[b].mask, w.origins[o].table, Visited(b));
    if Matches(w.messages[post.message].kind, w.buses[b].mask) then
      SetBus(MessageRef(looked, post.message), b, w.buses[b].(queue := w.buses[b].queue + [Queued(post.message)]))
    else looked
  }

  function OnUnrefBus(w: World, o: nat): World
    requires Posting(w, o) && w.origins[o].post.value.stage.Visited? && HasBus(w, w.origins[o].post.value.stage.bus)
  {
    var b := w.origins[o].post.value.stage.bus;
    SetStage(SetBus(w, b, BusUnref(w.buses[b])), o, if w.buses[b].strong == 1 then Joining(b) else Between)
  }

  function OnEndPost(w: World, o: nat): World
    requires Posting(w, o)
  {
    var freed := MessageUnref(w, w.origins[o].post.value.message);
    SetOrigin(freed, o, freed.origins[o].(post := None))
  }

  /** One turn of the loop of bus_thread_func, up to the callback. */
  function OnPop(w: World, b: nat): World
    requires HasBus(w, b) && w.buses[b].queue != []
  {
    var bus := w.buses[b];
    SetBus(w, b, bus.(queue := bus.queue[1..],
      thread := if bus.queue[0].Last? then Exited else Handling(bus.queue[0].message)))
  }

  /** The rest of the turn. */
  function OnFinishMessage(w: World, b: nat): World
    requires HasBus(w, b) && w.buses[b].thread.Handling? && w.buses[b].thread.message < |w.messages|
    requires w.messages[w.buses[b].thread.message].origin < |w.origins|
  {
    var bus := w.buses[b];
    SetBus(MessageUnref(w, bus.thread.message), b,
      bus.(thread := Waiting, consumed := bus.consumed + [bus.thread.message]))
  }

  function OnBeginPost(w: World, o: nat, kind: Mask, order: seq<nat>): World
    requires o < |w.origins|
  {
    SetOrigin(w, o, w.origins[o].(refs := w.origins[o].refs + 1, post := Some(Post(|w.messages|, order, Between))))
      .(messages := w.messages + [Message(o, kind, 1, 0, order)])
  }

  ghost function Step(w: World, e: Event): World
    requires Enabled(w, e)
  {
    match e
    case NewBus => w.(buses := w.buses + [Bus(1, 1, DEFAULT_MASK, [], Waiting, [], false)])
    case NewOrigin => w.(origins := w.origins + [Origin(0, {}, None)])
    case SetMask(b, mask) => SetBus(w, b, w.buses[b].(mask := mask))
    case RefBus(b) => SetBus(w, b, w.buses[b].(strong := w.buses[b].strong + 1, app := w.buses[b].app + 1))
    case DropBus(b) => SetBus(w, b, BusUnref(w.buses[b]).(app := w.buses[b].app - 1))
    case AddOrigin(b, o) => SetOrigin(w, o, w.origins[o].(table := w.origins[o].table + {b}))
    case RemoveOrigin(b, o) => SetOrigin(w, o, w.origins[o].(table := w.origins[o].table - {b}))
    case BeginPost(o, kind, order) => OnBeginPost(w, o, kind, order)
    case GetBus(o) => OnGetBus(w, o)
    case PushMessage(o) => OnPush(w, o)
    case UnrefBus(o) => OnUnrefBus(w, o)
    case JoinBus(o) => SetStage(w, o, Between)
    case EndPost(o) => OnEndPost(w, o)
    case Pop(b) => OnPop(w, b)
    case FinishMessage(b) => OnFinishMessage(w, b)
    case FinalizeReturns(b) => SetBus(w, b, w.buses[b].(finalized := true))
  }

  ghost predicate IsRun(worlds: seq<World>, events: seq<Event>)
  {
    && |worlds| == |events| + 1 && worlds[0] == START
    && forall i :: 0 <= i < |events| ==> Enabled(worlds[i], events[i]) && worlds[i + 1] == Step(worlds[i], events[i])
  }

  // ----- The specification -----

  /** The messages a bus ought to get: those with which a poster found it subscribed, alive and with a type
      of the message in its mask, in the order of those visits. */
  ghost function Accepted(history: seq<Visit>, b: nat): seq<nat>
  {
    if history == [] then []
    else
      var earlier, last := Accepted(history[..|history| - 1], b), history[|history| - 1];
      if last.bus == b && last.alive && Common(last.kind, last.mask) then earlier + [last.message] else earlier
  }

  /** The buses visited with a message, in order. */
  function VisitsOf(history: seq<Visit>, m: nat): seq<nat>
  {
    if history == [] then []
    else
      var earlier, last := VisitsOf(history[..|history| - 1], m), history[|history| - 1];
      if last.message == m then earlier + [last.bus] else earlier
  }

  function InHand(thread: Thread): seq<nat>
  {
    if thread.Handling? then [thread.message] else []
  }

  function Messages(queue: seq<Item>): seq<nat>
  {
    if queue == [] then []
    else
      var earlier, last := Messages(queue[..|queue| - 1]), queue[|queue| - 1];
      if last.Queued? then earlier + [last.message] else earlier
  }

  /** All that a bus has got so far. */
  function Got(bus: Bus): seq<nat>
  {
    bus.consumed + InHand(bus.thread) + Messages(bus.queue)
  }

  predicate Holds(bus: Bus, m: nat)
  {
    bus.thread == Handling(m) || Queued(m) in bus.queue
  }

  function HoldingBuses(buses: seq<Bus>, m: nat): set<nat>
  {
    set b: nat | b < |buses| && Holds(buses[b], m)
  }

  predicate IsPosting(origin: Origin, m: nat)
  {
    origin.post.Some? && origin.post.value.message == m
  }

  predicate Retains(origin: Origin, b: nat)
  {
    origin.post.Some? && (origin.post.value.stage == Holding(b) || origin.post.value.stage == Visited(b))
  }

  function Retainers(origins: seq<Origin>, b: nat): set<nat>
  {
    set o: nat | o < |origins| && Retains(origins[o], b)
  }

  /** The references that the messages of an origin stand for. */
  function SumRefs(messages: seq<Message>, o: nat): int
  {
    if messages == [] then 0
    else
      var last := messages[|messages| - 1];
      SumRefs(messages[..|messages| - 1], o) + if last.origin == o then last.refCount else 0
  }
}
