/** Ordering is what keeps data from being dropped: on every unordered channel the responder's first
    payload can overtake its ACK. */
module DataChannelOrdering {
  import opened Collections
  import opened OpenMessage
  import opened DataChannelSlot
  import opened DataChannelAgreement
  import opened DataChannelFlow
  import opened DataChannelWorld

  // ----- The two slots -----

  /** The owner has sent its OPEN. */
  function Offering(role: bool, id: Id, p: Params): Slot
  {
    AddDataChannel(role, true, id, EMPTY, p, false).slot
  }

  /** The other end has taken the OPEN and asked its application. */
  function Asked(role: bool, id: Id, p: Params): Slot
  {
    Receive(!role, id, EMPTY, Control(OpenBytes(p))).slot
  }

  /** The application has added what was offered; the ACK is on its way. */
  function Accepting(role: bool, id: Id, p: Params): Slot
  {
    AddDataChannel(!role, true, id, Asked(role, id, p), OnTheWire(p), false).slot
  }

  function Ready(s: Slot): Slot
    requires s.channel.Some?
  {
    s.(channel := Some(s.channel.value.(ready := Opened)))
  }

  lemma OfferingIs(role: bool, id: Id, p: Params)
    requires Owns(role, id) && !BothLimits(p)
    ensures AddDataChannel(role, true, id, EMPTY, p, false).tasks == []
    ensures var x := Offering(role, id, p);
      && x.out == [Control(OpenBytes(p))] && x.dropped == 0 && !x.hasPad
      && x.record.Some? && x.record.value.state == Connecting && x.channel.Some?
      && x.channel.value.params == p && !x.channel.value.negotiated
  {
    hide OpenBytes;
  }

  lemma AskedIs(role: bool, id: Id, p: Params)
    requires Owns(role, id) && !BothLimits(p)
    ensures Receive(!role, id, EMPTY, Control(OpenBytes(p))).tasks == [RequestChannel(id, OnTheWire(p))]
    ensures var y := Asked(role, id, p);
      && y.channel.None? && y.out == [] && y.record.Some? && y.record.value.params == OnTheWire(p)
      && !y.record.value.negotiated
  {
    DecodedOpen(p);
    hide OpenBytes, DecodeControl, OnTheWire;
  }

  lemma AcceptingIs(role: bool, id: Id, p: Params)
    requires Owns(role, id) && !BothLimits(p)
    ensures AddDataChannel(!role, true, id, Asked(role, id, p), OnTheWire(p), false).tasks == [SetReady(id)]
    ensures var y := Accepting(role, id, p);
      && y.channel.Some? && y.channel.value.hasCallbacks && !y.channel.value.negotiated
      && y.out == [Control(AckBytes())] && y.record.Some? && y.record.value.params == OnTheWire(p)
  {
    AskedIs(role, id, p);
    hide OpenBytes, OnTheWire, Asked;
  }

  /** The slot-level fact: both messages in flight, the second one deliverable first, and dropped. */
  lemma OvertakesAck(role: bool, id: Id, p: Params, payload: Payload)
    requires Owns(role, id) && !BothLimits(p) && !p.ordered && payload.data != []
    ensures var y := OnDatachannelSend(Ready(Accepting(role, id, p)), payload);
      && y.out == [Control(AckBytes()), Data(payload, false, Reliable(OnTheWire(p)))] && Deliverable(y.out, 1)
      && Receive(role, id, Offering(role, id, p).(out := []), y.out[1]).slot.dropped == 1
  {
    OfferingIs(role, id, p);
    AcceptingIs(role, id, p);
    hide OpenBytes, Offering, Accepting;
  }

  // ----- The run -----

  /** A disciplined run that ends in a world. */
  ghost predicate Reaches(states: seq<World>, steps: seq<Step>, w: World)
  {
    IsRun(states, steps) && IsDisciplined(states, steps) && states[|steps|] == w
  }

  lemma Extend(states: seq<World>, steps: seq<Step>, w: World, step: Step) returns (states': seq<World>, steps': seq<Step>)
    requires Reaches(states, steps, w) && CanStep(w, step) && Disciplined(w, step)
    ensures Reaches(states', steps', Next(w, step))
  {
    hide CanStep, Next, Disciplined;
    states', steps' := states + [Next(w, step)], steps + [step];
    assert forall i :: 0 <= i < |steps| ==> states'[i] == states[i] && steps'[i] == steps[i];
  }

  /** Both associations are up and only one id is in use. */
  function Stage(role: bool, id: Id, x: Slot, xTasks: seq<Task>, y: Slot, yTasks: seq<Task>): World
  {
    World(Agent(role, true, map[id := x], xTasks), Agent(!role, true, map[id := y], yTasks))
  }

  /** Both associations come up before any channel is added. */
  lemma BothUp(role: bool) returns (states: seq<World>, steps: seq<Step>)
    ensures Reaches(states, steps, World(Agent(role, true, map[], []), Agent(!role, true, map[], [])))
  {
    var w0 := World(NewAgent(role), NewAgent(!role));
    var w1 := World(Agent(role, true, map[], []), NewAgent(!role));
    states, steps := [w0], [];
    assert Next(w0, Step(true, Established([]))) == w1;
    states, steps := Extend(states, steps, w0, Step(true, Established([])));
    states, steps := Extend(states, steps, w1, Step(false, Established([])));
  }

  /** The owner opens its channel. */
  lemma OwnerOpens(role: bool, id: Id, p: Params) returns (states: seq<World>, steps: seq<Step>)
    requires Owns(role, id) && !BothLimits(p)
    ensures Reaches(states, steps,
      World(Agent(role, true, map[id := Offering(role, id, p)], []), Agent(!role, true, map[], [])))
  {
    hide BothLimits, OpenBytes, AddDataChannel;
    OfferingIs(role, id, p);
    var w2 := World(Agent(role, true, map[], []), Agent(!role, true, map[], []));
    var w3 := World(Agent(role, true, map[], [AddChannel(id, p, false)]), Agent(!role, true, map[], []));
    states, steps := BothUp(role);
    assert Next(w2, Step(true, AppAdd(id, p, false))) == w3;
    states, steps := Extend(states, steps, w2, Step(true, AppAdd(id, p, false)));
    var w4 := Next(w3, Step(true, MainLoop));
    assert w4.left.tasks == [] && w4.left.slots == map[id := Offering(role, id, p)];
    states, steps := Extend(states, steps, w3, Step(true, MainLoop));
  }

  /** The other end is asked and accepts; its application has not heard yet that the channel is open. */
  lemma OtherAccepts(role: bool, id: Id, p: Params) returns (states: seq<World>, steps: seq<Step>)
    requires Owns(role, id) && !BothLimits(p)
    ensures Reaches(states, steps, Stage(role, id, Offering(role, id, p).(out := []), [], Accepting(role, id, p), [SetReady(id)]))
  {
    hide BothLimits, OpenBytes, OnTheWire, AddDataChannel, Receive, Offering, Asked, Accepting, Reaches;
    OfferingIs(role, id, p);
    AskedIs(role, id, p);
    AcceptingIs(role, id, p);
    var x, y, q := Offering(role, id, p).(out := []), Asked(role, id, p), OnTheWire(p);
    var w4 := World(Agent(role, true, map[id := Offering(role, id, p)], []), Agent(!role, true, map[], []));
    var w5 := Stage(role, id, x, [], y, [RequestChannel(id, q)]);
    var w6 := Stage(role, id, x, [], y, []);
    var w7 := Stage(role, id, x, [], y, [AddChannel(id, q, false)]);
    var w8 := Stage(role, id, x, [], Accepting(role, id, p), [SetReady(id)]);
    states, steps := OwnerOpens(role, id, p);
    assert Next(w4, Step(false, Deliver(id, 0))) == w5 by {
      AskedDef(role, id, p);
      assert Without([Control(OpenBytes(p))], 0) == [];
      assert map[id := Offering(role, id, p)][id := x] == map[id := x] && map[][id := y] == map[id := y];
    }
    states, steps := Extend(states, steps, w4, Step(false, Deliver(id, 0)));
    assert Next(w5, Step(false, MainLoop)) == w6 by { assert map[id := y][id := y] == map[id := y]; }
    states, steps := Extend(states, steps, w5, Step(false, MainLoop));
    assert !BothLimits(q) by { WireLimits(p); }
    assert Next(w6, Step(false, AppAdd(id, q, false))) == w7;
    states, steps := Extend(states, steps, w6, Step(false, AppAdd(id, q, false)));
    assert Next(w7, Step(false, MainLoop)) == w8 by {
      AcceptingDef(role, id, p);
      assert map[id := y][id := Accepting(role, id, p)] == map[id := Accepting(role, id, p)];
    }
    states, steps := Extend(states, steps, w7, Step(false, MainLoop));
  }

  lemma AskedDef(role: bool, id: Id, p: Params)
    ensures Asked(role, id, p) == Receive(!role, id, EMPTY, Control(OpenBytes(p))).slot
  {
  }

  lemma AcceptingDef(role: bool, id: Id, p: Params)
    ensures Accepting(role, id, p) == AddDataChannel(!role, true, id, Asked(role, id, p), OnTheWire(p), false).slot
  {
  }

  lemma WireLimits(p: Params)
    requires !BothLimits(p)
    ensures !BothLimits(OnTheWire(p)) && OnTheWire(p).ordered == p.ordered
  {
  }

  /** For every unordered channel, whatever its other parameters, every id its owner can use and every
      payload that can be sent, there is a disciplined run in which the owner drops that payload. */
  lemma UnorderedDataIsDropped(role: bool, id: Id, p: Params, payload: Payload) returns (states: seq<World>, steps: seq<Step>)
    requires Owns(role, id) && !BothLimits(p) && !p.ordered && 0 < |payload.data| <= 65535
    ensures IsRun(states, steps) && IsDisciplined(states, steps)
    ensures var w := states[|steps|];
      && w.left.isClient == role && At(w.left, id).dropped == 1 && At(w.left, id).channel.Some?
      && At(w.left, id).channel.value.params == p && !At(w.left, id).channel.value.negotiated
      && At(w.right, id).channel.Some? && !At(w.right, id).channel.value.negotiated
  {
    hide BothLimits, OpenBytes, OnTheWire, AddDataChannel, Receive, Offering, Accepting, Reaches;
    OfferingIs(role, id, p);
    AcceptingIs(role, id, p);
    OvertakesAck(role, id, p, payload);
    var x, y := Offering(role, id, p).(out := []), Accepting(role, id, p);
    var sending := Send(id, Ready(y), payload).slot;
    var pushed := OnDatachannelSend(sending, payload);
    var w8 := Stage(role, id, x, [], y, [SetReady(id)]);
    var w9 := Stage(role, id, x, [], Ready(y), []);
    var w10 := Stage(role, id, x, [], sending, [SendData(id, payload)]);
    var w11 := Stage(role, id, x, [], pushed, []);
    states, steps := OtherAccepts(role, id, p);
    assert Next(w8, Step(false, MainLoop)) == w9 by { assert map[id := y][id := Ready(y)] == map[id := Ready(y)]; }
    states, steps := Extend(states, steps, w8, Step(false, MainLoop));
    assert Next(w9, Step(false, AppSend(id, payload))) == w10 by { assert map[id := Ready(y)][id := sending] == map[id := sending]; }
    states, steps := Extend(states, steps, w9, Step(false, AppSend(id, payload)));
    assert Next(w10, Step(false, MainLoop)) == w11 by { assert map[id := sending][id := pushed] == map[id := pushed]; }
    states, steps := Extend(states, steps, w10, Step(false, MainLoop));
    assert pushed.out == OnDatachannelSend(Ready(y), payload).out;
    var w12 := Next(w11, Step(true, Deliver(id, 1)));
    assert At(w12.left, id) == Receive(role, id, x, pushed.out[1]).slot;
    assert At(w12.right, id) == pushed.(out := Without(pushed.out, 1));
    UnboundStaysUnbound(role, id, x, pushed.out[1]);
    states, steps := Extend(states, steps, w11, Step(true, Deliver(id, 1)));
    ReachesRun(states, steps, w12);
  }

  lemma ReachesRun(states: seq<World>, steps: seq<Step>, w: World)
    requires Reaches(states, steps, w)
    ensures IsRun(states, steps) && IsDisciplined(states, steps) && states[|steps|] == w
  {
  }

  // ----- The exact condition -----

  /** The owner has bound the id to a non-negotiated channel with these parameters, and the other end has
      not negotiated it. */
  ghost predicate Carries(w: World, left: bool, id: Id, p: Params)
  {
    var x, y := At(Mine(w, left), id), At(Mine(w, !left), id);
    && Owns(Mine(w, left).isClient, id)
    && x.channel.Some? && x.channel.value.params == p && !x.channel.value.negotiated
    && (y.channel.Some? ==> !y.channel.value.negotiated)
  }

  /** In no disciplined run does either end ever drop data of such a channel. */
  ghost predicate NeverDrops(id: Id, p: Params)
  {
    forall states: seq<World>, steps: seq<Step>, i: nat, left: bool ::
      IsRun(states, steps) && IsDisciplined(states, steps) && i < |states| && Carries(states[i], left, id, p) ==>
        At(states[i].left, id).dropped == 0 && At(states[i].right, id).dropped == 0
  }

  /** Data of a channel opened with OPEN and ACK is never dropped if and only if the channel is ordered,
      reliable or not. */
  lemma DropsIffUnordered(id: Id, p: Params)
    requires id != 65535 && !BothLimits(p)
    ensures NeverDrops(id, p) <==> p.ordered
  {
    hide BothLimits, IsDisciplined;
    if p.ordered {
      forall states: seq<World>, steps: seq<Step>, i: nat, left: bool
        | IsRun(states, steps) && IsDisciplined(states, steps) && i < |states| && Carries(states[i], left, id, p)
        ensures At(states[i].left, id).dropped == 0 && At(states[i].right, id).dropped == 0 {
        OrderedInRun(states, steps, i, left, id, p);
      }
    } else {
      var role := id % 2 == 0;
      var states, steps := UnorderedDataIsDropped(role, id, p, Payload([1], true));
      assert Carries(states[|steps|], true, id, p);
    }
  }

  lemma OrderedInRun(states: seq<World>, steps: seq<Step>, i: nat, left: bool, id: Id, p: Params)
    requires IsRun(states, steps) && IsDisciplined(states, steps) && i < |states| && id != 65535
    requires Carries(states[i], left, id, p) && p.ordered
    ensures At(states[i].left, id).dropped == 0 && At(states[i].right, id).dropped == 0
  {
    hide IsRun, Pair, Counts;
    PairInRun(true, states, steps, i, left, id);
    assert OrderedOn(states[i], id);
    NothingDropped(states, steps, i, true, id);
    NothingDropped(states, steps, i, false, id);
  }
}
