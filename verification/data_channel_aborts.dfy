/** Which channels can make an assertion of an agent fail: a stream opened to the owner of its id, by data of
    a channel that the other end has negotiated, is refused and reset, and the reset asserts a record. */
module DataChannelAborts {
  import opened Collections
  import opened OpenMessage
  import opened DataChannelSlot
  import opened DataChannelAgreement
  import opened DataChannelFlow
  import opened DataChannelWorld
  import opened DataChannelOrdering

  /** The other end has added a negotiated channel, which opens at once. */
  function AddedNegotiated(role: bool, id: Id, p: Params): Slot
  {
    AddDataChannel(!role, true, id, EMPTY, p, true).slot
  }

  lemma AddedNegotiatedIs(role: bool, id: Id, p: Params)
    requires !BothLimits(p)
    ensures AddDataChannel(!role, true, id, EMPTY, p, true).tasks == [SetReady(id)]
    ensures var y := AddedNegotiated(role, id, p);
      && y.out == [] && y.record.Some? && y.record.value.params == p
      && y.channel.Some? && y.channel.value.hasCallbacks && y.channel.value.negotiated && y.channel.value.params == p
  {
  }

  lemma OwnerRefusesStream(role: bool, id: Id, m: Message)
    requires Owns(role, id)
    ensures Receive(role, id, EMPTY, m).slot == EMPTY.(aborted := true)
  {
  }

  /** Only the other end uses the id. */
  function Opposite(role: bool, id: Id, y: Slot, tasks: seq<Task>): World
  {
    World(Agent(role, true, map[], []), Agent(!role, true, map[id := y], tasks))
  }

  /** The other end adds the channel and sees it open. */
  lemma OtherOpens(role: bool, id: Id, p: Params) returns (states: seq<World>, steps: seq<Step>)
    requires !BothLimits(p)
    ensures AddedNegotiated(role, id, p).channel.Some?
    ensures Reaches(states, steps, Opposite(role, id, Ready(AddedNegotiated(role, id, p)), []))
  {
    hide BothLimits, AddDataChannel, Receive, AddedNegotiated, Reaches;
    AddedNegotiatedIs(role, id, p);
    var y := AddedNegotiated(role, id, p);
    var left := Agent(role, true, map[], []);
    var w2 := World(left, Agent(!role, true, map[], []));
    var w3 := World(left, Agent(!role, true, map[], [AddChannel(id, p, true)]));
    var w4 := Opposite(role, id, y, [SetReady(id)]);
    states, steps := BothUp(role);
    assert Next(w2, Step(false, AppAdd(id, p, true))) == w3;
    states, steps := Extend(states, steps, w2, Step(false, AppAdd(id, p, true)));
    assert Next(w3, Step(false, MainLoop)) == w4 by { AddedDef(role, id, p); }
    states, steps := Extend(states, steps, w3, Step(false, MainLoop));
    assert Next(w4, Step(false, MainLoop)) == Opposite(role, id, Ready(y), []) by {
      assert map[id := y][id := Ready(y)] == map[id := Ready(y)];
    }
    states, steps := Extend(states, steps, w4, Step(false, MainLoop));
  }

  /** It sends. */
  lemma OtherSends(role: bool, id: Id, p: Params, payload: Payload) returns (states: seq<World>, steps: seq<Step>, pushed: Slot)
    requires !BothLimits(p) && 0 < |payload.data| <= 65535
    ensures Reaches(states, steps, Opposite(role, id, pushed, []))
    ensures |pushed.out| == 1 && pushed.channel.Some?
    ensures pushed.channel.value.negotiated && pushed.channel.value.params == p
  {
    hide BothLimits, AddDataChannel, Receive, AddedNegotiated, Reaches;
    AddedNegotiatedIs(role, id, p);
    var y := AddedNegotiated(role, id, p);
    var sending := Send(id, Ready(y), payload).slot;
    pushed := OnDatachannelSend(sending, payload);
    var w5 := Opposite(role, id, Ready(y), []);
    var w6 := Opposite(role, id, sending, [SendData(id, payload)]);
    states, steps := OtherOpens(role, id, p);
    assert Next(w5, Step(false, AppSend(id, payload))) == w6 by { assert map[id := Ready(y)][id := sending] == map[id := sending]; }
    states, steps := Extend(states, steps, w5, Step(false, AppSend(id, payload)));
    assert Next(w6, Step(false, MainLoop)) == Opposite(role, id, pushed, []) by {
      assert map[id := sending][id := pushed] == map[id := pushed];
    }
    states, steps := Extend(states, steps, w6, Step(false, MainLoop));
  }

  /** For every negotiated channel, every id its other end owns and every payload there is a disciplined run
      in which the owner, having no channel on the id yet, takes that payload and an assertion fails. */
  lemma NegotiatedDataAborts(role: bool, id: Id, p: Params, payload: Payload) returns (states: seq<World>, steps: seq<Step>)
    requires Owns(role, id) && !BothLimits(p) && 0 < |payload.data| <= 65535
    ensures IsRun(states, steps) && IsDisciplined(states, steps)
    ensures var w := states[|steps|];
      && w.left.isClient == role && At(w.left, id).aborted && At(w.left, id).channel.None?
      && At(w.right, id).channel.Some? && At(w.right, id).channel.value.negotiated && At(w.right, id).channel.value.params == p
  {
    hide BothLimits, Receive, Reaches, IsRun, IsDisciplined;
    var pushed;
    states, steps, pushed := OtherSends(role, id, p, payload);
    var w := Opposite(role, id, pushed, []);
    assert Deliverable(pushed.out, 0);
    OwnerRefusesStream(role, id, pushed.out[0]);
    var last := Next(w, Step(true, Deliver(id, 0)));
    assert At(last.left, id) == EMPTY.(aborted := true) && At(last.right, id) == pushed.(out := Without(pushed.out, 0));
    states, steps := Extend(states, steps, w, Step(true, Deliver(id, 0)));
    ReachesRun(states, steps, last);
  }

  lemma AddedDef(role: bool, id: Id, p: Params)
    ensures AddedNegotiated(role, id, p) == AddDataChannel(!role, true, id, EMPTY, p, true).slot
  {
  }

  /** In no run does an assertion fail at the owner of an id whose channel at the other end is, or is not,
      negotiated. */
  ghost predicate NeverAborts(id: Id, negotiated: bool)
  {
    forall states: seq<World>, steps: seq<Step>, i: nat, left: bool ::
      IsRun(states, steps) && i < |states| && Owns(Mine(states[i], left).isClient, id)
      && At(Mine(states[i], !left), id).channel.Some? && At(Mine(states[i], !left), id).channel.value.negotiated == negotiated ==>
        !At(Mine(states[i], left), id).aborted
  }

  /** The owner of an id is safe from failing assertions if and only if the other end does not negotiate the
      id; the other end, and an owner without a channel opposite, always are. */
  lemma AbortsIffNegotiated(id: Id, negotiated: bool)
    requires id != 65535
    ensures NeverAborts(id, negotiated) <==> !negotiated
  {
    if negotiated {
      var role, p := id % 2 == 0, Params(true, -1, -1, [], []);
      var states, steps := NegotiatedDataAborts(role, id, p, Payload([1], true));
      hide IsRun;
      assert Mine(states[|steps|], true) == states[|steps|].left && Mine(states[|steps|], false) == states[|steps|].right;
    } else {
      hide IsRun;
      forall states: seq<World>, steps: seq<Step>, i: nat, left: bool
        | IsRun(states, steps) && i < |states| && Owns(Mine(states[i], left).isClient, id)
          && At(Mine(states[i], !left), id).channel.Some? && !At(Mine(states[i], !left), id).channel.value.negotiated
        ensures !At(Mine(states[i], left), id).aborted {
        AbortsOnlyForNegotiated(states, steps, i, left, id);
      }
    }
  }
}
