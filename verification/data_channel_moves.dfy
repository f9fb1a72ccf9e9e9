/** What an event of either agent does to the two ends of one id. */
module DataChannelMoves {
  import opened Collections
  import opened OpenMessage
  import opened DataChannelSlot
  import opened DataChannelAgreement
  import opened DataChannelFlow
  import opened DataChannelWorld

  /** `me` is the end of the agent that acts. */
  datatype Move =
    | Idling
    | Queuing(task: Task)
    | Sending(payload: Payload)
    | Running(established: bool)
    | Opening
    | Taking(i: nat)
    | Losing(i: nat)

  predicate Possible(id: Id, move: Move, me: End, you: End)
  {
    match move
    case Idling => true
    case Queuing(task) => task.id == id && task.AddChannel? && !BothLimits(task.params)
    case Sending(_) => me.slot.channel.Some?
    case Running(_) => me.tasks != [] && me.tasks[0].id == id && (me.tasks[0].AddChannel? ==> !BothLimits(me.tasks[0].params))
    case Opening => me.slot.channel.Some? && !Visited(me.slot)
    case Taking(i) => Deliverable(you.slot.out, i)
    case Losing(i) => i < |you.slot.out| && CanBeLost(you.slot.out[i])
  }

  function MyMove(role: bool, id: Id, move: Move, me: End, you: End): End
    requires Possible(id, move, me, you)
  {
    match move
    case Idling => me
    case Queuing(task) => me.(tasks := me.tasks + [task])
    case Sending(payload) => After(me, Send(id, me.slot, payload))
    case Running(established) => After(Popped(me), RunTask(role, established, me.slot, me.tasks[0]))
    case Opening => After(me, OnNewDatachannel(role, id, me.slot))
    case Taking(i) => After(me, Receive(role, id, me.slot, you.slot.out[i]))
    case Losing(_) => me
  }

  function YourMove(id: Id, move: Move, me: End, you: End): End
    requires Possible(id, move, me, you)
  {
    match move
    case Taking(i) => you.(slot := you.slot.(out := Without(you.slot.out, i)))
    case Losing(i) => you.(slot := you.slot.(out := Without(you.slot.out, i)))
    case _ => you
  }

  /** The move that an event means for an id. */
  function MoveOf(me: Agent, e: Event, id: Id): Move
    requires e.MainLoop? ==> me.tasks != []
  {
    match e
    case AppAdd(other, params, negotiated) => if other == id then Queuing(AddChannel(id, params, negotiated)) else Idling
    case AppSend(other, payload) => if other == id then Sending(payload) else Idling
    case MainLoop => if me.tasks[0].id == id then Running(me.established) else Idling
    case Established(order) => if id in order then Opening else Idling
    case Deliver(other, i) => if other == id then Taking(i) else Idling
    case Lose(other, i) => if other == id then Losing(i) else Idling
  }

  /** The loop over the channels opens each of them as it was. */
  lemma {:induction false} OpenAllOpensEach(a: Agent, order: seq<Id>, id: Id)
    requires (forall k :: k in order ==> At(a, k).channel.Some?) && Distinct(order)
    ensures id !in order ==> EndOf(OpenAll(a, order), id) == EndOf(a, id)
    ensures id in order ==> EndOf(OpenAll(a, order), id) == After(EndOf(a, id), OnNewDatachannel(a.isClient, id, At(a, id)))
    decreases |order|
  {
    if order != [] {
      hide OnNewDatachannel;
      var first, rest := order[0], order[1..];
      assert first in order && first !in rest;
      EffectsAreOwn(a.isClient, true, first, At(a, first));
      var effect := OnNewDatachannel(a.isClient, first, At(a, first));
      var next := Apply(a, first, effect);
      ApplyToEnds(a, first, effect, id);
      assert forall k :: k in rest ==> k in order && k != first && At(next, k) == At(a, k);
      OpenAllOpensEach(next, rest, id);
    }
  }

  lemma EventMoves(me: Agent, you: Agent, e: Event, id: Id)
    requires Inv(false, me, you) && Enabled(me, you, e)
    ensures Possible(id, MoveOf(me, e, id), EndOf(me, id), EndOf(you, id))
    ensures EndOf(Act(me, you, e).0, id) == MyMove(me.isClient, id, MoveOf(me, e, id), EndOf(me, id), EndOf(you, id))
    ensures EndOf(Act(me, you, e).1, id) == YourMove(id, MoveOf(me, e, id), EndOf(me, id), EndOf(you, id))
  {
    hide Pair, RunTask, Receive, Send, OnNewDatachannel, Counts, BothLimits;
    match e
    case AppAdd(other, params, negotiated) =>
      TasksOfConcat(me.tasks, [AddChannel(other, params, negotiated)], id);
      assert [AddChannel(other, params, negotiated)][1..] == [];
    case AppSend(other, payload) =>
      EffectsAreOwn(me.isClient, me.established, other, At(me, other));
      ApplyToEnds(me, other, Send(other, At(me, other), payload), id);
    case MainLoop => LoopMoves(me, you, id);
    case Established(order) => OpeningMoves(me, you, order, id);
    case Deliver(other, i) =>
      EffectsAreOwn(me.isClient, me.established, other, At(me, other));
      ApplyToEnds(me, other, Receive(me.isClient, other, At(me, other), At(you, other).out[i]), id);
    case Lose(_, _) =>
  }

  lemma LoopMoves(me: Agent, you: Agent, id: Id)
    requires Inv(false, me, you) && me.tasks != []
    ensures Possible(id, MoveOf(me, MainLoop, id), EndOf(me, id), EndOf(you, id))
    ensures EndOf(Act(me, you, MainLoop).0, id)
         == MyMove(me.isClient, id, MoveOf(me, MainLoop, id), EndOf(me, id), EndOf(you, id))
  {
    hide Paired, Counted, RunTask, BothLimits;
    var task := me.tasks[0];
    var popped := me.(tasks := me.tasks[1..]);
    assert task in me.tasks;
    EffectsAreOwn(me.isClient, me.established, task.id, At(me, task.id));
    ApplyToEnds(popped, task.id, RunTask(me.isClient, me.established, At(me, task.id), task), id);
    if task.id == id {
      assert EndOf(popped, id) == Popped(EndOf(me, id)) && EndOf(me, id).tasks[0] == task;
    } else {
      assert EndOf(popped, id) == EndOf(me, id);
    }
  }

  lemma OpeningMoves(me: Agent, you: Agent, order: seq<Id>, id: Id)
    requires Inv(false, me, you) && Enabled(me, you, Established(order))
    ensures Possible(id, MoveOf(me, Established(order), id), EndOf(me, id), EndOf(you, id))
    ensures EndOf(Act(me, you, Established(order)).0, id)
         == MyMove(me.isClient, id, MoveOf(me, Established(order), id), EndOf(me, id), EndOf(you, id))
  {
    hide Paired, ValidAdds, OnNewDatachannel, TasksOf, BothLimits;
    var up := me.(established := true);
    assert EndOf(up, id) == EndOf(me, id) && forall k :: At(up, k) == At(me, k);
    OpenAllOpensEach(up, order, id);
    assert Counts(me.isClient, id, At(me, id), 0);
  }

  lemma RolesStay(w: World, step: Step)
    requires CanStep(w, step)
    ensures Next(w, step).left.isClient == w.left.isClient && Next(w, step).right.isClient == w.right.isClient
  {
    hide OnNewDatachannel, RunTask, Receive, Send;
    if step.event.Established? {
      var me := if step.byLeft then w.left else w.right;
      OpenAllKeepsRole(me.(established := true), step.event.order);
    }
  }

  lemma {:induction false} OpenAllKeepsRole(a: Agent, order: seq<Id>)
    ensures OpenAll(a, order).isClient == a.isClient
    decreases |order|
  {
    hide OnNewDatachannel;
    if order != [] && At(a, order[0]).channel.Some? {
      OpenAllKeepsRole(Apply(a, order[0], OnNewDatachannel(a.isClient, order[0], At(a, order[0]))), order[1..]);
    }
  }

  predicate Installed(s: Slot)
  {
    s.channel.Some? && s.channel.value.hasCallbacks
  }

  /** The stream has its pad, or will get it. */
  predicate TakesStream(role: bool, id: Id, s: Slot)
  {
    s.hasPad || PadAdded(role, id, s).Some?
  }

  /** An end in good order: callbacks come with a record, an open end has a channel, and neither refuses its own
      stream. */
  predicate Fit(role: bool, id: Id, s: Slot)
  {
    (Installed(s) ==> s.record.Some? && TakesStream(role, id, s)) && (IsOpen(s) ==> s.channel.Some? && TakesStream(role, id, s))
  }

  lemma PairIsFit(role: bool, id: Id, me: End, you: End)
    requires Pair(false, role, id, me, you) && id != 65535
    ensures Fit(role, id, me.slot)
    ensures Owns(role, id) ==> Agreement(me.slot, you.slot)
    ensures Owns(!role, id) ==> Agreement(you.slot, me.slot)
  {
    hide ControlInFlight, Early, BothLimits;
  }
}
