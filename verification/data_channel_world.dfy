/** Two transport agents with opposite DTLS roles, their main loops and the streams between them. A run may
    go on after an assertion has failed, so what is proved of all runs holds for those that end there. */
module DataChannelWorld {
  import opened Collections
  import opened OpenMessage
  import opened DataChannelSlot
  import opened DataChannelAgreement
  import opened DataChannelFlow

  datatype Agent = Agent(isClient: bool, established: bool, slots: map<Id, Slot>, tasks: seq<Task>)

  function At(a: Agent, id: Id): Slot
  {
    if id in a.slots then a.slots[id] else EMPTY
  }

  function Apply(a: Agent, id: Id, effect: Effect): Agent
  {
    a.(slots := a.slots[id := effect.slot], tasks := a.tasks + effect.tasks)
  }

  /** The loop of on_sctp_association_established over the session's channels. */
  function OpenAll(a: Agent, order: seq<Id>): Agent
    decreases |order|
  {
    if order == [] || At(a, order[0]).channel.None? then a
    else OpenAll(Apply(a, order[0], OnNewDatachannel(a.isClient, order[0], At(a, order[0]))), order[1..])
  }

  datatype Event =
    | AppAdd(id: Id, params: Params, negotiated: bool)
    | AppSend(id: Id, payload: Payload)
    | MainLoop
    | Established(order: seq<Id>)
    | Deliver(id: Id, i: nat)
    | Lose(id: Id, i: nat)

  ghost predicate Enumerates(order: seq<Id>, a: Agent)
  {
    && (forall id :: id in order <==> At(a, id).channel.Some?)
    && (forall i, j :: 0 <= i < j < |order| ==> order[i] != order[j])
  }

  ghost predicate Enabled(me: Agent, you: Agent, e: Event)
  {
    match e
    case AppAdd(_, params, _) => !BothLimits(params)
    case AppSend(id, _) => At(me, id).channel.Some?
    case MainLoop => me.tasks != []
    case Established(order) => !me.established && Enumerates(order, me)
    case Deliver(id, i) => Deliverable(At(you, id).out, i)
    case Lose(id, i) => i < |At(you, id).out| && CanBeLost(At(you, id).out[i])
  }

  function DropMessage(a: Agent, id: Id, i: nat): Agent
    requires i < |At(a, id).out|
  {
    a.(slots := a.slots[id := At(a, id).(out := Without(At(a, id).out, i))])
  }

  function Act(me: Agent, you: Agent, e: Event): (Agent, Agent)
    requires Enabled(me, you, e)
  {
    match e
    case AppAdd(id, params, negotiated) => (me.(tasks := me.tasks + [AddChannel(id, params, negotiated)]), you)
    case AppSend(id, payload) => (Apply(me, id, Send(id, At(me, id), payload)), you)
    case MainLoop =>
      var task := me.tasks[0];
      (Apply(me.(tasks := me.tasks[1..]), task.id, RunTask(me.isClient, me.established, At(me, task.id), task)), you)
    case Established(order) => (OpenAll(me.(established := true), order), you)
    case Deliver(id, i) =>
      (Apply(me, id, Receive(me.isClient, id, At(me, id), At(you, id).out[i])), DropMessage(you, id, i))
    case Lose(id, i) => (me, DropMessage(you, id, i))
  }

  datatype World = World(left: Agent, right: Agent)

  /** A step of the left agent, or of the right one. */
  datatype Step = Step(byLeft: bool, event: Event)

  ghost predicate CanStep(w: World, step: Step)
  {
    if step.byLeft then Enabled(w.left, w.right, step.event) else Enabled(w.right, w.left, step.event)
  }

  function Next(w: World, step: Step): World
    requires CanStep(w, step)
  {
    if step.byLeft then var (me, you) := Act(w.left, w.right, step.event); World(me, you)
    else var (me, you) := Act(w.right, w.left, step.event); World(you, me)
  }

  /** Each application sends only on channels it has seen open. */
  ghost predicate Disciplined(w: World, step: Step)
  {
    step.event.AppSend? ==>
      var ch := At(if step.byLeft then w.left else w.right, step.event.id).channel;
      ch.Some? && ch.value.ready == Opened
  }

  function NewAgent(isClient: bool): Agent
  {
    Agent(isClient, false, map[], [])
  }

  ghost predicate IsRun(states: seq<World>, steps: seq<Step>)
  {
    && |states| == |steps| + 1
    && states[0].left == NewAgent(states[0].left.isClient)
    && states[0].right == NewAgent(!states[0].left.isClient)
    && forall i :: 0 <= i < |steps| ==> CanStep(states[i], steps[i]) && states[i + 1] == Next(states[i], steps[i])
  }

  ghost predicate IsDisciplined(states: seq<World>, steps: seq<Step>)
    requires IsRun(states, steps)
  {
    forall i :: 0 <= i < |steps| ==> Disciplined(states[i], steps[i])
  }

  // ----- One id of one agent -----

  function TasksOf(tasks: seq<Task>, id: Id): seq<Task>
  {
    if tasks == [] then []
    else if tasks[0].id == id then [tasks[0]] + TasksOf(tasks[1..], id)
    else TasksOf(tasks[1..], id)
  }

  function EndOf(a: Agent, id: Id): End
  {
    End(At(a, id), TasksOf(a.tasks, id))
  }

  lemma {:induction false} TasksOfConcat(a: seq<Task>, b: seq<Task>, id: Id)
    ensures TasksOf(a + b, id) == TasksOf(a, id) + TasksOf(b, id)
  {
    if a == [] {
      assert a + b == b;
    } else {
      assert (a + b)[1..] == a[1..] + b;
      TasksOfConcat(a[1..], b, id);
    }
  }

  /** What a callback schedules is for its own id, and at most one task. */
  ghost predicate OwnTasks(id: Id, effect: Effect)
  {
    effect.tasks == [] || (|effect.tasks| == 1 && effect.tasks[0].id == id)
  }

  lemma ApplyToEnds(a: Agent, id: Id, effect: Effect, other: Id)
    requires OwnTasks(id, effect)
    ensures EndOf(Apply(a, id, effect), id) == After(EndOf(a, id), effect)
    ensures other != id ==> EndOf(Apply(a, id, effect), other) == EndOf(a, other)
  {
    TasksOfConcat(a.tasks, effect.tasks, id);
    TasksOfConcat(a.tasks, effect.tasks, other);
    if effect.tasks != [] { assert effect.tasks == [effect.tasks[0]] && effect.tasks[1..] == []; }
  }

  lemma EffectsAreOwn(isClient: bool, established: bool, id: Id, s: Slot)
    ensures s.channel.Some? ==> OwnTasks(id, OnNewDatachannel(isClient, id, s))
    ensures forall m :: OwnTasks(id, Receive(isClient, id, s, m))
    ensures s.channel.Some? ==> forall p :: OwnTasks(id, Send(id, s, p))
    ensures forall task: Task :: task.id == id ==> OwnTasks(id, RunTask(isClient, established, s, task))
  {
  }

  // ----- The invariant of one id -----

  /** x is the end that owns the id. */
  ghost predicate Linked(disciplined: bool, x: End, y: End)
  {
    Agreement(x.slot, y.slot) && (disciplined && Eligible(x.slot, y.slot) ==> Flow(x, y))
  }

  ghost predicate Pair(disciplined: bool, myRole: bool, id: Id, me: End, you: End)
  {
    (Owns(myRole, id) ==> Linked(disciplined, me, you)) && (Owns(!myRole, id) ==> Linked(disciplined, you, me))
  }

  lemma PairSwaps(disciplined: bool, myRole: bool, id: Id, me: End, you: End)
    ensures Pair(disciplined, myRole, id, me, you) == Pair(disciplined, !myRole, id, you, me)
  {
  }

  lemma OpenKeepsPair(d: bool, role: bool, id: Id, me: End, you: End)
    requires Pair(d, role, id, me, you) && me.slot.channel.Some? && !Visited(me.slot)
    ensures Pair(d, role, id, After(me, OnNewDatachannel(role, id, me.slot)), you)
  {
    hide Agreement, Flow, OnNewDatachannel;
    var me' := After(me, OnNewDatachannel(role, id, me.slot));
    TermsStay(role, true, id, me.slot);
    if Owns(role, id) {
      InitiatorOpens(role, id, me.slot, you.slot);
      if d && Eligible(me'.slot, you.slot) { InitiatorOpensFlow(role, id, me, you); }
    } else if Owns(!role, id) {
      ResponderOpens(role, id, you.slot, me.slot);
      if d && Eligible(you.slot, me'.slot) { ResponderOpensFlow(!role, id, you, me); }
    }
  }

  /** No callback changes the terms of a channel once it is bound. */
  ghost predicate KeepsTerms(s: Slot, s': Slot)
  {
    s.channel.Some? ==> s'.channel.Some? && SameTerms(s.channel.value, s'.channel.value)
  }

  lemma TermsStay(isClient: bool, established: bool, id: Id, s: Slot)
    ensures s.channel.Some? ==> KeepsTerms(s, OnNewDatachannel(isClient, id, s).slot)
    ensures forall m :: KeepsTerms(s, Receive(isClient, id, s, m).slot)
    ensures s.channel.Some? ==> forall p :: KeepsTerms(s, Send(id, s, p).slot)
    ensures forall task: Task :: KeepsTerms(s, RunTask(isClient, established, s, task).slot)
  {
    hide DecodeControl, BothLimits, OpenBytes, ValidStreamId;
    forall m ensures KeepsTerms(s, Receive(isClient, id, s, m).slot) {
      UnboundStaysUnbound(isClient, id, s, m);
    }
    forall task: Task ensures KeepsTerms(s, RunTask(isClient, established, s, task).slot) {
      hide OnNewDatachannel;
    }
  }

  lemma BindKeepsPair(d: bool, role: bool, id: Id, me: End, you: End, params: Params, negotiated: bool)
    requires Pair(d, role, id, me, you) && me.slot.channel.None? && !BothLimits(params)
    ensures Pair(d, role, id, me.(slot := me.slot.(channel := Some(NewChannel(params, negotiated)))), you)
  {
    hide Agreement, Flow;
    if Owns(role, id) {
      InitiatorBinds(me.slot, you.slot, params, negotiated);
      UnboundHasNoRecord(me.slot, you.slot);
      if d && Eligible(me.slot, you.slot) { BindFlow(me, you, params, negotiated); }
    } else if Owns(!role, id) {
      ResponderBinds(you.slot, me.slot, params, negotiated);
      if d && Eligible(you.slot, me.slot) { BindFlow(you, me, params, negotiated); }
    }
  }

  lemma UnboundHasNoRecord(x: Slot, y: Slot)
    requires Agreement(x, y) && x.channel.None?
    ensures x.record.None?
  {
  }

  lemma DeliverKeepsPair(d: bool, role: bool, id: Id, me: End, you: End, i: nat)
    requires Pair(d, role, id, me, you) && Deliverable(you.slot.out, i)
    ensures Pair(d, role, id, After(me, Receive(role, id, me.slot, you.slot.out[i])),
              you.(slot := you.slot.(out := Without(you.slot.out, i))))
  {
    hide Agreement, Flow, Receive;
    TermsStay(role, true, id, me.slot);
    assert KeepsTerms(me.slot, Receive(role, id, me.slot, you.slot.out[i]).slot);
    if Owns(role, id) {
      InitiatorReceives(role, id, me.slot, you.slot, i);
      if d && Eligible(After(me, Receive(role, id, me.slot, you.slot.out[i])).slot, you.slot) {
        UnboundStaysUnbound(role, id, me.slot, you.slot.out[i]);
        InitiatorReceivesFlow(role, id, me, you, i);
      }
    } else if Owns(!role, id) {
      ResponderReceives(!role, id, you.slot, me.slot, i);
      if d && Eligible(you.slot, After(me, Receive(role, id, me.slot, you.slot.out[i])).slot) {
        UnboundStaysUnbound(role, id, me.slot, you.slot.out[i]);
        ResponderReceivesFlow(!role, id, you, me, i);
      }
    }
  }

  lemma UnboundStaysUnbound(isClient: bool, id: Id, s: Slot, m: Message)
    ensures Receive(isClient, id, s, m).slot.channel == s.channel
  {
  }

  lemma LossKeepsPair(d: bool, role: bool, id: Id, me: End, you: End, i: nat)
    requires Pair(d, role, id, me, you) && i < |you.slot.out| && CanBeLost(you.slot.out[i])
    ensures Pair(d, role, id, me, you.(slot := you.slot.(out := Without(you.slot.out, i))))
  {
    hide Agreement, Flow;
    if Owns(role, id) {
      MessageGone(me.slot, you.slot, i);
      if d && Eligible(me.slot, you.slot) { LosingKeepsFlow(me, you, i); }
    }
    if Owns(!role, id) {
      MessageGone(you.slot, me.slot, i);
      if d && Eligible(you.slot, me.slot) { LosingKeepsFlow(you, me, i); }
    }
  }

  lemma SendKeepsPair(d: bool, role: bool, id: Id, me: End, you: End, payload: Payload)
    requires Pair(d, role, id, me, you) && me.slot.channel.Some? && (d ==> MaySend(me))
    ensures Pair(d, role, id, After(me, Send(id, me.slot, payload)), you)
  {
    hide Agreement, Flow;
    if Owns(role, id) {
      SendKeepsAgreement(id, me.slot, you.slot, payload);
      if d && Eligible(me.slot, you.slot) { SendFlow(id, me, you, payload); }
    }
    if Owns(!role, id) {
      SendKeepsAgreement(id, you.slot, me.slot, payload);
      if d && Eligible(you.slot, me.slot) { SendFlow(id, you, me, payload); }
    }
  }

  lemma LocalTaskKeepsPair(d: bool, role: bool, established: bool, id: Id, me: End, you: End)
    requires Pair(d, role, id, me, you) && me.tasks != [] && IsLocalTask(me.tasks[0])
    ensures Pair(d, role, id, After(Popped(me), RunTask(role, established, me.slot, me.tasks[0])), you)
  {
    hide Agreement, Flow, RunTask;
    var me' := After(Popped(me), RunTask(role, established, me.slot, me.tasks[0]));
    TermsStay(role, established, id, me.slot);
    assert KeepsTerms(me.slot, me'.slot);
    LocalTaskBinds(role, established, me.slot, me.tasks[0]);
    if Owns(role, id) {
      InitiatorRunsTask(role, established, me.slot, you.slot, me.tasks[0]);
      if d && Eligible(me'.slot, you.slot) { InitiatorTaskFlow(role, established, me, you); }
    }
    if Owns(!role, id) {
      ResponderRunsTask(role, established, you.slot, me.slot, me.tasks[0]);
      if d && Eligible(you.slot, me'.slot) { ResponderTaskFlow(role, established, you, me); }
    }
  }

  lemma LocalTaskBinds(isClient: bool, established: bool, s: Slot, task: Task)
    requires IsLocalTask(task)
    ensures s.channel.None? ==> RunTask(isClient, established, s, task).slot.channel.None?
  {
  }

  /** Only AddChannel tasks bind a channel; they move no data. */
  lemma AddTaskIsIdle(e: End, task: Task)
    requires task.AddChannel?
    ensures Emits(e.tasks + [task]) == Emits(e.tasks) && Sends(e.tasks + [task]) == Sends(e.tasks)
    ensures e.tasks != [] && e.tasks[0] == task ==>
      Emits(Popped(e).tasks) == Emits(e.tasks) && Sends(Popped(e).tasks) == Sends(e.tasks)
  {
    TasksAppend(e.tasks, task);
  }

  lemma QueueKeepsPair(d: bool, role: bool, id: Id, me: End, you: End, task: Task)
    requires Pair(d, role, id, me, you) && task.AddChannel?
    ensures Pair(d, role, id, me.(tasks := me.tasks + [task]), you)
    ensures me.tasks != [] && me.tasks[0] == task ==> Pair(d, role, id, Popped(me), you)
  {
    hide Agreement, Phases, Emits, Sends;
    AddTaskIsIdle(me, task);
  }

  lemma AddKeepsPair(d: bool, role: bool, established: bool, id: Id, me: End, you: End, params: Params, negotiated: bool)
    requires Pair(d, role, id, me, you) && !BothLimits(params)
    ensures Pair(d, role, id, After(me, AddDataChannel(role, established, id, me.slot, params, negotiated)), you)
  {
    hide Pair, OnNewDatachannel, BothLimits;
    assert me.tasks + [] == me.tasks;
    if me.slot.channel.None? {
      BindKeepsPair(d, role, id, me, you, params, negotiated);
      var bound := me.(slot := me.slot.(channel := Some(NewChannel(params, negotiated))));
      if established { OpenKeepsPair(d, role, id, bound, you); }
    }
  }

  lemma TaskKeepsPair(d: bool, role: bool, established: bool, id: Id, me: End, you: End)
    requires Pair(d, role, id, me, you) && me.tasks != [] && me.tasks[0].id == id
    requires me.tasks[0].AddChannel? ==> !BothLimits(me.tasks[0].params)
    ensures Pair(d, role, id, After(Popped(me), RunTask(role, established, me.slot, me.tasks[0])), you)
  {
    hide Pair, AddDataChannel, BothLimits;
    var task := me.tasks[0];
    if task.AddChannel? {
      QueueKeepsPair(d, role, id, me, you, task);
      AddKeepsPair(d, role, established, id, Popped(me), you, task.params, task.negotiated);
    } else {
      LocalTaskKeepsPair(d, role, established, id, me, you);
    }
  }

  // ----- The invariant of the world -----

  ghost predicate Paired(d: bool, me: Agent, you: Agent)
  {
    me.isClient != you.isClient
    && forall id :: Pair(d, me.isClient, id, EndOf(me, id), EndOf(you, id))
  }

  /** on_new_datachannel has taken effect for a channel as often as said; an OPEN went out at most that
      often, and only for the agent's own ids. */
  ghost predicate Counts(isClient: bool, id: Id, s: Slot, visits: nat)
  {
    s.channel.Some? ==>
      && s.channel.value.visits == visits
      && s.channel.value.opens <= visits
      && (s.channel.value.opens > 0 ==> !s.channel.value.negotiated && Owns(isClient, id))
  }

  /** Every channel has been opened once the association is established, the pending ones excepted. */
  ghost predicate Counted(a: Agent, pending: seq<Id>)
  {
    forall id :: Counts(a.isClient, id, At(a, id), if a.established && id !in pending then 1 else 0)
  }

  ghost predicate ValidAdds(tasks: seq<Task>)
  {
    forall t :: t in tasks && t.AddChannel? ==> !BothLimits(t.params)
  }

  ghost predicate Inv(d: bool, me: Agent, you: Agent)
  {
    && Paired(d, me, you)
    && Counted(me, []) && Counted(you, [])
    && ValidAdds(me.tasks) && ValidAdds(you.tasks)
  }

  lemma InvSwaps(d: bool, me: Agent, you: Agent)
    requires Inv(d, me, you)
    ensures Inv(d, you, me)
  {
    forall id ensures Pair(d, you.isClient, id, EndOf(you, id), EndOf(me, id)) {
      PairSwaps(d, me.isClient, id, EndOf(me, id), EndOf(you, id));
    }
  }

  /** One callback of one agent for one id keeps the pairing of all ids. */
  lemma ApplyKeepsPaired(d: bool, me: Agent, you: Agent, id: Id, effect: Effect, you': Agent)
    requires me.isClient != you.isClient && OwnTasks(id, effect) && you'.isClient == you.isClient
    requires Pair(d, me.isClient, id, After(EndOf(me, id), effect), EndOf(you', id))
    requires forall other :: other != id ==>
      Pair(d, me.isClient, other, EndOf(me, other), EndOf(you, other)) && EndOf(you', other) == EndOf(you, other)
    ensures Paired(d, Apply(me, id, effect), you')
  {
    hide Pair, EndOf;
    forall other ensures Pair(d, me.isClient, other, EndOf(Apply(me, id, effect), other), EndOf(you', other)) {
      ApplyToEnds(me, id, effect, other);
    }
  }

  lemma ApplyCounts(a: Agent, id: Id, effect: Effect, pending: seq<Id>, pending': seq<Id>)
    requires Counted(a, pending)
    requires forall other :: other != id ==> (other in pending <==> other in pending')
    requires Counts(a.isClient, id, effect.slot, if a.established && id !in pending' then 1 else 0)
    ensures Counted(Apply(a, id, effect), pending')
  {
    forall other
      ensures Counts(a.isClient, other, At(Apply(a, id, effect), other), if a.established && other !in pending' then 1 else 0)
    {
      assert Counts(a.isClient, other, At(a, other), if a.established && other !in pending then 1 else 0);
    }
  }

  lemma OpenCounts(isClient: bool, id: Id, s: Slot)
    requires s.channel.Some? && Counts(isClient, id, s, 0)
    ensures Counts(isClient, id, OnNewDatachannel(isClient, id, s).slot, 1)
  {
    hide BothLimits;
  }

  lemma OtherCallbacksCount(isClient: bool, established: bool, id: Id, s: Slot, visits: nat)
    requires Counts(isClient, id, s, visits) && visits == if established then 1 else 0
    ensures forall m :: Counts(isClient, id, Receive(isClient, id, s, m).slot, visits)
    ensures s.channel.Some? ==> forall p :: Counts(isClient, id, Send(id, s, p).slot, visits)
    ensures forall task: Task :: task.id == id ==>
      Counts(isClient, id, RunTask(isClient, established, s, task).slot, visits)
  {
    hide DecodeControl, OpenBytes, BothLimits;
  }

  lemma {:induction false} OpenAllKeeps(d: bool, me: Agent, you: Agent, order: seq<Id>)
    requires Paired(d, me, you) && me.established && Counted(me, order)
    requires forall id :: id in order ==> At(me, id).channel.Some?
    requires forall i, j :: 0 <= i < j < |order| ==> order[i] != order[j]
    ensures Paired(d, OpenAll(me, order), you) && Counted(OpenAll(me, order), [])
    ensures OpenAll(me, order).isClient == me.isClient
    ensures ValidAdds(me.tasks) ==> ValidAdds(OpenAll(me, order).tasks)
    decreases |order|
  {
    hide Pair, OnNewDatachannel, Counts;
    if order != [] {
      var id, rest := order[0], order[1..];
      var effect := OnNewDatachannel(me.isClient, id, At(me, id));
      assert id in order && id !in rest;
      assert Counts(me.isClient, id, At(me, id), 0);
      NotVisited(me.isClient, id, At(me, id));
      OpenKeepsPair(d, me.isClient, id, EndOf(me, id), EndOf(you, id));
      EffectsAreOwn(me.isClient, true, id, At(me, id));
      ApplyKeepsPaired(d, me, you, id, effect, you);
      OpenCounts(me.isClient, id, At(me, id));
      ApplyCounts(me, id, effect, order, rest);
      OpenSchedulesNoAdd(me.isClient, id, At(me, id));
      var next := Apply(me, id, effect);
      assert forall other :: other in rest ==> other in order && other != id && At(next, other) == At(me, other);
      OpenAllKeeps(d, next, you, rest);
    }
  }

  lemma NotVisited(isClient: bool, id: Id, s: Slot)
    requires Counts(isClient, id, s, 0)
    ensures !Visited(s)
  {
  }

  lemma OpenSchedulesNoAdd(isClient: bool, id: Id, s: Slot)
    requires s.channel.Some?
    ensures forall t :: t in OnNewDatachannel(isClient, id, s).tasks ==> !t.AddChannel?
  {
  }

  // ----- Every step keeps the invariant -----

  lemma AppAddKeeps(d: bool, me: Agent, you: Agent, id: Id, params: Params, negotiated: bool)
    requires Inv(d, me, you) && !BothLimits(params)
    ensures Inv(d, me.(tasks := me.tasks + [AddChannel(id, params, negotiated)]), you)
  {
    hide Pair, Counts, BothLimits;
    var task := AddChannel(id, params, negotiated);
    var me' := me.(tasks := me.tasks + [task]);
    assert forall k :: At(me', k) == At(me, k);
    assert Counted(me', []) by {
      forall k ensures Counts(me'.isClient, k, At(me', k), if me'.established && k !in [] then 1 else 0) {
        assert Counts(me.isClient, k, At(me, k), if me.established && k !in [] then 1 else 0);
      }
    }
    forall k ensures Pair(d, me.isClient, k, EndOf(me', k), EndOf(you, k)) {
      TasksOfConcat(me.tasks, [task], k);
      assert [task][1..] == [];
      if k == id {
        assert EndOf(me', k) == EndOf(me, k).(tasks := EndOf(me, k).tasks + [task]);
        QueueKeepsPair(d, me.isClient, k, EndOf(me, k), EndOf(you, k), task);
      } else {
        assert EndOf(me', k) == EndOf(me, k);
      }
    }
  }

  lemma AppSendKeeps(d: bool, me: Agent, you: Agent, id: Id, payload: Payload)
    requires Inv(d, me, you) && At(me, id).channel.Some? && (d ==> MaySend(EndOf(me, id)))
    ensures Inv(d, Apply(me, id, Send(id, At(me, id), payload)), you)
  {
    hide Pair, Counts;
    var effect := Send(id, At(me, id), payload);
    SendKeepsPair(d, me.isClient, id, EndOf(me, id), EndOf(you, id), payload);
    EffectsAreOwn(me.isClient, me.established, id, At(me, id));
    ApplyKeepsPaired(d, me, you, id, effect, you);
    OtherCallbacksCount(me.isClient, me.established, id, At(me, id), if me.established then 1 else 0);
    ApplyCounts(me, id, effect, [], []);
  }

  lemma MainLoopKeeps(d: bool, me: Agent, you: Agent)
    requires Inv(d, me, you) && me.tasks != []
    ensures Inv(d, Act(me, you, MainLoop).0, you)
  {
    hide Pair, Counts, RunTask, BothLimits;
    var task := me.tasks[0];
    var id := task.id;
    var popped := me.(tasks := me.tasks[1..]);
    var effect := RunTask(me.isClient, me.established, At(me, id), task);
    assert task in me.tasks;
    assert EndOf(popped, id) == Popped(EndOf(me, id));
    TaskKeepsPair(d, me.isClient, me.established, id, EndOf(me, id), EndOf(you, id));
    EffectsAreOwn(me.isClient, me.established, id, At(me, id));
    assert forall other :: other != id ==> EndOf(popped, other) == EndOf(me, other);
    ApplyKeepsPaired(d, popped, you, id, effect, you);
    OtherCallbacksCount(me.isClient, me.established, id, At(me, id), if me.established then 1 else 0);
    SameSlotsCount(me, popped);
    ApplyCounts(popped, id, effect, [], []);
    TaskSchedulesNoAdd(me.isClient, me.established, At(me, id), task);
  }

  lemma TaskSchedulesNoAdd(isClient: bool, established: bool, s: Slot, task: Task)
    ensures forall t :: t in RunTask(isClient, established, s, task).tasks ==> !t.AddChannel?
  {
  }

  lemma SameSlotsCount(a: Agent, b: Agent)
    requires Counted(a, []) && b == a.(tasks := b.tasks)
    ensures Counted(b, [])
  {
    hide Counts;
    forall k ensures Counts(b.isClient, k, At(b, k), if b.established && k !in [] then 1 else 0) {
      assert Counts(a.isClient, k, At(a, k), if a.established && k !in [] then 1 else 0);
    }
  }

  lemma EstablishedKeeps(d: bool, me: Agent, you: Agent, order: seq<Id>)
    requires Inv(d, me, you) && !me.established && Enumerates(order, me)
    ensures Inv(d, OpenAll(me.(established := true), order), you)
  {
    hide Pair;
    var me' := me.(established := true);
    assert forall k :: At(me', k) == At(me, k) && EndOf(me', k) == EndOf(me, k);
    forall k ensures Counts(me'.isClient, k, At(me', k), if me'.established && k !in order then 1 else 0) {
      assert Counts(me.isClient, k, At(me, k), 0);
    }
    OpenAllKeeps(d, me', you, order);
  }

  lemma DeliverKeeps(d: bool, me: Agent, you: Agent, id: Id, i: nat)
    requires Inv(d, me, you) && Deliverable(At(you, id).out, i)
    ensures Inv(d, Act(me, you, Deliver(id, i)).0, Act(me, you, Deliver(id, i)).1)
  {
    hide Pair, Counts, Receive;
    var effect := Receive(me.isClient, id, At(me, id), At(you, id).out[i]);
    var you' := DropMessage(you, id, i);
    DeliverKeepsPair(d, me.isClient, id, EndOf(me, id), EndOf(you, id), i);
    EffectsAreOwn(me.isClient, me.established, id, At(me, id));
    ApplyKeepsPaired(d, me, you, id, effect, you');
    OtherCallbacksCount(me.isClient, me.established, id, At(me, id), if me.established then 1 else 0);
    ApplyCounts(me, id, effect, [], []);
    DropCounts(you, id, i);
    ReceiveSchedulesNoAdd(me.isClient, id, At(me, id), At(you, id).out[i]);
  }

  lemma ReceiveSchedulesNoAdd(isClient: bool, id: Id, s: Slot, m: Message)
    ensures forall t :: t in Receive(isClient, id, s, m).tasks ==> !t.AddChannel?
  {
  }

  lemma DropCounts(a: Agent, id: Id, i: nat)
    requires Counted(a, []) && i < |At(a, id).out|
    ensures Counted(DropMessage(a, id, i), [])
  {
    var b := DropMessage(a, id, i);
    forall k ensures Counts(b.isClient, k, At(b, k), if b.established && k !in [] then 1 else 0) {
      assert Counts(a.isClient, k, At(a, k), if a.established && k !in [] then 1 else 0);
    }
  }

  lemma LoseKeeps(d: bool, me: Agent, you: Agent, id: Id, i: nat)
    requires Inv(d, me, you) && i < |At(you, id).out| && CanBeLost(At(you, id).out[i])
    ensures Inv(d, me, DropMessage(you, id, i))
  {
    hide Pair;
    var you' := DropMessage(you, id, i);
    LossKeepsPair(d, me.isClient, id, EndOf(me, id), EndOf(you, id), i);
    DropCounts(you, id, i);
    forall k ensures Pair(d, me.isClient, k, EndOf(me, k), EndOf(you', k)) {
      if k != id { assert EndOf(you', k) == EndOf(you, k); }
    }
  }

  lemma ActKeeps(d: bool, me: Agent, you: Agent, e: Event)
    requires Inv(d, me, you) && Enabled(me, you, e)
    requires d && e.AppSend? ==> MaySend(EndOf(me, e.id))
    ensures Inv(d, Act(me, you, e).0, Act(me, you, e).1)
  {
    hide Inv, OpenAll, Apply, DropMessage, Enumerates;
    match e
    case AppAdd(id, params, negotiated) => AppAddKeeps(d, me, you, id, params, negotiated);
    case AppSend(id, payload) => AppSendKeeps(d, me, you, id, payload);
    case MainLoop => MainLoopKeeps(d, me, you);
    case Established(order) => EstablishedKeeps(d, me, you, order);
    case Deliver(id, i) => DeliverKeeps(d, me, you, id, i);
    case Lose(id, i) => LoseKeeps(d, me, you, id, i);
  }

  lemma InitialInv(d: bool, leftIsClient: bool)
    ensures Inv(d, NewAgent(leftIsClient), NewAgent(!leftIsClient))
  {
    AgreementInitially();
    FlowInitially();
  }

  lemma {:induction false} RunsKeepInv(d: bool, states: seq<World>, steps: seq<Step>, i: nat)
    requires IsRun(states, steps) && i < |states| && (d ==> IsDisciplined(states, steps))
    ensures Inv(d, states[i].left, states[i].right)
  {
    hide Inv, Enabled, Act;
    if i == 0 {
      InitialInv(d, states[0].left.isClient);
    } else {
      RunsKeepInv(d, states, steps, i - 1);
      var w, step := states[i - 1], steps[i - 1];
      assert d ==> Disciplined(w, step);
      assert states[i] == Next(w, step);
      if step.byLeft {
        ActKeeps(d, w.left, w.right, step.event);
      } else {
        InvSwaps(d, w.left, w.right);
        ActKeeps(d, w.right, w.left, step.event);
        InvSwaps(d, states[i].right, states[i].left);
      }
    }
  }

  // ----- Main results -----

  function Mine(w: World, left: bool): Agent
  {
    if left then w.left else w.right
  }

  lemma PairInRun(d: bool, states: seq<World>, steps: seq<Step>, i: nat, left: bool, id: Id)
    requires IsRun(states, steps) && i < |states| && (d ==> IsDisciplined(states, steps))
    ensures Pair(d, Mine(states[i], left).isClient, id, EndOf(Mine(states[i], left), id), EndOf(Mine(states[i], !left), id))
    ensures Mine(states[i], left).isClient != Mine(states[i], !left).isClient
    ensures Counts(Mine(states[i], left).isClient, id, At(Mine(states[i], left), id),
              if Mine(states[i], left).established then 1 else 0)
  {
    hide Pair, Counts;
    RunsKeepInv(d, states, steps, i);
    var a, b := states[i].left, states[i].right;
    if left {
      assert Counts(a.isClient, id, At(a, id), if a.established && id !in [] then 1 else 0);
    } else {
      InvSwaps(d, a, b);
      assert Counts(b.isClient, id, At(b, id), if b.established && id !in [] then 1 else 0);
    }
  }

  /** Two-peer agreement. In every run, when a non-negotiated channel of an end that owns its id is
      open, the peer's application has accepted that id, its channel is open there with the parameters
      of the OPEN message, and these are the initiator's own exactly when they fit the message. */
  lemma PeersAgree(states: seq<World>, steps: seq<Step>, i: nat, left: bool, id: Id)
    requires IsRun(states, steps) && i < |states|
    requires Owns(Mine(states[i], left).isClient, id)
    requires IsOpen(At(Mine(states[i], left), id)) && At(Mine(states[i], left), id).channel.Some?
    requires !At(Mine(states[i], left), id).channel.value.negotiated
    ensures var x, y := At(Mine(states[i], left), id), At(Mine(states[i], !left), id);
            && IsOpen(y) && y.channel.Some? && !y.channel.value.negotiated
            && y.channel.value.params == y.record.value.params == OnTheWire(x.channel.value.params)
            && (y.channel.value.params == x.channel.value.params <==> Transmissible(x.channel.value.params))
  {
    hide IsRun;
    PairInRun(false, states, steps, i, left, id);
    OpenMeansAgreed(Mine(states[i], left).isClient, id, At(Mine(states[i], left), id), At(Mine(states[i], !left), id));
  }

  /** No id is initiated from both ends, and no end initiates an id it does not own. */
  lemma NoIdInitiatedTwice(states: seq<World>, steps: seq<Step>, i: nat, id: Id)
    requires IsRun(states, steps) && i < |states|
    ensures forall left :: Initiates(Mine(states[i], left), id) ==> Owns(Mine(states[i], left).isClient, id)
    ensures !(Initiates(states[i].left, id) && Initiates(states[i].right, id))
  {
    hide IsRun;
    PairInRun(false, states, steps, i, true, id);
    PairInRun(false, states, steps, i, false, id);
  }

  /** An OPEN message went out for the channel. */
  predicate Initiates(a: Agent, id: Id)
  {
    At(a, id).channel.Some? && At(a, id).channel.value.opens > 0
  }

  /** Exactly-once opening. Whether a channel was added before or after the association came up, it is
      opened once it is up, once only, and then a non-negotiated channel of the id's owner has sent
      exactly one OPEN; every other channel sends none. */
  lemma OpenedExactlyOnce(states: seq<World>, steps: seq<Step>, i: nat, left: bool, id: Id)
    requires IsRun(states, steps) && i < |states| && At(Mine(states[i], left), id).channel.Some?
    ensures var me := Mine(states[i], left);
            var ch := At(me, id).channel.value;
            && ch.visits == (if me.established then 1 else 0)
            && ch.opens == (if !ch.negotiated && Owns(me.isClient, id) then ch.visits else 0)
  {
    hide IsRun;
    PairInRun(false, states, steps, i, left, id);
  }

  /** An assertion fails at most at the owner of an id that the other end has negotiated. */
  lemma AbortsOnlyForNegotiated(states: seq<World>, steps: seq<Step>, i: nat, left: bool, id: Id)
    requires IsRun(states, steps) && i < |states| && id != 65535
    ensures At(Mine(states[i], left), id).aborted ==>
      Owns(Mine(states[i], left).isClient, id) && Negotiated(At(Mine(states[i], !left), id))
  {
    hide IsRun;
    PairInRun(false, states, steps, i, left, id);
  }

  lemma {:induction false} OpenAllKeepsTerms(a: Agent, order: seq<Id>, id: Id)
    ensures KeepsTerms(At(a, id), At(OpenAll(a, order), id))
    decreases |order|
  {
    hide OnNewDatachannel;
    if order != [] && At(a, order[0]).channel.Some? {
      var next := Apply(a, order[0], OnNewDatachannel(a.isClient, order[0], At(a, order[0])));
      TermsStay(a.isClient, true, order[0], At(a, order[0]));
      OpenAllKeepsTerms(next, order[1..], id);
    }
  }

  lemma ActKeepsTerms(me: Agent, you: Agent, e: Event, id: Id)
    requires Enabled(me, you, e)
    ensures KeepsTerms(At(me, id), At(Act(me, you, e).0, id))
    ensures KeepsTerms(At(you, id), At(Act(me, you, e).1, id))
  {
    hide Receive, RunTask, OnNewDatachannel, Send, BothLimits;
    TermsStay(me.isClient, me.established, id, At(me, id));
    if e.Established? { OpenAllKeepsTerms(me.(established := true), e.order, id); }
    if e.Deliver? && e.id == id {
      assert KeepsTerms(At(me, id), Receive(me.isClient, id, At(me, id), At(you, id).out[e.i]).slot);
    }
    if e.AppSend? && e.id == id { assert KeepsTerms(At(me, id), Send(id, At(me, id), e.payload).slot); }
  }

  /** A session never rebinds an id: the channel bound to it keeps its parameters for ever. */
  lemma {:induction false} NeverRebound(states: seq<World>, steps: seq<Step>, i: nat, j: nat, left: bool, id: Id)
    requires IsRun(states, steps) && i <= j < |states|
    ensures KeepsTerms(At(Mine(states[i], left), id), At(Mine(states[j], left), id))
  {
    hide Enabled, Act;
    if i < j {
      NeverRebound(states, steps, i, j - 1, left, id);
      var w, step := states[j - 1], steps[j - 1];
      assert states[j] == Next(w, step);
      if step.byLeft { ActKeepsTerms(w.left, w.right, step.event, id); }
      else { ActKeepsTerms(w.right, w.left, step.event, id); }
    }
  }

  /** The channel on an id is one that neither end negotiated and that its owner wants ordered. */
  ghost predicate OrderedOn(w: World, id: Id)
  {
    && (Owns(w.left.isClient, id) ==> Eligible(At(w.left, id), At(w.right, id)))
    && (Owns(w.right.isClient, id) ==> Eligible(At(w.right, id), At(w.left, id)))
  }

  ghost predicate ReliableOn(w: World, id: Id)
  {
    (Owns(w.left.isClient, id) ==> Lossless(At(w.left, id))) && (Owns(w.right.isClient, id) ==> Lossless(At(w.right, id)))
  }

  /** In every run in which the applications send only on channels they have seen open, whatever is lost
      on the way: no data ever arrives on an ordered channel before it is established. */
  lemma NothingDropped(states: seq<World>, steps: seq<Step>, i: nat, left: bool, id: Id)
    requires IsRun(states, steps) && IsDisciplined(states, steps) && i < |states| && id != 65535
    requires OrderedOn(states[i], id)
    ensures At(Mine(states[i], left), id).dropped == 0
  {
    hide IsRun, Agreement, Phases, Conserved, Eligible;
    PairInRun(true, states, steps, i, left, id);
  }

  /** No data lost. In every such run, if the owner wants the channel reliable, too: in both directions the
      non-empty payloads sent are those received, scheduled at the receiver, in flight and scheduled at the
      sender, in this order. */
  lemma NoDataLost(states: seq<World>, steps: seq<Step>, i: nat, left: bool, id: Id)
    requires IsRun(states, steps) && IsDisciplined(states, steps) && i < |states| && id != 65535
    requires OrderedOn(states[i], id) && ReliableOn(states[i], id)
    ensures Delivers(EndOf(Mine(states[i], left), id), EndOf(Mine(states[i], !left), id))
  {
    hide IsRun, Agreement, Phases, Delivers, Eligible, Lossless;
    PairInRun(true, states, steps, i, left, id);
  }
}
