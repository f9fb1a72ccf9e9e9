/** The handshake never gets stuck, on any kind of channel: no OPEN or ACK goes missing, and whoever is open
    has told its application or is about to. */
module DataChannelHandshake {
  import opened Collections
  import opened OpenMessage
  import opened DataChannelSlot
  import opened DataChannelAgreement
  import opened DataChannelFlow
  import opened DataChannelWorld
  import opened DataChannelMoves

  // ----- What every move keeps -----

  predicate HasControl(out: seq<Message>)
  {
    exists i :: 0 <= i < |out| && out[i].Control?
  }

  /** x owns the id. What it has offered is under way or known at the other end, and what the other end has
      accepted is acknowledged, or the ACK is under way. */
  predicate Handshake(x: Slot, y: Slot)
  {
    && (Initiated(x) ==> HasControl(x.out) || Offered(x, y))
    && (IsOpen(y) && !Negotiated(y) ==> IsOpen(x) || HasControl(y.out))
  }

  lemma ControlAppended(out: seq<Message>, m: Message)
    ensures HasControl(out + [m]) <==> HasControl(out) || m.Control?
  {
    var longer := out + [m];
    if HasControl(out) {
      var i :| 0 <= i < |out| && out[i].Control?;
      assert longer[i].Control?;
    }
    if m.Control? { assert longer[|out|].Control?; }
  }

  lemma ControlLeft(out: seq<Message>, i: nat)
    requires i < |out| && out[i].Data?
    ensures HasControl(Without(out, i)) <==> HasControl(out)
  {
    var rest := Without(out, i);
    if HasControl(out) {
      var j :| 0 <= j < |out| && out[j].Control?;
      assert rest[if j < i then j else j - 1] == out[j];
    }
    if HasControl(rest) {
      var j :| 0 <= j < |rest| && rest[j].Control?;
      assert rest[j] == out[if j < i then j else j + 1];
    }
  }

  // ----- The owner moves -----

  lemma OwnerOpens(role: bool, id: Id, x: Slot, y: Slot)
    requires Agreement(x, y) && Owns(role, id) && Handshake(x, y) && x.channel.Some? && !Visited(x)
    ensures Handshake(OnNewDatachannel(role, id, x).slot, y)
  {
    hide OpenBytes, OnTheWire, HasControl, ControlInFlight, Early, ResponderSound;
    ControlAppended(x.out, Control(OpenBytes(x.channel.value.params)));
  }

  lemma OwnerAdds(role: bool, established: bool, id: Id, x: Slot, y: Slot, params: Params, negotiated: bool)
    requires Agreement(x, y) && Owns(role, id) && Handshake(x, y) && !BothLimits(params)
    ensures Handshake(AddDataChannel(role, established, id, x, params, negotiated).slot, y)
  {
    hide BothLimits, OnNewDatachannel, HasControl, Agreement, Offered;
    if x.channel.None? {
      UnboundHasNoRecord(x, y);
      InitiatorBinds(x, y, params, negotiated);
      if established { OwnerOpens(role, id, x.(channel := Some(NewChannel(params, negotiated))), y); }
    }
  }

  lemma OwnerTakes(role: bool, id: Id, x: Slot, y: Slot, i: nat)
    requires Agreement(x, y) && Owns(role, id) && Handshake(x, y) && i < |y.out|
    ensures Handshake(Receive(role, id, x, y.out[i]).slot, y.(out := Without(y.out, i)))
  {
    hide OpenBytes, OnTheWire, DecodeControl, HasControl, Without, ResponderSound;
    assert y.out[i] in y.out;
    if y.out[i].Control? {
      AckDecodes();
    } else {
      ControlLeft(y.out, i);
    }
  }

  lemma OwnerRuns(role: bool, established: bool, x: Slot, y: Slot, task: Task)
    requires Agreement(x, y) && Handshake(x, y) && IsLocalTask(task)
    ensures Handshake(RunTask(role, established, x, task).slot, y)
  {
    hide OpenBytes, OnTheWire, HasControl, Agreement;
    var x' := RunTask(role, established, x, task).slot;
    if x'.out != x.out { ControlAppended(x.out, x'.out[|x.out|]); }
  }

  lemma OwnerMoves(role: bool, id: Id, move: Move, x: End, y: End)
    requires Agreement(x.slot, y.slot) && Owns(role, id) && Possible(id, move, x, y) && Handshake(x.slot, y.slot)
    ensures Handshake(MyMove(role, id, move, x, y).slot, YourMove(id, move, x, y).slot)
  {
    hide Agreement, BothLimits, AddDataChannel, OnNewDatachannel, Receive, HasControl, Without;
    match move
    case Running(established) =>
      if x.tasks[0].AddChannel? {
        OwnerAdds(role, established, x.tasks[0].id, x.slot, y.slot, x.tasks[0].params, x.tasks[0].negotiated);
      } else {
        hide RunTask;
        OwnerRuns(role, established, x.slot, y.slot, x.tasks[0]);
      }
    case Opening => OwnerOpens(role, id, x.slot, y.slot);
    case Taking(i) => OwnerTakes(role, id, x.slot, y.slot, i);
    case Losing(i) => ControlLeft(y.slot.out, i);
    case _ =>
  }

  // ----- The other end moves -----

  lemma OtherOpens(role: bool, id: Id, x: Slot, y: Slot)
    requires Agreement(x, y) && Owns(role, id) && Handshake(x, y) && y.channel.Some? && !Visited(y)
    ensures Handshake(x, OnNewDatachannel(!role, id, y).slot)
  {
    hide OpenBytes, OnTheWire, HasControl, ControlInFlight, Early;
    ControlAppended(y.out, Control(AckBytes()));
  }

  lemma OtherAdds(role: bool, established: bool, id: Id, x: Slot, y: Slot, params: Params, negotiated: bool)
    requires Agreement(x, y) && Owns(role, id) && Handshake(x, y) && !BothLimits(params)
    ensures Handshake(x, AddDataChannel(!role, established, id, y, params, negotiated).slot)
  {
    hide BothLimits, OnNewDatachannel, HasControl, Agreement;
    if y.channel.None? {
      ResponderBinds(x, y, params, negotiated);
      NotOpenUnbound(x, y);
      if established { OtherOpens(role, id, x, y.(channel := Some(NewChannel(params, negotiated)))); }
    }
  }

  lemma NotOpenUnbound(x: Slot, y: Slot)
    requires Agreement(x, y) && y.channel.None?
    ensures !IsOpen(y)
  {
  }

  lemma OtherTakes(role: bool, id: Id, x: Slot, y: Slot, i: nat)
    requires Agreement(x, y) && Owns(role, id) && Handshake(x, y) && i < |x.out|
    ensures Handshake(x.(out := Without(x.out, i)), Receive(!role, id, y, x.out[i]).slot)
  {
    hide OpenBytes, DecodeControl, HasControl, Without, OnTheWire;
    assert x.out[i] in x.out;
    if x.out[i].Control? {
      DecodedOpen(x.channel.value.params);
    } else {
      ControlLeft(x.out, i);
    }
  }

  lemma OtherRuns(role: bool, established: bool, x: Slot, y: Slot, task: Task)
    requires Agreement(x, y) && Handshake(x, y) && IsLocalTask(task)
    ensures Handshake(x, RunTask(role, established, y, task).slot)
  {
    hide OpenBytes, OnTheWire, HasControl, Agreement;
    var y' := RunTask(role, established, y, task).slot;
    if y'.out != y.out { ControlAppended(y.out, y'.out[|y.out|]); }
  }

  lemma OtherMoves(role: bool, id: Id, move: Move, x: End, y: End)
    requires Agreement(x.slot, y.slot) && Owns(role, id) && Possible(id, move, y, x) && Handshake(x.slot, y.slot)
    ensures Handshake(YourMove(id, move, y, x).slot, MyMove(!role, id, move, y, x).slot)
  {
    hide Agreement, BothLimits, AddDataChannel, OnNewDatachannel, Receive, HasControl, Without;
    match move
    case Running(established) =>
      if y.tasks[0].AddChannel? {
        OtherAdds(role, established, y.tasks[0].id, x.slot, y.slot, y.tasks[0].params, y.tasks[0].negotiated);
      } else {
        hide RunTask;
        OtherRuns(!role, established, x.slot, y.slot, y.tasks[0]);
      }
    case Opening => OtherOpens(role, id, x.slot, y.slot);
    case Taking(i) => OtherTakes(role, id, x.slot, y.slot, i);
    case Losing(i) => ControlLeft(x.slot.out, i);
    case _ =>
  }

  // ----- The applications are told -----

  /** The application has been told exactly that its channel is open, or is about to be. */
  predicate Told(e: End)
  {
    && (e.slot.channel.Some? ==> (IsOpen(e.slot) <==> e.slot.channel.value.ready == Opened || ReadyComes(e.tasks)))
    && (e.slot.channel.None? ==> !ReadyComes(e.tasks))
  }

  /** Exactly an end that can send has a source element attached. */
  predicate Sourced(s: Slot)
  {
    (s.record.Some? && s.record.value.hasSource) <==> Installed(s)
  }

  lemma OpeningSources(role: bool, id: Id, s: Slot)
    requires s.channel.Some? && Sourced(s)
    ensures Sourced(OnNewDatachannel(role, id, s).slot)
  {
    hide OpenBytes, BothLimits, ValidStreamId;
  }

  lemma TaskSources(role: bool, established: bool, s: Slot, task: Task)
    requires Sourced(s)
    ensures Sourced(RunTask(role, established, s, task).slot)
  {
    hide OnNewDatachannel;
    if task.AddChannel? && s.channel.None? && established {
      OpeningSources(role, task.id, s.(channel := Some(NewChannel(task.params, task.negotiated))));
    }
  }

  lemma TakingSources(role: bool, id: Id, s: Slot, m: Message)
    requires Sourced(s) && Fit(role, id, s)
    ensures Sourced(Receive(role, id, s, m).slot)
  {
    hide DecodeControl, ValidStreamId;
  }

  lemma MoveSources(role: bool, id: Id, move: Move, me: End, you: End)
    requires Possible(id, move, me, you) && Sourced(me.slot) && Fit(role, id, me.slot)
    ensures Sourced(MyMove(role, id, move, me, you).slot)
  {
    hide RunTask, OnNewDatachannel, Receive, Fit;
    match move
    case Running(established) => TaskSources(role, established, me.slot, me.tasks[0]);
    case Opening => OpeningSources(role, id, me.slot);
    case Taking(i) => TakingSources(role, id, me.slot, you.slot.out[i]);
    case _ =>
  }

  predicate ReadyComes(tasks: seq<Task>)
  {
    exists i :: 0 <= i < |tasks| && tasks[i].SetReady?
  }

  lemma ReadyConcat(tasks: seq<Task>, more: seq<Task>)
    ensures ReadyComes(tasks + more) <==> ReadyComes(tasks) || ReadyComes(more)
  {
    if ReadyComes(tasks) {
      var i :| 0 <= i < |tasks| && tasks[i].SetReady?;
      assert (tasks + more)[i].SetReady?;
    }
    if ReadyComes(more) {
      var i :| 0 <= i < |more| && more[i].SetReady?;
      assert (tasks + more)[|tasks| + i].SetReady?;
    }
  }

  lemma ReadyHead(tasks: seq<Task>)
    requires tasks != []
    ensures ReadyComes(tasks) <==> tasks[0].SetReady? || ReadyComes(tasks[1..])
  {
    ReadyConcat([tasks[0]], tasks[1..]);
    assert tasks == [tasks[0]] + tasks[1..];
    assert [tasks[0]][0] == tasks[0];
  }

  /** Whoever opens schedules it. */
  lemma OpeningTells(role: bool, id: Id, s: Slot)
    requires s.channel.Some?
    ensures var effect := OnNewDatachannel(role, id, s);
      && (IsOpen(effect.slot) <==> IsOpen(s) || ReadyComes(effect.tasks))
      && effect.slot.channel.Some? && effect.slot.channel.value.ready == s.channel.value.ready
  {
    hide OpenBytes, BothLimits, ValidStreamId;
    assert [SetReady(id)][0].SetReady?;
  }

  lemma TakingTells(role: bool, id: Id, s: Slot, m: Message)
    requires Fit(role, id, s)
    ensures var effect := Receive(role, id, s, m);
      && (IsOpen(effect.slot) <==> IsOpen(s) || ReadyComes(effect.tasks)) && effect.slot.channel == s.channel
      && (s.channel.None? ==> !ReadyComes(effect.tasks))
  {
    hide DecodeControl, ValidStreamId;
    assert [SetReady(id)][0].SetReady?;
  }

  lemma AddingTells(role: bool, established: bool, id: Id, s: Slot, params: Params, negotiated: bool)
    requires IsOpen(s) ==> s.channel.Some?
    ensures var effect := AddDataChannel(role, established, id, s, params, negotiated);
      && (IsOpen(effect.slot) <==> IsOpen(s) || ReadyComes(effect.tasks))
      && (s.channel.Some? ==> effect.slot.channel == s.channel)
      && (s.channel.None? ==> effect.slot.channel.Some? && effect.slot.channel.value.ready == Connecting)
  {
    hide OnNewDatachannel;
    if s.channel.None? { OpeningTells(role, id, s.(channel := Some(NewChannel(params, negotiated)))); }
  }

  lemma RunningTells(role: bool, established: bool, e: End)
    requires e.tasks != [] && Told(e) && (IsOpen(e.slot) ==> e.slot.channel.Some?)
    ensures Told(After(Popped(e), RunTask(role, established, e.slot, e.tasks[0])))
  {
    hide AddDataChannel, OnDatachannelSend;
    var task := e.tasks[0];
    var effect := RunTask(role, established, e.slot, task);
    ReadyHead(e.tasks);
    ReadyConcat(e.tasks[1..], effect.tasks);
    if task.AddChannel? { AddingTells(role, established, task.id, e.slot, task.params, task.negotiated); }
    if task.SendData? { SendingKeepsState(e.slot, task.payload); }
  }

  lemma SendingKeepsState(s: Slot, payload: Payload)
    ensures var sent := OnDatachannelSend(s, payload); sent == s.(out := sent.out, aborted := sent.aborted)
  {
  }

  lemma MoveTells(role: bool, id: Id, move: Move, me: End, you: End)
    requires Possible(id, move, me, you) && Told(me) && Fit(role, id, me.slot)
    ensures Told(MyMove(role, id, move, me, you))
  {
    hide RunTask, OnNewDatachannel, Receive;
    match move
    case Idling =>
    case Queuing(task) => ReadyConcat(me.tasks, [task]);
    case Sending(payload) => ReadyConcat(me.tasks, Send(id, me.slot, payload).tasks);
    case Running(established) => RunningTells(role, established, me);
    case Opening =>
      OpeningTells(role, id, me.slot);
      ReadyConcat(me.tasks, OnNewDatachannel(role, id, me.slot).tasks);
    case Taking(i) =>
      TakingTells(role, id, me.slot, you.slot.out[i]);
      ReadyConcat(me.tasks, Receive(role, id, me.slot, you.slot.out[i]).tasks);
    case Losing(_) =>
  }

  // ----- Over every run -----

  ghost predicate Progress(left: bool, w: World, id: Id)
  {
    && Told(EndOf(Mine(w, left), id)) && Told(EndOf(Mine(w, !left), id))
    && Sourced(EndOf(Mine(w, left), id).slot) && Sourced(EndOf(Mine(w, !left), id).slot)
    && (Owns(Mine(w, left).isClient, id) ==> Handshake(EndOf(Mine(w, left), id).slot, EndOf(Mine(w, !left), id).slot))
    && (Owns(Mine(w, !left).isClient, id) ==> Handshake(EndOf(Mine(w, !left), id).slot, EndOf(Mine(w, left), id).slot))
  }

  lemma ProgressSwaps(left: bool, w: World, id: Id)
    ensures Progress(left, w, id) <==> Progress(!left, w, id)
  {
  }

  lemma YourMoveTells(id: Id, move: Move, me: End, you: End)
    requires Possible(id, move, me, you) && Told(you)
    ensures Told(YourMove(id, move, me, you))
  {
  }

  lemma StepKeepsProgress(w: World, step: Step, id: Id)
    requires Inv(false, w.left, w.right) && CanStep(w, step) && id != 65535 && Progress(step.byLeft, w, id)
    ensures Progress(step.byLeft, Next(w, step), id)
  {
    var me, you := Mine(w, step.byLeft), Mine(w, !step.byLeft);
    var move := MoveOf(me, step.event, id);
    hide EndOf, Act, Enabled, MoveOf, Pair, Counted, ValidAdds, Possible, Told, Handshake;
    if !step.byLeft { InvSwaps(false, w.left, w.right); }
    EventMoves(me, you, step.event, id);
    var x, y := EndOf(me, id), EndOf(you, id);
    PairIsFit(me.isClient, id, x, y);
    MoveTells(me.isClient, id, move, x, y);
    MoveSources(me.isClient, id, move, x, y);
    YourMoveTells(id, move, x, y);
    RolesStay(w, step);
    if Owns(me.isClient, id) { OwnerMoves(me.isClient, id, move, x, y); }
    if Owns(you.isClient, id) { OtherMoves(you.isClient, id, move, y, x); }
  }

  lemma {:induction false} ProgressInRun(states: seq<World>, steps: seq<Step>, i: nat, left: bool, id: Id)
    requires IsRun(states, steps) && i < |states| && id != 65535
    ensures Progress(left, states[i], id)
  {
    hide Inv, CanStep, Next, Progress;
    if i == 0 {
      StartProgresses(states[0], left, id);
    } else {
      var side := steps[i - 1].byLeft;
      ProgressInRun(states, steps, i - 1, side, id);
      RunsKeepInv(false, states, steps, i - 1);
      StepKeepsProgress(states[i - 1], steps[i - 1], id);
      ProgressSwaps(side, states[i], id);
    }
  }

  lemma StartProgresses(w: World, left: bool, id: Id)
    requires w.left == NewAgent(w.left.isClient) && w.right == NewAgent(!w.left.isClient)
    ensures Progress(left, w, id)
  {
  }

  /** In every run, whatever is lost or overtaken: once no OPEN or ACK of an id is in flight, what its owner has
      opened has been offered to the other end, and a channel that the other end has accepted is open at both ends; and and an
      application is told exactly that its channel is open, and exactly an end that can send has a source. */
  lemma HandshakeCompletes(states: seq<World>, steps: seq<Step>, i: nat, left: bool, id: Id)
    requires IsRun(states, steps) && i < |states| && Owns(Mine(states[i], left).isClient, id)
    ensures var x, y := EndOf(Mine(states[i], left), id), EndOf(Mine(states[i], !left), id);
      && (Initiated(x.slot) && !HasControl(x.slot.out) ==> Offered(x.slot, y.slot))
      && (IsOpen(y.slot) && !Negotiated(y.slot) && !HasControl(y.slot.out) ==> IsOpen(x.slot))
      && Told(x) && Told(y) && Sourced(x.slot) && Sourced(y.slot)
  {
    hide IsRun, Told, Sourced, EndOf;
    ProgressInRun(states, steps, i, left, id);
  }

  /** The other end's application accepts an offer exactly by adding the channel that was offered, and then one
      ACK goes out. */
  lemma AcceptsIff(role: bool, id: Id, s: Slot, params: Params, negotiated: bool)
    requires s.channel.None? && s.record.Some? && !IsOpen(s)
    ensures var effect := AddDataChannel(role, true, id, s, params, negotiated);
      && (IsOpen(effect.slot) <==> params == s.record.value.params && negotiated == s.record.value.negotiated)
      && (IsOpen(effect.slot) ==> effect.slot.out == s.out + [Control(AckBytes())] && effect.slot.channel.value.hasCallbacks)
      && (!IsOpen(effect.slot) ==> effect.slot.out == s.out && effect.slot.record == s.record && effect.tasks == [])
  {
  }
}
