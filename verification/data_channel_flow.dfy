/** The data of a channel opened with OPEN and ACK. If it is ordered, none arrives before the channel is
    established; if it is reliable as well, then at every moment what one application sent is what the
    other received, plus what is scheduled at either end, plus what is in flight. */
module DataChannelFlow {
  import opened Collections
  import opened OpenMessage
  import opened DataChannelSlot
  import opened DataChannelAgreement

  /** One end of a stream id: its slot and its own tasks of the main loop, in order. */
  datatype End = End(slot: Slot, tasks: seq<Task>)

  function After(e: End, effect: Effect): End
  {
    End(effect.slot, e.tasks + effect.tasks)
  }

  function NonEmpty(s: seq<Payload>): seq<Payload>
  {
    if s == [] then []
    else if s[0].data == [] then NonEmpty(s[1..])
    else [s[0]] + NonEmpty(s[1..])
  }

  function DataOf(out: seq<Message>): seq<Payload>
  {
    if out == [] then []
    else if out[0].Data? then [out[0].payload] + DataOf(out[1..])
    else DataOf(out[1..])
  }

  function Emits(tasks: seq<Task>): seq<Payload>
  {
    if tasks == [] then []
    else if tasks[0].EmitData? then [tasks[0].payload] + Emits(tasks[1..])
    else Emits(tasks[1..])
  }

  function Sends(tasks: seq<Task>): seq<Payload>
  {
    if tasks == [] then []
    else if tasks[0].SendData? && tasks[0].payload.data != [] then [tasks[0].payload] + Sends(tasks[1..])
    else Sends(tasks[1..])
  }

  function SentBy(s: Slot): seq<Payload>
  {
    if s.channel.Some? then s.channel.value.sent else []
  }

  function ReceivedBy(s: Slot): seq<Payload>
  {
    if s.channel.Some? then s.channel.value.received else []
  }

  /** Conservation in one direction. An empty payload is refused by the sending end. */
  ghost predicate Delivers(x: End, y: End)
  {
    NonEmpty(SentBy(x.slot)) == ReceivedBy(y.slot) + Emits(y.tasks) + DataOf(x.slot.out) + Sends(x.tasks)
  }

  predicate Reliable(p: Params)
  {
    p.maxPacketLifeTime == -1 && p.maxRetransmits == -1
  }

  /** The channel of the owner of an id is reliable. */
  ghost predicate Lossless(x: Slot)
  {
    x.channel.Some? ==> Reliable(x.channel.value.params)
  }

  /** The channels in question: not negotiated at either end, and ordered by the owner x. */
  ghost predicate Eligible(x: Slot, y: Slot)
  {
    && (x.channel.Some? ==> !x.channel.value.negotiated && x.channel.value.params.ordered)
    && (y.channel.Some? ==> !y.channel.value.negotiated)
  }

  ghost predicate Prompting(task: Task)
  {
    task.SetReady? || task.SendData? || task.EmitData?
  }

  /** Whoever has seen the channel open, or has data scheduled, has an open record. */
  ghost predicate Prompt(e: End)
  {
    && (e.slot.channel.Some? && e.slot.channel.value.ready == Opened ==> IsOpen(e.slot))
    && (forall t :: t in e.tasks && Prompting(t) ==> IsOpen(e.slot))
  }

  ghost predicate OnlyData(out: seq<Message>)
  {
    forall m :: m in out ==> m.Data?
  }

  ghost predicate InOrder(out: seq<Message>)
  {
    forall m :: m in out && m.Data? ==> m.ordered
  }

  ghost predicate AllReliable(out: seq<Message>)
  {
    forall m :: m in out && m.Data? ==> m.reliable
  }

  /** What can be in flight in each phase of the handshake. */
  ghost predicate Phases(x: Slot, y: Slot)
  {
    && InOrder(x.out) && InOrder(y.out)
    && (x.record.None? ==> x.out == [])
    && (y.record.Some? ==> Offered(x, y) && OnlyData(x.out))
    && (x.record.Some? && y.record.None? ==> x.channel.Some? && x.out == [Control(OpenBytes(x.channel.value.params))])
    && (y.record.Some? && !IsOpen(x) ==> x.out == [])
    && (!IsOpen(y) ==> y.out == [])
    && (IsOpen(y) && !IsOpen(x) ==> y.out != [] && y.out[0] == Control(AckBytes()) && OnlyData(y.out[1..]))
    && (IsOpen(x) ==> OnlyData(y.out))
  }

  ghost predicate Conserved(x: End, y: End)
  {
    AllReliable(x.slot.out) && AllReliable(y.slot.out) && Delivers(x, y) && Delivers(y, x)
  }

  /** x owns the id. */
  ghost predicate Flow(x: End, y: End)
  {
    && Phases(x.slot, y.slot)
    && Prompt(x) && Prompt(y)
    && x.slot.dropped == 0 && y.slot.dropped == 0
    && (Lossless(x.slot) ==> Conserved(x, y))
  }

  lemma FlowInitially()
    ensures Flow(End(EMPTY, []), End(EMPTY, []))
  {
  }

  // ----- Appending -----

  lemma {:induction false} NonEmptyAppend(s: seq<Payload>, p: Payload)
    ensures NonEmpty(s + [p]) == NonEmpty(s) + (if p.data == [] then [] else [p])
  {
    if s == [] {
      assert [p][1..] == [];
    } else {
      NonEmptyAppend(s[1..], p);
      assert (s + [p])[1..] == s[1..] + [p];
    }
  }

  lemma {:induction false} DataOfAppend(out: seq<Message>, m: Message)
    ensures DataOf(out + [m]) == DataOf(out) + (if m.Data? then [m.payload] else [])
  {
    if out == [] {
      assert [m][1..] == [];
    } else {
      DataOfAppend(out[1..], m);
      assert (out + [m])[1..] == out[1..] + [m];
    }
  }

  lemma {:induction false} EmitsAppend(tasks: seq<Task>, t: Task)
    ensures Emits(tasks + [t]) == Emits(tasks) + (if t.EmitData? then [t.payload] else [])
  {
    if tasks == [] {
      assert [t][1..] == [];
    } else {
      EmitsAppend(tasks[1..], t);
      assert (tasks + [t])[1..] == tasks[1..] + [t];
    }
  }

  lemma {:induction false} SendsAppend(tasks: seq<Task>, t: Task)
    ensures Sends(tasks + [t]) == Sends(tasks) + (if t.SendData? && t.payload.data != [] then [t.payload] else [])
  {
    if tasks == [] {
      assert [t][1..] == [];
    } else {
      SendsAppend(tasks[1..], t);
      assert (tasks + [t])[1..] == tasks[1..] + [t];
    }
  }

  lemma TasksAppend(tasks: seq<Task>, t: Task)
    ensures Emits(tasks + [t]) == Emits(tasks) + (if t.EmitData? then [t.payload] else [])
    ensures Sends(tasks + [t]) == Sends(tasks) + (if t.SendData? && t.payload.data != [] then [t.payload] else [])
  {
    hide Emits, Sends;
    EmitsAppend(tasks, t);
    SendsAppend(tasks, t);
  }

  lemma EffectTasks(e: End, effect: Effect)
    requires |effect.tasks| <= 1
    ensures effect.tasks == [] ==> After(e, effect).tasks == e.tasks
    ensures effect.tasks != [] ==>
      Emits(After(e, effect).tasks) == Emits(e.tasks) + (if effect.tasks[0].EmitData? then [effect.tasks[0].payload] else [])
    ensures effect.tasks != [] ==>
      Sends(After(e, effect).tasks) == Sends(e.tasks)
        + (if effect.tasks[0].SendData? && effect.tasks[0].payload.data != [] then [effect.tasks[0].payload] else [])
  {
    if effect.tasks != [] {
      TasksAppend(e.tasks, effect.tasks[0]);
      assert effect.tasks == [effect.tasks[0]];
    } else {
      assert e.tasks + [] == e.tasks;
    }
  }

  /** Without unordered data only the head of a stream is deliverable. */
  lemma HeadOnly(out: seq<Message>, i: nat)
    requires InOrder(out) && Deliverable(out, i)
    ensures i == 0 && Without(out, 0) == out[1..]
  {
    assert out[i] in out;
    assert |out| > 0 && out[0] in out;
  }

  // ----- The phases -----

  /** The slot changed in its record and pad only, and the record in its state only. */
  predicate OnlyState(s: Slot, s': Slot, state: State)
  {
    && s.record.Some? && s'.record.Some?
    && s'.record.value.params == s.record.value.params && s'.record.value.negotiated == s.record.value.negotiated
    && s'.record.value.state == state
    && s' == s.(record := s'.record, hasPad := s'.hasPad)
  }

  lemma InitiatorReceiveEffect(xc: bool, id: Id, x: Slot, y: Slot)
    requires Agreement(x, y) && Phases(x, y) && Eligible(x, y) && Owns(xc, id) && y.out != []
    ensures var effect, m := Receive(xc, id, x, y.out[0]), y.out[0];
            && IsOpen(y) && OnlyState(x, effect.slot, Opened)
            && (m.Control? ==> effect.tasks == [SetReady(id)] && !IsOpen(x))
            && (m.Data? ==> effect.tasks == [EmitData(id, m.payload)] && IsOpen(x))
  {
    hide OpenBytes, DecodeControl, OnTheWire;
    AckDecodes();
    assert y.out[0] in y.out;
  }

  lemma InitiatorPhases(x: Slot, y: Slot, x': Slot)
    requires Agreement(x, y) && Phases(x, y) && y.out != [] && IsOpen(y) && OnlyState(x, x', Opened)
    ensures Phases(x', y.(out := y.out[1..]))
  {
    hide OpenBytes, OnTheWire, Agreement;
    var rest := y.out[1..];
    assert forall m :: m in rest ==> m in y.out;
  }

  lemma ResponderReceiveEffect(xc: bool, id: Id, x: Slot, y: Slot)
    requires Agreement(x, y) && Phases(x, y) && Eligible(x, y) && Owns(xc, id) && x.out != []
    ensures var effect, m := Receive(!xc, id, y, x.out[0]), x.out[0];
            && x.record.Some? && x.channel.Some?
            && effect.slot == y.(record := effect.slot.record, hasPad := effect.slot.hasPad)
            && Offered(x, effect.slot)
            && (m.Control? ==> effect.tasks == [RequestChannel(id, OnTheWire(x.channel.value.params))] && y.record.None?
                               && !IsOpen(effect.slot) && x.out == [m] && !IsOpen(x))
            && (m.Data? ==> effect.tasks == [EmitData(id, m.payload)] && IsOpen(y) && IsOpen(effect.slot) && OnlyData(x.out))
  {
    hide OpenBytes, DecodeControl, OnTheWire;
    assert x.out[0] in x.out;
    if x.out[0].Control? { DecodedOpen(x.channel.value.params); }
  }

  lemma ResponderPhases(x: Slot, y: Slot, y': Slot)
    requires Agreement(x, y) && Phases(x, y) && x.out != [] && x.record.Some?
    requires y' == y.(record := y'.record, hasPad := y'.hasPad) && Offered(x, y')
    requires (y.record.None? && !IsOpen(y') && !IsOpen(x)) || (IsOpen(y) && IsOpen(y') && IsOpen(x))
    ensures Phases(x.(out := x.out[1..]), y')
  {
    hide OpenBytes, OnTheWire, Agreement;
    var rest := x.out[1..];
    assert forall m :: m in rest ==> m in x.out;
  }

  // ----- The head of a stream becomes a task -----

  lemma DeliverMovesHead(x: End, y: End, y': End)
    requires Delivers(x, y) && x.slot.out != []
    requires ReceivedBy(y'.slot) == ReceivedBy(y.slot)
    requires Emits(y'.tasks) == Emits(y.tasks) + (if x.slot.out[0].Data? then [x.slot.out[0].payload] else [])
    ensures Delivers(x.(slot := x.slot.(out := x.slot.out[1..])), y')
  {
  }

  lemma InitiatorReceivesFlow(xc: bool, id: Id, x: End, y: End, i: nat)
    requires Agreement(x.slot, y.slot) && Flow(x, y) && Owns(xc, id) && Eligible(x.slot, y.slot)
    requires Deliverable(y.slot.out, i)
    ensures Flow(After(x, Receive(xc, id, x.slot, y.slot.out[i])), y.(slot := y.slot.(out := Without(y.slot.out, i))))
  {
    hide Receive, Agreement, Phases, Offered, NonEmpty, Emits, Sends, DataOf, OpenBytes, OnTheWire, Eligible;
    SoundPads(x.slot, y.slot);
    HeadOfStream(x.slot, y.slot, i);
    InitiatorReceiveEffect(xc, id, x.slot, y.slot);
    var effect := Receive(xc, id, x.slot, y.slot.out[0]);
    var x', y' := After(x, effect), y.(slot := y.slot.(out := y.slot.out[1..]));
    InitiatorPhases(x.slot, y.slot, effect.slot);
    if Lossless(x.slot) {
      EffectTasks(x, effect);
      DeliverMovesHead(y, x, x');
      assert Delivers(x', y');
      TailIsReliable(y.slot.out);
    }
    StillPrompt(x, effect, y.slot.out[0]);
  }

  /** What a delivery schedules at an open end is prompt. */
  lemma StillPrompt(e: End, effect: Effect, m: Message)
    requires Prompt(e) && |effect.tasks| <= 1
    requires effect.slot == e.slot.(record := effect.slot.record, hasPad := effect.slot.hasPad)
    requires IsOpen(e.slot) || (effect.tasks != [] && Prompting(effect.tasks[0])) ==> IsOpen(effect.slot)
    ensures Prompt(After(e, effect))
  {
  }

  lemma TailIsReliable(out: seq<Message>)
    requires AllReliable(out) && out != []
    ensures AllReliable(out[1..])
  {
  }

  lemma ResponderReceivesFlow(xc: bool, id: Id, x: End, y: End, i: nat)
    requires Agreement(x.slot, y.slot) && Flow(x, y) && Owns(xc, id) && Eligible(x.slot, y.slot)
    requires Deliverable(x.slot.out, i)
    ensures Flow(x.(slot := x.slot.(out := Without(x.slot.out, i))), After(y, Receive(!xc, id, y.slot, x.slot.out[i])))
  {
    hide Receive, Agreement, Phases, Offered, NonEmpty, Emits, Sends, DataOf, OpenBytes, OnTheWire, Eligible;
    SoundPads(x.slot, y.slot);
    HeadOfStream(x.slot, y.slot, i);
    ResponderReceiveEffect(xc, id, x.slot, y.slot);
    var effect := Receive(!xc, id, y.slot, x.slot.out[0]);
    var x', y' := x.(slot := x.slot.(out := x.slot.out[1..])), After(y, effect);
    if x.slot.out[0].Data? { DataMeansOpen(x.slot, y.slot); }
    ResponderPhases(x.slot, y.slot, effect.slot);
    if Lossless(x.slot) {
      EffectTasks(y, effect);
      DeliverMovesHead(x, y, y');
      assert Delivers(y', x');
      TailIsReliable(x.slot.out);
    }
    StillPrompt(y, effect, x.slot.out[0]);
  }

  /** Losing an unreliable payload leaves the handshake in its phase. */
  lemma LosingKeepsPhases(x: Slot, y: Slot, i: nat)
    requires Phases(x, y)
    ensures i < |x.out| && CanBeLost(x.out[i]) ==> Phases(x.(out := Without(x.out, i)), y)
    ensures i < |y.out| && CanBeLost(y.out[i]) ==> Phases(x, y.(out := Without(y.out, i)))
  {
    hide OpenBytes, OnTheWire;
    if i < |x.out| && CanBeLost(x.out[i]) {
      assert x.out[i] in x.out;
      assert forall m :: m in Without(x.out, i) ==> m in x.out;
    }
    if i < |y.out| && CanBeLost(y.out[i]) {
      assert forall m :: m in Without(y.out, i) ==> m in y.out;
      if IsOpen(y) && !IsOpen(x) {
        assert Without(y.out, i)[1..] == Without(y.out[1..], i - 1);
      }
    }
  }

  lemma LosingKeepsFlow(x: End, y: End, i: nat)
    requires Flow(x, y)
    ensures i < |x.slot.out| && CanBeLost(x.slot.out[i]) ==> Flow(x.(slot := x.slot.(out := Without(x.slot.out, i))), y)
    ensures i < |y.slot.out| && CanBeLost(y.slot.out[i]) ==> Flow(x, y.(slot := y.slot.(out := Without(y.slot.out, i))))
  {
    hide Phases, Delivers;
    LosingKeepsPhases(x.slot, y.slot, i);
    assert i < |x.slot.out| ==> x.slot.out[i] in x.slot.out;
    assert i < |y.slot.out| ==> y.slot.out[i] in y.slot.out;
  }

  lemma HeadOfStream(x: Slot, y: Slot, i: nat)
    requires Phases(x, y)
    ensures Deliverable(x.out, i) ==> i == 0 && x.out != [] && Without(x.out, 0) == x.out[1..]
    ensures Deliverable(y.out, i) ==> i == 0 && y.out != [] && Without(y.out, 0) == y.out[1..]
  {
    if Deliverable(x.out, i) { HeadOnly(x.out, i); }
    if Deliverable(y.out, i) { HeadOnly(y.out, i); }
  }

  lemma DataMeansOpen(x: Slot, y: Slot)
    requires Phases(x, y) && x.out != [] && y.record.Some?
    ensures IsOpen(x)
  {
  }

  // ----- Opening -----

  lemma InitiatorOpensFlow(xc: bool, id: Id, x: End, y: End)
    requires Agreement(x.slot, y.slot) && Flow(x, y) && Owns(xc, id)
    requires x.slot.channel.Some? && !Visited(x.slot) && Eligible(x.slot, y.slot)
    ensures Flow(After(x, OnNewDatachannel(xc, id, x.slot)), y)
  {
    hide OpenBytes;
    var effect := OnNewDatachannel(xc, id, x.slot);
    var open := Control(OpenBytes(x.slot.channel.value.params));
    assert x.slot.record.None? && y.slot.record.None? && x.slot.out == [];
    assert effect.tasks == [] && effect.slot.out == [open] && !IsOpen(effect.slot);
    assert DataOf([open]) == [] by { assert [open][1..] == []; }
    EffectTasks(x, effect);
  }

  lemma ResponderOpenEffect(xc: bool, id: Id, x: Slot, y: Slot)
    requires Agreement(x, y) && Phases(x, y) && Owns(xc, id) && y.channel.Some? && !Visited(y) && Eligible(x, y)
    ensures y.out == [] && !IsOpen(y)
    ensures var effect := OnNewDatachannel(!xc, id, y);
            || (effect.slot == y.(channel := effect.slot.channel) && effect.tasks == [])
            || (OnlyState(y.(channel := effect.slot.channel, out := [Control(AckBytes())]), effect.slot, Opened)
                && effect.tasks == [SetReady(id)] && !IsOpen(x))
    ensures var ch := OnNewDatachannel(!xc, id, y).slot.channel;
            ch.Some? && ch.value.sent == y.channel.value.sent && ch.value.received == y.channel.value.received
            && ch.value.ready == y.channel.value.ready
  {
    hide OpenBytes, OnTheWire;
  }

  lemma ResponderOpensFlow(xc: bool, id: Id, x: End, y: End)
    requires Agreement(x.slot, y.slot) && Flow(x, y) && Owns(xc, id)
    requires y.slot.channel.Some? && !Visited(y.slot) && Eligible(x.slot, y.slot)
    ensures Flow(x, After(y, OnNewDatachannel(!xc, id, y.slot)))
  {
    hide OpenBytes, OnTheWire, OnNewDatachannel, Agreement, Eligible;
    ResponderOpenEffect(xc, id, x.slot, y.slot);
    var effect := OnNewDatachannel(!xc, id, y.slot);
    EffectTasks(y, effect);
    assert [Control(AckBytes())][1..] == [];
  }

  lemma BindFlow(x: End, y: End, params: Params, negotiated: bool)
    requires Flow(x, y)
    ensures x.slot.channel.None? && x.slot.record.None? ==>
      Flow(x.(slot := x.slot.(channel := Some(NewChannel(params, negotiated)))), y)
    ensures y.slot.channel.None? ==> Flow(x, y.(slot := y.slot.(channel := Some(NewChannel(params, negotiated)))))
  {
    hide OpenBytes, OnTheWire;
  }

  // ----- The application -----

  /** The application sends only on a channel it has seen open. */
  ghost predicate MaySend(e: End)
  {
    e.slot.channel.Some? && e.slot.channel.value.ready == Opened
  }

  lemma SendPrompts(id: Id, e: End, peer: End, payload: Payload)
    requires Prompt(e) && MaySend(e)
    ensures Prompt(After(e, Send(id, e.slot, payload)))
    ensures Delivers(e, peer) && Delivers(peer, e) ==>
      var e' := After(e, Send(id, e.slot, payload)); Delivers(e', peer) && Delivers(peer, e')
  {
    hide NonEmpty, Emits, Sends, DataOf;
    EffectTasks(e, Send(id, e.slot, payload));
    NonEmptyAppend(e.slot.channel.value.sent, payload);
  }

  lemma SendPhases(id: Id, x: Slot, y: Slot, payload: Payload)
    requires Phases(x, y)
    ensures x.channel.Some? ==> Phases(Send(id, x, payload).slot, y)
    ensures y.channel.Some? ==> Phases(x, Send(id, y, payload).slot)
  {
    hide OpenBytes, OnTheWire;
  }

  lemma SendFlow(id: Id, x: End, y: End, payload: Payload)
    requires Flow(x, y)
    ensures MaySend(x) ==> Flow(After(x, Send(id, x.slot, payload)), y)
    ensures MaySend(y) ==> Flow(x, After(y, Send(id, y.slot, payload)))
  {
    hide Phases, Delivers, Prompt, AllReliable;
    SendPhases(id, x.slot, y.slot, payload);
    if MaySend(x) { SendPrompts(id, x, y, payload); }
    if MaySend(y) { SendPrompts(id, y, x, payload); }
  }

  // ----- Tasks of the main loop -----

  function Popped(e: End): End
    requires e.tasks != []
  {
    e.(tasks := e.tasks[1..])
  }

  lemma HeadTask(tasks: seq<Task>)
    requires tasks != []
    ensures Emits(tasks) == (if tasks[0].EmitData? then [tasks[0].payload] else []) + Emits(tasks[1..])
    ensures Sends(tasks)
         == (if tasks[0].SendData? && tasks[0].payload.data != [] then [tasks[0].payload] else []) + Sends(tasks[1..])
  {
  }

  /** A task moves its payload one place on and touches neither record nor counters. */
  lemma TaskConserves(isClient: bool, established: bool, e: End, peer: End)
    requires e.tasks != [] && IsLocalTask(e.tasks[0])
    requires Prompt(e)
    requires IsOpen(e.slot) ==> e.slot.channel.Some? && e.slot.channel.value.hasCallbacks
    ensures Prompt(After(Popped(e), RunTask(isClient, established, e.slot, e.tasks[0])))
    ensures Delivers(e, peer) && Delivers(peer, e) ==>
      var e' := After(Popped(e), RunTask(isClient, established, e.slot, e.tasks[0])); Delivers(e', peer) && Delivers(peer, e')
  {
    hide NonEmpty, Emits, Sends, DataOf;
    var task := e.tasks[0];
    assert task in e.tasks && e.tasks == [task] + e.tasks[1..];
    HeadTask(e.tasks);
    var effect := RunTask(isClient, established, e.slot, task);
    EffectTasks(Popped(e), effect);
    if task.SendData? && task.payload.data != [] {
      var p := e.slot.record.value.params;
      DataOfAppend(e.slot.out, Data(task.payload, p.ordered, p.maxPacketLifeTime == -1 && p.maxRetransmits == -1));
    }
  }

  predicate SameTerms(a: Channel, b: Channel)
  {
    a.params == b.params && a.negotiated == b.negotiated
  }

  /** The slot may have pushed one payload, with the reliability of its record, and nothing else matters. */
  ghost predicate Grows(s: Slot, s': Slot)
  {
    && s' == s.(channel := s'.channel, out := s'.out)
    && (s'.channel.Some? <==> s.channel.Some?)
    && (s.channel.Some? ==> SameTerms(s.channel.value, s'.channel.value))
    && (s'.out == s.out
        || (IsOpen(s) && exists p :: s'.out == s.out + [Data(p, true, Reliable(s.record.value.params))]))
  }

  lemma TaskSlot(isClient: bool, established: bool, e: End)
    requires e.tasks != [] && IsLocalTask(e.tasks[0]) && Prompt(e)
    requires IsOpen(e.slot) ==> e.slot.record.value.params.ordered
    ensures Grows(e.slot, RunTask(isClient, established, e.slot, e.tasks[0]).slot)
  {
    var s, task := e.slot, e.tasks[0];
    assert task in e.tasks;
    if task.SendData? && RunTask(isClient, established, s, task).slot.out != s.out {
      assert RunTask(isClient, established, s, task).slot.out
          == s.out + [Data(task.payload, true, Reliable(s.record.value.params))];
    }
  }

  lemma PhasesGrow(x: Slot, y: Slot, s: Slot, s': Slot)
    requires Phases(x, y) && Grows(s, s')
    ensures s == x && (IsOpen(x) ==> IsOpen(y)) ==> Phases(s', y)
    ensures s == y ==> Phases(x, s')
    ensures AllReliable(s.out) && (IsOpen(s) ==> Reliable(s.record.value.params)) ==> AllReliable(s'.out)
  {
    hide OpenBytes, OnTheWire;
    if s'.out != s.out {
      var reliable := Reliable(s.record.value.params);
      var p :| s'.out == s.out + [Data(p, true, reliable)];
      if s.out != [] { assert s'.out[1..] == s.out[1..] + [Data(p, true, reliable)]; }
    }
  }

  lemma OpenFacts(x: Slot, y: Slot)
    requires Agreement(x, y) && Eligible(x, y)
    ensures IsOpen(x) ==> IsOpen(y)
    ensures IsOpen(x) ==> x.channel.Some? && x.channel.value.hasCallbacks && x.record.value.params.ordered
    ensures IsOpen(y) ==> y.channel.Some? && y.channel.value.hasCallbacks && y.record.value.params.ordered
    ensures Lossless(x) && IsOpen(x) ==> Reliable(x.record.value.params)
    ensures Lossless(x) && IsOpen(y) ==> Reliable(y.record.value.params)
  {
  }

  lemma InitiatorTaskFlow(xc: bool, established: bool, x: End, y: End)
    requires Agreement(x.slot, y.slot) && Flow(x, y) && Eligible(x.slot, y.slot)
    requires x.tasks != [] && IsLocalTask(x.tasks[0])
    ensures Flow(After(Popped(x), RunTask(xc, established, x.slot, x.tasks[0])), y)
  {
    hide RunTask, Agreement, Phases, Delivers, Prompt, AllReliable;
    OpenFacts(x.slot, y.slot);
    TaskConserves(xc, established, x, y);
    TaskSlot(xc, established, x);
    PhasesGrow(x.slot, y.slot, x.slot, RunTask(xc, established, x.slot, x.tasks[0]).slot);
  }

  lemma ResponderTaskFlow(yc: bool, established: bool, x: End, y: End)
    requires Agreement(x.slot, y.slot) && Flow(x, y) && Eligible(x.slot, y.slot)
    requires y.tasks != [] && IsLocalTask(y.tasks[0])
    ensures Flow(x, After(Popped(y), RunTask(yc, established, y.slot, y.tasks[0])))
  {
    hide RunTask, Agreement, Phases, Delivers, Prompt, AllReliable;
    OpenFacts(x.slot, y.slot);
    TaskConserves(yc, established, y, x);
    TaskSlot(yc, established, y);
    PhasesGrow(x.slot, y.slot, y.slot, RunTask(yc, established, y.slot, y.tasks[0]).slot);
  }

  /** Nothing is sent in vain: the payloads sent are all accounted for exactly when none was empty. */
  lemma {:induction false} NonEmptyIsAll(s: seq<Payload>)
    ensures |NonEmpty(s)| <= |s|
    ensures NonEmpty(s) == s <==> forall p :: p in s ==> p.data != []
  {
    if s != [] {
      NonEmptyIsAll(s[1..]);
      assert s == [s[0]] + s[1..];
      if s[0].data != [] {
        assert NonEmpty(s)[1..] == NonEmpty(s[1..]);
      } else {
        assert s[0] in s;
      }
    }
  }
}
