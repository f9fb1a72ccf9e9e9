/** Where all data goes, in every run and on every kind of channel: what one application sends is pushed or,
    before the callbacks are there, freed; what is pushed is in flight, lost, or delivered; and what is
    delivered to an open end, and only that, reaches the other application, in the order of delivery. */
module DataChannelLedger {
  import opened Collections
  import opened OpenMessage
  import opened DataChannelSlot
  import opened DataChannelAgreement
  import opened DataChannelFlow
  import opened DataChannelWorld
  import opened DataChannelMoves

  /** The payloads of one direction of one id: short enough to be accepted from the application, pushed by the
      sender or freed for want of callbacks, lost on the way, and delivered to a receiver that was open (taken) or
      was not (missed). */
  datatype Ledger = Ledger(accepted: seq<Payload>, freed: seq<Payload>, pushed: seq<Payload>, lost: seq<Payload>,
    taken: seq<Payload>, missed: seq<Payload>)

  const BLANK := Ledger([], [], [], [], [], [])

  /** The sender's main loop runs a task; an empty payload is neither pushed nor missed. */
  function Ran(l: Ledger, s: Slot, task: Task): Ledger
  {
    if !task.SendData? || task.payload.data == [] then l
    else if Installed(s) then l.(pushed := l.pushed + [task.payload])
    else l.(freed := l.freed + [task.payload])
  }

  /** A message is delivered to the receiver, or lost. */
  function Delivered(l: Ledger, receiver: Slot, m: Message): Ledger
  {
    if m.Control? then l
    else if IsOpen(receiver) then l.(taken := l.taken + [m.payload])
    else l.(missed := l.missed + [m.payload])
  }

  function Lost(l: Ledger, m: Message): Ledger
  {
    if m.Control? then l else l.(lost := l.lost + [m.payload])
  }

  /** A move of the sender, in the ledger of what it sends. */
  function BySender(l: Ledger, move: Move, me: End): Ledger
  {
    if move.Sending? && |move.payload.data| <= 65535 then l.(accepted := l.accepted + [move.payload])
    else if move.Running? && me.tasks != [] then Ran(l, me.slot, me.tasks[0])
    else l
  }

  /** A move of the receiver, in the ledger of what comes from `you`. */
  function ByReceiver(l: Ledger, move: Move, me: End, you: End): Ledger
  {
    if move.Taking? && move.i < |you.slot.out| then Delivered(l, me.slot, you.slot.out[move.i])
    else if move.Losing? && move.i < |you.slot.out| then Lost(l, you.slot.out[move.i])
    else l
  }

  /** The ledger of the direction that begins at the left agent, or at the right one. */
  ghost function LedgerStep(l: Ledger, w: World, step: Step, left: bool, id: Id): Ledger
    requires CanStep(w, step)
  {
    var me, you := Mine(w, step.byLeft), Mine(w, !step.byLeft);
    var move := MoveOf(me, step.event, id);
    if step.byLeft == left then BySender(l, move, EndOf(me, id)) else ByReceiver(l, move, EndOf(me, id), EndOf(you, id))
  }

  ghost function LedgerAt(states: seq<World>, steps: seq<Step>, i: nat, left: bool, id: Id): Ledger
    requires IsRun(states, steps) && i < |states|
  {
    if i == 0 then BLANK else LedgerStep(LedgerAt(states, steps, i - 1, left, id), states[i - 1], steps[i - 1], left, id)
  }

  // ----- The books of the sender and of the receiver -----

  /** What has left the stream. */
  function Left(l: Ledger): multiset<Payload>
  {
    multiset(l.lost) + multiset(l.taken) + multiset(l.missed)
  }

  ghost predicate SenderBooks(x: End, l: Ledger)
  {
    && SentBy(x.slot) == l.accepted && NonEmpty(l.accepted) == l.freed + l.pushed + Sends(x.tasks)
    && multiset(l.pushed) == multiset(DataOf(x.slot.out)) + Left(l)
    && (!Installed(x.slot) ==> l.pushed == [])
  }

  ghost predicate ReceiverBooks(y: End, l: Ledger)
  {
    && l.taken == ReceivedBy(y.slot) + Emits(y.tasks)
    && (!y.slot.aborted ==> |l.missed| == y.slot.dropped)
    && (y.slot.channel.None? ==> l.taken == [])
  }

  /** What does not concern the data. */
  ghost predicate SameData(s: Slot, s': Slot)
  {
    && SentBy(s') == SentBy(s) && ReceivedBy(s') == ReceivedBy(s) && s'.dropped == s.dropped && (s.aborted ==> s'.aborted)
    && (s.channel.Some? ==> s'.channel.Some?) && (Installed(s) ==> Installed(s')) && DataOf(s'.out) == DataOf(s.out)
  }

  lemma UntouchedBooks(x: End, x': End, l: Ledger)
    requires SameData(x.slot, x'.slot) && Sends(x'.tasks) == Sends(x.tasks) && Emits(x'.tasks) == Emits(x.tasks)
    ensures SenderBooks(x, l) ==> SenderBooks(x', l)
    ensures ReceiverBooks(x, l) ==> ReceiverBooks(x', l)
  {
    hide NonEmpty, Sends, Emits, DataOf;
  }

  // ----- Opening -----

  lemma OpeningIsIdle(isClient: bool, id: Id, e: End)
    requires e.slot.channel.Some?
    ensures var e' := After(e, OnNewDatachannel(isClient, id, e.slot));
      SameData(e.slot, e'.slot) && Sends(e'.tasks) == Sends(e.tasks) && Emits(e'.tasks) == Emits(e.tasks)
  {
    hide NonEmpty, Sends, Emits, DataOf, OpenBytes, BothLimits, ValidStreamId;
    var effect := OnNewDatachannel(isClient, id, e.slot);
    EffectTasks(e, effect);
    if effect.slot.out != e.slot.out { DataOfAppend(e.slot.out, effect.slot.out[|e.slot.out|]); }
  }

  // ----- The application and the main loop -----

  lemma AddIsIdle(isClient: bool, established: bool, id: Id, e: End, params: Params, negotiated: bool)
    ensures var e' := After(e, AddDataChannel(isClient, established, id, e.slot, params, negotiated));
      SameData(e.slot, e'.slot) && Sends(e'.tasks) == Sends(e.tasks) && Emits(e'.tasks) == Emits(e.tasks)
  {
    hide NonEmpty, Sends, Emits, DataOf, OnNewDatachannel;
    assert e.tasks + [] == e.tasks;
    if e.slot.channel.None? && established {
      OpeningIsIdle(isClient, id, e.(slot := e.slot.(channel := Some(NewChannel(params, negotiated)))));
    }
  }

  lemma SendEntersBooks(id: Id, e: End, payload: Payload, l: Ledger)
    requires e.slot.channel.Some?
    ensures SenderBooks(e, l) ==> SenderBooks(After(e, Send(id, e.slot, payload)), BySender(l, Sending(payload), e))
    ensures ReceiverBooks(e, l) ==> ReceiverBooks(After(e, Send(id, e.slot, payload)), l)
  {
    hide NonEmpty, Sends, Emits, DataOf;
    EffectTasks(e, Send(id, e.slot, payload));
    NonEmptyAppend(l.accepted, payload);
  }

  /** A send whose task runs is pushed or freed; it leaves the other direction alone. */
  lemma SendTaskBooks(isClient: bool, established: bool, e: End, l: Ledger)
    requires e.tasks != [] && e.tasks[0].SendData?
    requires Installed(e.slot) ==> e.slot.record.Some?
    ensures var e' := After(Popped(e), RunTask(isClient, established, e.slot, e.tasks[0]));
      && (SenderBooks(e, l) ==> SenderBooks(e', Ran(l, e.slot, e.tasks[0])))
      && (ReceiverBooks(e, l) ==> ReceiverBooks(e', l))
  {
    hide NonEmpty, Sends, Emits, DataOf, SenderBooks, ReceiverBooks;
    var payload := e.tasks[0].payload;
    var e' := After(Popped(e), RunTask(isClient, established, e.slot, e.tasks[0]));
    HeadTask(e.tasks);
    assert e.tasks[1..] + [] == e.tasks[1..];
    if payload.data == [] {
      UntouchedBooks(e, e', l);
    } else if Installed(e.slot) {
      var p := e.slot.record.value.params;
      DataOfAppend(e.slot.out, Data(payload, p.ordered, p.maxPacketLifeTime == -1 && p.maxRetransmits == -1));
      PushBooks(e, e', payload, l);
    } else {
      FreeBooks(e, e', payload, l);
    }
  }

  lemma PushBooks(e: End, e': End, payload: Payload, l: Ledger)
    requires Installed(e.slot) && e'.slot == e.slot.(out := e'.slot.out)
    requires DataOf(e'.slot.out) == DataOf(e.slot.out) + [payload]
    requires Sends(e.tasks) == [payload] + Sends(e'.tasks) && Emits(e.tasks) == Emits(e'.tasks)
    ensures SenderBooks(e, l) ==> SenderBooks(e', l.(pushed := l.pushed + [payload]))
    ensures ReceiverBooks(e, l) ==> ReceiverBooks(e', l)
  {
    hide NonEmpty, Sends, Emits, DataOf;
    assert l.freed + l.pushed + ([payload] + Sends(e'.tasks)) == l.freed + (l.pushed + [payload]) + Sends(e'.tasks);
  }

  lemma FreeBooks(e: End, e': End, payload: Payload, l: Ledger)
    requires !Installed(e.slot) && e'.slot == e.slot
    requires Sends(e.tasks) == [payload] + Sends(e'.tasks) && Emits(e.tasks) == Emits(e'.tasks)
    ensures SenderBooks(e, l) ==> SenderBooks(e', l.(freed := l.freed + [payload]))
    ensures ReceiverBooks(e, l) ==> ReceiverBooks(e', l)
  {
    hide NonEmpty, Sends, Emits, DataOf;
    assert l.freed + [] + ([payload] + Sends(e'.tasks)) == (l.freed + [payload]) + [] + Sends(e'.tasks);
  }

  lemma EmitTaskBooks(isClient: bool, established: bool, e: End, l: Ledger)
    requires e.tasks != [] && e.tasks[0].EmitData?
    ensures var e' := After(Popped(e), RunTask(isClient, established, e.slot, e.tasks[0]));
      && (SenderBooks(e, l) ==> SenderBooks(e', l))
      && (ReceiverBooks(e, l) ==> ReceiverBooks(e', l))
  {
    hide NonEmpty, Sends, Emits, DataOf, SenderBooks, ReceiverBooks;
    var e' := After(Popped(e), RunTask(isClient, established, e.slot, e.tasks[0]));
    HeadTask(e.tasks);
    assert e.tasks[1..] + [] == e.tasks[1..];
    EmittedBooks(e, e', e.tasks[0].payload, l);
  }

  lemma EmittedBooks(e: End, e': End, payload: Payload, l: Ledger)
    requires e'.slot == e.slot.(channel := e'.slot.channel) && (e.slot.channel.None? ==> e'.slot.channel.None?)
    requires e.slot.channel.Some? ==>
      var ch := e.slot.channel.value; e'.slot.channel == Some(ch.(received := ch.received + [payload]))
    requires Sends(e.tasks) == Sends(e'.tasks) && Emits(e.tasks) == [payload] + Emits(e'.tasks)
    ensures SenderBooks(e, l) ==> SenderBooks(e', l)
    ensures ReceiverBooks(e, l) ==> ReceiverBooks(e', l)
  {
    hide NonEmpty, Sends, Emits, DataOf;
    assert ReceivedBy(e.slot) + ([payload] + Emits(e'.tasks)) == (ReceivedBy(e.slot) + [payload]) + Emits(e'.tasks);
  }

  lemma OtherTaskBooks(isClient: bool, established: bool, e: End, l: Ledger)
    requires e.tasks != [] && !e.tasks[0].SendData? && !e.tasks[0].EmitData?
    ensures var e' := After(Popped(e), RunTask(isClient, established, e.slot, e.tasks[0]));
      && (SenderBooks(e, l) ==> SenderBooks(e', l))
      && (ReceiverBooks(e, l) ==> ReceiverBooks(e', l))
  {
    hide NonEmpty, Sends, Emits, DataOf, AddDataChannel, SenderBooks, ReceiverBooks;
    var task := e.tasks[0];
    HeadTask(e.tasks);
    var e' := After(Popped(e), RunTask(isClient, established, e.slot, task));
    if task.AddChannel? {
      AddIsIdle(isClient, established, task.id, Popped(e), task.params, task.negotiated);
    } else {
      assert e.tasks[1..] + [] == e.tasks[1..];
    }
    UntouchedBooks(e, e', l);
  }

  lemma TaskBooks(isClient: bool, established: bool, e: End, l: Ledger)
    requires e.tasks != [] && (Installed(e.slot) ==> e.slot.record.Some?)
    ensures var e' := After(Popped(e), RunTask(isClient, established, e.slot, e.tasks[0]));
      && (SenderBooks(e, l) ==> SenderBooks(e', Ran(l, e.slot, e.tasks[0])))
      && (ReceiverBooks(e, l) ==> ReceiverBooks(e', l))
  {
    hide SenderBooks, ReceiverBooks, RunTask;
    if e.tasks[0].SendData? {
      SendTaskBooks(isClient, established, e, l);
    } else if e.tasks[0].EmitData? {
      EmitTaskBooks(isClient, established, e, l);
    } else {
      OtherTaskBooks(isClient, established, e, l);
    }
  }

  // ----- The network -----

  /** An end that is not open counts the payload as dropped or fails. */
  lemma ClosedEndMisses(isClient: bool, id: Id, s: Slot, m: Message)
    requires m.Data? && !IsOpen(s)
    ensures var effect := Receive(isClient, id, s, m);
      && effect.tasks == [] && (effect.slot.aborted || (!s.aborted && effect.slot.dropped == s.dropped + 1))
      && effect.slot.channel == s.channel && effect.slot.out == s.out
  {
  }

  lemma ControlIsIdle(isClient: bool, id: Id, e: End, m: Message)
    requires m.Control?
    ensures var e' := After(e, Receive(isClient, id, e.slot, m));
      SameData(e.slot, e'.slot) && Sends(e'.tasks) == Sends(e.tasks) && Emits(e'.tasks) == Emits(e.tasks)
  {
    hide NonEmpty, Sends, Emits, DataOf, DecodeControl, ValidStreamId;
    EffectTasks(e, Receive(isClient, id, e.slot, m));
  }

  /** What a delivery does to the books of the receiving end, in both directions. */
  lemma DeliveryBooks(isClient: bool, id: Id, e: End, m: Message, l: Ledger)
    requires m.Data? && IsOpen(e.slot) ==>
      var effect := Receive(isClient, id, e.slot, m);
      effect.tasks == [EmitData(id, m.payload)] && e.slot.channel.Some?
      && effect.slot == e.slot.(record := effect.slot.record, hasPad := effect.slot.hasPad)
    ensures var e' := After(e, Receive(isClient, id, e.slot, m));
      && (SenderBooks(e, l) ==> SenderBooks(e', l))
      && (ReceiverBooks(e, l) ==> ReceiverBooks(e', Delivered(l, e.slot, m)))
  {
    hide NonEmpty, Sends, Emits, DataOf, Receive;
    var effect := Receive(isClient, id, e.slot, m);
    if m.Control? {
      ControlIsIdle(isClient, id, e, m);
      UntouchedBooks(e, After(e, effect), l);
    } else {
      if !IsOpen(e.slot) { ClosedEndMisses(isClient, id, e.slot, m); }
      EffectTasksOf(isClient, id, e, m);
    }
  }

  lemma EffectTasksOf(isClient: bool, id: Id, e: End, m: Message)
    requires |Receive(isClient, id, e.slot, m).tasks| <= 1
    ensures var effect := Receive(isClient, id, e.slot, m);
      var e' := After(e, effect);
      && (effect.tasks == [] ==> e'.tasks == e.tasks)
      && (effect.tasks != [] && effect.tasks[0].EmitData? ==>
            Emits(e'.tasks) == Emits(e.tasks) + [effect.tasks[0].payload] && Sends(e'.tasks) == Sends(e.tasks))
  {
    hide Receive, Emits, Sends;
    EffectTasks(e, Receive(isClient, id, e.slot, m));
  }

  lemma {:induction false} DataOfWithout(out: seq<Message>, i: nat)
    requires i < |out|
    ensures multiset(DataOf(out))
         == multiset(DataOf(Without(out, i))) + (if out[i].Data? then multiset{out[i].payload} else multiset{})
  {
    if i == 0 {
      assert Without(out, 0) == out[1..];
    } else {
      var rest := Without(out[1..], i - 1);
      DataOfWithout(out[1..], i - 1);
      assert Without(out, i) == [out[0]] + rest;
      hide Without;
      assert ([out[0]] + rest)[1..] == rest;
      assert DataOf([out[0]] + rest) == (if out[0].Data? then [out[0].payload] else []) + DataOf(rest);
    }
  }

  lemma OneMore(s: seq<Payload>, p: Payload)
    ensures multiset(s + [p]) == multiset(s) + multiset{p}
  {
  }

  lemma BookedOnce(receiver: Slot, m: Message, l: Ledger)
    ensures var gone := if m.Data? then multiset{m.payload} else multiset{};
      Left(Delivered(l, receiver, m)) == Left(l) + gone && Left(Lost(l, m)) == Left(l) + gone
  {
    if m.Data? {
      OneMore(l.lost, m.payload);
      OneMore(l.taken, m.payload);
      OneMore(l.missed, m.payload);
      Regroup(multiset(l.lost), multiset(l.taken), multiset(l.missed), multiset{m.payload});
    }
  }

  lemma Regroup(lost: multiset<Payload>, taken: multiset<Payload>, missed: multiset<Payload>, gone: multiset<Payload>)
    ensures lost + gone + taken + missed == lost + taken + missed + gone
    ensures lost + (taken + gone) + missed == lost + taken + missed + gone
    ensures lost + taken + (missed + gone) == lost + taken + missed + gone
  {
  }

  /** What leaves the stream is booked where it goes. */
  lemma LeavingBooks(x: End, x': End, i: nat, receiver: Slot, l: Ledger)
    requires i < |x.slot.out| && x' == x.(slot := x.slot.(out := Without(x.slot.out, i)))
    ensures SenderBooks(x, l) ==> SenderBooks(x', Delivered(l, receiver, x.slot.out[i])) && SenderBooks(x', Lost(l, x.slot.out[i]))
    ensures ReceiverBooks(x, l) ==> ReceiverBooks(x', l)
  {
    hide NonEmpty, Sends, Emits, DataOf, Without;
    DataOfWithout(x.slot.out, i);
    BookedOnce(receiver, x.slot.out[i], l);
    MovedBooks(x, x', l, Delivered(l, receiver, x.slot.out[i]));
    MovedBooks(x, x', l, Lost(l, x.slot.out[i]));
  }

  lemma MovedBooks(x: End, x': End, l: Ledger, l': Ledger)
    requires x' == x.(slot := x.slot.(out := x'.slot.out)) && l' == l.(lost := l'.lost, taken := l'.taken, missed := l'.missed)
    requires multiset(DataOf(x.slot.out)) + Left(l) == multiset(DataOf(x'.slot.out)) + Left(l')
    ensures SenderBooks(x, l) ==> SenderBooks(x', l')
  {
    hide NonEmpty, Sends, DataOf;
  }

  // ----- Every step keeps the books -----

  /** An open end hands every payload to its application, on any kind of channel. */
  lemma FitEndTakes(role: bool, id: Id, s: Slot, m: Message)
    requires Fit(role, id, s) && IsOpen(s) && m.Data?
    ensures var effect := Receive(role, id, s, m);
      effect.tasks == [EmitData(id, m.payload)] && effect.slot == s.(record := effect.slot.record, hasPad := effect.slot.hasPad)
  {
  }

  lemma QueueBooks(e: End, task: Task, l: Ledger)
    requires task.AddChannel?
    ensures SenderBooks(e, l) ==> SenderBooks(e.(tasks := e.tasks + [task]), l)
    ensures ReceiverBooks(e, l) ==> ReceiverBooks(e.(tasks := e.tasks + [task]), l)
  {
    hide SenderBooks, ReceiverBooks;
    AddTaskIsIdle(e, task);
    UntouchedBooks(e, e.(tasks := e.tasks + [task]), l);
  }

  lemma OpeningBooks(role: bool, id: Id, e: End, l: Ledger)
    requires e.slot.channel.Some?
    ensures SenderBooks(e, l) ==> SenderBooks(After(e, OnNewDatachannel(role, id, e.slot)), l)
    ensures ReceiverBooks(e, l) ==> ReceiverBooks(After(e, OnNewDatachannel(role, id, e.slot)), l)
  {
    hide SenderBooks, ReceiverBooks;
    OpeningIsIdle(role, id, e);
    UntouchedBooks(e, After(e, OnNewDatachannel(role, id, e.slot)), l);
  }

  lemma LossLeavesReceiver(e: End, l: Ledger, m: Message)
    ensures ReceiverBooks(e, l) ==> ReceiverBooks(e, Lost(l, m))
  {
  }

  lemma MyBooks(role: bool, id: Id, move: Move, me: End, you: End, l: Ledger)
    requires Possible(id, move, me, you) && Fit(role, id, me.slot)
    ensures SenderBooks(me, l) ==> SenderBooks(MyMove(role, id, move, me, you), BySender(l, move, me))
    ensures ReceiverBooks(me, l) ==> ReceiverBooks(MyMove(role, id, move, me, you), ByReceiver(l, move, me, you))
  {
    hide SenderBooks, ReceiverBooks, RunTask, Send, Receive, OnNewDatachannel, Ran, Delivered, Lost, IsOpen;
    match move
    case Idling =>
    case Queuing(task) => QueueBooks(me, task, l);
    case Sending(payload) => SendEntersBooks(id, me, payload, l);
    case Running(established) => TaskBooks(role, established, me, l);
    case Opening => OpeningBooks(role, id, me, l);
    case Taking(i) =>
      var m := you.slot.out[i];
      if m.Data? && IsOpen(me.slot) { FitEndTakes(role, id, me.slot, m); }
      DeliveryBooks(role, id, me, m, l);
    case Losing(i) => LossLeavesReceiver(me, l, you.slot.out[i]);
  }

  lemma YourBooks(id: Id, move: Move, me: End, you: End, l: Ledger)
    requires Possible(id, move, me, you)
    ensures ReceiverBooks(you, l) ==> ReceiverBooks(YourMove(id, move, me, you), BySender(l, move, me))
    ensures SenderBooks(you, l) ==> SenderBooks(YourMove(id, move, me, you), ByReceiver(l, move, me, you))
  {
    hide SenderBooks, ReceiverBooks, Ran, Delivered, Lost;
    if move.Taking? || move.Losing? {
      LeavingBooks(you, YourMove(id, move, me, you), move.i, me.slot, l);
    } else if move.Running? {
      RunLeavesReceiver(you, l, me.slot, me.tasks[0]);
    } else if move.Sending? {
      SendLeavesReceiver(you, l, move.payload);
    }
  }

  lemma RunLeavesReceiver(e: End, l: Ledger, s: Slot, task: Task)
    ensures ReceiverBooks(e, l) ==> ReceiverBooks(e, Ran(l, s, task))
  {
  }

  lemma SendLeavesReceiver(e: End, l: Ledger, payload: Payload)
    ensures ReceiverBooks(e, l) ==> ReceiverBooks(e, l.(accepted := l.accepted + [payload]))
  {
  }

  ghost predicate Books(w: World, left: bool, id: Id, l: Ledger)
  {
    SenderBooks(EndOf(Mine(w, left), id), l) && ReceiverBooks(EndOf(Mine(w, !left), id), l)
  }

  lemma StepBooks(w: World, step: Step, left: bool, id: Id, l: Ledger)
    requires Inv(false, w.left, w.right) && CanStep(w, step) && id != 65535 && Books(w, left, id, l)
    ensures Books(Next(w, step), left, id, LedgerStep(l, w, step, left, id))
  {
    var me, you := Mine(w, step.byLeft), Mine(w, !step.byLeft);
    var move := MoveOf(me, step.event, id);
    hide SenderBooks, ReceiverBooks, EndOf, Act, Enabled, MoveOf, BySender, ByReceiver, Pair, Counted, ValidAdds, Possible;
    if !step.byLeft { InvSwaps(false, w.left, w.right); }
    EventMoves(me, you, step.event, id);
    PairIsFit(me.isClient, id, EndOf(me, id), EndOf(you, id));
    MyBooks(me.isClient, id, move, EndOf(me, id), EndOf(you, id), l);
    YourBooks(id, move, EndOf(me, id), EndOf(you, id), l);
  }

  lemma BlankBooks(isClient: bool, id: Id)
    ensures SenderBooks(EndOf(NewAgent(isClient), id), BLANK) && ReceiverBooks(EndOf(NewAgent(isClient), id), BLANK)
  {
  }

  lemma {:induction false} BooksInRun(states: seq<World>, steps: seq<Step>, i: nat, left: bool, id: Id)
    requires IsRun(states, steps) && i < |states| && id != 65535
    ensures Books(states[i], left, id, LedgerAt(states, steps, i, left, id))
  {
    hide Inv, LedgerStep, Books, CanStep, Next;
    if i == 0 {
      assert Books(states[0], left, id, BLANK) by { StartBooks(states[0], left, id); }
    } else {
      BooksInRun(states, steps, i - 1, left, id);
      RunsKeepInv(false, states, steps, i - 1);
      StepBooks(states[i - 1], steps[i - 1], left, id, LedgerAt(states, steps, i - 1, left, id));
    }
  }

  lemma StartBooks(w: World, left: bool, id: Id)
    requires w.left == NewAgent(w.left.isClient) && w.right == NewAgent(!w.left.isClient)
    ensures Books(w, left, id, BLANK)
  {
    hide SenderBooks, ReceiverBooks;
    BlankBooks(true, id);
    BlankBooks(false, id);
  }

  /** In every run, on every channel, negotiated or not, ordered or not, reliable or not, whatever is lost: the
      non-empty payloads that one application sent, all of at most 65535 bytes, are those freed, those pushed and
      those whose task is still to run, in this order; those pushed are in flight, lost, or delivered, each once; those
      delivered to an open end, and no others, are those its application has received and is about to, in the order of delivery; and unless an assertion has
      failed there, those delivered to an end that was not open are those it has counted as dropped. */
  lemma DataAccounted(states: seq<World>, steps: seq<Step>, i: nat, left: bool, id: Id)
    requires IsRun(states, steps) && i < |states| && id != 65535
    ensures var l := LedgerAt(states, steps, i, left, id);
      var x, y := EndOf(Mine(states[i], left), id), EndOf(Mine(states[i], !left), id);
      && NonEmpty(l.accepted) == l.freed + l.pushed + Sends(x.tasks)
      && multiset(l.pushed) == multiset(DataOf(x.slot.out)) + (multiset(l.lost) + multiset(l.taken) + multiset(l.missed))
      && l.taken == ReceivedBy(y.slot) + Emits(y.tasks)
      && (!y.slot.aborted ==> |l.missed| == y.slot.dropped)
  {
    hide IsRun, LedgerAt, EndOf, NonEmpty, Sends, Emits, DataOf;
    BooksInRun(states, steps, i, left, id);
  }
}
