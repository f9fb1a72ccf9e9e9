/** With what ordering and reliability data travels: that of the sender's own channel, on every kind of channel,
    unless the two applications disagree on whether it is negotiated. */
module DataChannelTerms {
  import opened Collections
  import opened OpenMessage
  import opened DataChannelSlot
  import opened DataChannelAgreement
  import opened DataChannelFlow
  import opened DataChannelWorld
  import opened DataChannelMoves

  /** The owner x has opened a channel with an OPEN that the other end has negotiated. */
  predicate Disagree(x: Slot, y: Slot)
  {
    x.channel.Some? && !x.channel.value.negotiated && Negotiated(y)
  }

  /** Whoever can send has a record with the parameters of its channel. */
  predicate OwnTerms(s: Slot)
  {
    Installed(s) ==> s.record.Some? && s.record.value.params == s.channel.value.params
  }

  predicate Carried(s: Slot, m: Message)
  {
    m.Data? ==> s.channel.Some? && m.ordered == s.channel.value.params.ordered
                && m.reliable == (s.channel.value.params.maxPacketLifeTime == -1 && s.channel.value.params.maxRetransmits == -1)
  }

  predicate InFlight(s: Slot)
  {
    forall i :: 0 <= i < |s.out| ==> Carried(s, s.out[i])
  }

  predicate EndTerms(s: Slot)
  {
    OwnTerms(s) && InFlight(s)
  }

  predicate Terms(x: Slot, y: Slot)
  {
    EndTerms(x) && (Disagree(x, y) || (EndTerms(y) && (Installed(y) ==> IsOpen(y))))
  }

  lemma AppendCarried(s: Slot, s': Slot, m: Message)
    requires InFlight(s) && s'.out == s.out + [m] && Carried(s', m) && s.channel.Some? && s'.channel.Some?
    requires s'.channel.value.params == s.channel.value.params
    ensures InFlight(s')
  {
    forall i | 0 <= i < |s'.out| ensures Carried(s', s'.out[i]) { assert i < |s.out| ==> Carried(s, s.out[i]); }
  }

  lemma WithoutCarried(s: Slot, i: nat)
    requires InFlight(s) && i < |s.out|
    ensures InFlight(s.(out := Without(s.out, i)))
  {
    var rest := Without(s.out, i);
    forall j | 0 <= j < |rest| ensures Carried(s, rest[j]) { assert rest[j] == s.out[if j < i then j else j + 1]; }
  }

  lemma SameCarried(s: Slot, s': Slot)
    requires InFlight(s) && s'.out == s.out
    requires s.channel.Some? ==> s'.channel.Some? && s'.channel.value.params == s.channel.value.params
    ensures InFlight(s')
  {
    forall i | 0 <= i < |s'.out| ensures Carried(s', s'.out[i]) { assert Carried(s, s.out[i]); }
  }

  // ----- One end moves -----

  /** The terms of a channel of the acting end stay. */
  lemma OpeningKeepsTerms(role: bool, id: Id, s: Slot)
    requires s.channel.Some? && EndTerms(s) && (s.record.Some? && !Visited(s) ==> !Installed(s))
    ensures EndTerms(OnNewDatachannel(role, id, s).slot)
    ensures Installed(s) || Installed(OnNewDatachannel(role, id, s).slot) ==> OnNewDatachannel(role, id, s).slot.record.Some?
  {
    hide InFlight, OpenBytes, BothLimits, ValidStreamId;
    var s' := OnNewDatachannel(role, id, s).slot;
    if s'.out == s.out { SameCarried(s, s'); } else { AppendCarried(s, s', s'.out[|s.out|]); }
  }

  lemma TaskKeepsTerms(role: bool, established: bool, s: Slot, task: Task)
    requires IsLocalTask(task) && EndTerms(s)
    ensures EndTerms(RunTask(role, established, s, task).slot)
    ensures Installed(s) <==> Installed(RunTask(role, established, s, task).slot)
    ensures IsOpen(s) ==> IsOpen(RunTask(role, established, s, task).slot)
  {
    hide InFlight;
    var s' := RunTask(role, established, s, task).slot;
    if s'.out == s.out { SameCarried(s, s'); } else { AppendCarried(s, s', s'.out[|s.out|]); }
  }

  lemma SendKeepsTerms(id: Id, s: Slot, payload: Payload)
    requires s.channel.Some? && EndTerms(s)
    ensures EndTerms(Send(id, s, payload).slot)
    ensures (Installed(s) <==> Installed(Send(id, s, payload).slot)) && (IsOpen(s) ==> IsOpen(Send(id, s, payload).slot))
  {
    hide InFlight;
    SameCarried(s, Send(id, s, payload).slot);
  }

  // ----- The owner moves -----

  lemma OwnerOpensTerms(role: bool, id: Id, x: Slot, y: Slot)
    requires Agreement(x, y) && Terms(x, y) && x.channel.Some? && !Visited(x)
    ensures Terms(OnNewDatachannel(role, id, x).slot, y)
  {
    hide EndTerms, OnNewDatachannel, ResponderSound, ControlInFlight, Early;
    OpeningKeepsTerms(role, id, x);
    TermsStay(role, true, id, x);
    assert !Installed(x);
  }

  lemma OwnerAddsTerms(role: bool, established: bool, id: Id, x: Slot, y: Slot, params: Params, negotiated: bool)
    requires Agreement(x, y) && Terms(x, y) && !BothLimits(params)
    ensures Terms(AddDataChannel(role, established, id, x, params, negotiated).slot, y)
  {
    hide BothLimits, OnNewDatachannel, Agreement, InFlight;
    if x.channel.None? {
      var bound := x.(channel := Some(NewChannel(params, negotiated)));
      InitiatorBinds(x, y, params, negotiated);
      SameCarried(x, bound);
      if established { OwnerOpensTerms(role, id, bound, y); }
    }
  }

  lemma OwnerTakesTerms(role: bool, id: Id, x: Slot, y: Slot, i: nat)
    requires Agreement(x, y) && Owns(role, id) && Terms(x, y) && i < |y.out|
    ensures Terms(Receive(role, id, x, y.out[i]).slot, y.(out := Without(y.out, i)))
  {
    hide InFlight, OpenBytes, OnTheWire, DecodeControl, Without, ResponderSound, Early;
    assert y.out[i] in y.out;
    if y.out[i].Control? { AckDecodes(); }
    SameCarried(x, Receive(role, id, x, y.out[i]).slot);
    if !Disagree(x, y) { WithoutCarried(y, i); }
  }

  lemma OwnerMovesTerms(role: bool, id: Id, move: Move, x: End, y: End)
    requires Agreement(x.slot, y.slot) && Owns(role, id) && Possible(id, move, x, y) && Terms(x.slot, y.slot)
    ensures Terms(MyMove(role, id, move, x, y).slot, YourMove(id, move, x, y).slot)
  {
    hide Agreement, BothLimits, AddDataChannel, OnNewDatachannel, Receive, EndTerms, Without;
    match move
    case Running(established) =>
      if x.tasks[0].AddChannel? {
        OwnerAddsTerms(role, established, x.tasks[0].id, x.slot, y.slot, x.tasks[0].params, x.tasks[0].negotiated);
      } else {
        hide RunTask;
        TaskKeepsTerms(role, established, x.slot, x.tasks[0]);
        LocalTaskKeepsChannel(role, established, x.slot, x.tasks[0]);
      }
    case Opening => OwnerOpensTerms(role, id, x.slot, y.slot);
    case Taking(i) => OwnerTakesTerms(role, id, x.slot, y.slot, i);
    case Losing(i) => if !Disagree(x.slot, y.slot) { LosingKeepsTerms(y.slot, i); }
    case Sending(payload) => SendKeepsTerms(id, x.slot, payload);
    case _ =>
  }

  lemma LocalTaskKeepsChannel(role: bool, established: bool, s: Slot, task: Task)
    requires IsLocalTask(task)
    ensures KeepsTerms(s, RunTask(role, established, s, task).slot)
    ensures s.channel.None? ==> RunTask(role, established, s, task).slot.channel.None?
  {
    TermsStay(role, established, task.id, s);
    LocalTaskBinds(role, established, s, task);
  }

  lemma LosingKeepsTerms(s: Slot, i: nat)
    requires EndTerms(s) && i < |s.out|
    ensures EndTerms(s.(out := Without(s.out, i)))
  {
    hide InFlight;
    WithoutCarried(s, i);
  }

  // ----- The other end moves -----

  lemma OtherOpensTerms(role: bool, id: Id, x: Slot, y: Slot)
    requires Agreement(x, y) && Owns(role, id) && Terms(x, y) && y.channel.Some? && !Visited(y)
    ensures Terms(x, OnNewDatachannel(!role, id, y).slot)
  {
    hide InFlight, InitiatorSound, ResponderSound, ControlInFlight, Early, OpenBytes, BothLimits;
    assert !Installed(y);
    TermsStay(!role, true, id, y);
    if !Disagree(x, y) { OpeningKeepsTerms(!role, id, y); }
  }

  lemma OtherAddsTerms(role: bool, established: bool, id: Id, x: Slot, y: Slot, params: Params, negotiated: bool)
    requires Agreement(x, y) && Owns(role, id) && Terms(x, y) && !BothLimits(params)
    ensures Terms(x, AddDataChannel(!role, established, id, y, params, negotiated).slot)
  {
    hide BothLimits, OnNewDatachannel, Agreement, InFlight;
    if y.channel.None? {
      var bound := y.(channel := Some(NewChannel(params, negotiated)));
      ResponderBinds(x, y, params, negotiated);
      SameCarried(y, bound);
      if established { OtherOpensTerms(role, id, x, bound); }
    }
  }

  lemma OtherTakesTerms(role: bool, id: Id, x: Slot, y: Slot, i: nat)
    requires Agreement(x, y) && Owns(role, id) && Terms(x, y) && i < |x.out|
    ensures Terms(x.(out := Without(x.out, i)), Receive(!role, id, y, x.out[i]).slot)
  {
    hide InFlight, OpenBytes, OnTheWire, DecodeControl, Without, Early;
    assert x.out[i] in x.out;
    WithoutCarried(x, i);
    if x.out[i].Control? { DecodedOpen(x.channel.value.params); }
    if !Disagree(x, y) { SameCarried(y, Receive(!role, id, y, x.out[i]).slot); }
  }

  lemma OtherMovesTerms(role: bool, id: Id, move: Move, x: End, y: End)
    requires Agreement(x.slot, y.slot) && Owns(role, id) && Possible(id, move, y, x) && Terms(x.slot, y.slot)
    ensures Terms(YourMove(id, move, y, x).slot, MyMove(!role, id, move, y, x).slot)
  {
    hide Agreement, BothLimits, AddDataChannel, OnNewDatachannel, Receive, EndTerms, Without;
    match move
    case Running(established) =>
      if y.tasks[0].AddChannel? {
        OtherAddsTerms(role, established, y.tasks[0].id, x.slot, y.slot, y.tasks[0].params, y.tasks[0].negotiated);
      } else {
        hide RunTask;
        LocalTaskKeepsChannel(!role, established, y.slot, y.tasks[0]);
        if !Disagree(x.slot, y.slot) { TaskKeepsTerms(!role, established, y.slot, y.tasks[0]); }
      }
    case Opening => OtherOpensTerms(role, id, x.slot, y.slot);
    case Taking(i) => OtherTakesTerms(role, id, x.slot, y.slot, i);
    case Losing(i) => LosingKeepsTerms(x.slot, i);
    case Sending(payload) => if !Disagree(x.slot, y.slot) { SendKeepsTerms(id, y.slot, payload); }
    case _ =>
  }

  // ----- Over every run -----

  ghost predicate TermsHold(w: World, left: bool, id: Id)
  {
    && (Owns(Mine(w, left).isClient, id) ==> Terms(EndOf(Mine(w, left), id).slot, EndOf(Mine(w, !left), id).slot))
    && (Owns(Mine(w, !left).isClient, id) ==> Terms(EndOf(Mine(w, !left), id).slot, EndOf(Mine(w, left), id).slot))
  }

  lemma StepKeepsTerms(w: World, step: Step, id: Id)
    requires Inv(false, w.left, w.right) && CanStep(w, step) && id != 65535 && TermsHold(w, step.byLeft, id)
    ensures TermsHold(Next(w, step), step.byLeft, id)
  {
    var me, you := Mine(w, step.byLeft), Mine(w, !step.byLeft);
    var move := MoveOf(me, step.event, id);
    hide EndOf, Act, Enabled, MoveOf, Pair, Counted, ValidAdds, Possible, Terms;
    if !step.byLeft { InvSwaps(false, w.left, w.right); }
    EventMoves(me, you, step.event, id);
    var x, y := EndOf(me, id), EndOf(you, id);
    PairIsFit(me.isClient, id, x, y);
    RolesStay(w, step);
    if Owns(me.isClient, id) { OwnerMovesTerms(me.isClient, id, move, x, y); }
    if Owns(you.isClient, id) { OtherMovesTerms(you.isClient, id, move, y, x); }
  }

  lemma {:induction false} TermsInRun(states: seq<World>, steps: seq<Step>, i: nat, left: bool, id: Id)
    requires IsRun(states, steps) && i < |states| && id != 65535
    ensures TermsHold(states[i], left, id)
  {
    hide Inv, CanStep, Next, Terms;
    if i == 0 {
      assert TermsHold(states[0], left, id) by { StartTerms(states[0], left, id); }
    } else {
      TermsInRun(states, steps, i - 1, steps[i - 1].byLeft, id);
      RunsKeepInv(false, states, steps, i - 1);
      StepKeepsTerms(states[i - 1], steps[i - 1], id);
    }
  }

  lemma StartTerms(w: World, left: bool, id: Id)
    requires w.left == NewAgent(w.left.isClient) && w.right == NewAgent(!w.left.isClient)
    ensures TermsHold(w, left, id)
  {
  }

  /** In every run all data in flight travels with the ordering and the reliability of the channel of the end that
      sent it, negotiated or not; only when the owner of the id offers a channel that the other end has negotiated can
      the other end's data be different. */
  lemma DataTravelsOnTerms(states: seq<World>, steps: seq<Step>, i: nat, left: bool, id: Id, k: nat)
    requires IsRun(states, steps) && i < |states| && id != 65535
    requires var s, peer := At(Mine(states[i], left), id), At(Mine(states[i], !left), id);
      k < |s.out| && s.out[k].Data? && (Owns(Mine(states[i], left).isClient, id) || !Disagree(peer, s))
    ensures var s := At(Mine(states[i], left), id);
      && s.channel.Some? && s.out[k].ordered == s.channel.value.params.ordered
      && s.out[k].reliable == (s.channel.value.params.maxPacketLifeTime == -1 && s.channel.value.params.maxRetransmits == -1)
  {
    hide IsRun;
    TermsInRun(states, steps, i, left, id);
    PairInRun(false, states, steps, i, left, id);
    var s := At(Mine(states[i], left), id);
    assert EndTerms(s);
    assert Carried(s, s.out[k]);
  }
}
