/** What holds between the two ends of one stream id, whichever of them acts. The initiator is the end
    whose DTLS role owns the id. */
module DataChannelAgreement {
  import opened Collections
  import opened OpenMessage
  import opened DataChannelSlot

  /** The client owns the even ids and the server the odd ones; 65535 is nobody's. */
  predicate Owns(isClient: bool, id: Id)
  {
    ValidStreamId(isClient, id, false)
  }

  predicate Initiated(x: Slot)
  {
    x.record.Some? && x.channel.Some? && !x.channel.value.negotiated
  }

  /** The responder has the initiator's parameters in its record, as they came over the wire. */
  predicate Offered(x: Slot, y: Slot)
  {
    && Initiated(x) && y.record.Some? && !y.record.value.negotiated
    && y.record.value.params == OnTheWire(x.channel.value.params)
  }

  /** The responder's application has added the very channel that was offered. */
  predicate Accepted(x: Slot, y: Slot)
  {
    && Offered(x, y) && y.record.value.state == Opened
    && y.channel.Some? && !y.channel.value.negotiated
    && y.channel.value.params == OnTheWire(x.channel.value.params)
  }

  predicate IsOpen(s: Slot)
  {
    s.record.Some? && s.record.value.state == Opened
  }

  predicate Visited(s: Slot)
  {
    s.channel.Some? && s.channel.value.visits > 0
  }

  /** Both ends: the application gives no channel two limits, callbacks come with a record and the pad
      with its sink. */
  predicate Sound(s: Slot)
  {
    && (s.channel.Some? ==> !BothLimits(s.channel.value.params))
    && (s.channel.Some? && s.channel.value.hasCallbacks ==> s.record.Some? && Visited(s))
    && (s.record.Some? && s.record.value.hasSink <==> s.hasPad)
  }

  /** The end that owns the id has a record exactly for its own channel. */
  predicate InitiatorSound(x: Slot)
  {
    && (x.record.Some? ==> Visited(x) && x.record.value.params == x.channel.value.params
                           && x.record.value.negotiated == x.channel.value.negotiated
                           && x.channel.value.hasCallbacks)
    && (x.channel.Some? && !x.channel.value.negotiated ==> x.channel.value.opens == x.channel.value.visits)
    && (x.channel.Some? && x.channel.value.negotiated ==> x.channel.value.opens == 0)
    && (x.channel.Some? && !x.channel.value.negotiated && Visited(x) ==> x.record.Some?)
  }

  /** The other end never opens the id itself; its record is its negotiated channel's, still empty, or
      the initiator's offer. */
  predicate ResponderSound(x: Slot, y: Slot)
  {
    && (y.channel.Some? ==> y.channel.value.opens == 0)
    && (y.record.Some? ==>
          (Visited(y) && y.channel.value.negotiated && (y.record.value.negotiated || y.hasPad))
          || (y.hasPad && y.record.value == ZERO_RECORD.(hasSink := true))
          || (y.hasPad && Offered(x, y)))
    && (IsOpen(y) ==> Visited(y) && y.channel.value.hasCallbacks && (y.channel.value.negotiated || Accepted(x, y)))
  }

  /** The control messages in flight: OPEN one way, ACK the other, the ACK only after acceptance. */
  predicate ControlInFlight(x: Slot, y: Slot)
  {
    && (forall m :: m in x.out && m.Control? ==> Initiated(x) && m.body == OpenBytes(x.channel.value.params))
    && (forall m :: m in y.out && m.Control? ==> m.body == AckBytes() && Accepted(x, y))
  }

  predicate Negotiated(s: Slot)
  {
    s.channel.Some? && s.channel.value.negotiated
  }

  /** Only a negotiated channel of the other end can send before the owner has a record, and only then can
      an assertion of the owner have failed; none of the other end has. */
  predicate Early(x: Slot, y: Slot)
  {
    && (y.channel.Some? && y.channel.value.hasCallbacks && !Negotiated(y) ==> x.record.Some?)
    && (forall m :: m in y.out && m.Data? ==> Negotiated(y) || x.record.Some?)
    && (x.aborted ==> Negotiated(y))
    && !y.aborted
  }

  predicate Agreement(x: Slot, y: Slot)
  {
    && Sound(x) && Sound(y)
    && InitiatorSound(x) && ResponderSound(x, y)
    && ControlInFlight(x, y) && Early(x, y)
    && (Initiated(x) && IsOpen(x) ==> Accepted(x, y))
  }

  lemma AgreementInitially()
    ensures Agreement(EMPTY, EMPTY)
  {
  }

  // ----- Binding and opening -----

  lemma InitiatorBinds(x: Slot, y: Slot, params: Params, negotiated: bool)
    requires Agreement(x, y) && x.channel.None? && !BothLimits(params)
    ensures Agreement(x.(channel := Some(NewChannel(params, negotiated))), y)
  {
  }

  lemma ResponderBinds(x: Slot, y: Slot, params: Params, negotiated: bool)
    requires Agreement(x, y) && y.channel.None? && !BothLimits(params)
    ensures Agreement(x, y.(channel := Some(NewChannel(params, negotiated))))
  {
  }

  lemma InitiatorOpens(xc: bool, id: Id, x: Slot, y: Slot)
    requires Agreement(x, y) && Owns(xc, id) && x.channel.Some? && !Visited(x)
    ensures Agreement(OnNewDatachannel(xc, id, x).slot, y)
  {
    var x' := OnNewDatachannel(xc, id, x).slot;
    assert x.record.None?;
    forall m | m in x'.out && m.Control? ensures Initiated(x') && m.body == OpenBytes(x'.channel.value.params) {
      assert m in x.out ==> Initiated(x);
    }
    assert forall m :: m in y.out && m.Control? ==> Accepted(x, y);
  }

  lemma ResponderOpens(yc: bool, id: Id, x: Slot, y: Slot)
    requires Agreement(x, y) && Owns(!yc, id) && y.channel.Some? && !Visited(y)
    ensures Agreement(x, OnNewDatachannel(yc, id, y).slot)
  {
    var y' := OnNewDatachannel(yc, id, y).slot;
    forall m | m in y'.out && m.Control? ensures m.body == AckBytes() && Accepted(x, y') {
      if m in y.out { assert Accepted(x, y); }
    }
  }

  // ----- Messages -----

  lemma WithoutIsSubset(out: seq<Message>, i: nat)
    requires i < |out|
    ensures forall m :: m in Without(out, i) ==> m in out
  {
  }

  lemma AckDecodes()
    ensures DecodeControl(AckBytes()) == Ack
  {
  }

  /** A message that is gone, received or lost, was the only thing to change. */
  lemma MessageGone(x: Slot, y: Slot, i: nat)
    requires Agreement(x, y)
    ensures i < |x.out| ==> Agreement(x.(out := Without(x.out, i)), y)
    ensures i < |y.out| ==> Agreement(x, y.(out := Without(y.out, i)))
  {
    if i < |x.out| { WithoutIsSubset(x.out, i); }
    if i < |y.out| { WithoutIsSubset(y.out, i); }
  }

  lemma PadsKeepAgreement(xc: bool, id: Id, x: Slot, y: Slot)
    requires Agreement(x, y) && Owns(xc, id)
    ensures !x.hasPad ==> match PadAdded(xc, id, x) case Some(padded) => Agreement(padded, y) case None => x.record.None?
    ensures !y.hasPad ==> PadAdded(!xc, id, y).Some? && Agreement(x, PadAdded(!xc, id, y).value)
  {
  }

  lemma InitiatorHandles(id: Id, x: Slot, y: Slot, m: Message)
    requires Agreement(x, y) && x.record.Some? && m in y.out
    ensures Agreement(HandleMessage(id, x, m).slot, y)
  {
    hide DecodeControl, OpenBytes, OnTheWire, BothLimits;
    AckDecodes();
  }

  lemma ResponderHandles(id: Id, x: Slot, y: Slot, m: Message)
    requires Agreement(x, y) && y.record.Some? && y.hasPad && m in x.out
    ensures Agreement(x, HandleMessage(id, y, m).slot)
  {
    hide DecodeControl, OpenBytes, OnTheWire;
    if m.Control? { DecodedOpen(x.channel.value.params); }
  }

  /** What an owner without a record can be sent comes from a negotiated channel of the other end, and its
      assertion fails. */
  lemma OwnerRefuses(x: Slot, y: Slot, i: nat)
    requires Agreement(x, y) && x.record.None? && i < |y.out|
    ensures Negotiated(y) && Agreement(x.(aborted := true), y) && !x.hasPad
    ensures x.(record := None, hasPad := false, aborted := true) == x.(aborted := true)
  {
    assert y.out[i] in y.out;
  }

  lemma InitiatorReceives(xc: bool, id: Id, x: Slot, y: Slot, i: nat)
    requires Agreement(x, y) && Owns(xc, id) && i < |y.out|
    ensures Agreement(Receive(xc, id, x, y.out[i]).slot, y.(out := Without(y.out, i)))
  {
    hide Agreement, HandleMessage, PadAdded;
    PadsKeepAgreement(xc, id, x, y);
    SoundPads(x, y);
    if x.hasPad {
      InitiatorHandles(id, x, y, y.out[i]);
    } else if PadAdded(xc, id, x).Some? {
      SoundPads(PadAdded(xc, id, x).value, y);
      PaddedHasRecord(xc, id, x);
      InitiatorHandles(id, PadAdded(xc, id, x).value, y, y.out[i]);
    } else {
      OwnerRefuses(x, y, i);
      assert Receive(xc, id, x, y.out[i]).slot == x.(aborted := true);
    }
    MessageGone(Receive(xc, id, x, y.out[i]).slot, y, i);
  }

  lemma ResponderReceives(xc: bool, id: Id, x: Slot, y: Slot, i: nat)
    requires Agreement(x, y) && Owns(xc, id) && i < |x.out|
    ensures Agreement(x.(out := Without(x.out, i)), Receive(!xc, id, y, x.out[i]).slot)
  {
    hide Agreement, HandleMessage, PadAdded;
    PadsKeepAgreement(xc, id, x, y);
    SoundPads(x, y);
    if y.hasPad {
      ResponderHandles(id, x, y, x.out[i]);
    } else {
      PaddedHasRecord(!xc, id, y);
      ResponderHandles(id, x, PadAdded(!xc, id, y).value, x.out[i]);
    }
    MessageGone(x, Receive(!xc, id, y, x.out[i]).slot, i);
  }

  lemma SoundPads(x: Slot, y: Slot)
    requires Agreement(x, y)
    ensures x.hasPad ==> x.record.Some?
    ensures y.hasPad ==> y.record.Some?
  {
  }

  lemma PaddedHasRecord(isClient: bool, id: Id, s: Slot)
    requires PadAdded(isClient, id, s).Some?
    ensures PadAdded(isClient, id, s).value.record.Some? && PadAdded(isClient, id, s).value.hasPad
  {
  }

  // ----- The application and its tasks -----

  lemma SendKeepsAgreement(id: Id, x: Slot, y: Slot, payload: Payload)
    requires Agreement(x, y)
    ensures x.channel.Some? ==> Agreement(Send(id, x, payload).slot, y)
    ensures y.channel.Some? ==> Agreement(x, Send(id, y, payload).slot)
  {
    hide BothLimits, OpenBytes, OnTheWire, AckBytes;
  }

  predicate IsLocalTask(task: Task)
  {
    !task.AddChannel?
  }

  lemma InitiatorRunsTask(xc: bool, established: bool, x: Slot, y: Slot, task: Task)
    requires Agreement(x, y) && IsLocalTask(task)
    ensures Agreement(RunTask(xc, established, x, task).slot, y)
  {
  }

  lemma ResponderRunsTask(yc: bool, established: bool, x: Slot, y: Slot, task: Task)
    requires Agreement(x, y) && IsLocalTask(task)
    ensures Agreement(x, RunTask(yc, established, y, task).slot)
  {
  }

  // ----- What it amounts to -----

  /** If a channel's owner, having opened it with an OPEN message, sees it open, then the peer's
      application has accepted the same id with the parameters that crossed the wire; they are the
      owner's own exactly when the label and the protocol fit their 16-bit lengths. */
  lemma OpenMeansAgreed(xc: bool, id: Id, x: Slot, y: Slot)
    requires Agreement(x, y) && Owns(xc, id)
    requires x.channel.Some? && !x.channel.value.negotiated && IsOpen(x)
    ensures IsOpen(y) && y.channel.Some? && !y.channel.value.negotiated
    ensures y.channel.value.params == y.record.value.params == OnTheWire(x.channel.value.params)
    ensures y.channel.value.params == x.channel.value.params <==> Transmissible(x.channel.value.params)
  {
    var p := x.channel.value.params;
    if Transmissible(p) {
      assert p.channelLabel[..|p.channelLabel|] == p.channelLabel && p.protocol[..|p.protocol|] == p.protocol;
    } else {
      assert |OnTheWire(p).channelLabel| < |p.channelLabel| || |OnTheWire(p).protocol| < |p.protocol|;
    }
  }
}
