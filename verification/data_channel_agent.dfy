/** The data channel part of a transport agent as the C code keeps it: two hash tables, the pads and
    the main-loop queue, updated in place by each callback. Every method is proved to do what the
    functions of DataChannelSlot say for its id and to leave every other id alone. */
module DataChannelAgent {
  import opened Collections
  import opened WireBytes
  import opened OpenMessage
  import opened DataChannelSlot
  import World = DataChannelWorld

  /** The stream of one id: its pad, what has been pushed to it and not yet taken by the peer, and the
      two observations. */
  datatype Link = Link(hasPad: bool, out: seq<Message>, dropped: nat, aborted: bool)

  const NO_LINK := Link(false, [], 0, false)

  class TransportAgent {
    const isClient: bool
    var established: bool
    /** The session's table: channels the application added. */
    var sessionChannels: map<Id, Channel>
    /** The agent's own table. */
    var dataChannels: map<Id, Record>
    var links: map<Id, Link>
    var tasks: seq<Task>

    constructor (isClient: bool)
      ensures this.isClient == isClient && Represents(World.NewAgent(isClient))
    {
      this.isClient := isClient;
      established, sessionChannels, dataChannels, links, tasks := false, map[], map[], map[], [];
    }

    function LinkAt(id: Id): Link
      reads this
    {
      if id in links then links[id] else NO_LINK
    }

    function SlotAt(id: Id): Slot
      reads this
    {
      var l := LinkAt(id);
      Slot(if id in sessionChannels then Some(sessionChannels[id]) else None,
        if id in dataChannels then Some(dataChannels[id]) else None,
        l.hasPad, l.out, l.dropped, l.aborted)
    }

    /** This object is that agent of the two-peer model. */
    ghost predicate Represents(a: World.Agent)
      reads this
    {
      && a.isClient == isClient && a.established == established && a.tasks == tasks
      && forall k: Id :: World.At(a, k) == SlotAt(k)
    }

    /** Exactly the effect on one id, nothing on the others. */
    twostate predicate Did(id: Id, effect: Effect)
      reads this
    {
      && SlotAt(id) == effect.slot
      && tasks == old(tasks) + effect.tasks
      && established == old(established)
      && forall k: Id :: k != id ==> SlotAt(k) == old(SlotAt(k))
    }

    method PushBuffer(id: Id, m: Message)
      modifies this`links
      ensures links == old(links)[id := old(LinkAt(id)).(out := old(LinkAt(id)).out + [m])]
    {
      links := links[id := LinkAt(id).(out := LinkAt(id).out + [m])];
    }

    method CreateDatachannel(id: Id) returns (result: bool)
      requires id in sessionChannels
      modifies this`dataChannels, this`links
      ensures result <==> !BothLimits(old(sessionChannels[id]).params)
                          && (old(sessionChannels[id]).negotiated || ValidStreamId(isClient, id, false))
                          && id !in old(dataChannels)
      ensures !result ==> dataChannels == old(dataChannels) && links == old(links)
      ensures result ==>
        var ch := old(sessionChannels[id]);
        && dataChannels == old(dataChannels)[id := Record(Connecting, ch.params, ch.negotiated, true, false)]
        && (if ch.negotiated then links == old(links)
            else links == old(links)[id := old(LinkAt(id)).(out := old(LinkAt(id)).out + [Control(OpenBytes(ch.params))])])
    {
      var ch := sessionChannels[id];
      if ch.params.maxPacketLifeTime != -1 && ch.params.maxRetransmits != -1 {
        return false;
      }
      if !ch.negotiated && !ValidStreamId(isClient, id, false) {
        return false;
      }
      if id in dataChannels {
        return false;
      }
      dataChannels := dataChannels[id := Record(Connecting, ch.params, ch.negotiated, false, false)];
      dataChannels := dataChannels[id := dataChannels[id].(hasSource := true)];
      if !ch.negotiated {
        var buf := BuildOpenRequest(ch.params);
        PushBuffer(id, Control(buf[..]));
      }
      return true;
    }

    method CompleteDatachannelAndAck(id: Id)
      requires id in dataChannels
      modifies this`dataChannels, this`links
      ensures dataChannels == old(dataChannels)[id := old(dataChannels[id]).(hasSource := true)]
      ensures links == old(links)[id := old(LinkAt(id)).(out := old(LinkAt(id)).out + [Control(AckBytes())])]
    {
      dataChannels := dataChannels[id := dataChannels[id].(hasSource := true)];
      PushBuffer(id, Control([MESSAGE_ACK]));
    }

    /** on_new_datachannel for a channel without a record. */
    method OpenOwn(id: Id, visited: Channel)
      requires id in sessionChannels && id !in dataChannels
      modifies this
      ensures Did(id, DataChannelSlot.CreateDatachannel(isClient, id, old(SlotAt(id)), visited))
    {
      hide OpenBytes, BothLimits, ValidStreamId;
      sessionChannels := sessionChannels[id := visited];
      var created := CreateDatachannel(id);
      if !created {
        return;
      }
      if visited.negotiated {
        sessionChannels := sessionChannels[id := visited.(hasCallbacks := true)];
        dataChannels := dataChannels[id := dataChannels[id].(state := Opened)];
        tasks := tasks + [SetReady(id)];
      } else {
        sessionChannels := sessionChannels[id := visited.(hasCallbacks := true, opens := visited.opens + 1)];
      }
    }

    /** on_new_datachannel for a channel the peer initiated. */
    method AcceptRemote(id: Id, visited: Channel)
      requires id in sessionChannels && id in dataChannels
      modifies this
      ensures Did(id, AcceptDatachannel(id, old(SlotAt(id)), visited, old(dataChannels[id])))
    {
      sessionChannels := sessionChannels[id := visited];
      if visited.params != dataChannels[id].params || visited.negotiated != dataChannels[id].negotiated {
        return;
      }
      sessionChannels := sessionChannels[id := visited.(hasCallbacks := true)];
      CompleteDatachannelAndAck(id);
      dataChannels := dataChannels[id := dataChannels[id].(state := Opened)];
      tasks := tasks + [SetReady(id)];
    }

    method OnNewDatachannel(id: Id)
      requires id in sessionChannels
      modifies this
      ensures Did(id, if !old(established) then Effect(old(SlotAt(id)), [])
                      else DataChannelSlot.OnNewDatachannel(isClient, id, old(SlotAt(id))))
    {
      hide DataChannelSlot.CreateDatachannel, AcceptDatachannel;
      if !established {
        return;
      }
      var visited := sessionChannels[id].(visits := sessionChannels[id].visits + 1);
      if id !in dataChannels {
        OpenOwn(id, visited);
      } else {
        AcceptRemote(id, visited);
      }
    }

    method AddDataChannel(id: Id, params: Params, negotiated: bool)
      modifies this
      ensures Did(id, DataChannelSlot.AddDataChannel(isClient, old(established), id, old(SlotAt(id)), params, negotiated))
    {
      if id in sessionChannels {
        return;
      }
      sessionChannels := sessionChannels[id := NewChannel(params, negotiated)];
      OnNewDatachannel(id);
    }

    /** on_sctp_association_established; order is the session table's iteration order. The signal also comes
        when the association is terminated. */
    method OnSctpAssociationEstablished(nowEstablished: bool, order: seq<Id>, ghost a: World.Agent)
      requires Represents(a) && forall id :: id in order ==> id in sessionChannels
      modifies this
      ensures Represents(if nowEstablished then World.OpenAll(a.(established := true), order) else a.(established := false))
    {
      hide DataChannelSlot.OnNewDatachannel, World.OpenAll;
      established := nowEstablished;
      if !nowEstablished {
        assert forall k: Id :: World.At(a.(established := false), k) == World.At(a, k);
        return;
      }
      ghost var b := a.(established := true);
      assert forall k: Id :: World.At(b, k) == World.At(a, k);
      var i := 0;
      while i < |order|
        invariant i <= |order| && established && Represents(b)
        invariant forall id :: id in order ==> SlotAt(id).channel.Some?
        invariant World.OpenAll(b, order[i..]) == World.OpenAll(a.(established := true), order)
      {
        var id := order[i];
        assert World.At(b, id) == SlotAt(id) && order[i..][0] == id && order[i..][1..] == order[i + 1..];
        ghost var effect := DataChannelSlot.OnNewDatachannel(isClient, id, SlotAt(id));
        OpenAllNext(b, order[i..]);
        World.TermsStay(isClient, true, id, SlotAt(id));
        assert effect.slot.channel.Some?;
        OnNewDatachannel(id);
        b := World.Apply(b, id, effect);
        i := i + 1;
      }
      OpenAllDone(b);
      assert order[i..] == [];
    }

    method SctpdecPadAdded(id: Id) returns (accepted: bool)
      requires !LinkAt(id).hasPad
      modifies this`dataChannels, this`links
      ensures accepted <==> PadAdded(isClient, id, old(SlotAt(id))).Some?
      ensures SlotAt(id) == if accepted then PadAdded(isClient, id, old(SlotAt(id))).value
                            else PadRemoved(old(SlotAt(id)).(record := None))
      ensures forall k: Id :: k != id ==> SlotAt(k) == old(SlotAt(k))
    {
      var remotelyInitiated := false;
      if id !in dataChannels {
        remotelyInitiated := true;
        dataChannels := dataChannels[id := ZERO_RECORD];
      }
      var validId := ValidStreamId(isClient, id, remotelyInitiated);
      if !dataChannels[id].negotiated && !validId {
        dataChannels := dataChannels - {id};
        ResetStream(id);
        return false;
      }
      dataChannels := dataChannels[id := dataChannels[id].(hasSink := true)];
      links := links[id := LinkAt(id).(hasPad := true)];
      return true;
    }

    /** Resetting a stream removes its pad, which calls sctpdec_pad_removed before this returns. */
    method ResetStream(id: Id)
      requires id !in dataChannels
      modifies this`links
      ensures SlotAt(id) == PadRemoved(old(SlotAt(id)))
      ensures forall k: Id :: k != id ==> SlotAt(k) == old(SlotAt(k))
    {
      links := links[id := LinkAt(id).(hasPad := false)];
      Abort(id);
    }

    method Abort(id: Id)
      modifies this`links
      ensures links == old(links)[id := old(LinkAt(id)).(aborted := true)]
    {
      links := links[id := LinkAt(id).(aborted := true)];
    }

    method HandleDataChannelOpenRequest(id: Id, body: bytes)
      requires id in dataChannels && DecodeControl(body).Open?
      modifies this`dataChannels, this`tasks
      ensures var params := DecodeControl(body).params;
        && dataChannels == old(dataChannels)[id := old(dataChannels[id]).(params := params, negotiated := false)]
        && tasks == old(tasks) + [RequestChannel(id, params)]
    {
      var params := DecodeControl(body).params;
      dataChannels := dataChannels[id := dataChannels[id].(params := params, negotiated := false)];
      tasks := tasks + [RequestChannel(id, params)];
    }

    /** new_data_callback */
    method NewData(id: Id, m: Message)
      requires id in dataChannels
      modifies this
      ensures Did(id, HandleMessage(id, old(SlotAt(id)), m))
    {
      hide DecodeControl;
      match m
      case Control(body) =>
        match DecodeControl(body) {
          case Open(_) =>
            HandleDataChannelOpenRequest(id, body);
          case Ack =>
            if id !in sessionChannels {
              Abort(id);
            } else {
              dataChannels := dataChannels[id := dataChannels[id].(state := Opened)];
              tasks := tasks + [SetReady(id)];
            }
          case Ignored =>
          case Overrun =>
        }
      case Data(payload, _, _) =>
        if dataChannels[id].state != Opened {
          links := links[id := LinkAt(id).(dropped := LinkAt(id).dropped + 1)];
        } else if id !in sessionChannels {
          Abort(id);
        } else {
          tasks := tasks + [EmitData(id, payload)];
        }
    }

    /** A message arrives: the stream's first one makes its pad. */
    method MessageArrives(id: Id, m: Message)
      modifies this
      ensures Did(id, Receive(isClient, id, old(SlotAt(id)), m))
    {
      hide HandleMessage, PadAdded;
      if !LinkAt(id).hasPad {
        PadGivesRecord(isClient, id, SlotAt(id));
        var accepted := SctpdecPadAdded(id);
        if !accepted {
          return;
        }
        NewData(id, m);
      } else if id !in dataChannels {
        Abort(id);
      } else {
        NewData(id, m);
      }
    }

    method OnDatachannelSend(id: Id, payload: Payload)
      modifies this`links
      ensures SlotAt(id) == DataChannelSlot.OnDatachannelSend(old(SlotAt(id)), payload)
      ensures forall k: Id :: k != id ==> SlotAt(k) == old(SlotAt(k))
    {
      if payload.data == [] {
        return;
      }
      if id !in dataChannels {
        Abort(id);
        return;
      }
      var p := dataChannels[id].params;
      var reliable := false;
      if p.maxPacketLifeTime == -1 && p.maxRetransmits == -1 {
        reliable := true;
      }
      PushBuffer(id, Data(payload, p.ordered, reliable));
    }

    /** owr_data_channel_send and owr_data_channel_send_binary */
    method Send(id: Id, payload: Payload)
      requires id in sessionChannels
      modifies this`sessionChannels, this`tasks
      ensures Did(id, DataChannelSlot.Send(id, old(SlotAt(id)), payload))
    {
      if |payload.data| > 65535 {
        return;
      }
      sessionChannels := sessionChannels[id := sessionChannels[id].(sent := sessionChannels[id].sent + [payload])];
      tasks := tasks + [SendData(id, payload)];
    }

    /** One iteration of the main loop. */
    method RunNextTask()
      requires tasks != []
      modifies this
      ensures var task := old(tasks[0]);
              var effect := RunTask(isClient, old(established), old(SlotAt(task.id)), task);
              && SlotAt(task.id) == effect.slot
              && tasks == old(tasks)[1..] + effect.tasks
              && established == old(established)
              && forall k: Id :: k != task.id ==> SlotAt(k) == old(SlotAt(k))
    {
      hide DataChannelSlot.OnDatachannelSend, DataChannelSlot.AddDataChannel;
      var task := tasks[0];
      tasks := tasks[1..];
      match task
      case AddChannel(id, params, negotiated) =>
        AddDataChannel(id, params, negotiated);
      case SetReady(id) =>
        if id in sessionChannels {
          sessionChannels := sessionChannels[id := sessionChannels[id].(ready := Opened)];
        }
      case SendData(id, payload) =>
        if id in sessionChannels && sessionChannels[id].hasCallbacks {
          OnDatachannelSend(id, payload);
        }
      case EmitData(id, payload) =>
        if id in sessionChannels {
          sessionChannels := sessionChannels[id := sessionChannels[id].(received := sessionChannels[id].received + [payload])];
        }
      case RequestChannel(_, _) =>
    }
  }

  lemma PadGivesRecord(isClient: bool, id: Id, s: Slot)
    ensures PadAdded(isClient, id, s).Some? ==> PadAdded(isClient, id, s).value.record.Some?
    ensures PadAdded(isClient, id, s).Some? ==>
      && PadAdded(isClient, id, s).value.channel == s.channel && PadAdded(isClient, id, s).value.out == s.out
  {
  }

  lemma OpenAllNext(a: World.Agent, order: seq<Id>)
    requires order != [] && World.At(a, order[0]).channel.Some?
    ensures World.OpenAll(a, order)
         == World.OpenAll(World.Apply(a, order[0], DataChannelSlot.OnNewDatachannel(a.isClient, order[0], World.At(a, order[0]))),
              order[1..])
  {
  }

  lemma OpenAllDone(a: World.Agent)
    ensures World.OpenAll(a, []) == a
  {
  }
}
