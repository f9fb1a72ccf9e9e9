/** What one transport agent does with one SCTP stream id: the application's channel in the data
    session, the agent's channel record, the stream's receive pad and the messages under way to the
    peer. Every function below is one callback; what it schedules on the main loop is returned. */
module DataChannelSlot {
  import opened Collections
  import opened WireBytes
  import opened OpenMessage

  type Id = uint16

  datatype State = Connecting | Opened

  datatype Payload = Payload(data: bytes, isBinary: bool)

  /** The application's channel. The last four fields observe: effective runs of on_new_datachannel
      for it, OPEN messages pushed, and the payloads accepted from and given to the application. */
  datatype Channel = Channel(params: Params, negotiated: bool, ready: State, hasCallbacks: bool,
    visits: nat, opens: nat, sent: seq<Payload>, received: seq<Payload>)

  datatype Record = Record(state: State, params: Params, negotiated: bool, hasSource: bool, hasSink: bool)

  datatype Message =
    | Control(body: bytes)
    | Data(payload: Payload, ordered: bool, reliable: bool)

  /** `dropped` counts data that arrived before the channel was established; `aborted` is set where
      the C code asserts. */
  datatype Slot = Slot(channel: Option<Channel>, record: Option<Record>, hasPad: bool, out: seq<Message>,
    dropped: nat, aborted: bool)

  const EMPTY := Slot(None, None, false, [], 0, false)

  datatype Task =
    | AddChannel(id: Id, params: Params, negotiated: bool)
    | SetReady(id: Id)
    | SendData(id: Id, payload: Payload)
    | EmitData(id: Id, payload: Payload)
    | RequestChannel(id: Id, params: Params)

  datatype Effect = Effect(slot: Slot, tasks: seq<Task>)

  /** The zero-filled record that a pad for an unknown id gets; its NULL strings are empty here. */
  const ZERO_PARAMS := Params(false, 0, 0, [], [])
  const ZERO_RECORD := Record(Connecting, ZERO_PARAMS, false, false, false)

  /** is_valid_sctp_stream_id */
  predicate ValidStreamId(isClient: bool, id: Id, remotelyInitiated: bool)
  {
    var result := !(id == 65535 || (id % 2 == 0 && !isClient) || (id % 2 == 1 && isClient));
    if remotelyInitiated then !result else result
  }

  function NewChannel(params: Params, negotiated: bool): Channel
  {
    Channel(params, negotiated, Connecting, false, 0, 0, [], [])
  }

  /** create_datachannel, with the callbacks and the state on_new_datachannel adds on success. */
  function CreateDatachannel(isClient: bool, id: Id, s: Slot, ch: Channel): Effect
  {
    if BothLimits(ch.params) || (!ch.negotiated && !ValidStreamId(isClient, id, false)) then
      Effect(s.(channel := Some(ch)), [])
    else if ch.negotiated then
      Effect(s.(channel := Some(ch.(hasCallbacks := true)),
        record := Some(Record(Opened, ch.params, true, true, false))), [SetReady(id)])
    else
      Effect(s.(channel := Some(ch.(hasCallbacks := true, opens := ch.opens + 1)),
        record := Some(Record(Connecting, ch.params, false, true, false)),
        out := s.out + [Control(OpenBytes(ch.params))]), [])
  }

  /** complete_data_channel_and_ack and what follows it, if the added channel matches the record. */
  function AcceptDatachannel(id: Id, s: Slot, ch: Channel, rec: Record): Effect
  {
    if ch.params != rec.params || ch.negotiated != rec.negotiated then Effect(s.(channel := Some(ch)), [])
    else
      Effect(s.(channel := Some(ch.(hasCallbacks := true)),
        record := Some(rec.(state := Opened, hasSource := true)),
        out := s.out + [Control(AckBytes())]), [SetReady(id)])
  }

  /** on_new_datachannel once the association is established. */
  function OnNewDatachannel(isClient: bool, id: Id, s: Slot): Effect
    requires s.channel.Some?
  {
    var ch := s.channel.value.(visits := s.channel.value.visits + 1);
    match s.record
    case None => CreateDatachannel(isClient, id, s, ch)
    case Some(rec) => AcceptDatachannel(id, s, ch, rec)
  }

  /** add_data_channel of the session, with the callback of the agent. */
  function AddDataChannel(isClient: bool, established: bool, id: Id, s: Slot, params: Params, negotiated: bool): Effect
  {
    if s.channel.Some? then Effect(s, [])
    else
      var bound := s.(channel := Some(NewChannel(params, negotiated)));
      if established then OnNewDatachannel(isClient, id, bound) else Effect(bound, [])
  }

  /** sctpdec_pad_added: the first message of a stream makes its pad. None: the id was refused, the record
      removed and the stream reset, which removes the pad again. */
  function PadAdded(isClient: bool, id: Id, s: Slot): Option<Slot>
  {
    var remotelyInitiated := s.record.None?;
    var rec := if remotelyInitiated then ZERO_RECORD else s.record.value;
    if !rec.negotiated && !ValidStreamId(isClient, id, remotelyInitiated) then None
    else Some(s.(record := Some(rec.(hasSink := true)), hasPad := true))
  }

  function HandleControl(id: Id, s: Slot, body: bytes): Effect
    requires s.record.Some?
  {
    match DecodeControl(body)
    case Open(params) =>
      Effect(s.(record := Some(s.record.value.(params := params, negotiated := false))), [RequestChannel(id, params)])
    case Ack =>
      if s.channel.None? then Effect(s.(aborted := true), [])
      else Effect(s.(record := Some(s.record.value.(state := Opened))), [SetReady(id)])
    case Ignored => Effect(s, [])
    case Overrun => Effect(s, [])
  }

  function HandleData(id: Id, s: Slot, payload: Payload): Effect
    requires s.record.Some?
  {
    if s.record.value.state != Opened then Effect(s.(dropped := s.dropped + 1), [])
    else if s.channel.None? then Effect(s.(aborted := true), [])
    else Effect(s, [EmitData(id, payload)])
  }

  /** new_data_callback */
  function HandleMessage(id: Id, s: Slot, m: Message): Effect
    requires s.record.Some?
  {
    match m
    case Control(body) => HandleControl(id, s, body)
    case Data(payload, _, _) => HandleData(id, s, payload)
  }

  /** The beginning of sctpdec_pad_removed, which asserts that there is a record. */
  function PadRemoved(s: Slot): Slot
  {
    if s.record.None? then s.(hasPad := false, aborted := true) else s
  }

  /** A message leaves the network for this agent. */
  function Receive(isClient: bool, id: Id, s: Slot, m: Message): Effect
  {
    if s.hasPad then
      if s.record.None? then Effect(s.(aborted := true), []) else HandleMessage(id, s, m)
    else
      match PadAdded(isClient, id, s)
      case None => Effect(PadRemoved(s.(record := None)), [])
      case Some(padded) => HandleMessage(id, padded, m)
  }

  /** owr_data_channel_send and owr_data_channel_send_binary */
  function Send(id: Id, s: Slot, payload: Payload): Effect
    requires s.channel.Some?
  {
    if |payload.data| > 65535 then Effect(s, [])
    else
      Effect(s.(channel := Some(s.channel.value.(sent := s.channel.value.sent + [payload]))), [SendData(id, payload)])
  }

  /** on_datachannel_send; an empty payload is a NULL buffer, which it refuses. */
  function OnDatachannelSend(s: Slot, payload: Payload): Slot
  {
    if payload.data == [] then s
    else if s.record.None? then s.(aborted := true)
    else
      var p := s.record.value.params;
      s.(out := s.out + [Data(payload, p.ordered, p.maxPacketLifeTime == -1 && p.maxRetransmits == -1)])
  }

  /** One main-loop task. */
  function RunTask(isClient: bool, established: bool, s: Slot, task: Task): Effect
  {
    match task
    case AddChannel(id, params, negotiated) => AddDataChannel(isClient, established, id, s, params, negotiated)
    case SetReady(_) =>
      if s.channel.None? then Effect(s, [])
      else Effect(s.(channel := Some(s.channel.value.(ready := Opened))), [])
    case SendData(_, payload) =>
      if s.channel.None? || !s.channel.value.hasCallbacks then Effect(s, [])
      else Effect(OnDatachannelSend(s, payload), [])
    case EmitData(_, payload) =>
      if s.channel.None? then Effect(s, [])
      else Effect(s.(channel := Some(s.channel.value.(received := s.channel.value.received + [payload]))), [])
    case RequestChannel(_, _) => Effect(s, [])
  }

  // ----- The stream between the peers -----

  /** Unordered data may overtake; everything else waits for the earlier ordered messages. */
  predicate Deliverable(out: seq<Message>, i: nat)
  {
    i < |out| && (CanOvertake(out[i]) || forall j :: 0 <= j < i ==> CanOvertake(out[j]))
  }

  predicate CanOvertake(m: Message)
  {
    m.Data? && !m.ordered
  }

  predicate CanBeLost(m: Message)
  {
    m.Data? && !m.reliable
  }

  function Without(out: seq<Message>, i: nat): seq<Message>
    requires i < |out|
  {
    out[..i] + out[i + 1..]
  }
}
