# OpenWebRTC protocol logic

A Dafny model of the parts of OpenWebRTC that are protocols and state machines: the transport agent's
congestion feedback, its data channels and its candidate gathering, the message bus, the list-closure
merger, the lifetimes of sources, renderers and windows, and the BMP writer. `dafny verify dfyconfig.toml`
checks everything.

Each component has a model on values - one function per callback, with the source's branches, constants and
integer widths - and theorems about every run or every interleaving of the callbacks. Beside it stand the
objects as the source has them: classes whose methods update fields, tables and buffers in place, in loops
where the source loops, each proved to do what the functions say. A callback is one atomic step; where the
source has threads (the message bus, the merger) a step is one atomic operation of one thread. GStreamer
elements are opaque, the main loop is a first-in first-out queue, and an SCTP stream loses only what was sent
unreliably and reorders only what was sent unordered. What the environment decides (room in an RTCP packet,
the order of a hash table, resolved addresses, scheduling) is a parameter.

| module | component |
|---|---|
| `ScreamTracker`, `FeedbackQueue` | SCReAM receiver state, the RTCP feedback list and its wire format |
| `OpenMessage` | the data channel OPEN message (section 5.1 of RFC 8832) |
| `DataChannelSlot`, `DataChannelAgreement`, `DataChannelFlow`, `DataChannelWorld`, `DataChannelMoves`, `DataChannelLedger`, `DataChannelHandshake`, `DataChannelTerms`, `DataChannelOrdering`, `DataChannelAborts`, `DataChannelAgent` | the two-peer OPEN/ACK protocol: one id, its invariants, two whole agents, what an event does to one id, where all data goes, that no handshake gets stuck, on what terms data travels, what ordering decides, when assertions fail, the object |
| `DataChannelTeardown` | closing and resetting channels |
| `BufferedAmount` | the buffered amount in unsigned arithmetic |
| `MessageBus`, `MessageBusSteps`, `MessageBusReferences`, `MessageBusRuns`, `MessageBusDelivery`, `MessageBusObjects` | origins, buses, messages: the steps, what they keep, what every interleaving gives, who gets what, the objects |
| `ListMerger`, `ListMergerClosure` | the merger and its two users |
| `LocalSource` | the shared local source |
| `WindowRegistry` | window tags, video renderers, their sinks and branches |
| `Gathering` | helper servers, relays and candidate gathering |
| `BmpWriter` | the image renderer's BMP |
| `Collections`, `Subsequences`, `WireBytes`, `WordBits` | shared vocabulary |

## Results worth knowing

- The acknowledgement tracker is exact if and only if no ordinary packet meets the initial sentinel; a stream
  that starts at sequence number 0 re-enters it and counts one loss more.
- A label or protocol longer than 65535 bytes crosses the wire truncated, so agreement on identical
  parameters holds exactly for transmissible ones. An empty payload has no buffer and is never sent.
- Data is dropped before a channel is established in some run if and only if the channel is unordered: the
  responder's first payload can then overtake its ACK.
- On every kind of channel data given to an open end reaches its application, in the order of delivery; only what
  arrives earlier, is lost on the way, or is sent before the callbacks are there is not.
- One agent fails exactly when a channel without a record is closed or used (after a close, say), when the remote
  end resets a stream whose channel the application never added, or when it opens a stream without a record on
  an id that the agent owns; each happens. Between two agents the last can happen if and only if the other end
  has negotiated the id.
- Bytes whose main-loop task runs before the callbacks are installed are freed and stay in the buffered amount for
  ever; those whose task runs later are pushed.
- Branches and requests match over a whole run if and only if no request gets the number of an attached
  branch. Before the 32-bit counter wraps every release finds its own branch or none; afterwards a request can
  clash, and even without a clash a stale release can find another's branch.
- Setting a sink over a sink leaks a branch; no sequence of registry operations does so.
- The BMP loop ends if and only if the frame is empty or its width is not a multiple of 2^27, leaves the header
  alone if and only if whole rows fill the frame, and for a frame of exactly its pixels the header is right if
  and only if 32 times the width fits 32 bits.

## Model

| member | source | states |
|---|---|---|
| ScreamTracker.TrackerRefinesHistory | transport/owr_transport_agent.c:4324-4353 | for every arrival sequence within 20000 of the running maximum: highest_seq is the maximum modulo 65536 and bit 16-d of ack_vec is set exactly when index max-d has arrived (d in 1..15), after every arrival, if and only if the initial sentinel is never re-entered by an ordinary packet |
| ScreamTracker.WindowIsTight | transport/owr_transport_agent.c:4326-4332 | the window of 20000 cannot be widened: after any first packet off the sentinel, one 20001 above or below it is tracked exactly if and only if the 16-bit numbers wrap between the two |
| ScreamTracker.ReceiveExact | transport/owr_transport_agent.c:4324-4353 | one packet inside the window keeps the tracker exact, through wraparound, duplicates and reordering |
| ScreamTracker.ReceiveCollision | transport/owr_transport_agent.c:4326-4328 | a packet met in the sentinel state by mistake makes the tracker inexact |
| ScreamTracker.SentinelMatchesHistory | transport/owr_transport_agent.c:4326 | highest_seq and ack_vec are both zero exactly when the history looks like the start: maximum 0 modulo 65536 and none of the 15 indices below it received |
| ScreamTracker.BitAfterReceive | transport/owr_transport_agent.c:4334-4353 | which acknowledgement bits are set after one packet, in terms of those set before |
| ScreamTracker.LossCounterRefinesHistory | transport/owr_transport_agent.c:4354-4360 | n_loss is, modulo 256, the number of arrivals after which index max-5 was missing |
| ScreamTracker.LossCounterExact | transport/owr_transport_agent.c:4335-4360 | for strictly increasing arrivals, n_loss is modulo 256 the number of received r whose r-5 was never received |
| ScreamTracker.GapFreeRun | transport/owr_transport_agent.c:4324-4360 | a gap-free run of n packets counts min(n,5) losses from a nonzero start and min(n,6) from zero, at any length and across wraparound |
| ScreamTracker.StartingAtZero | transport/owr_transport_agent.c:4326-4328 | a first packet numbered zero leaves the sentinel, so the second is first again and one more loss is counted |
| FeedbackQueue.FeedbackRefinesReports | transport/owr_transport_agent.c:2976-3034 | in every run: at most one queued entry per session and ssrc, the newest; every report sent once, superseded once or still queued; what the peer decodes for a key is an in-order subsequence of what was produced for it |
| FeedbackQueue.FeedbackSurvivesTheWire | transport/owr_transport_agent.c:3009-3020 | the packet byte by byte - type, format, source, and the 12-byte FCI in network byte order - and decoding it gives back highest_seq, n_loss, n_ecn and the 32-bit timestamp |
| FeedbackQueue.DrainByKey | transport/owr_transport_agent.c:2976-3034 | for a key with at most one entry queued, which every run keeps: what a drain sends for it and then what it keeps is what was queued |
| FeedbackQueue.DrainConserves | transport/owr_transport_agent.c:2976-3034 | sent and kept together are the list, each entry once |
| FeedbackQueue.DrainBySession | transport/owr_transport_agent.c:2984-2989 | a drain for one session keeps all entries of other sessions, in order |
| FeedbackQueue.KeptInOrder | transport/owr_transport_agent.c:2991-3015 | what a drain keeps is an in-order part of the list |
| FeedbackQueue.DrainAt | transport/owr_transport_agent.c:2984-3029 | entry by entry: it stays, in its place, exactly if it is transport feedback of another session, if there was no room for a packet or, in the SCReAM format, none for the FCI; otherwise it is sent |
| FeedbackQueue.NoRoomSendsNothing | transport/owr_transport_agent.c:2991-2994 | without room for any packet the list stays as it is and nothing is sent |
| FeedbackQueue.RequeueIs | transport/owr_transport_agent.c:4384-4394 | a new report goes to the end, the first entry of its key leaves, and the order of the others stays |
| FeedbackQueue.ProduceKeepsInvariant | transport/owr_transport_agent.c:4366-4394 | replacing a feedback entry keeps one entry per key and conserves the reports |
| FeedbackQueue.DrainKeepsInvariant | transport/owr_transport_agent.c:2976-3034 | so does draining the list |
| FeedbackQueue.RtcpFeedback.QueueUp | transport/owr_transport_agent.c:4384-4394 | find, delete and append: the list afterwards is the list without the first entry of that key, and the new one last |
| FeedbackQueue.RtcpFeedback.OnSendingRtcp | transport/owr_transport_agent.c:2960-3036 | the loop that deletes links while it walks leaves exactly the kept entries and emits exactly the packets of the sent ones; the packet must go out exactly if it had feedback already or gets a SCReAM report |
| FeedbackQueue.ScreamRx.ProbeRtpInfo | transport/owr_transport_agent.c:4250-4405 | one packet: what is learned from the first payload, when the packet is ignored, the tracker step and the queued report |
| OpenMessage.OpenRoundTrip | transport/owr_transport_agent.c:3243-3253 | decoding an encoded OPEN message returns all parameters if and only if not both limits are set and label and protocol fit 65535 bytes; the size is then 12 plus both lengths |
| OpenMessage.DecodedOpen | transport/owr_transport_agent.c:3670-3717 | what is decoded for any parameters whatever: truncated strings and, with both limits set, none |
| OpenMessage.ReEncoding | transport/owr_transport_agent.c:3692-3717 | re-encoding a decoded OPEN gives the same bytes if and only if the message is canonical |
| OpenMessage.EncodedIsCanonical | transport/owr_transport_agent.c:3621-3639 | everything encoded with at most one limit is canonical |
| OpenMessage.CanonicalReEncodes | transport/owr_transport_agent.c:3692-3717 | a canonical message decodes as an OPEN and encodes to itself |
| OpenMessage.OpenLayout | transport/owr_transport_agent.c:3621-3639 | the OPEN byte by byte: message type, the channel type of each kind of channel, priority, limit, lengths, label and protocol; the ACK is one byte |
| OpenMessage.DecodedKinds | transport/owr_transport_agent.c:3706-3718 | what any message taken for an OPEN says: unordered from 0x80 on, a life time for 0x02 and 0x82, retransmissions for 0x01 and 0x81, no limit otherwise |
| OpenMessage.DecodesIff | transport/owr_transport_agent.c:3651-3704 | which bytes are taken for an ACK, for an OPEN, or ignored |
| OpenMessage.DecodedStrings | transport/owr_transport_agent.c:3699-3704 | label and protocol end at their first NUL |
| OpenMessage.CreateDatachannelOpenRequest | transport/owr_transport_agent.c:3621-3639 | writing the message with moving positions gives header, label and protocol |
| OpenMessage.BuildOpenRequest | transport/owr_transport_agent.c:3243-3253 | channel type and reliability parameter from the limits, then the message |
| DataChannelAgreement.OpenMeansAgreed | transport/owr_transport_agent.c:3770-3795 | an initiator that is open by an ACK faces a responder that accepted the id with the parameters that crossed the wire |
| DataChannelAgreement.InitiatorReceives | transport/owr_transport_agent.c:3455-3521 | any message taken by the owner of an id keeps the agreement between the two ends |
| DataChannelAgreement.ResponderReceives | transport/owr_transport_agent.c:3455-3521 | any message taken by the other end keeps it, too |
| DataChannelAgreement.InitiatorOpens | transport/owr_transport_agent.c:3868-3953 | so does opening an own channel |
| DataChannelAgreement.ResponderOpens | transport/owr_transport_agent.c:3896-3953 | so does accepting a remote one |
| DataChannelAgreement.SendKeepsAgreement | transport/owr_transport_agent.c:3986-4031 | so does sending data |
| DataChannelFlow.InitiatorReceivesFlow | transport/owr_transport_agent.c:3797-3866 | delivering the next message to the owner moves it along without loss: received, scheduled, in flight and pending stay the payloads sent |
| DataChannelFlow.ResponderReceivesFlow | transport/owr_transport_agent.c:3797-3866 | the same at the other end |
| DataChannelFlow.SendFlow | transport/owr_transport_agent.c:3986-4031 | a send on an open channel adds its payload at the end |
| DataChannelFlow.NonEmptyIsAll | transport/owr_data_channel.c:364-366 | all payloads sent are accounted for exactly if none is empty: an empty one has no buffer and is refused when pushed |
| DataChannelWorld.PeersAgree | transport/owr_transport_agent.c:3181-3268 | two-peer agreement over every run with opposite roles: when the owner of an id is open on a non-negotiated channel, the other end has accepted the id with the parameters as transmitted, which are identical exactly if they are transmissible |
| DataChannelWorld.NoIdInitiatedTwice | transport/owr_transport_agent.c:3603-3618 | no id is initiated from both ends, and none by an end that does not own it |
| DataChannelWorld.OpenedExactlyOnce | transport/owr_transport_agent.c:3427-3453 | a channel added before or after the association is opened once it is up, once only; an owned non-negotiated one has sent exactly one OPEN, every other none |
| DataChannelWorld.AbortsOnlyForNegotiated | transport/owr_transport_agent.c:3301-3312 | an assertion fails at most at the owner of an id that the other end has negotiated |
| DataChannelWorld.NeverRebound | transport/owr_data_session.c:237-276 | the channel bound to an id keeps its parameters for ever |
| DataChannelWorld.NothingDropped | transport/owr_transport_agent.c:3811-3819 | in every run in which each side sends only on channels it has seen open, whatever is lost on the way: no data arrives on an ordered channel before it is established |
| DataChannelWorld.NoDataLost | transport/owr_transport_agent.c:3797-3866 | if the channel is reliable, too: sent is received, scheduled, in flight and pending, in order, in both directions |
| DataChannelAborts.AbortsIffNegotiated | transport/owr_transport_agent.c:3301-3372 | over every run: the owner of an id is safe from failing assertions if and only if the other end has not negotiated the id |
| DataChannelAborts.NegotiatedDataAborts | transport/owr_transport_agent.c:3301-3372 | for every negotiated channel, every id the other end owns and every payload there is a disciplined run in which the owner refuses the stream and its reset asserts a record |
| DataChannelOrdering.DropsIffUnordered | transport/owr_transport_agent.c:3811-3819 | over every disciplined run: data of a channel opened with OPEN and ACK is never dropped if and only if the channel is ordered, reliable or not |
| DataChannelOrdering.UnorderedDataIsDropped | transport/owr_transport_agent.c:3811-3819 | for every unordered channel, every id its owner can use and every payload there is a disciplined run in which the owner drops it: it overtook the ACK |
| DataChannelOrdering.OvertakesAck | transport/owr_transport_agent.c:3986-4031 | the two messages in flight, the payload deliverable before the ACK, and dropped |
| DataChannelMoves.EventMoves | transport/owr_transport_agent.c:3427-3521 | every event of either agent does one of six things to the two ends of an id, or nothing |
| DataChannelMoves.OpenAllOpensEach | transport/owr_transport_agent.c:3444-3452 | the loop over the channels of the session opens each of them, once, as it was |
| DataChannelLedger.DataAccounted | transport/owr_transport_agent.c:3797-4031 | over every run and every kind of channel, whatever is lost: the non-empty payloads accepted, all of at most 65535 bytes, are those freed, pushed and still to run, in order; those pushed are in flight, lost or delivered, each once; those delivered to an open end, and no others, are received or about to be, in order; those delivered to an end that is not open are counted as dropped unless an assertion failed |
| DataChannelLedger.StepBooks | transport/owr_transport_agent.c:3797-4031 | every step keeps these books in both directions |
| DataChannelLedger.FitEndTakes | transport/owr_transport_agent.c:3811-3850 | an open end gives every payload to its application, on any kind of channel |
| DataChannelLedger.ClosedEndMisses | transport/owr_transport_agent.c:3811-3819 | an end that is not open counts it as dropped or fails |
| DataChannelHandshake.HandshakeCompletes | transport/owr_transport_agent.c:3770-3795 | over every run, whatever is lost or overtaken: with no OPEN or ACK in flight, what the owner has opened has been offered to the other end and what that has accepted is open at both; each application is told exactly that its channel is open, and exactly an end that can send has a source |
| DataChannelHandshake.AcceptsIff | transport/owr_transport_agent.c:3896-3984 | an offer is accepted, with one ACK, exactly by adding the channel that was offered |
| DataChannelHandshake.OwnerMoves | transport/owr_transport_agent.c:3770-3795 | every move of the owner keeps OPEN and ACK from going missing |
| DataChannelHandshake.OtherMoves | transport/owr_transport_agent.c:3868-3984 | so does every move of the other end |
| DataChannelTerms.DataTravelsOnTerms | transport/owr_transport_agent.c:4011-4023 | over every run: data in flight has the ordering and the reliability of the channel of the end that sent it, on every kind of channel, unless the two ends disagree on whether it is negotiated |
| DataChannelAgent.TransportAgent.CreateDatachannel | transport/owr_transport_agent.c:3181-3268 | both limits, a foreign id or an id in the table are refused; otherwise record, source and OPEN, all other ids unchanged |
| DataChannelAgent.TransportAgent.CompleteDatachannelAndAck | transport/owr_transport_agent.c:3955-3984 | the ACK of an accepted channel |
| DataChannelAgent.TransportAgent.OnNewDatachannel | transport/owr_transport_agent.c:3868-3953 | own or remote, matching or not, and the callbacks set |
| DataChannelAgent.TransportAgent.OnSctpAssociationEstablished | transport/owr_transport_agent.c:3427-3453 | the loop opens every channel of the session, whatever the order of the table; a terminated association opens none |
| DataChannelAgent.TransportAgent.AddDataChannel | transport/owr_data_session.c:237-276 | refuses a bound id, binds a free one and opens it if the association is up |
| DataChannelAgent.TransportAgent.SctpdecPadAdded | transport/owr_transport_agent.c:3270-3348 | the id rule for pads, the zero-filled record, the attached sink; a refused pad loses its record and the reset of its stream aborts |
| DataChannelAgent.TransportAgent.HandleDataChannelOpenRequest | transport/owr_transport_agent.c:3670-3741 | the record takes the parameters decoded from the message and the application is asked |
| DataChannelAgent.TransportAgent.NewData | transport/owr_transport_agent.c:3455-3521 | dispatch of one message by its kind |
| DataChannelAgent.TransportAgent.OnDatachannelSend | transport/owr_transport_agent.c:3986-4031 | the data pushed with the reliability of the record |
| DataChannelAgent.TransportAgent.Send | transport/owr_data_channel.c:349-400 | accepting and scheduling a payload |
| DataChannelAgent.TransportAgent.RunNextTask | transport/owr_transport_agent.c:3743-3866 | the main loop runs its oldest task |
| DataChannelTeardown.TeardownHappensOnce | transport/owr_transport_agent.c:3350-3425 | over every run of local closes, remote resets and the removal nested in a close: a record lives by connecting and opening only, one that is gone went on through exactly one teardown, and each of its detachments and announcements happened once |
| DataChannelTeardown.TeardownIsAtomic | transport/owr_transport_agent.c:3270-3425 | in every run the callbacks, nested as they are, do to the table what a simpler one says, in which a close or a reset is one step |
| DataChannelTeardown.AbortsExactly | transport/owr_transport_agent.c:3301-3382 | over every run the agent fails exactly when a channel without a record is closed or used, when the remote end resets a stream whose channel the application never added, or when it opens a stream without a record on an id of the agent |
| DataChannelTeardown.NeverAddedAborts | transport/owr_transport_agent.c:3370-3382 | the second happens, on every id the agent does not own |
| DataChannelTeardown.OwnedPadAborts | transport/owr_transport_agent.c:3301-3312 | the third happens, on every id it owns |
| DataChannelTeardown.ClosedAborts | transport/owr_transport_agent.c:4109-4112 | after an ordinary opening and a close: closing again fails, using fails, and data under way fails exactly on an id of the agent |
| DataChannelTeardown.UsableUntilTornDown | transport/owr_transport_agent.c:4005-4009 | a channel that has its callbacks is without a record only after its close or a reset |
| DataChannelTeardown.PadAddedIs | transport/owr_transport_agent.c:3288-3312 | a pad is refused exactly if there is no record and the agent owns the id |
| DataChannelTeardown.TransportAgent.SctpdecPadAdded | transport/owr_transport_agent.c:3270-3348 | the callback, with the reset of a refused stream calling back before it ends |
| DataChannelTeardown.CloseTearsDown | transport/owr_transport_agent.c:4095-4159 | a close with the pad removal in its middle is one whole teardown |
| DataChannelTeardown.RemovalTearsDown | transport/owr_transport_agent.c:3350-3425 | so is a removal by the remote end |
| DataChannelTeardown.TransportAgent.OnDatachannelClose | transport/owr_transport_agent.c:4095-4159 | the callback, with the removal calling back before it ends, detaches each element once |
| DataChannelTeardown.TransportAgent.SctpdecPadRemoved | transport/owr_transport_agent.c:3350-3425 | the removal, and when it aborts |
| DataChannelTeardown.TransportAgent.MaybeCloseDataChannel | transport/owr_transport_agent.c:4073-4093 | closed and removed only without sink and source |
| BufferedAmount.ReportIs | transport/owr_data_channel.c:487-518 | the exact value reported: zero while handshake bytes are in flight, else what is buffered plus what was freed unsent, capped |
| BufferedAmount.ReportIsExact | transport/owr_data_channel.c:487-518 | with nothing freed it never exceeds the truth, and is the truth, capped, exactly if the handshake has left or nothing is buffered |
| BufferedAmount.FreedBytesStay | transport/owr_data_channel.c:416-460 | bytes freed for want of a callback are reported for ever: the report is right exactly if none were or it is capped anyway |
| BufferedAmount.ReportAcrossWrap | transport/owr_transport_agent.c:4033-4071 | when the 64-bit counters may wrap: right exactly if both have wrapped as often or nothing is buffered |
| BufferedAmount.DrainedReportsNothing | transport/owr_data_channel.c:487-518 | nothing is reported when everything has left |
| BufferedAmount.StepKeepsInvariant | transport/owr_transport_agent.c:3257 | bytes accepted and handshake bytes are buffered, freed, gone or in flight, and the handshake is first |
| BufferedAmount.CountersAreRight | transport/owr_data_channel.c:349-400 | in every run: a send is accepted exactly up to 65535 bytes, the tasks are the accepted lengths not yet run, in order, and the counters are the sums they are taken for |
| BufferedAmount.OwrDataChannel.GetBufferedAmount | transport/owr_data_channel.c:487-518 | the unsigned comparison, subtraction and cap |
| BufferedAmount.OwrDataChannel.Send | transport/owr_data_channel.c:349-400 | the limit of 65535 bytes, the counter and the scheduled task |
| BufferedAmount.OwrDataChannel.DataChannelSend | transport/owr_data_channel.c:416-460 | pushed with a callback, freed without |
| BufferedAmount.OwrDataChannel.OnNewDatachannel | transport/owr_transport_agent.c:3868-3953 | callbacks and handshake bytes in one callback |
| MessageBusRuns.Delivery | owr/owr_message_origin.c:98-131 | in every interleaving: consumed, in hand and queued are, in order and without duplicates, what was posted while the bus was subscribed, alive and had a type of the message in its mask; a finished post visited each bus subscribed at its start once |
| MessageBusDelivery.PostReaches | owr/owr_message_origin.c:98-131 | from events and states alone: a finished post has offered its message, once, to every bus that was subscribed when it began and that the application held meanwhile, and the bus has got it exactly if a type of the message is in the mask of that moment |
| MessageBusDelivery.PostReachesSteadily | owr/owr_message_origin.c:98-131 | with the mask left alone meanwhile, the mask when the post began decides |
| MessageBusDelivery.GotIff | owr/owr_bus.c:281-293 | a bus has got a message exactly if a poster offered it and the mask of that moment let it pass |
| MessageBusDelivery.OnlySubscribers | owr/owr_message_origin.c:116-117 | only buses subscribed when the post began get the message |
| MessageBusDelivery.OfferedOnce | owr/owr_message_origin.c:116-121 | a message is offered to a bus once at most |
| MessageBusDelivery.SubscribedIff | owr/owr_bus.c:231-279 | a bus is in a table exactly if it was added and neither removed nor found without references since |
| MessageBusDelivery.MaskIsLastSet | owr/owr_bus.c:104-151 | the mask is the one set last, or ERROR, STATS and EVENT |
| MessageBusDelivery.JoinsTheThread | owr/owr_bus.c:115-139 | a poster that has dropped the last reference does nothing more, nor does another of its origin begin, before the finalizer has returned |
| MessageBus.MatchesIff | owr/owr_bus.c:289 | the mask test accepts exactly the kinds with a message type in common with the mask |
| MessageBus.MasksSelect | owr/owr_bus.c:289 | a message of one type is accepted exactly if the mask has it; the empty mask accepts nothing, the default one ERROR, STATS and EVENT |
| MessageBusRuns.FinalizeDrains | owr/owr_bus.c:115-139 | once the finalizer has returned, all that the bus ever accepted is consumed and its queue empty, for good |
| MessageBusRuns.ReferencesBalance | owr/owr_bus.c:320-352 | ref_count is the buses that hold the message plus its poster; it is freed once exactly if nobody holds it; its origin carries the references of all its messages |
| MessageBusRuns.PosterGoesOn | owr/owr_message_origin.c:115-124 | a poster always has a next step, except while it waits for the finalizer of a bus whose last reference it dropped |
| MessageBusRuns.BusGoesOn | owr/owr_bus.c:295-318 | a bus whose last reference is gone always has a next step: a message to take or to finish, or the return of the finalizer |
| MessageBusRuns.NothingDeadlocks | owr/owr_message_origin.c:98-131 | no interleaving deadlocks a post |
| MessageBusSteps.RetainStep | owr/owr_message_origin.c:117-119 | a bus has the references of the application and of the posters that hold it |
| MessageBusSteps.QueueStep | owr/owr_bus.c:281-318 | every step keeps what a bus got equal to what it ought to get, and the end marker last |
| MessageBusReferences.CountStep | owr/owr_bus.c:334-352 | every step keeps the reference counts of messages |
| MessageBusReferences.RefsStep | owr/owr_bus.c:320-352 | every step keeps the references on origins |
| MessageBusSteps.OriginStep | owr/owr_message_origin.c:113-126 | every step keeps what each poster has visited and still has to |
| MessageBusSteps.AcceptedDistinct | owr/owr_message_origin.c:114-120 | a bus visited once with each message accepts each once |
| MessageBusReferences.NotHeldBeforePush | owr/owr_message_origin.c:114-120 | a message about to be pushed to a bus is not held by it yet |
| MessageBusObjects.MessageOrigin.PostMessage | owr/owr_message_origin.c:98-131 | the loop gives every live subscribed bus with a type of the message in its mask the message once, prunes exactly the dead, and leaves as many references as buses accepted |
| MessageBusObjects.OwrBus.PostMessage | owr/owr_bus.c:281-293 | referenced and pushed exactly if a type of the message is in the mask |
| MessageBusObjects.OwrBus.ThreadFunc | owr/owr_bus.c:295-318 | the loop consumes exactly what is queued before the end marker, in order, and gives up one reference of each |
| MessageBusObjects.OwrMessage.Unref | owr/owr_bus.c:334-345 | the last reference frees the message once |
| MessageBusObjects.OwrMessage.Ref | owr/owr_bus.c:347-352 | one reference to the message and one to its origin |
| ListMerger.CaptureSourcesDelivered | local/owr_local.c:113-141 | owr_get_capture_sources, nested or not, any types and lists, every interleaving: no use after free, the callback is called at most once and then with everything found, and once everybody is done it has been called and all item references are dropped |
| ListMerger.FinalCallIsComplete | owr/owr_utils.c:90-103 | the final callback gets the contributions in the order they were made, and exactly the items the enumerators set out with, so only after all have reported |
| ListMerger.CalledOnceAtTheEnd | owr/owr_utils.c:75-141 | when nothing is left to do the final callback has been called exactly once and item references balance |
| ListMerger.RunsEnd | owr/owr_utils.c:75-141 | no run goes on for ever |
| ListMerger.NothingUsedAfterFree | owr/owr_utils.c:105-111 | no closure is used after its last reference went, and no call passes on an item nobody owns |
| ListMerger.ItemsStayAndFinalCalls | owr/owr_utils.c:90-111 | every step keeps where items are and how many final calls there will be |
| ListMerger.AllReported | owr/owr_utils.c:90-103 | after the final call no call to any merger is left |
| ListMerger.LiveReachesFinal | owr/owr_utils.c:122-141 | a live merger has a live chain of targets |
| ListMerger.PlainStarts | local/owr_device_list.c:98-122 | the programs of _owr_get_capture_devices owe exactly the references they were given |
| ListMerger.TestsStart | local/owr_local.c:123-139 | so do those of the nested use |
| ListMergerClosure.FinalCalledIff | owr/owr_utils.c:75-103 | a call along a chain of mergers calls the final callback exactly if every merger holds its last reference |
| ListMergerClosure.CallReaches | owr/owr_utils.c:75-111 | the call ends and empties the mergers that hold their last references and stops at the first closure that does not end, which loses one reference and gets all that was gathered on the way; nothing behind it changes |
| ListMergerClosure.GClosure.CallWithList | owr/owr_utils.c:75-88 | the call and the unref, with all ends nested in it |
| ListMergerClosure.GClosure.Unref | owr/owr_utils.c:90-103 | the last unref of a merger calls and unrefs its target with the list |
| ListMergerClosure.GClosure.Invoke | owr/owr_utils.c:105-111 | a merger appends, the final callback is called |
| LocalSource.LifetimeHolds | local/owr_local_media_source.c:417-492 | in every interleaving without a clash of numbers: whoever requested and was not unlinked is attached, and nobody else |
| LocalSource.PipelineFollowsDemand | local/owr_local_media_source.c:417-492 | in every interleaving whatever: started and stopped alternate, and with nothing pending there is a pipeline exactly if there is a branch |
| LocalSource.AttachedIffNoClash | owr/owr_media_source.c:278-282 | over a whole run, attached are exactly those not unlinked if and only if no request gets the number of a branch attached at that moment |
| LocalSource.ReleaseFindsItsOwn | owr/owr_media_source.c:460-505 | without a clash, the release of a request that is not unlinked finds its own branch |
| LocalSource.ReleaseFindsOwnOrNone | owr/owr_media_source.c:460-505 | before the counter wraps every release, stale ones included, finds the branch of its own request while that is attached and none afterwards |
| LocalSource.FindsAnotherIff | owr/owr_media_source.c:460-505 | without a clash a release, stale or not, finds the branch of a given request exactly if that one is attached and was given the same name |
| LocalSource.StaleReleaseFindsAnother | owr/owr_media_source.c:278 | after the wrap it can: a run without a clash in which a stale release finds another branch |
| LocalSource.NoClashBeforeWrap | owr/owr_media_source.c:278 | numbers cannot clash before the 32-bit counter wraps |
| LocalSource.ClashFindsAnother | owr/owr_media_source.c:460-505 | a request that clashes is not attached, and its release finds the branch of another, earlier request |
| LocalSource.WrapClashes | owr/owr_media_source.c:278 | a run that clashes: a branch that outlives 2^32 numbers |
| LocalSource.NameRoundTrip | owr/owr_media_source.c:282-472 | the number printed into a name is the number scanned from it |
| LocalSource.NamesDiffer | owr/owr_media_source.c:389 | different numbers make different branch names |
| LocalSource.StepKeepsMatched | local/owr_local_media_source.c:612-615 | every request, release, unlink and shutdown keeps branches matched to requests |
| LocalSource.UnlinkingIff | owr/owr_media_source.c:460-505 | a branch waits to be unlinked exactly if a release has found it and it has not been unlinked since |
| LocalSource.UnlinkedIff | owr/owr_media_source.c:426-458 | a request counts as unlinked exactly if the branch that was its own has been |
| LocalSource.BranchesStep | owr/owr_media_source.c:278-492 | a branch comes with a request, under the number of the answer, and goes by its unlink only; a shutdown is scheduled exactly when the last one goes |
| LocalSource.LocalMediaSource.RequestSource | local/owr_local_media_source.c:594-887 | the pipeline is built on first demand only, and a branch is added |
| LocalSource.LocalMediaSource.ReleaseSource | owr/owr_media_source.c:460-505 | parse, look up, schedule the unlink |
| LocalSource.LocalMediaSource.TeeIdleProbe | owr/owr_media_source.c:426-458 | the branch goes, and with the last one a shutdown is scheduled |
| LocalSource.LocalMediaSource.TeePadRemoved | local/owr_local_media_source.c:476-492 | a shutdown is scheduled exactly when no pad is left |
| LocalSource.LocalMediaSource.ShutdownMediaSource | local/owr_local_media_source.c:417-474 | the deferred task looks again before it tears down |
| WindowRegistry.RegistryRefinesTables | local/owr_window_registry.c:121-294 | after every sequence of operations a tag is in the table exactly if it has a handle or a renderer, and the entry is what two independent first-come tables say |
| WindowRegistry.RenderersAreRight | local/owr_media_renderer.c:311-470 | after every sequence: a renderer has the source it was given last; the owner of a tag shows in its window exactly if there is a handle; a branch exists exactly with sink and source; all earlier branches were released once, in order |
| WindowRegistry.BranchPerChange | local/owr_media_renderer.c:311-402 | in every run one branch is requested for each change that leaves a renderer with sink and source, and without a change nothing happens |
| WindowRegistry.RejectedDisturbsNothing | local/owr_window_registry.c:257-259 | a second renderer of a tag is refused: neither its making nor anything it does touches the table or another renderer |
| WindowRegistry.OutsiderStays | local/owr_window_registry.c:257-259 | and whatever else happens, the end of the first renderer included, it never gets the tag |
| WindowRegistry.SetSinkBalances | local/owr_media_renderer.c:436-470 | setting a sink keeps requests and releases matched exactly if it is none or there is no branch yet |
| WindowRegistry.KeepsBalance | local/owr_media_renderer.c:350-402 | setting a source, changing a tag and the end keep them matched |
| WindowRegistry.EntryStep | local/owr_window_registry.c:121-294 | every operation refines the two tables |
| WindowRegistry.RendererStep | local/owr_video_renderer.c:511-526 | every operation keeps each renderer right |
| WindowRegistry.OwrVideoRenderer.SetSource | local/owr_media_renderer.c:350-402 | release, unref, and start again |
| WindowRegistry.OwrVideoRenderer.SetSink | local/owr_media_renderer.c:436-470 | removal of the old sink, release without a new one, start with one |
| WindowRegistry.OwrVideoRenderer.NotifyTagChanged | local/owr_video_renderer.c:511-526 | no sink first, then one for the handle |
| WindowRegistry.OwrVideoRenderer.MaybeStartRenderer | local/owr_media_renderer.c:311-348 | a branch is requested exactly with sink and source |
| WindowRegistry.OwrVideoRenderer.Finalize | local/owr_media_renderer.c:90-116 | the last branch is released |
| WindowRegistry.OwrWindowRegistry.DoRegister | local/owr_window_registry.c:121-165 | first handle wins; the renderer is told |
| WindowRegistry.OwrWindowRegistry.DoUnregister | local/owr_window_registry.c:195-227 | the entry goes unless a renderer has it |
| WindowRegistry.OwrWindowRegistry.RegisterRenderer | local/owr_window_registry.c:246-274 | first renderer wins and is told of a handle |
| WindowRegistry.OwrWindowRegistry.UnregisterRenderer | local/owr_window_registry.c:276-294 | only the renderer of the entry is taken out, and the entry goes without a handle |
| WindowRegistry.NewVideoRenderer | local/owr_video_renderer.c:207-475 | a renderer with a tag registers, one without gets a sink at once |
| WindowRegistry.FinalizeVideoRenderer | local/owr_video_renderer.c:104-123 | unregistered before its branch is released |
| Gathering.GatheringIsRight | transport/owr_transport_agent.c:652-772 | in every run, from the events alone: every server whose lookup succeeded is known, in order, with its address; every session has its stream with exactly the relays found, in order, for each of its components; the STUN server is the last found; the counter is the number of lookups under way |
| Gathering.StartsAreRight | transport/owr_transport_agent.c:707-1107 | streams start to gather exactly when the last lookup ends or, with none under way, when they are added, and then have the relays found by then |
| Gathering.AllHaveGathered | transport/owr_transport_agent.c:707-1107 | with no lookup under way every session has started to gather |
| Gathering.RelaysAt | transport/owr_transport_agent.c:745-770 | the relays are the TURN servers of all three kinds, in order |
| Gathering.LastStunIs | transport/owr_transport_agent.c:746-749 | the STUN server is the one found last |
| Gathering.ResolvedKeepsInvariant | transport/owr_transport_agent.c:652-720 | the end of a lookup, failed or not, keeps this |
| Gathering.AddSessionKeepsInvariant | transport/owr_transport_agent.c:1029-1107 | adding a session keeps this |
| Gathering.AllServed | transport/owr_transport_agent.c:703-709 | the loop over the streams updates all and starts all whatever the order of the table |
| Gathering.TransportAgent.UpdateHelperServers | transport/owr_transport_agent.c:722-772 | forgetting and re-adding leaves exactly the resolved relays and the last STUN server |
| Gathering.TransportAgent.AddHelperServerInfo | transport/owr_transport_agent.c:652-720 | counter, list and loop of the resolver callback |
| Gathering.TransportAgent.AddSession | transport/owr_transport_agent.c:993-1107 | a new stream gets its relays, and gathers if no lookup is outstanding |
| Gathering.TransportAgent.AddHelperServer | transport/owr_transport_agent.c:573-600 | one more deferred lookup |
| Gathering.TransportAgent.SetRelayInfo | transport/owr_transport_agent.c:751-756 | both components, if there are two |
| BmpWriter.PullBmpImage | local/owr_image_renderer.c:367-392 | the array written is the header and the mirrored rows of the frame, or zeros when disabled |
| BmpWriter.CopyRows | local/owr_image_renderer.c:384-393 | the loop with its two moving positions ends, leaves the header alone and writes each row once, last first |
| BmpWriter.FillBmpHeader | local/owr_image_renderer.c:282-322 | the 54 bytes written through the moving pointer are the header |
| BmpWriter.ImageIsRight | local/owr_image_renderer.c:282-322 | for a frame of 4*width*height bytes without overflow the header tells the real sizes |
| BmpWriter.HeaderRightIff | local/owr_image_renderer.c:282-322 | for a frame of 4*width*height bytes in whole rows: the header tells the real sizes if and only if 32*width does not overflow |
| BmpWriter.FrameComesBack | local/owr_image_renderer.c:367-392 | the frame can be had back from the image |
| BmpWriter.LoopEndsIff | local/owr_image_renderer.c:382-393 | the loop ends if and only if the frame is empty or the width is not a multiple of 2^27; it does not for the width 0 of caps without dimensions |
| BmpWriter.HeaderIsSafeIff | local/owr_image_renderer.c:382-393 | when it ends, the last row is behind the header if and only if whole rows fill the frame |
| BmpWriter.HeaderFields | local/owr_image_renderer.c:282-322 | the little-endian fields read back |
| BmpWriter.FixedFields | local/owr_image_renderer.c:282-322 | signature, header size, planes, bits and the zero fields |
| BmpWriter.FlipTwice | local/owr_image_renderer.c:382-393 | flipping the rows twice gives the frame |
| BmpWriter.FlippedAt | local/owr_image_renderer.c:382-393 | every byte of row y is at the same place of row rows-1-y |
| BmpWriter.FlipAppend | local/owr_image_renderer.c:382-393 | later rows come first |
| BmpWriter.NoPadding | local/owr_image_renderer.c:382-383 | destination and source rows have the same size for every width, also when the products wrap |

## Left out

- Lock acquisition and thread memory effects: callbacks are atomic steps; several error paths leave with a lock held and `maybe_close_data_channel` frees a record under its own lock.
- GStreamer pipelines, pads, caps, element states, codecs, libnice, usrsctp and OpenSSL: opaque tokens, attachments and queues only.
- The send pipeline (`on_new_send_payload`, `on_new_send_source`, `on_dtls_enc_key_set`): it relies on call orders that the code does not enforce.
- Re-established associations, several data sessions in one agent, and stream ids reused after a channel is gone.
- Closing inside the two-peer world: its runs end where the first close begins, so agreement and no loss are stated until then, and `DataChannelTeardown` follows one agent's records from there.
- DataChannelAgent.TransportAgent.HandleDataChannelOpenRequest: does not reset the count of control bytes, which is zero for the record of a new remote stream; `BufferedAmount` has the counter.
- DataChannelAgent.TransportAgent.NewData: does not model the deprecated and the unknown payload protocol identifiers, which are only warned about.
- Id 65535: `is_valid_sctp_stream_id` negates its answer for remote ids, so both ends refuse to initiate it and both accept it; the claims about aborts and data exclude it.
- OPEN messages whose lengths exceed their bytes: decoding yields a distinct result, and what the source then reads is not part of this model.
- NULL labels and protocols of the zero-filled record are modelled as empty strings, which `g_strcmp0` would tell apart.
- DataChannelWorld.NoDataLost: states the law for applications that send on channels they have seen open, because a send before that is dropped by design; it is stated for non-empty payloads, and `NonEmptyIsAll` says when these are all; negotiated channels, where the two ends open independently, are not part of it, and `DataAccounted` says for them and for unordered ones where the data goes.
- DataChannelTeardown.TeardownHappensOnce: assumes that a close, and the removal of an added channel's pad, find both sink and source attached, because the source dereferences both.
- BufferedAmount.ReportIs: assumes that the 64-bit byte counters have not wrapped; `ReportAcrossWrap` says when the report is right without that.
- The padding of generic NACKs and early RTCP timing.
- Buses that are asked to wait for themselves (dropping the last reference, or posting with the same origin, from their own callback): such posters stop for good, and only safety is stated.
- MessageBusObjects.OwrBus.ThreadFunc: runs without interruption and with the end marker queued; interleaving is the subject of `MessageBus`.
- Message callbacks and their user data: consuming a message with no callback set is the same step.
- PulseAudio enumerations that report twice after a failed connection, and the device probing itself: each enumerator reports once.
- LocalSource.LifetimeHolds: assumes that no request gets the number of an attached branch of its source, which is exactly what is needed (`AttachedIffNoClash`) and holds until the counter wraps (`NoClashBeforeWrap`), and that a branch is not released again while its unlink is pending.
- A shutdown between the two halves of one request, sources of unknown type, element creation failures, volume and mute, and the source cache.
- Audio and image renderers, which get their sink once at construction; links that fail; the started and stopped events of renderers.
- Removal of sessions, candidates, ports, addresses and DTLS in `add_session`.
- BmpWriter.PullBmpImage: requires whole rows of a nonzero size for a frame that is copied; with others the source's loop leaves its buffers or never ends (`HeaderIsSafeIff`, `LoopEndsIff`), so there is no image to describe.
- BmpWriter.CopyRows: requires the same.
- Allocation failure and the image server.
- Easy members: ICE state aggregation, payload lookup, enum conversions, the rotation table, property accessors, bindings and build files.
