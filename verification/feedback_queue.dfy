/** The SCReAM feedback of a transport agent: the list of reports waiting for the next RTCP packet,
    the three-word FCI they travel in (section 6.1 of RFC 4585), and the probe that produces them. */
module FeedbackQueue {
  import opened Collections
  import opened WireBytes
  import opened Subsequences
  import opened ScreamTracker

  const TYPE_RTPFB: uint8 := 205
  const FMT_SCREAM: uint8 := 18

  datatype RtcpInfo = RtcpInfo(pt: uint8, fmt: uint8, sessionId: uint32, ssrc: uint32,
    lastFeedbackWallclock: uint32, highestSeq: uint16, nLoss: uint8, nEcn: uint8)

  /** What the receiver of a report signals to its congestion control. */
  datatype Feedback = Feedback(ssrc: uint32, timestamp: uint32, highestSeq: uint16, nLoss: uint8, nEcn: uint8)

  function ReportOf(info: RtcpInfo): Feedback
  {
    Feedback(info.ssrc, info.lastFeedbackWallclock, info.highestSeq, info.nLoss, info.nEcn)
  }

  // ----- The wire format -----

  datatype Packet = Packet(pt: uint8, fmt: uint8, mediaSsrc: uint32, fci: bytes)

  /** Format, source and FCI are filled in for the SCReAM format only. */
  function Encode(info: RtcpInfo): Packet
  {
    if info.fmt != FMT_SCREAM then Packet(info.pt, 0, 0, [])
    else
      Packet(info.pt, info.fmt, info.ssrc,
        Uint16BE(info.highestSeq) + [info.nLoss, info.nEcn] + Uint32BE(info.lastFeedbackWallclock) + Uint32BE(0))
  }

  function Encoded(sent: seq<RtcpInfo>): seq<Packet>
  {
    seq(|sent|, i requires 0 <= i < |sent| => Encode(sent[i]))
  }

  lemma EncodedNone()
    ensures Encoded([]) == []
  {
  }

  lemma EncodedOneMore(sent: seq<RtcpInfo>, info: RtcpInfo)
    ensures Encoded(sent + [info]) == Encoded(sent) + [Encode(info)]
  {
  }

  /** on_feedback_rtcp: only transport feedback of the SCReAM format is read. */
  function OnFeedbackRtcp(p: Packet): Option<Feedback>
    requires p.pt == TYPE_RTPFB && p.fmt == FMT_SCREAM ==> |p.fci| >= 8
  {
    if p.pt == TYPE_RTPFB && p.fmt == FMT_SCREAM then
      Some(Feedback(p.mediaSsrc, ReadUint32BE(p.fci, 4), ReadUint16BE(p.fci, 0), p.fci[2], p.fci[3]))
    else None
  }

  lemma FeedbackSurvivesTheWire(info: RtcpInfo)
    requires info.pt == TYPE_RTPFB && info.fmt == FMT_SCREAM
    ensures OnFeedbackRtcp(Encode(info)) == Some(ReportOf(info))
    ensures var p := Encode(info);
      && p.pt == 205 && p.fmt == 18 && p.mediaSsrc == info.ssrc && |p.fci| == 12
      && info.highestSeq == p.fci[0] as int * 0x100 + p.fci[1] && info.nLoss == p.fci[2] && info.nEcn == p.fci[3]
      && info.lastFeedbackWallclock
         == p.fci[4] as int * 0x100_0000 + p.fci[5] as int * 0x1_0000 + p.fci[6] as int * 0x100 + p.fci[7]
      && p.fci[8..] == [0, 0, 0, 0]
  {
    var fci := Encode(info).fci;
    assert fci[0..2] == Uint16BE(info.highestSeq);
    assert fci[4..8] == Uint32BE(info.lastFeedbackWallclock);
    ReadBack16(info.highestSeq, fci, 0);
    ReadBack32(info.lastFeedbackWallclock, fci, 4);
  }

  // ----- The list -----

  datatype Key = Key(sessionId: uint32, ssrc: uint32)

  function KeyOf(info: RtcpInfo): Key
  {
    Key(info.sessionId, info.ssrc)
  }

  /** The list without the first entry for the key. */
  function RemoveFirst(list: seq<RtcpInfo>, k: Key): seq<RtcpInfo>
  {
    if list == [] then []
    else if KeyOf(list[0]) == k then list[1..]
    else [list[0]] + RemoveFirst(list[1..], k)
  }

  /** What the entry that RemoveFirst takes out was, if there was one. */
  function FirstOf(list: seq<RtcpInfo>, k: Key): seq<RtcpInfo>
  {
    if list == [] then []
    else if KeyOf(list[0]) == k then [list[0]]
    else FirstOf(list[1..], k)
  }

  function Requeue(list: seq<RtcpInfo>, info: RtcpInfo): seq<RtcpInfo>
  {
    RemoveFirst(list, KeyOf(info)) + [info]
  }

  /** Whether the RTCP buffer takes another packet, and that packet its FCI. */
  datatype Room = NoPacket | NoFci | Fits

  predicate Sendable(info: RtcpInfo, sessionId: uint32, room: Room)
  {
    && (info.pt == TYPE_RTPFB ==> info.sessionId == sessionId)
    && room != NoPacket
    && (info.fmt == FMT_SCREAM ==> room == Fits)
  }

  function Kept(list: seq<RtcpInfo>, sessionId: uint32, room: seq<Room>): seq<RtcpInfo>
    requires |room| == |list|
  {
    if list == [] then []
    else
      var rest := Kept(list[1..], sessionId, room[1..]);
      if Sendable(list[0], sessionId, room[0]) then rest else [list[0]] + rest
  }

  function Sent(list: seq<RtcpInfo>, sessionId: uint32, room: seq<Room>): seq<RtcpInfo>
    requires |room| == |list|
  {
    if list == [] then []
    else
      var rest := Sent(list[1..], sessionId, room[1..]);
      if Sendable(list[0], sessionId, room[0]) then [list[0]] + rest else rest
  }

  /** The entry at any place stays if it is transport feedback of another session, if there was no room for a
      packet, or, in the SCReAM format, none for its FCI; otherwise it is sent. Either way it keeps its place
      among the others that stay or are sent. */
  lemma {:induction false} DrainAt(list: seq<RtcpInfo>, sessionId: uint32, room: seq<Room>, at: nat)
    requires |room| == |list| && at < |list|
    ensures var info := list[at];
      var stays := (info.pt == 205 && info.sessionId != sessionId) || room[at] == NoPacket || (info.fmt == 18 && room[at] == NoFci);
      && Kept(list, sessionId, room)
         == Kept(list[..at], sessionId, room[..at]) + (if stays then [info] else []) + Kept(list[at + 1..], sessionId, room[at + 1..])
      && Sent(list, sessionId, room)
         == Sent(list[..at], sessionId, room[..at]) + (if stays then [] else [info]) + Sent(list[at + 1..], sessionId, room[at + 1..])
  {
    if at > 0 {
      DrainAt(list[1..], sessionId, room[1..], at - 1);
      assert list[1..][..at - 1] == list[..at][1..] && room[1..][..at - 1] == room[..at][1..];
      assert list[1..][at..] == list[at + 1..] && room[1..][at..] == room[at + 1..];
    }
  }

  /** Without room for any packet nothing is sent and the list stays as it is. */
  lemma {:induction false} NoRoomSendsNothing(list: seq<RtcpInfo>, sessionId: uint32, room: seq<Room>)
    requires |room| == |list| && forall i :: 0 <= i < |room| ==> room[i] == NoPacket
    ensures Kept(list, sessionId, room) == list && Sent(list, sessionId, room) == []
  {
    if list != [] {
      NoRoomSendsNothing(list[1..], sessionId, room[1..]);
      assert list == [list[0]] + list[1..];
    }
  }

  /** A new report goes to the end; the first entry for its key leaves, and the others stay in order. */
  lemma RequeueIs(earlier: seq<RtcpInfo>, rest: seq<RtcpInfo>, info: RtcpInfo)
    requires forall x :: x in earlier ==> x.sessionId != info.sessionId || x.ssrc != info.ssrc
    ensures Requeue(earlier, info) == earlier + [info]
    ensures rest != [] && rest[0].sessionId == info.sessionId && rest[0].ssrc == info.ssrc ==>
              Requeue(earlier + rest, info) == earlier + rest[1..] + [info]
  {
    hide RemoveFirst;
    RemoveFirstIs(earlier, [], KeyOf(info));
    RemoveFirstIs(earlier, rest, KeyOf(info));
    assert earlier + [] == earlier;
  }

  lemma {:induction false} RemoveFirstIs(earlier: seq<RtcpInfo>, rest: seq<RtcpInfo>, k: Key)
    requires forall x :: x in earlier ==> KeyOf(x) != k
    ensures RemoveFirst(earlier + rest, k) == earlier + RemoveFirst(rest, k)
    ensures rest != [] && KeyOf(rest[0]) == k ==> RemoveFirst(rest, k) == rest[1..]
    ensures RemoveFirst([], k) == []
  {
    if earlier == [] {
      assert earlier + rest == rest;
    } else {
      assert earlier[0] in earlier && forall x :: x in earlier[1..] ==> x in earlier;
      RemoveFirstIs(earlier[1..], rest, k);
      assert (earlier + rest)[1..] == earlier[1..] + rest;
      assert earlier == [earlier[0]] + earlier[1..];
    }
  }

  /** The next link's part in what a drain keeps and sends. */
  lemma DrainFrom(list: seq<RtcpInfo>, sessionId: uint32, room: seq<Room>, at: nat)
    requires |room| == |list| && at < |list|
    ensures Kept(list[at..], sessionId, room[at..])
         == (if Sendable(list[at], sessionId, room[at]) then [] else [list[at]]) + Kept(list[at + 1..], sessionId, room[at + 1..])
    ensures Sent(list[at..], sessionId, room[at..])
         == (if Sendable(list[at], sessionId, room[at]) then [list[at]] else []) + Sent(list[at + 1..], sessionId, room[at + 1..])
  {
    assert list[at..][1..] == list[at + 1..] && room[at..][1..] == room[at + 1..];
  }

  lemma DrainNone(sessionId: uint32)
    ensures Kept([], sessionId, []) == [] == Sent([], sessionId, [])
  {
  }

  class RtcpFeedback {
    var rtcpList: seq<RtcpInfo>

    constructor ()
      ensures rtcpList == []
    {
      rtcpList := [];
    }

    /** The tail of probe_rtp_info: find, delete, append. */
    method QueueUp(info: RtcpInfo)
      modifies this
      ensures rtcpList == Requeue(old(rtcpList), info)
    {
      hide RemoveFirst;
      var it := 0;
      while it < |rtcpList| && KeyOf(rtcpList[it]) != KeyOf(info)
        invariant it <= |rtcpList| && rtcpList == old(rtcpList)
        invariant forall x :: x in rtcpList[..it] ==> KeyOf(x) != KeyOf(info)
      {
        it := it + 1;
      }
      ghost var earlier, rest := rtcpList[..it], rtcpList[it..];
      RemoveFirstIs(earlier, rest, KeyOf(info));
      assert rtcpList == earlier + rest;
      if it < |rtcpList| {
        assert rtcpList[it + 1..] == rest[1..];
        rtcpList := rtcpList[..it] + rtcpList[it + 1..];
      } else {
        assert rest == [] && earlier == rtcpList;
      }
      rtcpList := rtcpList + [info];
    }

    /** on_sending_rtcp: walks the list, deleting the links it has sent. The environment's answers are
        given per link of the list at entry; the packet must not be suppressed if it has feedback already
        or gets a SCReAM report. */
    method OnSendingRtcp(sessionId: uint32, room: seq<Room>, hasFeedback: bool) returns (packets: seq<Packet>, doNotSuppress: bool)
      requires |room| == |rtcpList|
      modifies this
      ensures rtcpList == Kept(old(rtcpList), sessionId, room)
      ensures packets == Encoded(Sent(old(rtcpList), sessionId, room))
      ensures doNotSuppress <==> hasFeedback || exists info :: info in Sent(old(rtcpList), sessionId, room) && info.fmt == 18
    {
      hide Kept, Sent, Encode, Encoded;
      packets, doNotSuppress := [], hasFeedback;
      ghost var sent := [];
      EncodedNone();
      DrainNone(sessionId);
      var it := 0;
      ghost var seen := 0;
      ghost var all := rtcpList;
      while it < |rtcpList|
        invariant it <= |rtcpList| && seen + |rtcpList| - it == |all|
        invariant 0 <= seen <= |all| && rtcpList[it..] == all[seen..]
        invariant Kept(all, sessionId, room) == rtcpList[..it] + Kept(all[seen..], sessionId, room[seen..])
        invariant Sent(all, sessionId, room) == sent + Sent(all[seen..], sessionId, room[seen..])
        invariant packets == Encoded(sent)
        invariant doNotSuppress <==> hasFeedback || exists info :: info in sent && info.fmt == 18
        decreases |rtcpList| - it
      {
        var info := rtcpList[it];
        var answer := room[|room| - (|rtcpList| - it)];
        assert info == rtcpList[it..][0] == all[seen..][0];
        DrainFrom(all, sessionId, room, seen);
        if (info.pt == TYPE_RTPFB && sessionId != info.sessionId) || answer == NoPacket
           || (info.fmt == FMT_SCREAM && answer == NoFci) {
          assert !Sendable(info, sessionId, answer);
          assert rtcpList[..it + 1] == rtcpList[..it] + [info];
          assert rtcpList[it + 1..] == rtcpList[it..][1..];
          it := it + 1;
        } else {
          assert Sendable(info, sessionId, answer);
          EncodedOneMore(sent, info);
          if info.fmt == FMT_SCREAM {
            doNotSuppress := true;
            assert info in sent + [info];
          }
          packets, sent := packets + [Encode(info)], sent + [info];
          assert rtcpList[it + 1..] == rtcpList[it..][1..];
          rtcpList := rtcpList[..it] + rtcpList[it + 1..];
        }
        assert all[seen + 1..] == all[seen..][1..];
        seen := seen + 1;
      }
      assert all[seen..] == [] && room[seen..] == [];
      assert Sent(all, sessionId, room) == sent;
    }
  }

  class ScreamRx {
    const sessionId: uint32
    var rtxPt: int
    var adapt: bool
    var highestSeq: uint16
    var ackVec: uint16
    var nLoss: uint8
    var nEcn: uint8
    var lastFeedbackWallclock: uint32

    constructor (sessionId: uint32)
      ensures this.sessionId == sessionId && rtxPt == -2 && adapt && View() == FRESH
    {
      this.sessionId := sessionId;
      rtxPt, adapt := -2, true;
      highestSeq, ackVec, nLoss, nEcn, lastFeedbackWallclock := 0, 0, 0, 0, 0;
    }

    ghost function View(): Tracker
      reads this
    {
      Tracker(highestSeq, ackVec, nLoss)
    }

    /** The packet reaches the tracker: adaptation is on, the arrival time is known and it is not a
        retransmission. */
    ghost predicate Tracked(pt: uint8, arrivalTime: Option<nat>, payloadRtxPt: int, payloadAdapts: bool)
      reads this
    {
      && (if rtxPt == -2 then payloadAdapts else adapt)
      && arrivalTime.Some?
      && pt as int != if rtxPt == -2 then payloadRtxPt else rtxPt
    }

    /** probe_rtp_info. payloadRtxPt and payloadAdapts are the receive payload's properties, read on
        the first packet only; the arrival time is in nanoseconds. */
    method ProbeRtpInfo(feedback: RtcpFeedback, pt: uint8, ssrc: uint32, rtpSeq: uint16, arrivalTime: Option<nat>,
        payloadRtxPt: int, payloadAdapts: bool)
      requires payloadRtxPt != -2
      modifies this, feedback
      ensures rtxPt == (if old(rtxPt) == -2 then payloadRtxPt else old(rtxPt))
      ensures adapt == (if old(rtxPt) == -2 then payloadAdapts else old(adapt))
      ensures !old(Tracked(pt, arrivalTime, payloadRtxPt, payloadAdapts)) ==>
        View() == old(View()) && feedback.rtcpList == old(feedback.rtcpList)
      ensures old(Tracked(pt, arrivalTime, payloadRtxPt, payloadAdapts)) ==>
        && View() == Receive(old(View()), rtpSeq)
        && feedback.rtcpList == Requeue(old(feedback.rtcpList), RtcpInfo(TYPE_RTPFB, FMT_SCREAM, sessionId, ssrc,
             arrivalTime.value / 1_000_000 % 0x1_0000_0000, highestSeq, nLoss, 0))
    {
      if rtxPt == -2 {
        rtxPt, adapt := payloadRtxPt, payloadAdapts;
      }
      if !adapt || arrivalTime.None? || pt as int == rtxPt {
        return;
      }
      ghost var before := View();
      var tmpSeq: nat, tmpHighest: nat := rtpSeq, highestSeq;
      if highestSeq == 0 && ackVec == 0 {
        highestSeq := rtpSeq;
        tmpHighest := highestSeq;
      } else if rtpSeq < highestSeq && highestSeq - rtpSeq > 20000 {
        tmpSeq := rtpSeq + 65536;
      } else if rtpSeq > highestSeq && rtpSeq - highestSeq > 20000 {
        tmpHighest := tmpHighest + 65536;
      }
      assert tmpSeq - tmpHighest == NextDistance(before, rtpSeq);
      if tmpSeq >= tmpHighest {
        ackVec := Advance(ackVec, tmpSeq - tmpHighest);
        highestSeq := rtpSeq;
      } else if tmpHighest - tmpSeq < 16 {
        ackVec := Acknowledge(ackVec, tmpHighest - tmpSeq);
      }
      if !WordBits.Bit(ackVec, 16 - 5) {
        nLoss := (nLoss + 1) % 256;
      }
      assert View() == Receive(before, rtpSeq);
      nEcn := 0;
      lastFeedbackWallclock := arrivalTime.value / 1_000_000 % 0x1_0000_0000;
      feedback.QueueUp(RtcpInfo(TYPE_RTPFB, FMT_SCREAM, sessionId, ssrc, lastFeedbackWallclock, highestSeq, nLoss, nEcn));
    }
  }

  // ----- Runs -----

  datatype Event =
    | Produce(sessionId: uint32, report: Feedback)
    | Drain(drained: uint32, room: seq<Room>)

  /** The list together with the history of what was produced, sent and superseded. */
  datatype State = State(list: seq<RtcpInfo>, produced: seq<RtcpInfo>, sent: seq<RtcpInfo>, superseded: seq<RtcpInfo>)

  function InfoOf(sessionId: uint32, r: Feedback): RtcpInfo
  {
    RtcpInfo(TYPE_RTPFB, FMT_SCREAM, sessionId, r.ssrc, r.timestamp, r.highestSeq, r.nLoss, r.nEcn)
  }

  ghost predicate Enabled(s: State, e: Event)
  {
    e.Drain? ==> |e.room| == |s.list|
  }

  function Step(s: State, e: Event): State
    requires Enabled(s, e)
  {
    match e
    case Produce(sessionId, report) =>
      var info := InfoOf(sessionId, report);
      State(Requeue(s.list, info), s.produced + [info], s.sent, s.superseded + FirstOf(s.list, KeyOf(info)))
    case Drain(sessionId, room) =>
      s.(list := Kept(s.list, sessionId, room), sent := s.sent + Sent(s.list, sessionId, room))
  }

  ghost predicate IsRun(states: seq<State>, events: seq<Event>)
  {
    && |states| == |events| + 1
    && states[0] == State([], [], [], [])
    && forall i :: 0 <= i < |events| ==> Enabled(states[i], events[i]) && states[i + 1] == Step(states[i], events[i])
  }

  function OfKey(list: seq<RtcpInfo>, k: Key): seq<RtcpInfo>
  {
    if list == [] then []
    else if KeyOf(list[0]) == k then [list[0]] + OfKey(list[1..], k)
    else OfKey(list[1..], k)
  }

  function OfSession(list: seq<RtcpInfo>, sessionId: uint32): seq<RtcpInfo>
  {
    if list == [] then []
    else if list[0].sessionId == sessionId then [list[0]] + OfSession(list[1..], sessionId)
    else OfSession(list[1..], sessionId)
  }

  function Last<T>(s: seq<T>): T
    requires s != []
  {
    s[|s| - 1]
  }

  /** The queue holds nothing for a key, or exactly the newest report produced for it. */
  ghost predicate HoldsNewest(s: State, k: Key)
  {
    OfKey(s.list, k) == [] || (OfKey(s.produced, k) != [] && OfKey(s.list, k) == [Last(OfKey(s.produced, k))])
  }

  ghost predicate AllScream(list: seq<RtcpInfo>)
  {
    forall info :: info in list ==> info.pt == TYPE_RTPFB && info.fmt == FMT_SCREAM
  }

  ghost predicate Conserved(s: State)
  {
    multiset(s.produced) == multiset(s.list) + multiset(s.sent) + multiset(s.superseded)
  }

  ghost predicate Invariant(s: State)
  {
    && AllScream(s.list) && AllScream(s.sent) && AllScream(s.produced)
    && Conserved(s)
    && forall k :: KeyInvariant(s, k)
  }

  lemma {:induction false} OfKeyConcat(a: seq<RtcpInfo>, b: seq<RtcpInfo>, k: Key)
    ensures OfKey(a + b, k) == OfKey(a, k) + OfKey(b, k)
  {
    if a == [] {
      assert a + b == b;
    } else {
      assert (a + b)[1..] == a[1..] + b;
      OfKeyConcat(a[1..], b, k);
    }
  }

  lemma {:induction false} RemoveFirstByKey(list: seq<RtcpInfo>, k: Key, other: Key)
    ensures OfKey(list, k) == FirstOf(list, k) + OfKey(RemoveFirst(list, k), k)
    ensures other != k ==> OfKey(RemoveFirst(list, k), other) == OfKey(list, other)
    ensures FirstOf(list, k) == [] ==> OfKey(list, k) == []
    ensures multiset(list) == multiset(FirstOf(list, k)) + multiset(RemoveFirst(list, k))
  {
    if list != [] {
      assert list == [list[0]] + list[1..];
      if KeyOf(list[0]) != k {
        var rest := RemoveFirst(list[1..], k);
        RemoveFirstByKey(list[1..], k, other);
        OfKeyConcat([list[0]], rest, k);
        OfKeyConcat([list[0]], rest, other);
      }
    }
  }

  /** A list with at most one entry for the key either keeps that entry or sends it. */
  lemma {:induction false} DrainByKey(list: seq<RtcpInfo>, sessionId: uint32, room: seq<Room>, k: Key)
    requires |room| == |list| && |OfKey(list, k)| <= 1
    ensures OfKey(Sent(list, sessionId, room), k) + OfKey(Kept(list, sessionId, room), k) == OfKey(list, k)
  {
    if list != [] {
      var kept, sent := Kept(list[1..], sessionId, room[1..]), Sent(list[1..], sessionId, room[1..]);
      DrainByKey(list[1..], sessionId, room[1..], k);
      assert ([list[0]] + sent)[1..] == sent && ([list[0]] + kept)[1..] == kept;
      if KeyOf(list[0]) == k {
        assert OfKey(list[1..], k) == [];
        assert OfKey(sent, k) == [] == OfKey(kept, k);
      }
    }
  }

  lemma {:induction false} DrainConserves(list: seq<RtcpInfo>, sessionId: uint32, room: seq<Room>)
    requires |room| == |list|
    ensures multiset(list) == multiset(Kept(list, sessionId, room)) + multiset(Sent(list, sessionId, room))
  {
    if list != [] {
      assert list == [list[0]] + list[1..];
      DrainConserves(list[1..], sessionId, room[1..]);
    }
  }

  lemma DrainMembers(list: seq<RtcpInfo>, sessionId: uint32, room: seq<Room>)
    requires |room| == |list| && AllScream(list)
    ensures AllScream(Kept(list, sessionId, room)) && AllScream(Sent(list, sessionId, room))
  {
    DrainConserves(list, sessionId, room);
    assert forall x :: x in Kept(list, sessionId, room) ==> x in multiset(list);
    assert forall x :: x in Sent(list, sessionId, room) ==> x in multiset(list);
  }

  /** A drain sends entries of its own session only, and all of them if there is room for each; the
      other sessions' entries stay, in order. */
  lemma {:induction false} DrainBySession(list: seq<RtcpInfo>, sessionId: uint32, room: seq<Room>, other: uint32)
    requires |room| == |list| && AllScream(list)
    ensures OfSession(Sent(list, sessionId, room), sessionId) == Sent(list, sessionId, room)
    ensures other != sessionId ==> OfSession(Kept(list, sessionId, room), other) == OfSession(list, other)
    ensures (forall i :: 0 <= i < |room| ==> room[i] == Fits) ==>
      OfSession(list, sessionId) == Sent(list, sessionId, room)
  {
    if list != [] {
      var kept, sent := Kept(list[1..], sessionId, room[1..]), Sent(list[1..], sessionId, room[1..]);
      DrainBySession(list[1..], sessionId, room[1..], other);
      assert ([list[0]] + sent)[1..] == sent && ([list[0]] + kept)[1..] == kept;
      assert list[0] in list;
    }
  }

  lemma {:induction false} KeptInOrder(list: seq<RtcpInfo>, sessionId: uint32, room: seq<Room>)
    requires |room| == |list|
    ensures IsSubsequence(Kept(list, sessionId, room), list)
  {
    if list != [] {
      var kept := Kept(list[1..], sessionId, room[1..]);
      assert list == [list[0]] + list[1..];
      KeptInOrder(list[1..], sessionId, room[1..]);
      if Sendable(list[0], sessionId, room[0]) {
        PrependRight(kept, list[1..], list[0]);
      } else {
        PrependBoth(kept, list[1..], list[0]);
      }
    }
  }

  /** The per-key part of the invariant. */
  ghost predicate KeyInvariant(s: State, k: Key)
  {
    HoldsNewest(s, k) && IsSubsequence(OfKey(s.sent, k) + OfKey(s.list, k), OfKey(s.produced, k))
  }

  lemma ProduceKeepsKey(s: State, info: RtcpInfo, s': State, k: Key)
    requires s' == s.(list := Requeue(s.list, info), produced := s.produced + [info], superseded := s'.superseded)
    requires KeyInvariant(s, k)
    ensures KeyInvariant(s', k)
  {
    RemoveFirstByKey(s.list, KeyOf(info), k);
    OfKeyConcat(RemoveFirst(s.list, KeyOf(info)), [info], k);
    OfKeyConcat(s.produced, [info], k);
    OfOneKey(info, k);
    var sent, list, produced := OfKey(s.sent, k), OfKey(s.list, k), OfKey(s.produced, k);
    if k == KeyOf(info) {
      assert OfKey(s'.list, k) == [info] && OfKey(s'.produced, k) == produced + [info];
      QueuedOnly(sent, list, produced);
      AppendBoth(sent, produced, info);
    } else {
      assert OfKey(s'.list, k) == list && OfKey(s'.produced, k) == produced;
    }
  }

  lemma QueuedOnly(sent: seq<RtcpInfo>, list: seq<RtcpInfo>, produced: seq<RtcpInfo>)
    requires |list| <= 1 && IsSubsequence(sent + list, produced)
    ensures IsSubsequence(sent, produced)
  {
    if list == [] {
      assert sent + list == sent;
    } else {
      DropLast(sent + list, produced);
      assert (sent + list)[..|sent + list| - 1] == sent;
    }
  }

  lemma OfOneKey(info: RtcpInfo, k: Key)
    ensures OfKey([info], k) == if KeyOf(info) == k then [info] else []
  {
    assert [info][1..] == [];
  }

  lemma ProduceConserves(s: State, sessionId: uint32, report: Feedback)
    requires AllScream(s.list) && AllScream(s.produced) && Conserved(s)
    ensures var s' := Step(s, Produce(sessionId, report)); AllScream(s'.list) && AllScream(s'.produced) && Conserved(s')
  {
    hide RemoveFirst, FirstOf, OfKey, IsSubsequence;
    var info := InfoOf(sessionId, report);
    var removed := RemoveFirst(s.list, KeyOf(info));
    RemoveFirstByKey(s.list, KeyOf(info), KeyOf(info));
    forall x | x in removed ensures x in s.list { assert x in multiset(removed) && x in multiset(s.list); }
    assert multiset(removed + [info]) == multiset(removed) + multiset([info]);
    assert multiset(s.produced + [info]) == multiset(s.produced) + multiset([info]);
  }

  lemma ProduceKeepsInvariant(s: State, sessionId: uint32, report: Feedback)
    requires Invariant(s)
    ensures Invariant(Step(s, Produce(sessionId, report)))
  {
    hide KeyInvariant, AllScream, Conserved, RemoveFirst, FirstOf;
    var s' := Step(s, Produce(sessionId, report));
    ProduceConserves(s, sessionId, report);
    forall k ensures KeyInvariant(s', k) {
      assert KeyInvariant(s, k);
      ProduceKeepsKey(s, InfoOf(sessionId, report), s', k);
    }
  }

  lemma DrainKeepsInvariant(s: State, sessionId: uint32, room: seq<Room>)
    requires Invariant(s) && |room| == |s.list|
    ensures Invariant(Step(s, Drain(sessionId, room)))
  {
    hide OfKey, Kept;
    var s' := Step(s, Drain(sessionId, room));
    var sent := Sent(s.list, sessionId, room);
    DrainConserves(s.list, sessionId, room);
    DrainMembers(s.list, sessionId, room);
    forall k ensures KeyInvariant(s', k) {
      hide AllScream, Conserved, Sent, IsSubsequence;
      assert KeyInvariant(s, k);
      DrainByKey(s.list, sessionId, room, k);
      OfKeyConcat(s.sent, sent, k);
      assert OfKey(s'.sent, k) + OfKey(s'.list, k) == OfKey(s.sent, k) + OfKey(s.list, k);
    }
  }

  lemma {:induction false} RunsKeepInvariant(states: seq<State>, events: seq<Event>, i: nat)
    requires IsRun(states, events) && i < |states|
    ensures Invariant(states[i])
  {
    if i > 0 {
      RunsKeepInvariant(states, events, i - 1);
      match events[i - 1]
      case Produce(sessionId, report) => ProduceKeepsInvariant(states[i - 1], sessionId, report);
      case Drain(sessionId, room) => DrainKeepsInvariant(states[i - 1], sessionId, room);
    }
  }

  // ----- What the peer sees -----

  function Decoded(sent: seq<RtcpInfo>): seq<Option<Feedback>>
  {
    if sent == [] then []
    else Decoded(sent[..|sent| - 1]) + [OnFeedbackRtcp(Encode(Last(sent)))]
  }

  function Reports(produced: seq<RtcpInfo>): seq<Option<Feedback>>
  {
    if produced == [] then []
    else Reports(produced[..|produced| - 1]) + [Some(ReportOf(Last(produced)))]
  }

  lemma {:induction false} DecodedAreReports(sent: seq<RtcpInfo>)
    requires AllScream(sent)
    ensures Decoded(sent) == Reports(sent)
  {
    if sent != [] {
      DecodedAreReports(sent[..|sent| - 1]);
      FeedbackSurvivesTheWire(Last(sent));
    }
  }

  lemma {:induction false} ReportsOfSubsequence(a: seq<RtcpInfo>, b: seq<RtcpInfo>)
    requires IsSubsequence(a, b)
    ensures IsSubsequence(Reports(a), Reports(b))
  {
    if a != [] {
      var shorterA, shorterB := a[..|a| - 1], b[..|b| - 1];
      if Last(a) == Last(b) {
        ReportsOfSubsequence(shorterA, shorterB);
        AppendBoth(Reports(shorterA), Reports(shorterB), Some(ReportOf(Last(a))));
      } else {
        ReportsOfSubsequence(a, shorterB);
        Weaken(Reports(a), Reports(shorterB), Some(ReportOf(Last(b))));
      }
    }
  }

  lemma {:induction false} OfKeyMembers(list: seq<RtcpInfo>, k: Key)
    ensures forall info :: info in OfKey(list, k) ==> info in list
  {
    if list != [] { OfKeyMembers(list[1..], k); }
  }

  /** In every run: the list never holds two entries for one session and ssrc, and the one it holds is
      the newest; every report produced is sent once, superseded once or still queued; and what the
      peer decodes for one key is an in-order subsequence of the reports produced for it. */
  lemma FeedbackRefinesReports(states: seq<State>, events: seq<Event>, i: nat, k: Key)
    requires IsRun(states, events) && i < |states|
    ensures HoldsNewest(states[i], k)
    ensures Conserved(states[i])
    ensures AllScream(states[i].sent)
    ensures IsSubsequence(Decoded(OfKey(states[i].sent, k)), Reports(OfKey(states[i].produced, k)))
  {
    RunsKeepInvariant(states, events, i);
    var s := states[i];
    var sent, queued := OfKey(s.sent, k), OfKey(s.list, k);
    assert KeyInvariant(s, k);
    QueuedOnly(sent, queued, OfKey(s.produced, k));
    OfKeyMembers(s.sent, k);
    DecodedAreReports(sent);
    ReportsOfSubsequence(sent, OfKey(s.produced, k));
  }
}
