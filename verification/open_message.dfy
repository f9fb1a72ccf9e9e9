/** The control messages of the data channel establishment protocol (section 5 of RFC 8832), as
    create_datachannel_open_request writes them and handle_data_channel_open_request reads them. */
module OpenMessage {
  import opened WireBytes

  const MESSAGE_ACK: uint8 := 2
  const MESSAGE_OPEN: uint8 := 3

  type gint = x: int | -0x8000_0000 <= x < 0x8000_0000

  /** C strings end at their first NUL byte, so none is inside. */
  type cstring = s: bytes | 0 !in s

  datatype Params = Params(ordered: bool, maxPacketLifeTime: gint, maxRetransmits: gint, protocol: cstring, channelLabel: cstring)

  predicate BothLimits(p: Params)
  {
    p.maxPacketLifeTime != -1 && p.maxRetransmits != -1
  }

  function ChannelType(p: Params): uint8
  {
    (if p.ordered then 0 else 0x80)
    + (if p.maxPacketLifeTime != -1 then 0x02 else 0)
    + (if p.maxRetransmits != -1 then 0x01 else 0)
  }

  /** The sum of the limits that are set, in 32-bit unsigned arithmetic. */
  function ReliabilityParam(p: Params): uint32
  {
    ((if p.maxPacketLifeTime != -1 then p.maxPacketLifeTime else 0)
     + (if p.maxRetransmits != -1 then p.maxRetransmits else 0)) % 0x1_0000_0000
  }

  /** The conversion of guint32 to gint. */
  function ToGint(x: uint32): gint
  {
    if x < 0x8000_0000 then x else x - 0x1_0000_0000
  }

  function Header(channelType: uint8, reliability: uint32, priority: uint16, labelLen: uint16, protocolLen: uint16): (b: bytes)
    ensures |b| == 12
  {
    [MESSAGE_OPEN, channelType] + Uint16BE(priority) + Uint32BE(reliability) + Uint16BE(labelLen) + Uint16BE(protocolLen)
  }

  /** The OPEN message for a channel; the string lengths are passed as 16-bit values. */
  function OpenBytes(p: Params): bytes
  {
    var labelLen, protocolLen := |p.channelLabel| % 65536, |p.protocol| % 65536;
    Header(ChannelType(p), ReliabilityParam(p), 0, labelLen, protocolLen) + p.channelLabel[..labelLen] + p.protocol[..protocolLen]
  }

  function AckBytes(): bytes
  {
    [MESSAGE_ACK]
  }

  // ----- Reading -----

  /** g_strndup of a whole buffer: the bytes before its first NUL. */
  function StrNDup(b: bytes): (s: cstring)
    ensures s <= b
    ensures 0 !in b ==> s == b
    ensures 0 in b ==> |s| < |b| && b[|s|] == 0
  {
    if b == [] || b[0] == 0 then []
    else
      assert b == [b[0]] + b[1..];
      [b[0]] + StrNDup(b[1..])
  }

  /** What a control message turns out to be. `Overrun` stands for declared lengths that exceed the
      message, where the C code reads past its end. */
  datatype Control = Ignored | Ack | Open(params: Params) | Overrun

  function DecodeLimits(channelType: uint8, reliability: uint32, protocol: cstring, channelLabel: cstring): Params
  {
    Params(channelType < 0x80,
      if channelType == 0x02 || channelType == 0x82 then ToGint(reliability) else -1,
      if channelType == 0x01 || channelType == 0x81 then ToGint(reliability) else -1,
      protocol, channelLabel)
  }

  function DecodeOpen(b: bytes): Control
  {
    if |b| < 12 then Ignored
    else
      var labelLen, protocolLen := ReadUint16BE(b, 8), ReadUint16BE(b, 10);
      if |b| < 12 + labelLen + protocolLen then Overrun
      else
        Open(DecodeLimits(b[1], ReadUint32BE(b, 4),
          StrNDup(b[12 + labelLen..12 + labelLen + protocolLen]), StrNDup(b[12..12 + labelLen])))
  }

  /** handle_data_channel_control_message */
  function DecodeControl(b: bytes): Control
  {
    if b == [] then Ignored
    else if b[0] == MESSAGE_OPEN then DecodeOpen(b)
    else if b[0] == MESSAGE_ACK then Ack
    else Ignored
  }

  // ----- Round trips -----

  lemma HeaderFields(b: bytes, channelType: uint8, reliability: uint32, priority: uint16, labelLen: uint16, protocolLen: uint16)
    requires |b| >= 12 && b[..12] == Header(channelType, reliability, priority, labelLen, protocolLen)
    ensures b[0] == MESSAGE_OPEN && b[1] == channelType
    ensures ReadUint16BE(b, 2) == priority && ReadUint32BE(b, 4) == reliability
    ensures ReadUint16BE(b, 8) == labelLen && ReadUint16BE(b, 10) == protocolLen
  {
    var h := b[..12];
    assert b[0] == h[0] && b[1] == h[1];
    assert b[2..4] == h[2..4] == Uint16BE(priority);
    assert b[4..8] == h[4..8] == Uint32BE(reliability);
    assert b[8..10] == h[8..10] == Uint16BE(labelLen);
    assert b[10..12] == h[10..12] == Uint16BE(protocolLen);
    ReadBack16(priority, b, 2);
    ReadBack32(reliability, b, 4);
    ReadBack16(labelLen, b, 8);
    ReadBack16(protocolLen, b, 10);
  }

  /** What the peer gets of a channel's parameters, for every channel whose limits are not both set:
      the strings cut to their length modulo 65536, everything else unchanged. */
  function OnTheWire(p: Params): Params
  {
    var channelLabel: cstring := p.channelLabel[..|p.channelLabel| % 65536];
    var protocol: cstring := p.protocol[..|p.protocol| % 65536];
    p.(channelLabel := channelLabel, protocol := protocol)
  }

  lemma LimitsRoundTrip(p: Params, protocol: cstring, channelLabel: cstring)
    ensures !BothLimits(p) ==>
      DecodeLimits(ChannelType(p), ReliabilityParam(p), protocol, channelLabel) == p.(protocol := protocol, channelLabel := channelLabel)
    ensures BothLimits(p) ==>
      DecodeLimits(ChannelType(p), ReliabilityParam(p), protocol, channelLabel)
      == p.(maxPacketLifeTime := -1, maxRetransmits := -1, protocol := protocol, channelLabel := channelLabel)
  {
  }

  lemma DecodedOpen(p: Params)
    ensures DecodeControl(OpenBytes(p))
         == Open(if BothLimits(p) then OnTheWire(p).(maxPacketLifeTime := -1, maxRetransmits := -1) else OnTheWire(p))
    ensures |OpenBytes(p)| == 12 + |OnTheWire(p).channelLabel| + |OnTheWire(p).protocol|
  {
    var b := OpenBytes(p);
    var channelLabel, protocol := OnTheWire(p).channelLabel, OnTheWire(p).protocol;
    assert b[..12] == Header(ChannelType(p), ReliabilityParam(p), 0, |channelLabel|, |protocol|);
    HeaderFields(b, ChannelType(p), ReliabilityParam(p), 0, |channelLabel|, |protocol|);
    assert b[12..12 + |channelLabel|] == channelLabel;
    assert b[12 + |channelLabel|..12 + |channelLabel| + |protocol|] == protocol;
    LimitsRoundTrip(p, protocol, channelLabel);
  }

  /** The channel types of section 5.1 of RFC 8832. */
  function TypeByte(ordered: bool, maxPacketLifeTime: gint, maxRetransmits: gint): uint8
  {
    if maxPacketLifeTime == -1 && maxRetransmits == -1 then (if ordered then 0x00 else 0x80)
    else if maxPacketLifeTime == -1 then (if ordered then 0x01 else 0x81)
    else (if ordered then 0x02 else 0x82)
  }

  /** An OPEN message byte by byte: the message type, the channel type, no priority, the limit, if any, and the
      lengths in network byte order, then the label and the protocol; an ACK is one byte. */
  lemma OpenLayout(p: Params)
    requires !BothLimits(p)
    ensures var b, limit := OpenBytes(p), if p.maxPacketLifeTime != -1 then p.maxPacketLifeTime else p.maxRetransmits;
      && |b| >= 12 && b[0] == 3 && b[1] == TypeByte(p.ordered, p.maxPacketLifeTime, p.maxRetransmits) && b[2] == b[3] == 0
      && b[4] as int * 0x100_0000 + b[5] as int * 0x1_0000 + b[6] as int * 0x100 + b[7]
         == (if limit == -1 then 0 else if limit < 0 then limit + 0x1_0000_0000 else limit)
      && b[8] as int * 0x100 + b[9] == |p.channelLabel| % 0x1_0000 && b[10] as int * 0x100 + b[11] == |p.protocol| % 0x1_0000
      && b[12..] == p.channelLabel[..|p.channelLabel| % 0x1_0000] + p.protocol[..|p.protocol| % 0x1_0000]
    ensures AckBytes() == [2]
  {
    var b := OpenBytes(p);
    var labelLen, protocolLen := |p.channelLabel| % 65536, |p.protocol| % 65536;
    assert b[..12] == Header(ChannelType(p), ReliabilityParam(p), 0, labelLen, protocolLen);
    assert b[12..] == p.channelLabel[..labelLen] + p.protocol[..protocolLen];
    HeaderFields(b, ChannelType(p), ReliabilityParam(p), 0, labelLen, protocolLen);
  }

  /** What any message that is taken for an OPEN says: unordered from 0x80 on, a life time for 0x02 and 0x82, a number
      of retransmissions for 0x01 and 0x81, and no limit for any other type. */
  lemma DecodedKinds(b: bytes)
    requires DecodeControl(b).Open?
    ensures var p, unsigned := DecodeControl(b).params, ReadUint32BE(b, 4);
      var limit := if unsigned < 0x8000_0000 then unsigned else unsigned - 0x1_0000_0000;
      && b[0] == 3 && (p.ordered <==> b[1] < 0x80)
      && p.maxPacketLifeTime == (if b[1] == 0x02 || b[1] == 0x82 then limit else -1)
      && p.maxRetransmits == (if b[1] == 0x01 || b[1] == 0x81 then limit else -1)
  {
  }

  /** Which bytes are taken for what: an ACK may be longer than it should be, and so may an OPEN. */
  lemma DecodesIff(b: bytes)
    ensures DecodeControl(b).Ack? <==> |b| >= 1 && b[0] == 2
    ensures DecodeControl(b).Open? <==>
      |b| >= 12 && b[0] == 3 && |b| >= 12 + (b[8] as int * 0x100 + b[9]) + (b[10] as int * 0x100 + b[11])
    ensures DecodeControl(b).Ignored? <==> |b| == 0 || (b[0] != 2 && b[0] != 3) || (b[0] == 3 && |b| < 12)
  {
    hide StrNDup, DecodeLimits;
  }

  /** The strings of an OPEN end at their first NUL, if there is one. */
  lemma DecodedStrings(b: bytes)
    requires DecodeControl(b).Open?
    ensures var p, labelLen, protocolLen := DecodeControl(b).params, ReadUint16BE(b, 8), ReadUint16BE(b, 10);
      && |b| >= 12 + labelLen + protocolLen && EndsAtNul(b, 12, labelLen, p.channelLabel)
      && EndsAtNul(b, 12 + labelLen, protocolLen, p.protocol)
  {
    StringsOf(b);
    hide StrNDup, DecodeControl, EndsAtNul, ReadUint16BE;
    Terminated(b, 12, ReadUint16BE(b, 8));
    Terminated(b, 12 + ReadUint16BE(b, 8), ReadUint16BE(b, 10));
  }

  predicate EndsAtNul(b: bytes, at: nat, len: nat, text: cstring)
    requires at + len <= |b|
  {
    text <= b[at..at + len] && (|text| == len || b[at + |text|] == 0)
  }

  lemma StringsOf(b: bytes)
    requires DecodeControl(b).Open?
    ensures var p, labelLen, protocolLen := DecodeControl(b).params, ReadUint16BE(b, 8), ReadUint16BE(b, 10);
      && |b| >= 12 + labelLen + protocolLen && p.channelLabel == StrNDup(b[12..12 + labelLen])
      && p.protocol == StrNDup(b[12 + labelLen..12 + labelLen + protocolLen])
  {
    hide StrNDup, ReadUint16BE, ReadUint32BE;
  }

  lemma Terminated(b: bytes, at: nat, len: nat)
    requires at + len <= |b|
    ensures EndsAtNul(b, at, len, StrNDup(b[at..at + len]))
  {
    var field := b[at..at + len];
    if 0 !in field { assert StrNDup(field) == field; }
  }

  predicate Transmissible(p: Params)
  {
    !BothLimits(p) && |p.channelLabel| <= 65535 && |p.protocol| <= 65535
  }

  /** Decoding an encoded OPEN message returns the channel's parameters if and only if not both
      limits are set and the strings fit their 16-bit lengths; its size is then 12 plus both lengths. */
  lemma OpenRoundTrip(p: Params)
    ensures DecodeControl(OpenBytes(p)) == Open(p) <==> Transmissible(p)
    ensures Transmissible(p) ==> |OpenBytes(p)| == 12 + |p.channelLabel| + |p.protocol|
  {
    hide OpenBytes, DecodeControl;
    DecodedOpen(p);
    var decoded := DecodeControl(OpenBytes(p)).params;
    if Transmissible(p) {
      assert p.channelLabel[..|p.channelLabel|] == p.channelLabel && p.protocol[..|p.protocol|] == p.protocol;
    } else if |p.channelLabel| > 65535 {
      assert |decoded.channelLabel| < |p.channelLabel|;
    } else if |p.protocol| > 65535 {
      assert |decoded.protocol| < |p.protocol|;
    }
  }

  /** The OPEN messages this implementation could have sent itself. */
  predicate Canonical(b: bytes)
  {
    && |b| >= 12 && b[0] == MESSAGE_OPEN
    && b[1] in {0x00, 0x01, 0x02, 0x80, 0x81, 0x82}
    && ReadUint16BE(b, 2) == 0
    && (if b[1] in {0x00, 0x80} then ReadUint32BE(b, 4) == 0 else ReadUint32BE(b, 4) != 0xFFFF_FFFF)
    && |b| == 12 + ReadUint16BE(b, 8) + ReadUint16BE(b, 10)
    && 0 !in b[12..]
  }

  /** Whatever is encoded with at most one limit set is canonical. */
  lemma EncodedIsCanonical(p: Params)
    requires !BothLimits(p)
    ensures Canonical(OpenBytes(p))
  {
    var b := OpenBytes(p);
    var text, protocol := OnTheWire(p).channelLabel, OnTheWire(p).protocol;
    assert b[..12] == Header(ChannelType(p), ReliabilityParam(p), 0, |text|, |protocol|);
    HeaderFields(b, ChannelType(p), ReliabilityParam(p), 0, |text|, |protocol|);
    assert b[12..] == text + protocol;
  }

  lemma CanonicalDecodes(b: bytes)
    requires Canonical(b)
    ensures var labelLen := ReadUint16BE(b, 8);
            && 0 !in b[12..12 + labelLen] && 0 !in b[12 + labelLen..]
            && DecodeControl(b) == Open(DecodeLimits(b[1], ReadUint32BE(b, 4), b[12 + labelLen..], b[12..12 + labelLen]))
  {
    hide ReadUint16BE, ReadUint32BE, DecodeLimits;
    CanonicalStrings(b);
    var labelLen: nat := ReadUint16BE(b, 8);
    assert b[12 + labelLen..|b|] == b[12 + labelLen..];
  }

  lemma CanonicalReEncodes(b: bytes)
    requires Canonical(b)
    ensures DecodeControl(b).Open? && OpenBytes(DecodeControl(b).params) == b
  {
    hide ReadUint16BE, ReadUint32BE, Header, ChannelType, ReliabilityParam, OpenBytes, DecodeControl;
    CanonicalDecodes(b);
    var p := DecodeControl(b).params;
    var labelLen: nat := ReadUint16BE(b, 8);
    LimitsReEncode(b[1], ReadUint32BE(b, 4), p.protocol, p.channelLabel);
    HeaderOfFields(b);
    WholeStrings(p);
    assert b == b[..12] + b[12..12 + labelLen] + b[12 + labelLen..];
  }

  lemma WholeStrings(p: Params)
    requires |p.channelLabel| <= 65535 && |p.protocol| <= 65535
    ensures OpenBytes(p) == Header(ChannelType(p), ReliabilityParam(p), 0, |p.channelLabel|, |p.protocol|)
                            + p.channelLabel + p.protocol
  {
    assert p.channelLabel[..|p.channelLabel|] == p.channelLabel;
    assert p.protocol[..|p.protocol|] == p.protocol;
  }

  lemma LimitsReEncode(channelType: uint8, reliability: uint32, protocol: cstring, text: cstring)
    requires channelType in {0x00, 0x01, 0x02, 0x80, 0x81, 0x82}
    requires if channelType in {0x00, 0x80} then reliability == 0 else reliability != 0xFFFF_FFFF
    ensures var p := DecodeLimits(channelType, reliability, protocol, text);
            ChannelType(p) == channelType && ReliabilityParam(p) == reliability
  {
  }

  /** Encoding what was read gives the same message back if and only if the message is canonical. */
  lemma ReEncoding(b: bytes)
    requires DecodeControl(b).Open?
    ensures OpenBytes(DecodeControl(b).params) == b <==> Canonical(b)
  {
    if Canonical(b) {
      CanonicalReEncodes(b);
    } else {
      EncodedIsCanonical(DecodeControl(b).params);
    }
  }

  lemma CanonicalStrings(b: bytes)
    requires |b| >= 12 && 0 !in b[12..] && |b| == 12 + ReadUint16BE(b, 8) + ReadUint16BE(b, 10)
    ensures 0 !in b[12..12 + ReadUint16BE(b, 8)] && 0 !in b[12 + ReadUint16BE(b, 8)..]
  {
    var labelLen := ReadUint16BE(b, 8);
    assert b[12..] == b[12..12 + labelLen] + b[12 + labelLen..];
  }

  lemma HeaderOfFields(b: bytes)
    requires |b| >= 12 && b[0] == MESSAGE_OPEN
    ensures b[..12] == Header(b[1], ReadUint32BE(b, 4), ReadUint16BE(b, 2), ReadUint16BE(b, 8), ReadUint16BE(b, 10))
  {
    SameField16(b, 2);
    SameField32(b, 4);
    SameField16(b, 8);
    SameField16(b, 10);
    assert b[..12] == [b[0], b[1]] + b[2..4] + b[4..8] + b[8..10] + b[10..12];
  }

  // ----- Writing into a buffer -----

  /** The buffer with some of its bytes replaced. */
  function Overwrite(b: bytes, at: nat, src: bytes): (r: bytes)
    requires at + |src| <= |b|
    ensures |r| == |b|
  {
    b[..at] + src + b[at + |src|..]
  }

  method Memcpy(buf: array<uint8>, at: nat, src: bytes)
    requires at + |src| <= buf.Length
    modifies buf
    ensures buf[..] == Overwrite(old(buf[..]), at, src)
  {
    var i := 0;
    while i < |src|
      invariant i <= |src|
      invariant buf[..] == Overwrite(old(buf[..]), at, src[..i])
    {
      buf[at + i] := src[i];
      assert src[..i + 1] == src[..i] + [src[i]];
      i := i + 1;
    }
    assert src[..i] == src;
  }

  method CreateDatachannelOpenRequest(channelType: uint8, reliability: uint32, priority: uint16,
      channelLabel: bytes, labelLen: uint16, protocol: bytes, protocolLen: uint16) returns (buf: array<uint8>)
    requires labelLen <= |channelLabel| && protocolLen <= |protocol|
    ensures fresh(buf)
    ensures buf[..] == Header(channelType, reliability, priority, labelLen, protocolLen)
                       + channelLabel[..labelLen] + protocol[..protocolLen]
  {
    buf := new uint8[12 + labelLen + protocolLen];
    buf[0], buf[1] := MESSAGE_OPEN, channelType;
    Memcpy(buf, 2, Uint16BE(priority));
    Memcpy(buf, 4, Uint32BE(reliability));
    Memcpy(buf, 8, Uint16BE(labelLen));
    Memcpy(buf, 10, Uint16BE(protocolLen));
    assert buf[..12] == Header(channelType, reliability, priority, labelLen, protocolLen);
    Memcpy(buf, 12, channelLabel[..labelLen]);
    Memcpy(buf, 12 + labelLen, protocol[..protocolLen]);
  }

  /** The part of create_datachannel that builds the message. */
  method BuildOpenRequest(p: Params) returns (buf: array<uint8>)
    ensures fresh(buf) && buf[..] == OpenBytes(p)
  {
    buf := CreateDatachannelOpenRequest(ChannelType(p), ReliabilityParam(p), 0,
      p.channelLabel, |p.channelLabel| % 65536, p.protocol, |p.protocol| % 65536);
  }
}
