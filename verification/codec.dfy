/** The packet codec: every 64-byte frame the plugins and the protocol tester
    build has one shape, given here once as `Frame`, with its decoder. */
module Codec {
  import opened Protocol

  function Min(a: int, b: int): int { if a < b then a else b }

  /** Offset of the first payload byte: 6 after a zone byte, 5 otherwise. */
  function PayloadOffset(zoned: bool): nat { if zoned then 6 else 5 }

  /** Payload bytes that fit in a frame: 58 after a zone byte, 59 otherwise. */
  function Capacity(zoned: bool): nat { PacketSize - PayloadOffset(zoned) }

  /** Number of payload bytes a frame actually carries. */
  function Copied(zoned: bool, data: seq<int>): nat { Min(|data|, Capacity(zoned)) }

  /** The frame for `command` and `data`: a zero-filled 64-byte array with the
      report id, the header pair, the command and the ORIGINAL payload length,
      then (when `zone` is present) the zone byte, then as much of the payload
      as fits. */
  function Frame(headers: HeaderPair, command: int, zone: Option<int>, data: seq<int>): Packet
  {
    var off := PayloadOffset(zone.Some?);
    seq(PacketSize, j requires 0 <= j < PacketSize =>
      if j == 0 then ReportId
      else if j == 1 then headers.first
      else if j == 2 then headers.second
      else if j == 3 then command
      else if j == 4 then |data|
      else if j < off then zone.value
      else if j - off < |data| then data[j - off]
      else 0)
  }

  /** The zone argument the enhanced createProtocolPacket uses: the ring-mode
      zone for the two colour commands, none for every other command. */
  function EnhancedZone(mode: RingMode, command: int): Option<int> {
    if IsZoneCommand(command) then Some(ZoneForRingMode(mode)) else None
  }

  /** What a receiver reads back from a frame. */
  datatype Fields = Fields(headers: HeaderPair, command: int, zone: Option<int>, length: int, payload: seq<int>)

  /** The decoder: accepts exactly the 64-byte frames with report id 0, a
      non-negative length byte, and zeros after the carried payload. */
  function DecodeFrame(p: Packet, zoned: bool): Option<Fields>
  {
    if |p| != PacketSize || p[0] != ReportId || p[4] < 0 then None
    else
      var off := PayloadOffset(zoned);
      var n := Min(p[4], Capacity(zoned));
      if exists j :: off + n <= j < PacketSize && p[j] != 0 then None
      else Some(Fields(HeaderPair(p[1], p[2]), p[3], if zoned then Some(p[5]) else None, p[4], p[off..off + n]))
  }

  /** Decoding an encoded frame gives back the headers, command, zone and the
      original length, and the payload truncated to the frame's capacity. */
  lemma DecodeEncode(headers: HeaderPair, command: int, zone: Option<int>, data: seq<int>)
    ensures DecodeFrame(Frame(headers, command, zone, data), zone.Some?)
         == Some(Fields(headers, command, zone, |data|, data[..Copied(zone.Some?, data)]))
  {
    var p := Frame(headers, command, zone, data);
    var off := PayloadOffset(zone.Some?);
    var n := Copied(zone.Some?, data);
    assert Min(p[4], Capacity(zone.Some?)) == n;
    forall j | off + n <= j < PacketSize ensures p[j] == 0 {
    }
    assert p[off..off + n] == data[..n];
    if zone.Some? {
      assert p[5] == zone.value;
    }
  }

  /** Conversely every frame the decoder accepts, with a length byte that fits
      the capacity, is the encoding of what it decodes to: no other byte of an
      encoded frame is free. */
  lemma EncodeDecode(p: Packet, zoned: bool)
    requires DecodeFrame(p, zoned).Some?
    requires DecodeFrame(p, zoned).value.length <= Capacity(zoned)
    ensures var f := DecodeFrame(p, zoned).value;
            Frame(f.headers, f.command, f.zone, f.payload) == p
  {
    var f := DecodeFrame(p, zoned).value;
    var q := Frame(f.headers, f.command, f.zone, f.payload);
    var off := PayloadOffset(zoned);
    assert |f.payload| == p[4];
    forall j | 0 <= j < PacketSize ensures q[j] == p[j] {
      if j >= off + p[4] {
        assert !(off + Min(p[4], Capacity(zoned)) <= j < PacketSize && p[j] != 0);
      }
    }
  }

  /** createProtocolPacket (the later definition in the enhanced plugin): fills
      a zero-initialised array, then copies the payload byte by byte. */
  method CreateProtocolPacket(headers: HeaderPair, mode: RingMode, command: int, data: seq<int>)
    returns (packet: Packet)
    ensures packet == Frame(headers, command, EnhancedZone(mode, command), data)
  {
    var a := new int[PacketSize](_ => 0);
    a[0] := ReportId;
    a[1] := headers.first;
    a[2] := headers.second;
    a[3] := command;
    a[4] := |data|;
    var off: nat := 5;
    if IsZoneCommand(command) {
      a[5] := ZoneForRingMode(mode);
      off := 6;
    }
    CopyPayload(a, off, data);
    FrameOfBytes(headers, command, EnhancedZone(mode, command), data, a[..]);
    packet := a[..];
  }

  /** createPacket of the basic plugin and createTestPacket of the protocol
      tester: fixed headers and the payload always at offset 5. */
  method CreatePlainPacket(command: int, data: seq<int>) returns (packet: Packet)
    ensures packet == Frame(DefaultHeaders, command, None, data)
  {
    var a := new int[PacketSize](_ => 0);
    a[0] := ReportId;
    a[1] := Header1;
    a[2] := Header2;
    a[3] := command;
    a[4] := |data|;
    CopyPayload(a, 5, data);
    FrameOfBytes(DefaultHeaders, command, None, data, a[..]);
    packet := a[..];
  }

  /** The copy loop of both packet builders: data[i] goes to a[off + i] for
      as many bytes as fit in the frame; every other byte keeps its value. */
  method CopyPayload(a: array<int>, off: nat, data: seq<int>)
    requires a.Length == PacketSize && off <= PacketSize
    modifies a
    ensures forall j :: 0 <= j < PacketSize ==>
              a[j] == if off <= j < off + Min(|data|, PacketSize - off) then data[j - off] else old(a[j])
  {
    var i := 0;
    while i < |data| && i < PacketSize - off
      invariant 0 <= i <= |data| && i <= PacketSize - off
      invariant forall j :: 0 <= j < PacketSize ==> a[j] == if off <= j < off + i then data[j - off] else old(a[j])
    {
      a[off + i] := data[i];
      i := i + 1;
    }
  }

  /** A 64-byte sequence is the frame exactly when its bytes are as
      FrameBytes lists them: report id, headers, command, the original length,
      the zone when there is one, the carried payload, and zeros after it. */
  lemma FrameOfBytes(headers: HeaderPair, command: int, zone: Option<int>, data: seq<int>, p: seq<int>)
    requires |p| == PacketSize
    requires p[0] == ReportId && p[1] == headers.first && p[2] == headers.second
    requires p[3] == command && p[4] == |data|
    requires zone.Some? ==> p[5] == zone.value
    requires forall j :: PayloadOffset(zone.Some?) <= j < PayloadOffset(zone.Some?) + Copied(zone.Some?, data)
                         ==> p[j] == data[j - PayloadOffset(zone.Some?)]
    requires forall j :: PayloadOffset(zone.Some?) + Copied(zone.Some?, data) <= j < PacketSize ==> p[j] == 0
    ensures p == Frame(headers, command, zone, data)
  {
    var f := Frame(headers, command, zone, data);
    forall j | 0 <= j < PacketSize
      ensures p[j] == f[j]
    {
    }
  }

  /** Byte-level facts of every encoded frame: size 64, byte 0 is the report
      id, bytes 1-2 the header pair, byte 3 the command, byte 4 the original
      payload length (also when the copy is truncated), byte 5 the zone when
      there is one, and the payload starts right after. */
  lemma FrameBytes(headers: HeaderPair, command: int, zone: Option<int>, data: seq<int>)
    ensures var p := Frame(headers, command, zone, data);
            && |p| == PacketSize
            && p[0] == ReportId && p[1] == headers.first && p[2] == headers.second
            && p[3] == command && p[4] == |data|
            && (zone.Some? ==> p[5] == zone.value)
            && p[PayloadOffset(zone.Some?)..PayloadOffset(zone.Some?) + Copied(zone.Some?, data)]
               == data[..Copied(zone.Some?, data)]
            && (forall j :: PayloadOffset(zone.Some?) + Copied(zone.Some?, data) <= j < PacketSize ==> p[j] == 0)
  {
    var p := Frame(headers, command, zone, data);
    var n := Copied(zone.Some?, data);
    var off := PayloadOffset(zone.Some?);
    assert p[off..off + n] == data[..n];
  }

  /** Overwriting byte 5 of a zone-command frame, as the independent-rings
      renderer does, is the same as encoding with that zone. */
  lemma OverwriteZone(headers: HeaderPair, command: int, zone: int, newZone: int, data: seq<int>)
    ensures Frame(headers, command, Some(zone), data)[5 := newZone] == Frame(headers, command, Some(newZone), data)
  {
  }

  /** A payload of at most `Capacity` bytes is carried whole; a longer one
      loses exactly its tail beyond the capacity. */
  lemma Truncation(headers: HeaderPair, command: int, zone: Option<int>, data: seq<int>)
    ensures |data| <= Capacity(zone.Some?) ==>
      DecodeFrame(Frame(headers, command, zone, data), zone.Some?).value.payload == data
    ensures |data| > Capacity(zone.Some?) ==>
      DecodeFrame(Frame(headers, command, zone, data), zone.Some?).value.payload == data[..Capacity(zone.Some?)]
  {
    DecodeEncode(headers, command, zone, data);
  }
}
