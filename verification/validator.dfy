/** The protocol self-check utility: a structural packet validator, the
    test-packet encoder it is paired with, and the pass/fail decisions of
    the single-command tests. */
module ProtocolCheck {
  import opened Protocol
  import opened Codec
  import opened Transport

  /** One failed check, with the values its message reports. */
  datatype CheckError =
    | BadSize(size: nat)
    | BadReportId(got: int)
    | BadHeaders(first: int, second: int)
    | BadCommand(got: int, expected: int)

  /** validatePacket's result object. */
  datatype Validation = Validation(valid: bool, errors: seq<CheckError>)

  /** validatePacket throws while formatting a message about a byte the
      packet does not have: below three bytes the report-id or header
      message reads a missing byte; at exactly three bytes the command
      message does, whenever a command is expected. */
  predicate Throws(p: Packet, expected: int) {
    |p| < 3 || (|p| == 3 && expected != 0)
  }

  /** The failed checks in the order validatePacket makes them: size, report
      id, header pair, and the command when one is expected (0 is falsy and
      skips it). */
  function Failures(p: Packet, expected: int): seq<CheckError>
    requires !Throws(p, expected)
  {
    (if |p| != PacketSize then [BadSize(|p|)] else [])
    + (if p[0] != ReportId then [BadReportId(p[0])] else [])
    + (if p[1] != Header1 || p[2] != Header2 then [BadHeaders(p[1], p[2])] else [])
    + (if expected != 0 && p[3] != expected then [BadCommand(p[3], expected)] else [])
  }

  /** validatePacket: each failed check clears `valid` and adds its one
      error; `None` is the TypeError thrown for a too-short packet. */
  method ValidatePacket(p: Packet, expected: int) returns (r: Option<Validation>)
    ensures r.None? <==> Throws(p, expected)
    ensures r.Some? ==> r.value.errors == Failures(p, expected) && (r.value.valid <==> r.value.errors == [])
  {
    var valid := true;
    var errors: seq<CheckError> := [];
    if |p| != PacketSize {
      valid := false;
      errors := errors + [BadSize(|p|)];
    }
    if |p| == 0 {
      return None;
    }
    if p[0] != ReportId {
      valid := false;
      errors := errors + [BadReportId(p[0])];
    }
    if |p| < 3 {
      return None;
    }
    if p[1] != Header1 || p[2] != Header2 {
      valid := false;
      errors := errors + [BadHeaders(p[1], p[2])];
    }
    if expected != 0 {
      if |p| == 3 {
        return None;
      }
      if p[3] != expected {
        valid := false;
        errors := errors + [BadCommand(p[3], expected)];
      }
    }
    r := Some(Validation(valid, errors));
  }

  /** A packet passes exactly when it has 64 bytes, report id 0, the header
      pair 0x16 0x16 and, when a command is expected, that command; each
      failed check contributes exactly one error. */
  lemma FailuresSpec(p: Packet, expected: int)
    requires !Throws(p, expected)
    ensures Failures(p, expected) == [] <==>
              && |p| == PacketSize && p[0] == ReportId && p[1] == Header1 && p[2] == Header2
              && (expected != 0 ==> p[3] == expected)
    ensures |Failures(p, expected)|
            == (if |p| != PacketSize then 1 else 0) + (if p[0] != ReportId then 1 else 0)
               + (if p[1] != Header1 || p[2] != Header2 then 1 else 0)
               + (if expected != 0 && p[3] != expected then 1 else 0)
    ensures expected == 0 ==> forall k :: 0 <= k < |Failures(p, expected)| ==> !Failures(p, expected)[k].BadCommand?
  {
  }

  /** createTestPacket: the same frame as the basic plugin's createPacket,
      fixed headers and at most 59 payload bytes from offset 5. */
  method CreateTestPacket(command: int, data: seq<int>) returns (p: Packet)
    ensures p == Frame(DefaultHeaders, command, None, data)
  {
    p := CreatePlainPacket(command, data);
  }

  /** The round trip: every test packet passes validation against its own
      command, whatever the command and however long the data; byte 4 keeps
      the original length and the payload beyond 59 bytes is dropped. */
  lemma TestPacketValid(command: int, data: seq<int>)
    ensures var p := Frame(DefaultHeaders, command, None, data);
            && !Throws(p, command)
            && Failures(p, command) == []
            && p[4] == |data|
            && DecodeFrame(p, false).value.payload == data[..Min(|data|, 59)]
  {
    FrameBytes(DefaultHeaders, command, None, data);
    DecodeEncode(DefaultHeaders, command, None, data);
  }

  /** A frame built with any header pair other than 0x16 0x16 (one the
      enhanced plugin's detector can choose) fails with exactly one error,
      the header error. */
  lemma OtherHeadersRejected(h: HeaderPair, command: int, zone: Option<int>, data: seq<int>)
    requires h != DefaultHeaders
    ensures Failures(Frame(h, command, zone, data), command) == [BadHeaders(h.first, h.second)]
  {
    FrameBytes(h, command, zone, data);
  }

  /** testColorCommand: a zone packet [0, r, g, b] for command 0x06 that
      always validates; with no device it passes, otherwise it passes exactly
      when the write does not throw. */
  method TestColorCommand(dev: HidDevice?, r: int, g: int, b: int) returns (success: bool)
    modifies dev
    ensures success <==> dev == null || !dev.fails(old(dev.attempts))
    ensures dev != null ==>
              && dev.attempts == old(dev.attempts) + 1
              && dev.sent == old(dev.sent) + (if success then [Frame(DefaultHeaders, CmdSetRgbZone, None, [ZoneAll, r, g, b])] else [])
  {
    var packet := CreateTestPacket(CmdSetRgbZone, [ZoneAll, r, g, b]);
    TestPacketValid(CmdSetRgbZone, [ZoneAll, r, g, b]);
    var validation := ValidatePacket(packet, CmdSetRgbZone);
    if validation.None? || !validation.value.valid {
      assert false;
      return false;
    }
    if dev != null {
      success := dev.Write(packet);
    } else {
      success := true;
    }
  }

  /** testCommand: the test packet always validates, so with no device the
      test passes, and otherwise it passes exactly when the write's outcome
      matches the expectation: a throw when an error is expected, none
      otherwise. */
  method TestCommand(dev: HidDevice?, command: int, data: seq<int>, expectError: bool) returns (success: bool)
    modifies dev
    ensures success <==> dev == null || (expectError <==> dev.fails(old(dev.attempts)))
    ensures dev != null ==>
              && dev.attempts == old(dev.attempts) + 1
              && dev.sent == old(dev.sent)
                             + (if !dev.fails(old(dev.attempts)) then [Frame(DefaultHeaders, command, None, data)] else [])
  {
    var packet := CreateTestPacket(command, data);
    TestPacketValid(command, data);
    var validation := ValidatePacket(packet, command);
    if validation.None? {
      assert false;
      return expectError;
    }
    if !validation.value.valid && !expectError {
      assert false;
      return false;
    }
    if dev != null {
      var ok := dev.Write(packet);
      if !ok {
        return expectError;
      }
      return !expectError;
    }
    success := true;
  }
}
