/** The basic plugin: one averaged colour per frame, sent as a zone packet
    with the fixed header pair; no per-LED data, no error counting, and a
    layout built once for 24 LEDs when the plugin loads. */
module Basic {
  import opened Protocol
  import opened Codec
  import opened Layout
  import opened Sampler
  import opened Transport

  /** An entry of the basic plugin's DEVICE_CONFIGS. */
  datatype Config = Config(name: string, ledCount: nat, iface: int, usagePage: Option<int>)

  const Trinity := Config("Trinity", 24, 0, None)
  const TrinityPerformance := Config("Trinity Performance", 24, 0, None)
  const Lcd := Config("LCD", 24, 1, Some(0xFF1A))

  /** ProductId() of the basic plugin. */
  const ProductIdValue := 0x7373

  /** LED_COUNT before any host setting, and the count the layout is built for. */
  const DefaultLedCount := 24

  /** DEVICE_CONFIGS[pid] || DEVICE_CONFIGS[0x7373] */
  function ConfigFor(pid: int): (c: Config)
    ensures pid == 0x7395 <==> c == Lcd
    ensures pid == 0x7371 <==> c == TrinityPerformance
    ensures pid != 0x7395 && pid != 0x7371 <==> c == Trinity
    ensures c.ledCount == 24 && 0 <= c.iface <= 1
  {
    if pid == 0x7371 then TrinityPerformance
    else if pid == 0x7395 then Lcd
    else Trinity
  }

  /** Validate: the interface must match, then the usage page when the
      configuration names one; past those a vendor usage page (0xFF00 or
      above, with no upper bound) or an interface of 0 or 1 accepts. */
  function Validate(config: Config, e: Endpoint): bool {
    if e.iface != config.iface then false
    else if config.usagePage.Some? && e.usagePage != config.usagePage.value then false
    else e.usagePage >= 0xFF00 || e.iface <= 1
  }

  /** Every configuration has interface 0 or 1, so the fallback test never
      rejects: an endpoint is accepted exactly when its interface matches and,
      for the LCD, its usage page is 0xFF1A. With the plugin's own product id
      that means interface 0, whatever the usage page. */
  lemma ValidateExact(pid: int, e: Endpoint)
    ensures var c := ConfigFor(pid);
            Validate(c, e) <==> e.iface == c.iface && (c.usagePage.None? || e.usagePage == c.usagePage.value)
    ensures Validate(ConfigFor(ProductIdValue), e) <==> e.iface == 0
    ensures Validate(Lcd, e) <==> e.iface == 1 && e.usagePage == 0xFF1A
  {
    assert ConfigFor(ProductIdValue) == Trinity;
  }

  /** The positions and names generateLEDLayout returns. */
  datatype BasicLayout = BasicLayout(positions: seq<Point>, names: seq<LedName>)

  /** The cells of the first `n` LEDs of a ring of `count`, as placed:
      the basic plugin does not clamp them to its grid. */
  function RingCells(ring: Ring, count: nat, place: Placement, n: nat): (r: seq<Point>)
    ensures |r| == n
  {
    seq(n, k requires 0 <= k < n => place(ring, k, count))
  }

  /** The layout for `ledCount` LEDs: ceil(0.7 n) on the outer ring, the
      rest on the inner ring, outer ring first. */
  function LayoutFor(ledCount: nat, place: Placement): BasicLayout {
    var outer := BasicOuterCount(ledCount);
    var inner := ledCount - outer;
    BasicLayout(RingCells(Outer, outer, place, outer) + RingCells(Inner, inner, place, inner),
                RingNames(Outer, outer) + RingNames(Inner, inner))
  }

  /** generateLEDLayout: two loops pushing a position and a name per LED. */
  method GenerateLedLayout(ledCount: nat, place: Placement) returns (l: BasicLayout)
    ensures l == LayoutFor(ledCount, place)
  {
    var positions: seq<Point> := [];
    var names: seq<LedName> := [];
    var outerLeds := BasicOuterCount(ledCount);
    var i := 0;
    while i < outerLeds
      invariant 0 <= i <= outerLeds
      invariant positions == RingCells(Outer, outerLeds, place, i)
      invariant names == RingNames(Outer, i)
    {
      positions := positions + [place(Outer, i, outerLeds)];
      names := names + [LedName(Outer, i + 1)];
      i := i + 1;
    }
    ghost var outerPositions, outerNames := positions, names;
    var innerLeds := ledCount - outerLeds;
    i := 0;
    while i < innerLeds
      invariant 0 <= i <= innerLeds
      invariant positions == outerPositions + RingCells(Inner, innerLeds, place, i)
      invariant names == outerNames + RingNames(Inner, i)
    {
      positions := positions + [place(Inner, i, innerLeds)];
      names := names + [LedName(Inner, i + 1)];
      i := i + 1;
    }
    l := BasicLayout(positions, names);
  }

  /** The load-time layout: 24 cells, 17 on the outer ring ("Outer 1" to
      "Outer 17") and 7 on the inner ring ("Inner 1" to "Inner 7"), each at
      its unclamped placement. */
  lemma DefaultLayoutShape(place: Placement)
    ensures var l := LayoutFor(DefaultLedCount, place);
            && |l.positions| == 24 && |l.names| == 24
            && (forall i :: 0 <= i < 17 ==> l.positions[i] == place(Outer, i, 17) && l.names[i] == LedName(Outer, i + 1))
            && (forall i :: 0 <= i < 7 ==> l.positions[17 + i] == place(Inner, i, 7) && l.names[17 + i] == LedName(Inner, i + 1))
  {
    assert BasicOuterCount(DefaultLedCount) == 17;
  }

  /** A channel entry of the basic plugin. */
  datatype RingChannel = RingChannel(name: string, ledCount: nat)

  /** Channels: ceil(0.67 n) outer LEDs (the least count not below 67n/100)
      and the rest inner. */
  function Channels(ledCount: nat): (cs: seq<RingChannel>)
    ensures |cs| == 2 && cs[0].name == "Outer Ring" && cs[1].name == "Inner Ring"
    ensures cs[0].ledCount == EnhancedOuterCount(ledCount)
    ensures cs[0].ledCount + cs[1].ledCount == ledCount
  {
    var outer := EnhancedOuterCount(ledCount);
    [RingChannel("Outer Ring", outer), RingChannel("Inner Ring", ledCount - outer)]
  }

  /** Channels splits with 0.67 while the layout splits with 0.7: the two
      agree at the default 24 LEDs (17 and 7) but not at every count the
      host allows; at 43 LEDs the channels say 29 outer, the layout rule 31. */
  lemma ChannelsAgainstLayout()
    ensures Channels(24)[0].ledCount == BasicOuterCount(24) == 17
    ensures Channels(43)[0].ledCount == 29 && BasicOuterCount(43) == 31
  {
  }

  /** getAverageColor: the mean of every valid sample over the whole layout,
      scaled by the brightness; black when the canvas answers nowhere. */
  function FrameColor(positions: seq<Point>, canvas: Canvas, brightness: int): Rgb {
    var t := ValidTotals(Range(0, |positions|), positions, canvas);
    if t.count == 0 then Rgb(0, 0, 0) else AverageColor(t, brightness)
  }

  /** Sums over indices whose cells all show the same colour. */
  lemma {:induction false} UniformValidTotals(indices: seq<nat>, positions: seq<Point>, canvas: Canvas, c: Rgb)
    requires Addresses(indices, positions)
    requires forall k :: 0 <= k < |indices| ==> canvas(positions[indices[k]]) == Some(c)
    ensures ValidTotals(indices, positions, canvas) == Totals(|indices| * c.r, |indices| * c.g, |indices| * c.b, |indices|)
    decreases |indices|
  {
    if |indices| > 0 {
      var init := indices[..|indices| - 1];
      assert forall k :: 0 <= k < |init| ==> init[k] == indices[k];
      UniformValidTotals(init, positions, canvas, c);
    }
  }

  /** n * a <= n * b for n > 0 and a <= b. */
  lemma MulMono(n: int, a: int, b: int)
    requires n > 0 && a <= b
    ensures n * a <= n * b
  {
    assert n * b - n * a == n * (b - a);
    if b > a {
      MulAtLeast(n, b - a);
    }
  }

  /** Rounding a quotient is unchanged by a common positive factor. */
  lemma RoundDivCancel(n: int, x: int, d: int)
    requires n > 0 && d > 0
    ensures RoundDiv(n * x, n * d) == RoundDiv(x, d)
  {
    var q := RoundDiv(x, d);
    MulMono(n, 2 * d * q, 2 * x + d);
    MulMono(n, 2 * x + d + 1, 2 * d * q + 2 * d);
    assert n * (2 * d * q) == 2 * (n * d) * q;
    assert n * (2 * x + d) == 2 * (n * x) + n * d;
    assert n * (2 * x + d + 1) == 2 * (n * x) + n * d + n;
    assert n * (2 * d * q + 2 * d) == 2 * (n * d) * q + 2 * (n * d);
    DivUnique(2 * (n * x) + n * d, 2 * (n * d), q);
  }

  /** The average of n copies of one colour, scaled, is that colour scaled. */
  lemma AverageOfCopies(n: nat, c: Rgb, brightness: int)
    requires n > 0
    ensures AverageColor(Totals(n * c.r, n * c.g, n * c.b, n), brightness)
         == Rgb(Scale(c.r, brightness), Scale(c.g, brightness), Scale(c.b, brightness))
  {
    assert 100 * n == n * 100;
    assert (n * c.r) * brightness == n * (c.r * brightness);
    assert (n * c.g) * brightness == n * (c.g * brightness);
    assert (n * c.b) * brightness == n * (c.b * brightness);
    RoundDivCancel(n, c.r * brightness, 100);
    RoundDivCancel(n, c.g * brightness, 100);
    RoundDivCancel(n, c.b * brightness, 100);
  }

  /** When the canvas shows one colour at every cell of a non-empty layout,
      the frame colour is that colour scaled by the brightness (unchanged at
      brightness 100); when it answers nowhere, the frame colour is black. */
  lemma FrameColorSpec(positions: seq<Point>, canvas: Canvas, brightness: int, c: Rgb)
    ensures (forall k :: 0 <= k < |positions| ==> canvas(positions[k]).None?)
            ==> FrameColor(positions, canvas, brightness) == Rgb(0, 0, 0)
    ensures |positions| > 0 && (forall k :: 0 <= k < |positions| ==> canvas(positions[k]) == Some(c))
            ==> && FrameColor(positions, canvas, brightness)
                   == Rgb(Scale(c.r, brightness), Scale(c.g, brightness), Scale(c.b, brightness))
                && (brightness == 100 ==> FrameColor(positions, canvas, brightness) == c)
  {
    var all := Range(0, |positions|);
    ValidTotalsCount(all, positions, canvas);
    if |positions| > 0 && (forall k :: 0 <= k < |positions| ==> canvas(positions[k]) == Some(c)) {
      UniformValidTotals(all, positions, canvas, c);
      AverageOfCopies(|positions|, c, brightness);
      ScaleFull(c.r);
      ScaleFull(c.g);
      ScaleFull(c.b);
    }
  }

  /** createPacket: the fixed header pair, no zone byte. */
  function Plain(command: int, data: seq<int>): Packet {
    Frame(DefaultHeaders, command, None, data)
  }

  /** sendRGBData's packet: the zone is the first payload byte. */
  function ZonePacket(mode: RingMode, c: Rgb): Packet {
    Plain(CmdSetRgbZone, [BasicZoneForRingMode(mode), c.r, c.g, c.b])
  }

  /** The zone packet reads back as command 0x06 with length 4 and the
      payload [zone, r, g, b], the zone taken from the ring mode. */
  lemma ZonePacketCarries(mode: RingMode, c: Rgb)
    ensures DecodeFrame(ZonePacket(mode, c), false)
         == Some(Fields(DefaultHeaders, CmdSetRgbZone, None, 4, [BasicZoneForRingMode(mode), c.r, c.g, c.b]))
    ensures ZonePacket(mode, c)[5] == BasicZoneForRingMode(mode)
  {
    var data := [BasicZoneForRingMode(mode), c.r, c.g, c.b];
    DecodeEncode(DefaultHeaders, CmdSetRgbZone, None, data);
    assert data[..Copied(false, data)] == data;
  }

  /** A scheduled setTimeout continuation of the basic plugin. */
  datatype Step =
    | LedCountStep
    | RgbInitStep
    | InnerZoneStep(color: Rgb)
    | ShutdownApplyStep
    | ShutdownResetStep

  /** The step a continuation schedules after its own write goes through. */
  function NextSteps(step: Step): seq<Step> {
    match step
    case LedCountStep => [RgbInitStep]
    case ShutdownApplyStep => [ShutdownResetStep]
    case _ => []
  }

  /** The packet a continuation writes when it fires; the LED-count step
      reads LED_COUNT at that moment. */
  function StepPacket(step: Step, ledCount: nat): Packet {
    match step
    case LedCountStep => Plain(CmdSetLedCount, [ledCount])
    case RgbInitStep => Plain(CmdInitialize, [0x01, 0x00])
    case InnerZoneStep(c) => Plain(CmdSetRgbZone, [ZoneInner, c.r, c.g, c.b])
    case ShutdownApplyStep => Plain(CmdApply, [])
    case ShutdownResetStep => Plain(CmdReset, [])
  }

  /** Unlike the enhanced plugin, the LED-count step sends the configured
      count, not a fixed total. */
  lemma LedCountStepSendsSetting(ledCount: nat)
    ensures var p := StepPacket(LedCountStep, ledCount);
            p[3] == CmdSetLedCount && p[4] == 1 && p[5] == ledCount
  {
    FrameBytes(DefaultHeaders, CmdSetLedCount, None, [ledCount]);
  }

  /** The inner-zone continuation sendRGBData leaves: only in Combined mode
      with at least 16 LEDs. */
  function InnerSteps(mode: RingMode, ledCount: nat, c: Rgb): seq<Step> {
    if mode == Combined && ledCount >= 16 then [InnerZoneStep(c)] else []
  }

  /** Everything in Render's try block that can throw, in order: the zone
      packet, then Apply on every fifth frame. */
  function FramePackets(mode: RingMode, c: Rgb, frame: nat): seq<Packet> {
    [ZonePacket(mode, c)] + (if frame % 5 == 0 then [Plain(CmdApply, [])] else [])
  }

  /** The device and session state after a frame that was sent: its writes
      stop at the first throw. When one threw, every 300th frame tries the
      Reset of initializeDevice, whose own throw is ignored and whose success
      schedules the LED-count step. The inner-zone continuation is scheduled
      once the zone packet (the first write) went through. */
  ghost predicate FrameOutcome(fails: nat -> bool, a0: nat, s0: seq<Packet>, p0: seq<Step>,
                               plan: seq<Packet>, inner: seq<Step>, frame: nat,
                               attempts: nat, sent: seq<Packet>, pending: seq<Step>)
  {
    var k := Run(fails, a0, |plan|);
    if k == |plan| then
      && sent == s0 + plan
      && attempts == a0 + |plan|
      && pending == p0 + inner
    else
      var recover := frame % 300 == 0;
      var rOk := recover && !fails(a0 + k + 1);
      && sent == s0 + plan[..k] + (if rOk then [Plain(CmdReset, [])] else [])
      && attempts == a0 + k + 1 + (if recover then 1 else 0)
      && pending == p0 + (if k >= 1 then inner else []) + (if rOk then [LedCountStep] else [])
  }

  /** Host settings that may be undefined. */
  datatype Settings = Settings(ledCount: Option<nat>, brightness: Option<int>, ringMode: Option<RingMode>)

  /** The basic plugin's module state; the layout is fixed when the plugin
      loads, and the device handle and placement geometry are inputs. */
  class Session {
    var ledCount: nat
    var brightness: int
    var ringMode: RingMode
    /** last_colors: the colour of the last frame sent, null before any. */
    var lastColors: Option<Rgb>
    var frameCounter: nat
    var initializationComplete: bool
    var endpointOpen: bool
    var isInitialized: bool
    /** Continuations scheduled and not yet fired. */
    var pending: seq<Step>
    const positions: seq<Point>
    const names: seq<LedName>
    const dev: HidDevice

    /** The state after the plugin loads: 24 LEDs, full brightness,
        Combined, nothing sent, and the 24-LED layout. */
    constructor (dev: HidDevice, place: Placement)
      ensures this.dev == dev
      ensures positions == LayoutFor(DefaultLedCount, place).positions
      ensures names == LayoutFor(DefaultLedCount, place).names
      ensures ledCount == DefaultLedCount && brightness == 100 && ringMode == Combined
      ensures lastColors == None && frameCounter == 0 && pending == []
      ensures !initializationComplete && !endpointOpen && !isInitialized
    {
      var l := GenerateLedLayout(DefaultLedCount, place);
      this.dev := dev;
      positions := l.positions;
      names := l.names;
      ledCount := DefaultLedCount;
      brightness := 100;
      ringMode := Combined;
      lastColors := None;
      frameCounter := 0;
      initializationComplete := false;
      endpointOpen := false;
      isInitialized := false;
      pending := [];
    }

    predicate CanRender()
      reads this`isInitialized, this`endpointOpen, this`initializationComplete
    {
      isInitialized && endpointOpen && initializationComplete
    }

    /** initializeDevice: only the Reset write happens now (and may throw);
        the LED-count step is scheduled behind it. */
    method InitializeDevice() returns (ok: bool)
      modifies dev, this`pending
      ensures ok == !dev.fails(old(dev.attempts))
      ensures dev.attempts == old(dev.attempts) + 1
      ensures dev.sent == old(dev.sent) + (if ok then [Plain(CmdReset, [])] else [])
      ensures pending == old(pending) + (if ok then [LedCountStep] else [])
    {
      var resetPacket := CreatePlainPacket(CmdReset, []);
      ok := dev.Write(resetPacket);
      if ok {
        pending := pending + [LedCountStep];
      }
    }

    /** Initialize: open the handle, take the defined settings (the layout
        stays as built at load), then the Reset of initializeDevice decides
        completion. */
    method Initialize(settings: Settings, handleOpened: bool)
      modifies dev, this`endpointOpen, this`ledCount, this`brightness, this`ringMode,
               this`initializationComplete, this`isInitialized, this`pending
      ensures endpointOpen == handleOpened && isInitialized
      ensures ledCount == if settings.ledCount.Some? then settings.ledCount.value else old(ledCount)
      ensures brightness == if settings.brightness.Some? then settings.brightness.value else old(brightness)
      ensures ringMode == if settings.ringMode.Some? then settings.ringMode.value else old(ringMode)
      ensures dev.attempts == old(dev.attempts) + 1
      ensures var ok := !dev.fails(old(dev.attempts));
              && initializationComplete == ok
              && dev.sent == old(dev.sent) + (if ok then [Plain(CmdReset, [])] else [])
              && pending == old(pending) + (if ok then [LedCountStep] else [])
    {
      endpointOpen := handleOpened;
      if settings.ledCount.Some? { ledCount := settings.ledCount.value; }
      if settings.brightness.Some? { brightness := settings.brightness.value; }
      if settings.ringMode.Some? { ringMode := settings.ringMode.value; }
      var ok := InitializeDevice();
      initializationComplete := ok;
      isInitialized := true;
    }

    /** getAverageColor, summing over every position of the layout. */
    method GetAverageColor(canvas: Canvas) returns (c: Rgb)
      ensures c == FrameColor(positions, canvas, brightness)
    {
      var t := SumValid(Range(0, |positions|), positions, canvas);
      if t.count == 0 {
        return Rgb(0, 0, 0);
      }
      c := AverageColor(t, brightness);
    }

    /** sendRGBData: the zone packet; once it went through, the inner-zone
        packet is scheduled in Combined mode with at least 16 LEDs. */
    method SendRgbData(c: Rgb) returns (ok: bool)
      modifies dev, this`pending
      ensures dev.attempts == old(dev.attempts) + 1
      ensures ok == !dev.fails(old(dev.attempts))
      ensures dev.sent == old(dev.sent) + (if ok then [ZonePacket(ringMode, c)] else [])
      ensures pending == old(pending) + (if ok then InnerSteps(ringMode, ledCount, c) else [])
    {
      var zone := BasicZoneForRingMode(ringMode);
      var rgbPacket := CreatePlainPacket(CmdSetRgbZone, [zone, c.r, c.g, c.b]);
      ok := dev.Write(rgbPacket);
      if ok && ringMode == Combined && ledCount >= 16 {
        pending := pending + [InnerZoneStep(c)];
      }
    }

    /** The part of Render's try block that can throw: the zone packet, then
        Apply on every fifth frame, stopping at the first throw. */
    method WriteFrame(c: Rgb) returns (ok: bool)
      modifies dev, this`pending
      ensures Attempted(dev.fails, old(dev.attempts), old(dev.sent), FramePackets(ringMode, c, frameCounter),
                        ok, dev.attempts, dev.sent)
      ensures pending == old(pending) + (if !dev.fails(old(dev.attempts)) then InnerSteps(ringMode, ledCount, c) else [])
    {
      ghost var a0, s0 := dev.attempts, dev.sent;
      ok := SendRgbData(c);
      AttemptedOne(dev.fails, a0, s0, ZonePacket(ringMode, c), dev.sent);
      ghost var zoneOk, a1, s1 := ok, dev.attempts, dev.sent;
      ghost var tail: seq<Packet> := if frameCounter % 5 == 0 then [Plain(CmdApply, [])] else [];
      if frameCounter % 5 == 0 && ok {
        var applyPacket := CreatePlainPacket(CmdApply, []);
        ok := dev.Write(applyPacket);
      }
      BodyThenTail(dev.fails, a0, s0, [ZonePacket(ringMode, c)], zoneOk, a1, s1, tail, ok, dev.attempts, dev.sent);
    }

    /** A frame that is sent: its writes, and on a throw every 300th frame
        a recovery through initializeDevice whose result is ignored. */
    method SendFrame(c: Rgb)
      modifies dev, this`pending
      ensures FrameOutcome(dev.fails, old(dev.attempts), old(dev.sent), old(pending),
                           FramePackets(ringMode, c, frameCounter), InnerSteps(ringMode, ledCount, c), frameCounter,
                           dev.attempts, dev.sent, pending)
    {
      var ok := WriteFrame(c);
      if !ok && frameCounter % 300 == 0 {
        var recovered := InitializeDevice();
      }
    }

    /** Render: a no-op unless initialised, open and complete; otherwise
        the frame counter advances, and the frame is skipped when its colour
        equals the last one sent, except on every tenth frame. */
    method Render(canvas: Canvas)
      modifies dev, this`frameCounter, this`lastColors, this`pending
      ensures !old(CanRender()) ==>
                && frameCounter == old(frameCounter) && lastColors == old(lastColors) && pending == old(pending)
                && dev.attempts == old(dev.attempts) && dev.sent == old(dev.sent)
      ensures old(CanRender()) ==>
                var c := FrameColor(positions, canvas, brightness);
                && frameCounter == old(frameCounter) + 1
                && if old(lastColors) == Some(c) && frameCounter % 10 != 0 then
                     && lastColors == old(lastColors) && pending == old(pending)
                     && dev.attempts == old(dev.attempts) && dev.sent == old(dev.sent)
                   else
                     && lastColors == Some(c)
                     && FrameOutcome(dev.fails, old(dev.attempts), old(dev.sent), old(pending),
                                     FramePackets(ringMode, c, frameCounter), InnerSteps(ringMode, ledCount, c),
                                     frameCounter, dev.attempts, dev.sent, pending)
    {
      if !isInitialized || !endpointOpen || !initializationComplete {
        return;
      }
      frameCounter := frameCounter + 1;
      var c := GetAverageColor(canvas);
      if lastColors == Some(c) && frameCounter % 10 != 0 {
        return;
      }
      lastColors := Some(c);
      SendFrame(c);
    }

    /** Fires continuation `i`: it leaves the queue, writes its packet, and
        on success schedules the step that follows it. A throw inside a
        continuation is not caught and ends that chain. */
    method RunDeferred(i: nat)
      requires i < |pending|
      modifies dev, this`pending
      ensures var step := old(pending[i]);
              var ok := !dev.fails(old(dev.attempts));
              && dev.attempts == old(dev.attempts) + 1
              && dev.sent == old(dev.sent) + (if ok then [StepPacket(step, ledCount)] else [])
              && pending == old(pending[..i] + pending[i + 1..]) + (if ok then NextSteps(step) else [])
    {
      var step := pending[i];
      pending := pending[..i] + pending[i + 1..];
      var packet: Packet;
      match step {
        case LedCountStep =>
          packet := CreatePlainPacket(CmdSetLedCount, [ledCount]);
        case RgbInitStep =>
          packet := CreatePlainPacket(CmdInitialize, [0x01, 0x00]);
        case InnerZoneStep(c) =>
          packet := CreatePlainPacket(CmdSetRgbZone, [ZoneInner, c.r, c.g, c.b]);
        case ShutdownApplyStep =>
          packet := CreatePlainPacket(CmdApply, []);
        case ShutdownResetStep =>
          packet := CreatePlainPacket(CmdReset, []);
      }
      var ok := dev.Write(packet);
      if ok {
        pending := pending + NextSteps(step);
      }
    }

    /** Shutdown: a no-op unless initialised with an open handle; otherwise
        the black packet for all zones is written (Apply, then Reset, follow
        in continuations only if it went through) and the session state is
        reset whatever the write did. */
    method Shutdown()
      modifies dev, this`isInitialized, this`initializationComplete, this`frameCounter, this`lastColors, this`pending
      ensures !old(isInitialized && endpointOpen) ==>
                && isInitialized == old(isInitialized) && initializationComplete == old(initializationComplete)
                && frameCounter == old(frameCounter) && lastColors == old(lastColors) && pending == old(pending)
                && dev.attempts == old(dev.attempts) && dev.sent == old(dev.sent)
      ensures old(isInitialized && endpointOpen) ==>
                && !isInitialized && !initializationComplete && frameCounter == 0 && lastColors == None
                && dev.attempts == old(dev.attempts) + 1
                && var ok := !dev.fails(old(dev.attempts));
                   && dev.sent == old(dev.sent) + (if ok then [Plain(CmdSetRgbZone, [ZoneAll, 0, 0, 0])] else [])
                   && pending == old(pending) + (if ok then [ShutdownApplyStep] else [])
    {
      if !isInitialized || !endpointOpen {
        return;
      }
      var offPacket := CreatePlainPacket(CmdSetRgbZone, [ZoneAll, 0, 0, 0]);
      var ok := dev.Write(offPacket);
      if ok {
        pending := pending + [ShutdownApplyStep];
      }
      isInitialized := false;
      initializationComplete := false;
      frameCounter := 0;
      lastColors := None;
    }
  }
}
