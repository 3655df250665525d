/** The enhanced plugin: per-LED and ring-aware rendering, the bring-up
    sequence, error counting and recovery, and protocol detection. The
    signalrgb-plugin copy is the same engine with the detector never run, so
    its packets always carry the default header pair. */
module Enhanced {
  import opened Protocol
  import opened Codec
  import opened Layout
  import opened Sampler
  import opened Chunking
  import opened Transport

  /** An entry of DEVICE_CONFIGS. */
  datatype Profile = Profile(
    name: string,
    outerLeds: nat,
    innerLeds: nat,
    iface: int,
    usagePage: Option<int>,
    supportsPerLed: bool)

  const Trinity := Profile("Trinity", 16, 8, 0, None, true)
  const TrinityPerformance := Profile("Trinity Performance", 16, 8, 0, None, true)
  const Lcd := Profile("LCD", 16, 8, 1, Some(0xFF1A), true)

  /** ProductId() of the plugin. */
  const ProductIdValue := 0x7373

  /** Render stops once the error count is above this. */
  const MaxErrors := 10
  /** Recovery is attempted only above this many errors. */
  const RecoveryThreshold := 5

  /** DEVICE_CONFIGS[pid] || DEVICE_CONFIGS[0x7373] */
  function ProfileFor(pid: int): (p: Profile)
    ensures pid == 0x7395 <==> p == Lcd
    ensures pid == 0x7371 <==> p == TrinityPerformance
    ensures pid != 0x7395 && pid != 0x7371 <==> p == Trinity
    ensures p.outerLeds == 16 && p.innerLeds == 8 && p.supportsPerLed
  {
    if pid == 0x7371 then TrinityPerformance
    else if pid == 0x7395 then Lcd
    else Trinity
  }

  /** Validate: an exact interface match is required, then an exact usage
      page match when the profile names one; past those, a vendor usage
      page, a vendor usage or an interface of 0 or 1 accepts. */
  function Validate(profile: Profile, e: Endpoint): (accept: bool)
    ensures accept ==> e.iface == profile.iface
    ensures accept && profile.usagePage.Some? ==> e.usagePage == profile.usagePage.value
    ensures profile.iface <= 1 ==>
              (accept <==> e.iface == profile.iface
                           && (profile.usagePage.None? || e.usagePage == profile.usagePage.value))
  {
    if e.iface != profile.iface then false
    else if profile.usagePage.Some? && e.usagePage != profile.usagePage.value then false
    else
      var validUsagePage := 0xFF00 <= e.usagePage <= 0xFFFF;
      var validUsage := 0xFF00 <= e.usage <= 0xFFFF;
      var validInterface := e.iface <= 1;
      validUsagePage || validUsage || validInterface
  }

  /** With the plugin's own product id, exactly the endpoints on interface 0
      are accepted; the LCD profile takes interface 1 with usage page 0xFF1A. */
  lemma ValidateProfiles(e: Endpoint)
    ensures Validate(ProfileFor(ProductIdValue), e) <==> e.iface == 0
    ensures Validate(Lcd, e) <==> e.iface == 1 && e.usagePage == 0xFF1A
  {
    assert ProfileFor(ProductIdValue) == Trinity;
  }

  /** The detector's candidate header pairs, in the order they are tried. */
  const Candidates := [HeaderPair(0x16, 0x16), HeaderPair(0xAA, 0x55), HeaderPair(0x5A, 0xA5)]

  /** testProtocol's probe: zero-filled, report id, the candidate headers,
      CMD_INITIALIZE, length 1, payload byte 0. */
  method BuildProbe(h: HeaderPair) returns (p: Packet)
    ensures p == Frame(h, CmdInitialize, None, [0x00])
  {
    var a := new int[PacketSize](_ => 0);
    a[0] := ReportId;
    a[1] := h.first;
    a[2] := h.second;
    a[3] := CmdInitialize;
    a[4] := 0x01;
    a[5] := 0x00;
    p := a[..];
  }

  /** A settings value the host may leave undefined. */
  datatype Settings = Settings(
    ledCount: Option<nat>,
    brightness: Option<int>,
    ringMode: Option<RingMode>,
    perLedMode: Option<bool>,
    effectSpeed: Option<int>)

  /** A scheduled setTimeout continuation. */
  datatype Deferred =
    | SetLedCountStep
    | EnableRgbStep
    | BrightnessStep
    | InnerRingStep(colors: seq<LedColor>)
    | ShutdownApplyStep
    | ShutdownResetStep

  /** The step a continuation schedules after its own write goes through. */
  function StepNext(step: Deferred): seq<Deferred> {
    match step
    case SetLedCountStep => [EnableRgbStep]
    case EnableRgbStep => [BrightnessStep]
    case ShutdownApplyStep => [ShutdownResetStep]
    case _ => []
  }

  /** Payload of a ring packet: [index, r, g, b] per LED, or just [r, g, b]
      when the ring has a single sample. */
  function RingData(colors: seq<LedColor>): seq<int>
    requires |colors| > 0
  {
    if |colors| > 1 then Flatten(colors) else [colors[0].r, colors[0].g, colors[0].b]
  }

  /** A ring packet after its zone byte is overwritten with the ring's zone. */
  function RingFrame(headers: HeaderPair, perLed: bool, zone: int, colors: seq<LedColor>): Packet
    requires |colors| > 0
  {
    Frame(headers, if perLed then CmdSetRgbIndividual else CmdSetRgbZone, Some(zone), RingData(colors))
  }

  /** A ring packet carries the ring's zone; up to 14 LEDs travel whole, but
      a ring of more than 14 sampled LEDs loses the tail of its data, since
      independent-rings mode does not chunk. */
  lemma RingFrameCarries(headers: HeaderPair, perLed: bool, zone: int, colors: seq<LedColor>)
    requires |colors| > 0
    ensures var f := DecodeFrame(RingFrame(headers, perLed, zone, colors), true);
            && f.Some?
            && f.value.zone == Some(zone)
            && (|colors| <= MaxLedsPerPacket ==> f.value.payload == RingData(colors))
            && (|colors| > MaxLedsPerPacket ==>
                  f.value.payload == Flatten(colors)[..Capacity(true)]
                  && |f.value.payload| < |Flatten(colors)|)
  {
    FlattenLayout(colors);
    DecodeEncode(headers, if perLed then CmdSetRgbIndividual else CmdSetRgbZone, Some(zone), RingData(colors));
    if |colors| <= MaxLedsPerPacket {
      assert RingData(colors)[..Copied(true, RingData(colors))] == RingData(colors);
    }
  }

  /** With the default 16-LED outer ring fully sampled, the outer packet of
      independent-rings mode carries 58 of the 64 bytes: LED 15 is cut short
      and LED 16 is missing. */
  lemma DefaultOuterRingTruncated(headers: HeaderPair, perLed: bool, place: Placement, canvas: Canvas, brightness: int)
    requires var l := LayoutSpec(16, 8, place);
             forall k :: 0 <= k < |l.outer| ==> l.outer[k] < |l.positions| && canvas(l.positions[l.outer[k]]).Some?
    ensures var l := LayoutSpec(16, 8, place);
            var colors := PerLedColors(l.outer, l.positions, canvas, brightness);
            && |colors| == 16
            && |Flatten(colors)| == 64
            && DecodeFrame(RingFrame(headers, perLed, ZoneOuter, colors), true).value.payload
               == Flatten(colors)[..58]
  {
    var l := LayoutSpec(16, 8, place);
    PerLedColorsComplete(l.outer, l.positions, canvas, brightness);
    var colors := PerLedColors(l.outer, l.positions, canvas, brightness);
    FlattenLayout(colors);
    RingFrameCarries(headers, perLed, ZoneOuter, colors);
  }

  /** The "Outer Ring" / "Inner Ring" channel entries. */
  datatype Channel = Channel(name: string, ledCount: nat, supportsIndividual: bool)

  /** The session state the rendering functions read. */
  datatype RenderView = RenderView(headers: HeaderPair, layout: LedLayout, mode: RingMode, perLed: bool,
                                   supportsPerLed: bool, brightness: int)

  function ViewPacket(v: RenderView, command: int, data: seq<int>): Packet {
    Frame(v.headers, command, EnhancedZone(v.mode, command), data)
  }

  /** What renderCombinedMode writes: nothing when no colour was sampled,
      the chunked per-LED packets when per-LED is on and more than one LED
      was sampled, otherwise one zone packet with the mean colour. */
  function CombinedPackets(v: RenderView, canvas: Canvas): seq<Packet>
    requires WellFormed(v.layout)
  {
    var all := ProcessedColors(v.layout, v.mode, v.perLed, v.supportsPerLed, v.brightness, canvas);
    if |all| == 0 then []
    else if v.perLed && v.supportsPerLed && |all| > 1 then ChunkPackets(v.headers, v.mode, all)
    else
      var avg := MeanColor(all);
      [ViewPacket(v, CmdSetRgbZone, [avg.r, avg.g, avg.b])]
  }

  /** getOuterRingColors / getInnerRingColors */
  function RingSamples(v: RenderView, ring: Ring, canvas: Canvas): seq<LedColor>
    requires WellFormed(v.layout)
  {
    RingAddresses(v.layout);
    PerLedColors(if ring == Outer then v.layout.outer else v.layout.inner, v.layout.positions, canvas, v.brightness)
  }

  /** The packet renderIndependentRings writes at once: the outer ring's, if
      any of its LEDs was sampled. */
  function IndependentPackets(v: RenderView, canvas: Canvas): seq<Packet>
    requires WellFormed(v.layout)
  {
    var outer := RingSamples(v, Outer, canvas);
    if |outer| > 0 then [RingFrame(v.headers, v.perLed, ZoneOuter, outer)] else []
  }

  /** The continuation renderIndependentRings leaves for the inner ring. */
  function InnerContinuations(v: RenderView, canvas: Canvas): seq<Deferred>
    requires WellFormed(v.layout)
  {
    if v.mode == IndependentRings then [InnerRingStep(RingSamples(v, Inner, canvas))] else []
  }

  function BodyPackets(v: RenderView, canvas: Canvas): seq<Packet>
    requires WellFormed(v.layout)
  {
    if v.mode == IndependentRings then IndependentPackets(v, canvas) else CombinedPackets(v, canvas)
  }

  /** Everything inside Render's try block that can throw, in order: the
      colour packets, then Apply on every third frame. */
  function FramePackets(v: RenderView, canvas: Canvas, frame: nat): seq<Packet>
    requires WellFormed(v.layout)
  {
    BodyPackets(v, canvas) + (if frame % 3 == 0 then [ViewPacket(v, CmdApply, [])] else [])
  }

  /** The frame's writes all went through: FrameOutcome follows from the
      brightness step that comes after them. */
  lemma FrameWent(fails: nat -> bool, a0: nat, s0: seq<Packet>, e0: nat, p0: seq<Deferred>,
                  plan: seq<Packet>, bodyLen: nat, inner: seq<Deferred>, frame: nat,
                  brightnessPacket: Packet, resetPacket: Packet, a1: nat, s1: seq<Packet>,
                  attempts: nat, sent: seq<Packet>, errors: nat, pending: seq<Deferred>)
    requires bodyLen <= |plan|
    requires Attempted(fails, a0, s0, plan, true, a1, s1)
    requires pending == p0 + (if Run(fails, a0, |plan|) >= bodyLen then inner else [])
    requires frame % 30 == 0 ==>
               && attempts == a1 + 1
               && sent == s1 + (if !fails(a1) then [brightnessPacket] else [])
               && errors == e0 + (if fails(a1) then 1 else 0)
    requires frame % 30 != 0 ==> attempts == a1 && sent == s1 && errors == e0
    ensures FrameOutcome(fails, a0, s0, e0, p0, plan, bodyLen, inner, frame, brightnessPacket, resetPacket,
                         attempts, sent, errors, pending)
  {
    assert plan[..|plan|] == plan;
  }

  /** A write of the frame threw: FrameOutcome follows from the error count
      and the recovery step that come after it. */
  lemma FrameThrew(fails: nat -> bool, a0: nat, s0: seq<Packet>, e0: nat, p0: seq<Deferred>,
                   plan: seq<Packet>, bodyLen: nat, inner: seq<Deferred>, frame: nat,
                   brightnessPacket: Packet, resetPacket: Packet, a1: nat, s1: seq<Packet>, p1: seq<Deferred>,
                   attempts: nat, sent: seq<Packet>, errors: nat, pending: seq<Deferred>)
    requires Attempted(fails, a0, s0, plan, false, a1, s1)
    requires p1 == p0 + (if Run(fails, a0, |plan|) >= bodyLen then inner else [])
    requires e0 + 1 > RecoveryThreshold && frame % 300 == 0 ==>
               && attempts == a1 + 1
               && sent == s1 + (if !fails(a1) then [resetPacket] else [])
               && errors == (if !fails(a1) then 0 else e0 + 1)
               && pending == p1 + (if !fails(a1) then [SetLedCountStep] else [])
    requires !(e0 + 1 > RecoveryThreshold && frame % 300 == 0) ==>
               attempts == a1 && sent == s1 && errors == e0 + 1 && pending == p1
    ensures FrameOutcome(fails, a0, s0, e0, p0, plan, bodyLen, inner, frame, brightnessPacket, resetPacket,
                         attempts, sent, errors, pending)
  {
  }

  /** The device and session state after one rendered frame that got past
      the guards: the frame's writes stop at the first throw (`Attempted`).
      When they all went through, every 30th frame also sets the brightness,
      whose throw is counted; when one threw, the error is counted and, past
      5 errors on every 300th frame, a Reset is written, which clears the
      count and schedules the LED-count step when it goes through. The
      inner-ring continuation is scheduled once the colour part (the first
      `bodyLen` writes) went through. */
  ghost predicate FrameOutcome(fails: nat -> bool, a0: nat, s0: seq<Packet>, e0: nat, p0: seq<Deferred>,
                               plan: seq<Packet>, bodyLen: nat, inner: seq<Deferred>, frame: nat,
                               brightnessPacket: Packet, resetPacket: Packet,
                               attempts: nat, sent: seq<Packet>, errors: nat, pending: seq<Deferred>)
  {
    var k := Run(fails, a0, |plan|);
    if k == |plan| then
      var b := frame % 30 == 0;
      var bOk := b && !fails(a0 + |plan|);
      && sent == s0 + plan + (if bOk then [brightnessPacket] else [])
      && attempts == a0 + |plan| + (if b then 1 else 0)
      && errors == e0 + (if b && !bOk then 1 else 0)
      && pending == p0 + inner
    else
      var recover := e0 + 1 > RecoveryThreshold && frame % 300 == 0;
      var rOk := recover && !fails(a0 + k + 1);
      && sent == s0 + plan[..k] + (if rOk then [resetPacket] else [])
      && attempts == a0 + k + 1 + (if recover then 1 else 0)
      && errors == (if rOk then 0 else e0 + 1)
      && pending == p0 + (if k >= bodyLen then inner else []) + (if rOk then [SetLedCountStep] else [])
  }

  /** The two session-wide objects of the plugin: the device handle and the
      host's geometry are fixed; everything else is the module's mutable
      state. */
  class Session {
    var config: Profile
    var ledCount: nat
    var brightness: int
    var ringMode: RingMode
    var perLedMode: bool
    var effectSpeed: int
    var layout: LedLayout
    var endpointOpen: bool
    var isInitialized: bool
    var initializationComplete: bool
    var frameCounter: nat
    var errorCount: nat
    /** protocolDetector.detectedProtocol */
    var detected: Option<HeaderPair>
    /** Continuations scheduled and not yet fired. */
    var pending: seq<Deferred>
    const dev: HidDevice
    const place: Placement

    ghost predicate Valid()
      reads this`layout
    {
      WellFormed(layout)
    }

    /** The module's initial state: Trinity, 24 LEDs on a 16/8 layout, full
        brightness, Combined, per-LED on, nothing open or initialised. */
    constructor (dev: HidDevice, place: Placement)
      ensures Valid()
      ensures this.dev == dev && this.place == place
      ensures config == Trinity && ledCount == 24 && brightness == 100
      ensures ringMode == Combined && perLedMode && effectSpeed == 50
      ensures layout == LayoutSpec(16, 8, place)
      ensures !endpointOpen && !isInitialized && !initializationComplete
      ensures frameCounter == 0 && errorCount == 0
      ensures detected == None && pending == []
    {
      var l := GenerateLayout(16, 8, place);
      LayoutSpecShape(16, 8, place);
      this.dev := dev;
      this.place := place;
      config := Trinity;
      ledCount := 24;
      brightness := 100;
      ringMode := Combined;
      perLedMode := true;
      effectSpeed := 50;
      layout := l;
      endpointOpen := false;
      isInitialized := false;
      initializationComplete := false;
      frameCounter := 0;
      errorCount := 0;
      detected := None;
      pending := [];
    }

    /** getProtocolHeaders */
    function Headers(): HeaderPair
      reads this`detected
    {
      if detected.Some? then detected.value else DefaultHeaders
    }

    /** What createProtocolPacket returns in the current state. */
    function PacketFor(command: int, data: seq<int>): Packet
      reads this`detected, this`ringMode
    {
      Frame(Headers(), command, EnhancedZone(ringMode, command), data)
    }

    function BrightnessPacket(value: int): Packet
      reads this`detected, this`ringMode
    {
      PacketFor(CmdSetBrightness, [ClampBrightness(value)])
    }

    /** The brightness packet: command 0x08, one payload byte holding the
        value clamped to [1, 100]. */
    lemma BrightnessPacketBytes(value: int)
      ensures var p := BrightnessPacket(value);
              && |p| == PacketSize && p[3] == CmdSetBrightness && p[4] == 1
              && p[5] == ClampBrightness(value) && 1 <= p[5] <= 100
              && forall j :: 6 <= j < PacketSize ==> p[j] == 0
    {
      FrameBytes(Headers(), CmdSetBrightness, None, [ClampBrightness(value)]);
    }

    /** The state the rendering functions read. */
    function View(): RenderView
      reads this`layout, this`ringMode, this`perLedMode, this`config, this`brightness, this`detected
    {
      RenderView(Headers(), layout, ringMode, perLedMode, config.supportsPerLed, brightness)
    }

    /** The packet a continuation writes when it fires, if any. */
    function StepPacket(step: Deferred): Option<Packet>
      reads this`config, this`brightness, this`perLedMode, this`detected, this`ringMode
    {
      match step
      case SetLedCountStep => Some(PacketFor(CmdSetLedCount, [config.outerLeds + config.innerLeds]))
      case EnableRgbStep => Some(PacketFor(CmdInitialize, [0x01, 0x00]))
      case BrightnessStep => Some(BrightnessPacket(brightness))
      case InnerRingStep(colors) => if |colors| > 0 then Some(RingFrame(Headers(), perLedMode, ZoneInner, colors)) else None
      case ShutdownApplyStep => Some(PacketFor(CmdApply, []))
      case ShutdownResetStep => Some(PacketFor(CmdReset, []))
    }

    /** The LED-count step sends the profile's total (24 for every profile),
        not the configured LED count. */
    lemma LedCountStepSendsProfileTotal()
      requires config == ProfileFor(ProductIdValue)
      ensures StepPacket(SetLedCountStep).value[3] == CmdSetLedCount
      ensures StepPacket(SetLedCountStep).value[4] == 1
      ensures StepPacket(SetLedCountStep).value[5] == 24
    {
      FrameBytes(Headers(), CmdSetLedCount, None, [config.outerLeds + config.innerLeds]);
    }

    /** Render goes ahead only when initialised, open, complete and under
        the error limit. */
    predicate CanRender()
      reads this`isInitialized, this`endpointOpen, this`initializationComplete, this`errorCount
    {
      isInitialized && endpointOpen && initializationComplete && errorCount <= MaxErrors
    }

    /** Channels: the profile's ring sizes, per-LED as configured; together
        they are the LED count the bring-up sends. */
    function Channels(): (cs: seq<Channel>)
      reads this`config, this`perLedMode, this`detected, this`ringMode
      ensures |cs| == 2 && cs[0].name == "Outer Ring" && cs[1].name == "Inner Ring"
      ensures cs[0].ledCount == config.outerLeds && cs[1].ledCount == config.innerLeds
      ensures cs[0].ledCount + cs[1].ledCount == PacketFor(CmdSetLedCount, [config.outerLeds + config.innerLeds])[5]
      ensures cs[0].supportsIndividual == perLedMode && cs[1].supportsIndividual == perLedMode
    {
      [Channel("Outer Ring", config.outerLeds, perLedMode), Channel("Inner Ring", config.innerLeds, perLedMode)]
    }

    /** setBrightness: one write of the clamped value; a throw is swallowed
        and counted. */
    method SetBrightness(value: int)
      modifies dev, this`errorCount
      ensures dev.attempts == old(dev.attempts) + 1
      ensures var ok := !dev.fails(old(dev.attempts));
              && dev.sent == old(dev.sent) + (if ok then [BrightnessPacket(value)] else [])
              && errorCount == old(errorCount) + (if ok then 0 else 1)
    {
      var packet := CreateProtocolPacket(Headers(), ringMode, CmdSetBrightness, [ClampBrightness(value)]);
      var ok := dev.Write(packet);
      if !ok {
        errorCount := errorCount + 1;
      }
    }

    /** initializeDeviceProtocol: only the Reset write happens now (and may
        throw); the LED-count step is scheduled behind it. */
    method InitializeDeviceProtocol() returns (ok: bool)
      modifies dev, this`pending
      ensures ok == !dev.fails(old(dev.attempts))
      ensures dev.attempts == old(dev.attempts) + 1
      ensures dev.sent == old(dev.sent) + (if ok then [PacketFor(CmdReset, [])] else [])
      ensures pending == old(pending) + (if ok then [SetLedCountStep] else [])
    {
      var resetPacket := CreateProtocolPacket(Headers(), ringMode, CmdReset, []);
      ok := dev.Write(resetPacket);
      if ok {
        pending := pending + [SetLedCountStep];
      }
    }

    /** The settings part of Initialize: every setting the host defines
        replaces the current value; an LED count also rebuilds the layout with
        a ceil(0.67 n) / rest split. */
    method ApplySettings(settings: Settings)
      requires Valid()
      modifies this`ledCount, this`layout, this`brightness, this`ringMode, this`perLedMode, this`effectSpeed
      ensures Valid()
      ensures settings.ledCount.Some? ==>
                var n := settings.ledCount.value;
                && ledCount == n
                && layout == LayoutSpec(EnhancedOuterCount(n), n - EnhancedOuterCount(n), place)
                && layout.outerCount + layout.innerCount == n
      ensures settings.ledCount.None? ==> ledCount == old(ledCount) && layout == old(layout)
      ensures brightness == if settings.brightness.Some? then settings.brightness.value else old(brightness)
      ensures ringMode == if settings.ringMode.Some? then settings.ringMode.value else old(ringMode)
      ensures perLedMode == if settings.perLedMode.Some? then settings.perLedMode.value else old(perLedMode)
      ensures effectSpeed == if settings.effectSpeed.Some? then settings.effectSpeed.value else old(effectSpeed)
    {
      if settings.ledCount.Some? {
        ledCount := settings.ledCount.value;
        var outerCount := EnhancedOuterCount(ledCount);
        var innerCount := ledCount - outerCount;
        layout := GenerateLayout(outerCount, innerCount, place);
        LayoutSpecShape(outerCount, innerCount, place);
      }
      if settings.brightness.Some? { brightness := settings.brightness.value; }
      if settings.ringMode.Some? { ringMode := settings.ringMode.value; }
      if settings.perLedMode.Some? { perLedMode := settings.perLedMode.value; }
      if settings.effectSpeed.Some? { effectSpeed := settings.effectSpeed.value; }
    }

    /** The try block of Initialize: initializeDeviceProtocol, then
        completion and a cleared error count; a throw leaves the session
        incomplete and counts the error. */
    method BringUp()
      modifies dev, this`pending, this`initializationComplete, this`errorCount
      ensures dev.attempts == old(dev.attempts) + 1
      ensures var ok := !dev.fails(old(dev.attempts));
              && initializationComplete == ok
              && errorCount == (if ok then 0 else old(errorCount) + 1)
              && dev.sent == old(dev.sent) + (if ok then [PacketFor(CmdReset, [])] else [])
              && pending == old(pending) + (if ok then [SetLedCountStep] else [])
    {
      var ok := InitializeDeviceProtocol();
      if ok {
        initializationComplete := true;
        errorCount := 0;
      } else {
        initializationComplete := false;
        errorCount := errorCount + 1;
      }
    }

    /** Initialize: open the handle, take the host settings, then bring the
        device up; only the Reset write decides completion, since the later
        steps run in continuations. */
    method Initialize(settings: Settings, handleOpened: bool)
      requires Valid()
      modifies dev, this`endpointOpen, this`ledCount, this`layout, this`brightness, this`ringMode,
               this`perLedMode, this`effectSpeed, this`config, this`initializationComplete,
               this`errorCount, this`isInitialized, this`pending
      ensures Valid()
      ensures endpointOpen == handleOpened && isInitialized
      ensures settings.ledCount.Some? ==>
                var n := settings.ledCount.value;
                && ledCount == n
                && layout == LayoutSpec(EnhancedOuterCount(n), n - EnhancedOuterCount(n), place)
                && layout.outerCount + layout.innerCount == n
      ensures settings.ledCount.None? ==> ledCount == old(ledCount) && layout == old(layout)
      ensures brightness == if settings.brightness.Some? then settings.brightness.value else old(brightness)
      ensures ringMode == if settings.ringMode.Some? then settings.ringMode.value else old(ringMode)
      ensures perLedMode == if settings.perLedMode.Some? then settings.perLedMode.value else old(perLedMode)
      ensures effectSpeed == if settings.effectSpeed.Some? then settings.effectSpeed.value else old(effectSpeed)
      ensures config == ProfileFor(ProductIdValue)
      ensures dev.attempts == old(dev.attempts) + 1
      ensures var ok := !dev.fails(old(dev.attempts));
              && initializationComplete == ok
              && errorCount == (if ok then 0 else old(errorCount) + 1)
              && dev.sent == old(dev.sent) + (if ok then [PacketFor(CmdReset, [])] else [])
              && pending == old(pending) + (if ok then [SetLedCountStep] else [])
    {
      endpointOpen := handleOpened;
      ApplySettings(settings);
      config := ProfileFor(ProductIdValue);
      BringUp();
      isInitialized := true;
    }

    /** renderCombinedMode: nothing when no colour was sampled, the chunked
        per-LED packets when per-LED is on and more than one LED was sampled,
        otherwise one zone packet with the mean colour. */
    method RenderCombinedMode(canvas: Canvas) returns (ok: bool)
      requires Valid()
      modifies dev
      ensures Attempted(dev.fails, old(dev.attempts), old(dev.sent), CombinedPackets(View(), canvas), ok, dev.attempts, dev.sent)
    {
      var allColors := ProcessColors(layout, ringMode, perLedMode, config.supportsPerLed, brightness, canvas);
      if |allColors| == 0 {
        AttemptedNone(dev.fails, dev.attempts, dev.sent);
        return true;
      }
      if perLedMode && config.supportsPerLed && |allColors| > 1 {
        ok := SendPerLedData(dev, Headers(), ringMode, allColors);
      } else {
        var avgColor := CalculateAverageColor(allColors);
        var packet := CreateProtocolPacket(Headers(), ringMode, CmdSetRgbZone, [avgColor.r, avgColor.g, avgColor.b]);
        ghost var a0, s0 := dev.attempts, dev.sent;
        ok := dev.Write(packet);
        AttemptedOne(dev.fails, a0, s0, packet, dev.sent);
      }
    }

    /** renderIndependentRings: the outer ring's packet now, with its zone
        byte set to the outer zone; the inner ring's packet is left to a
        continuation, scheduled only if the outer write did not throw. */
    method RenderIndependentRings(canvas: Canvas) returns (ok: bool)
      requires Valid()
      modifies dev, this`pending
      ensures Attempted(dev.fails, old(dev.attempts), old(dev.sent), IndependentPackets(View(), canvas), ok, dev.attempts, dev.sent)
      ensures pending == old(pending) + (if ok then [InnerRingStep(RingSamples(View(), Inner, canvas))] else [])
    {
      RingAddresses(layout);
      var outerColors := SamplePerLed(layout.outer, layout.positions, canvas, brightness);
      var innerColors := SamplePerLed(layout.inner, layout.positions, canvas, brightness);
      if |outerColors| > 0 {
        var outerData: seq<int>;
        if |outerColors| > 1 {
          outerData := FlattenLedColors(outerColors);
        } else {
          outerData := [outerColors[0].r, outerColors[0].g, outerColors[0].b];
        }
        var command := if perLedMode then CmdSetRgbIndividual else CmdSetRgbZone;
        var outerPacket := CreateProtocolPacket(Headers(), ringMode, command, outerData);
        OverwriteZone(Headers(), command, ZoneForRingMode(ringMode), ZoneOuter, outerData);
        outerPacket := outerPacket[5 := ZoneOuter];
        ghost var a0, s0 := dev.attempts, dev.sent;
        ok := dev.Write(outerPacket);
        AttemptedOne(dev.fails, a0, s0, outerPacket, dev.sent);
        if !ok {
          return;
        }
      } else {
        AttemptedNone(dev.fails, dev.attempts, dev.sent);
      }
      pending := pending + [InnerRingStep(innerColors)];
      ok := true;
    }

    /** The colour part of Render's try block: renderIndependentRings in
        independent-rings mode, renderCombinedMode otherwise. */
    method WriteBody(canvas: Canvas) returns (ok: bool)
      requires Valid()
      modifies dev, this`pending
      ensures Attempted(dev.fails, old(dev.attempts), old(dev.sent), old(BodyPackets(View(), canvas)), ok, dev.attempts, dev.sent)
      ensures pending == old(pending) + (if ok then old(InnerContinuations(View(), canvas)) else [])
    {
      if ringMode == IndependentRings {
        ok := RenderIndependentRings(canvas);
      } else {
        ok := RenderCombinedMode(canvas);
      }
    }

    /** The part of Render's try block that can throw, for the current
        frame number: the colour packets of the ring mode, then Apply on
        every third frame, stopping at the first throw. The inner-ring
        continuation is scheduled when the colour part went through, whatever
        happens to Apply. */
    method WriteFramePackets(canvas: Canvas) returns (ok: bool)
      requires Valid()
      modifies dev, this`pending
      ensures Attempted(dev.fails, old(dev.attempts), old(dev.sent), old(FramePackets(View(), canvas, frameCounter)),
                        ok, dev.attempts, dev.sent)
      ensures pending == old(pending)
                         + (if Run(dev.fails, old(dev.attempts), old(|FramePackets(View(), canvas, frameCounter)|))
                               >= old(|BodyPackets(View(), canvas)|)
                            then old(InnerContinuations(View(), canvas)) else [])
    {
      ghost var v := View();
      ghost var a0, s0 := dev.attempts, dev.sent;
      ghost var body := BodyPackets(v, canvas);
      ghost var tail: seq<Packet> := if frameCounter % 3 == 0 then [ViewPacket(v, CmdApply, [])] else [];
      ok := WriteBody(canvas);
      ghost var bodyOk, a1, s1 := ok, dev.attempts, dev.sent;
      if frameCounter % 3 == 0 && ok {
        var applyPacket := CreateProtocolPacket(Headers(), ringMode, CmdApply, []);
        ok := dev.Write(applyPacket);
      }
      BodyThenTail(dev.fails, a0, s0, body, bodyOk, a1, s1, tail, ok, dev.attempts, dev.sent);
      assert FramePackets(v, canvas, frameCounter) == body + tail;
    }

    /** The frame counter advances, then the frame's packets are written. */
    method WriteFrame(canvas: Canvas) returns (ok: bool)
      requires Valid()
      modifies dev, this`frameCounter, this`pending
      ensures frameCounter == old(frameCounter) + 1
      ensures Attempted(dev.fails, old(dev.attempts), old(dev.sent), old(FramePackets(View(), canvas, frameCounter + 1)),
                        ok, dev.attempts, dev.sent)
      ensures pending == old(pending)
                         + (if Run(dev.fails, old(dev.attempts), old(|FramePackets(View(), canvas, frameCounter + 1)|))
                               >= old(|BodyPackets(View(), canvas)|)
                            then old(InnerContinuations(View(), canvas)) else [])
    {
      ghost var v := View();
      frameCounter := frameCounter + 1;
      assert View() == v;
      ok := WriteFramePackets(canvas);
    }

    /** After a frame whose writes all went through: every 30th frame
        re-sends the brightness; a throw there is counted by setBrightness. */
    method FrameSucceeded()
      modifies dev, this`errorCount
      ensures frameCounter % 30 == 0 ==>
                var bOk := !dev.fails(old(dev.attempts));
                && dev.attempts == old(dev.attempts) + 1
                && dev.sent == old(dev.sent) + (if bOk then [BrightnessPacket(brightness)] else [])
                && errorCount == old(errorCount) + (if bOk then 0 else 1)
      ensures frameCounter % 30 != 0 ==>
                dev.attempts == old(dev.attempts) && dev.sent == old(dev.sent) && errorCount == old(errorCount)
    {
      if frameCounter % 30 == 0 {
        SetBrightness(brightness);
      }
    }

    /** After a frame whose write threw: the error count goes up by one, and
        above 5 errors on a multiple of 300 frames a recovery Reset is tried,
        which zeroes the count when it goes through. */
    method FrameFailed()
      modifies dev, this`errorCount, this`pending
      ensures old(errorCount) + 1 > RecoveryThreshold && frameCounter % 300 == 0 ==>
                var rOk := !dev.fails(old(dev.attempts));
                && dev.attempts == old(dev.attempts) + 1
                && dev.sent == old(dev.sent) + (if rOk then [PacketFor(CmdReset, [])] else [])
                && errorCount == (if rOk then 0 else old(errorCount) + 1)
                && pending == old(pending) + (if rOk then [SetLedCountStep] else [])
      ensures !(old(errorCount) + 1 > RecoveryThreshold && frameCounter % 300 == 0) ==>
                && dev.attempts == old(dev.attempts) && dev.sent == old(dev.sent)
                && errorCount == old(errorCount) + 1 && pending == old(pending)
    {
      errorCount := errorCount + 1;
      if errorCount > RecoveryThreshold && frameCounter % 300 == 0 {
        var recovered := InitializeDeviceProtocol();
        if recovered {
          errorCount := 0;
        }
      }
    }

    /** One frame past Render's guards: the frame counter advances by one,
        FramePackets is written until a write throws, and FrameSucceeded or
        FrameFailed follows. */
    method RenderFrame(canvas: Canvas)
      requires Valid()
      modifies dev, this`frameCounter, this`errorCount, this`pending
      ensures frameCounter == old(frameCounter) + 1
      ensures FrameOutcome(dev.fails, old(dev.attempts), old(dev.sent), old(errorCount), old(pending),
                           old(FramePackets(View(), canvas, frameCounter + 1)), old(|BodyPackets(View(), canvas)|),
                           old(InnerContinuations(View(), canvas)), frameCounter,
                           BrightnessPacket(brightness), PacketFor(CmdReset, []),
                           dev.attempts, dev.sent, errorCount, pending)
    {
      var ok := WriteFrame(canvas);
      ghost var a1, s1, p1 := dev.attempts, dev.sent, pending;
      if ok {
        FrameSucceeded();
        FrameWent(dev.fails, old(dev.attempts), old(dev.sent), old(errorCount), old(pending),
                  old(FramePackets(View(), canvas, frameCounter + 1)), old(|BodyPackets(View(), canvas)|),
                  old(InnerContinuations(View(), canvas)), frameCounter,
                  BrightnessPacket(brightness), PacketFor(CmdReset, []), a1, s1,
                  dev.attempts, dev.sent, errorCount, pending);
      } else {
        FrameFailed();
        FrameThrew(dev.fails, old(dev.attempts), old(dev.sent), old(errorCount), old(pending),
                   old(FramePackets(View(), canvas, frameCounter + 1)), old(|BodyPackets(View(), canvas)|),
                   old(InnerContinuations(View(), canvas)), frameCounter,
                   BrightnessPacket(brightness), PacketFor(CmdReset, []), a1, s1, p1,
                   dev.attempts, dev.sent, errorCount, pending);
      }
    }

    /** Render: a no-op unless CanRender(); otherwise one RenderFrame. */
    method Render(canvas: Canvas)
      requires Valid()
      modifies dev, this`frameCounter, this`errorCount, this`pending
      ensures !old(CanRender()) ==>
                && frameCounter == old(frameCounter) && errorCount == old(errorCount) && pending == old(pending)
                && dev.attempts == old(dev.attempts) && dev.sent == old(dev.sent)
      ensures old(CanRender()) ==>
                && frameCounter == old(frameCounter) + 1
                && FrameOutcome(dev.fails, old(dev.attempts), old(dev.sent), old(errorCount), old(pending),
                                old(FramePackets(View(), canvas, frameCounter + 1)), old(|BodyPackets(View(), canvas)|), old(InnerContinuations(View(), canvas)),
                                frameCounter, BrightnessPacket(brightness), PacketFor(CmdReset, []),
                                dev.attempts, dev.sent, errorCount, pending)
    {
      if !isInitialized || !endpointOpen || !initializationComplete {
        return;
      }
      if errorCount > MaxErrors {
        return;
      }
      RenderFrame(canvas);
    }

    /** Fires continuation `i`: it leaves the queue, writes its packet (if
        any), and on success schedules the step that follows it. A throw in
        a continuation is not caught, except inside setBrightness, which
        counts it. */
    method RunDeferred(i: nat)
      requires i < |pending|
      modifies dev, this`pending, this`errorCount
      ensures var step := old(pending[i]);
              var p := StepPacket(step);
              var ok := p.Some? && !dev.fails(old(dev.attempts));
              && dev.attempts == old(dev.attempts) + (if p.Some? then 1 else 0)
              && dev.sent == old(dev.sent) + (if ok then [p.value] else [])
              && pending == old(pending[..i] + pending[i + 1..]) + (if ok then StepNext(step) else [])
              && errorCount == old(errorCount) + (if step == BrightnessStep && p.Some? && !ok then 1 else 0)
    {
      var step := pending[i];
      pending := pending[..i] + pending[i + 1..];
      match step {
        case SetLedCountStep =>
          var ledCountPacket := CreateProtocolPacket(Headers(), ringMode, CmdSetLedCount, [config.outerLeds + config.innerLeds]);
          var ok := dev.Write(ledCountPacket);
          if ok { pending := pending + [EnableRgbStep]; }
        case EnableRgbStep =>
          var initPacket := CreateProtocolPacket(Headers(), ringMode, CmdInitialize, [0x01, 0x00]);
          var ok := dev.Write(initPacket);
          if ok { pending := pending + [BrightnessStep]; }
        case BrightnessStep =>
          SetBrightness(brightness);
        case InnerRingStep(innerColors) =>
          if |innerColors| > 0 {
            var innerData: seq<int>;
            if |innerColors| > 1 {
              innerData := FlattenLedColors(innerColors);
            } else {
              innerData := [innerColors[0].r, innerColors[0].g, innerColors[0].b];
            }
            var command := if perLedMode then CmdSetRgbIndividual else CmdSetRgbZone;
            var innerPacket := CreateProtocolPacket(Headers(), ringMode, command, innerData);
            OverwriteZone(Headers(), command, ZoneForRingMode(ringMode), ZoneInner, innerData);
            innerPacket := innerPacket[5 := ZoneInner];
            var ok := dev.Write(innerPacket);
          }
        case ShutdownApplyStep =>
          var applyPacket := CreateProtocolPacket(Headers(), ringMode, CmdApply, []);
          var ok := dev.Write(applyPacket);
          if ok { pending := pending + [ShutdownResetStep]; }
        case ShutdownResetStep =>
          var resetPacket := CreateProtocolPacket(Headers(), ringMode, CmdReset, []);
          var ok := dev.Write(resetPacket);
      }
    }

    /** Shutdown: a no-op unless initialised with an open handle; otherwise
        the black zone packet is written (its Apply follows in a continuation
        only if it went through) and the session state is reset whatever the
        write did. */
    method Shutdown()
      modifies dev, this`isInitialized, this`initializationComplete, this`frameCounter, this`errorCount, this`pending
      ensures !old(isInitialized && endpointOpen) ==>
                && isInitialized == old(isInitialized) && initializationComplete == old(initializationComplete)
                && frameCounter == old(frameCounter) && errorCount == old(errorCount) && pending == old(pending)
                && dev.attempts == old(dev.attempts) && dev.sent == old(dev.sent)
      ensures old(isInitialized && endpointOpen) ==>
                && !isInitialized && !initializationComplete && frameCounter == 0 && errorCount == 0
                && dev.attempts == old(dev.attempts) + 1
                && var ok := !dev.fails(old(dev.attempts));
                   && dev.sent == old(dev.sent) + (if ok then [PacketFor(CmdSetRgbZone, [0, 0, 0])] else [])
                   && pending == old(pending) + (if ok then [ShutdownApplyStep] else [])
    {
      if !isInitialized || !endpointOpen {
        return;
      }
      var offPacket := CreateProtocolPacket(Headers(), ringMode, CmdSetRgbZone, [0, 0, 0]);
      var ok := dev.Write(offPacket);
      if ok {
        pending := pending + [ShutdownApplyStep];
      }
      isInitialized := false;
      initializationComplete := false;
      frameCounter := 0;
      errorCount := 0;
    }

    /** detectProtocol: probe the candidates in order; the first whose probe
        write does not throw becomes the header pair of every later packet;
        when all three throw, the default pair is returned and nothing is
        recorded. */
    method DetectProtocol() returns (chosen: HeaderPair)
      modifies dev, this`detected
      ensures var f := Misses(dev.fails, old(dev.attempts), |Candidates|);
              && (f < |Candidates| ==>
                    && chosen == Candidates[f] && detected == Some(Candidates[f]) && Headers() == Candidates[f]
                    && dev.sent == old(dev.sent) + [Frame(Candidates[f], CmdInitialize, None, [0x00])]
                    && dev.attempts == old(dev.attempts) + f + 1)
              && (f == |Candidates| ==>
                    && chosen == Candidates[0] && detected == old(detected)
                    && dev.sent == old(dev.sent) && dev.attempts == old(dev.attempts) + |Candidates|)
    {
      ghost var start := dev.attempts;
      var i := 0;
      while i < |Candidates|
        invariant 0 <= i <= |Candidates|
        invariant dev.attempts == start + i && dev.sent == old(dev.sent)
        invariant forall t :: start <= t < start + i ==> dev.fails(t)
        invariant detected == old(detected)
      {
        var testPacket := BuildProbe(Candidates[i]);
        var ok := dev.Write(testPacket);
        if ok {
          MissesUnique(dev.fails, start, |Candidates|, i);
          detected := Some(Candidates[i]);
          return Candidates[i];
        }
        i := i + 1;
      }
      MissesUnique(dev.fails, start, |Candidates|, i);
      chosen := Candidates[0];
    }
  }
}
