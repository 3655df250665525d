/** Wire-protocol constants of the Galahad II pump, the ring-mode setting and
    the small pure mappings from settings to protocol bytes. */
module Protocol {

  datatype Option<+T> = None | Some(value: T)

  // Frame layout
  const ReportId := 0x00
  const Header1 := 0x16
  const Header2 := 0x16
  const PacketSize := 64

  // Command codes
  const CmdInitialize := 0x01
  const CmdSetLedCount := 0x02
  const CmdSetRgbZone := 0x06
  const CmdSetRgbIndividual := 0x07
  const CmdSetBrightness := 0x08
  const CmdApply := 0x09
  const CmdSetEffect := 0x0A
  const CmdReset := 0xFF

  // Zone identifiers
  const ZoneAll := 0x00
  const ZoneOuter := 0x01
  const ZoneInner := 0x02
  const ZoneBothIndependent := 0x03

  /** LEDs per individual-colour packet: (64 - 6) / 4, rounded down. */
  const MaxLedsPerPacket := 14
  const BytesPerLed := 4

  /** A frame as the plugin builds it: an array of JS numbers. */
  type Packet = seq<int>

  /** The two signature bytes at offsets 1 and 2. */
  datatype HeaderPair = HeaderPair(first: int, second: int)

  const DefaultHeaders := HeaderPair(Header1, Header2)

  /** What SignalRGB reports about a candidate HID endpoint. */
  datatype Endpoint = Endpoint(iface: int, usage: int, usagePage: int)

  /** The "ringMode" host setting; any string outside the combobox values is `OtherMode`. */
  datatype RingMode = Combined | OuterRingOnly | InnerRingOnly | IndependentRings | OtherMode(name: string)

  /** The two colour commands carry a zone byte at offset 5. */
  predicate IsZoneCommand(command: int) {
    command == CmdSetRgbZone || command == CmdSetRgbIndividual
  }

  /** getZoneForRingMode of the enhanced plugin. */
  function ZoneForRingMode(mode: RingMode): (zone: int)
    ensures ZoneAll <= zone <= ZoneBothIndependent
    ensures zone == ZoneOuter <==> mode == OuterRingOnly
    ensures zone == ZoneInner <==> mode == InnerRingOnly
    ensures zone == ZoneBothIndependent <==> mode == IndependentRings
    ensures zone == ZoneAll <==> (mode == Combined || mode.OtherMode?)
  {
    match mode
    case OuterRingOnly => ZoneOuter
    case InnerRingOnly => ZoneInner
    case IndependentRings => ZoneBothIndependent
    case _ => ZoneAll
  }

  /** getZoneForRingMode of the basic plugin, which has no independent-rings case. */
  function BasicZoneForRingMode(mode: RingMode): (zone: int)
    ensures zone == ZoneOuter <==> mode == OuterRingOnly
    ensures zone == ZoneInner <==> mode == InnerRingOnly
    ensures zone == ZoneAll <==> !(mode == OuterRingOnly || mode == InnerRingOnly)
    ensures mode != IndependentRings ==> zone == ZoneForRingMode(mode)
  {
    match mode
    case OuterRingOnly => ZoneOuter
    case InnerRingOnly => ZoneInner
    case _ => ZoneAll
  }

  /** Math.max(1, Math.min(100, value)): the brightness byte actually sent. */
  function ClampBrightness(value: int): (b: int)
    ensures 1 <= b <= 100
    ensures 1 <= value <= 100 ==> b == value
    ensures value < 1 ==> b == 1
    ensures value > 100 ==> b == 100
  {
    if value < 1 then 1 else if value > 100 then 100 else value
  }
}
