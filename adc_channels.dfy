/** ADC channel decoding shared by the ADC0 initialisation routines
    (ADCSWTrigger.c `gpio2adc`, and the inlined copy of its two switches
    in ADCT0ATrigger.c): which GPIO port a channel's pin is on, which pin
    bits are handed to the ADC, and how the channel number is split into
    the 4-bit SSMUX3 field and the 1-bit SSEMUX3 field.

    The channel argument is an `unsigned char`, modelled as `bv8` so that
    the C expressions `channelNum & 0xF` and `(channelNum & 0x10) >> 4` are
    written as they are. */
module AdcChannels {
  import opened Words
  import opened Wrappers
  import opened Registers

  type UChar = bv8

  /** Channels 0 to 19 are the valid analog inputs of the TM4C1294. */
  const CHANNELS: UChar := 20

  /** The `SYSCTL_RCGCGPIO_Rn` clock-gating bit of each port (bit n for the
      n-th port A, B, C, ...; there is no port I). */
  function ClockBit(p: Port): Word
  {
    match p
    case PortB => 0x2
    case PortD => 0x8
    case PortE => 0x10
    case PortF => 0x20
    case PortJ => 0x100
    case PortK => 0x200
    case PortN => 0x1000
  }

  /** The first switch of `gpio2adc`: the port whose clock is turned on;
      `None` is its `default: return`. */
  function ClockedPort(ch: UChar): (p: Option<Port>)
    ensures p.Some? <==> ch < CHANNELS
  {
    if ch <= 3 || ch == 8 || ch == 9 then Some(PortE)
    else if 4 <= ch <= 7 || 12 <= ch <= 15 then Some(PortD)
    else if ch == 10 || ch == 11 then Some(PortB)
    else if 16 <= ch <= 19 then Some(PortK)
    else None
  }

  /** One case of the second switch: the port, the bit or-ed into AFSEL,
      and the bit cleared in DEN and or-ed into AMSEL. */
  datatype Route = Route(port: Port, afselPin: Word, analogPin: Word)

  /** The second switch as written, case by case (ADCSWTrigger.c:145-248,
      repeated in ADCT0ATrigger.c:117-220). */
  const ROUTES: seq<Route> := [
    Route(PortE, 0x08, 0x08), Route(PortE, 0x04, 0x04), Route(PortE, 0x02, 0x02), Route(PortE, 0x01, 0x01),
    Route(PortD, 0x80, 0x08), Route(PortD, 0x40, 0x40), Route(PortD, 0x20, 0x20), Route(PortD, 0x10, 0x10),
    Route(PortE, 0x20, 0x20), Route(PortE, 0x10, 0x10), Route(PortB, 0x10, 0x10), Route(PortB, 0x20, 0x20),
    Route(PortD, 0x08, 0x08), Route(PortD, 0x04, 0x04), Route(PortD, 0x02, 0x02), Route(PortD, 0x01, 0x01),
    Route(PortK, 0x01, 0x01), Route(PortK, 0x02, 0x02), Route(PortK, 0x04, 0x04), Route(PortK, 0x08, 0x08)]

  /** A GPIO pin bit: one of the eight low bits. */
  predicate PinBit(b: Word)
  {
    b == 0x01 || b == 0x02 || b == 0x04 || b == 0x08 || b == 0x10 || b == 0x20 || b == 0x40 || b == 0x80
  }

  /** The route of a valid channel, as written. */
  function RouteOf(ch: UChar): Route
    requires ch < CHANNELS
  {
    ROUTES[ch as int]
  }

  /** Both switches agree on the port: the clock that is turned on is the
      clock of the port whose pins are then configured; and each case
      names single pin bits. */
  lemma RouteMatchesClock(ch: UChar)
    requires ch < CHANNELS
    ensures ClockedPort(ch) == Some(RouteOf(ch).port)
    ensures PinBit(RouteOf(ch).afselPin) && PinBit(RouteOf(ch).analogPin)
  {
  }

  /** Every channel but 4 hands one and the same pin to the ADC.  Channel 4
      (AIN4, on PD7) gives PD7 the alternate function but turns off the
      digital function of, and connects to the ADC, PD3, the pin of
      channel 12. */
  lemma OnlyChannelFourSplitsItsPin(ch: UChar)
    requires ch < CHANNELS
    ensures RouteOf(ch).afselPin == RouteOf(ch).analogPin <==> ch != 4
    ensures ch == 4 ==> RouteOf(ch).port == RouteOf(12).port && RouteOf(ch).analogPin == RouteOf(12).analogPin
  {
  }

  /** The route channel 4 evidently means: PD7 in all three registers. */
  function IntendedRouteOf(ch: UChar): (r: Route)
    requires ch < CHANNELS
    ensures ch != 4 ==> r == RouteOf(ch)
  {
    if ch == 4 then Route(PortD, 0x80, 0x80) else RouteOf(ch)
  }

  /** With the intended route every channel hands one pin to the ADC, and
      no two channels share a pin. */
  lemma IntendedRoutesAreOnePinEach(a: UChar, b: UChar)
    requires a < CHANNELS && b < CHANNELS
    ensures IntendedRouteOf(a).afselPin == IntendedRouteOf(a).analogPin
    ensures a != b ==> IntendedRouteOf(a).port != IntendedRouteOf(b).port || IntendedRouteOf(a).analogPin != IntendedRouteOf(b).analogPin
  {
  }

  /** `channelNum & 0xF`, the SSMUX3 field. */
  function MuxField(ch: UChar): Word
  {
    (ch & 0xF) as Word
  }

  /** `(channelNum & 0x10) >> 4`, the SSEMUX3 bit. */
  function EmuxField(ch: UChar): Word
  {
    ((ch & 0x10) >> 4) as Word
  }

  /** The two fields together select the channel: the MUX field is 4 bits,
      the extended-MUX field 1 bit, and 16 * EMUX + MUX is the channel. */
  lemma MuxSplit(ch: UChar)
    requires ch < CHANNELS
    ensures MuxField(ch) <= 0xF && EmuxField(ch) <= 1
    ensures 16 * (EmuxField(ch) as int) + (MuxField(ch) as int) == ch as int
  {
    assert (((ch & 0x10) >> 4) * 16 + (ch & 0xF)) == ch;
  }
}
