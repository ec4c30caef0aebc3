/** The ADC0 sample-sequencer-3 set-up that ADCSWTrigger.c and
    ADCT0ATrigger.c share: `gpio2adc`, which hands a channel's pin to the
    ADC, and the numbered steps that clock ADC0, disable sequencer 3,
    configure it and enable it again.  The device-header constants are
    those of TI's tm4c1294ncpdt.h, which is not part of this model.

    Each step is a method on the peripherals' registers.  The steps that
    configure sequencer 3 require it to be disabled, so every caller is
    checked to configure it only between step 8 (`ACTSS &= ~ASEN3`) and
    the final `ACTSS |= ASEN3`.  `ChannelRouted` and `Seq3SetUp` are the
    register states `gpio2adc` and the whole sequence leave, and the lemmas
    say what those states mean. */
module AdcSeq3 {
  import opened Words
  import opened Registers
  import opened AdcChannels

  const RCGCADC_R0: Word := 0x1
  const CC_CLKDIV_M: Word := 0x3F0
  const CC_CLKDIV_S: Word := 4
  const CC_CS_M: Word := 0xF
  const CC_CS_SYSPLL: Word := 0x0
  const ACTSS_ASEN3: Word := 0x8
  const EMUX_EM3_M: Word := 0xF000
  const EM3_PROCESSOR: Word := 0x0
  const EM3_TIMER: Word := 0x5000
  const EM3_ALWAYS: Word := 0xF000
  const SAC_AVG_M: Word := 0x7
  const SAC_AVG_OFF: Word := 0x0
  const CTL_VREF_M: Word := 0x1
  const CTL_VREF_INTERNAL: Word := 0x0
  const SSOP3_S0DCOP: Word := 0x1
  const SSTSH3_TSH0_M: Word := 0xF
  const SSMUX3_MUX0_M: Word := 0xF
  const SSEMUX3_EMUX0: Word := 0x1
  /** `ADC0_SSCTL3_R = 0x0006`: the one sample ends the sequence and raises
      the interrupt flag; no temperature sensor, no differential input. */
  const SSCTL3_IE0_END0: Word := 0x6
  const IM_MASK3: Word := 0x8
  const ISC_IN3: Word := 0x8
  const SSFIFO3_DATA_M: Word := 0xFFF
  /** `GPIO_LOCK_KEY`, which unlocks the commit register of a port. */
  const GPIO_LOCK_KEY: Word := 0x4C4F434B
  /** The commit-register bit of PD7. */
  const CR_PD7: Word := 0x80

  /** The clock-configuration statement as written:
      `CC = ((CC & ~CLKDIV_M) + (14 << CLKDIV_S)) | ((CC & ~CS_M) + CS_SYSPLL)`. */
  function CcAsWritten(cc: Word): Word
  {
    ((cc & !CC_CLKDIV_M) + (14 << CC_CLKDIV_S)) | ((cc & !CC_CS_M) + CC_CS_SYSPLL)
  }

  /** Because the two masked copies are or-ed, each one gives back the
      field the other cleared: the statement only sets bits of the divider
      field and keeps the clock-source field. */
  lemma CcAsWrittenKeepsOldFields(cc: Word)
    ensures CcAsWritten(cc) == cc | 0xE0
    ensures (CcAsWritten(cc) & CC_CS_M) == (cc & CC_CS_M)
  {
    assert (cc & !CC_CLKDIV_M) + 0xE0 == (cc & !CC_CLKDIV_M) | 0xE0;
  }

  /** The statement evidently intended: divider field 14 (PLL VCO / 15),
      clock-source field SYSPLL, every other bit kept. */
  function CcIntended(cc: Word): (r: Word)
    ensures (r & CC_CLKDIV_M) == 14 << CC_CLKDIV_S && (r & CC_CS_M) == CC_CS_SYSPLL
    ensures (r & !(CC_CLKDIV_M | CC_CS_M)) == (cc & !(CC_CLKDIV_M | CC_CS_M))
  {
    MaskedWrite(MaskedWrite(cc, CC_CLKDIV_M, 14 << CC_CLKDIV_S), CC_CS_M, CC_CS_SYSPLL)
  }

  /** The two agree from the reset value 0, and differ as soon as the
      clock-source field holds anything but SYSPLL. */
  lemma CcAsWrittenDiffers()
    ensures CcAsWritten(0) == CcIntended(0) == 0xE0
    ensures CcAsWritten(0x1) == 0xE1 && CcIntended(0x1) == 0xE0
  {
  }

  // ---------------------------------------------------------------------
  // gpio2adc

  /** A pin is an ADC input when its alternate function and its analog
      function are on and its digital function is off. */
  predicate AnalogInput(afsel: Word, den: Word, amsel: Word, pin: Word)
  {
    (afsel & pin) == pin && (den & pin) == 0 && (amsel & pin) == pin
  }

  /** The state `gpio2adc` leaves on the channel's port `g` for the route
      `rt`: the port's clock is on; (with `unlock`, for channel 4) PD7's
      commit bit is unlocked; AFSEL has the route's AFSEL pin, DEN has lost
      and AMSEL has the route's analog pin. */
  twostate predicate PinsRouted(sys: SysCtl, g: GpioPort, rt: Route, unlock: bool)
    reads sys`rcgcGpio, g
  {
    sys.rcgcGpio == SetBits(old(sys.rcgcGpio), ClockBit(rt.port)) &&
    PortRouted(g, rt, unlock)
  }

  /** The port registers of `PinsRouted`. */
  twostate predicate PortRouted(g: GpioPort, rt: Route, unlock: bool)
    reads g
  {
    g.lock == (if unlock then GPIO_LOCK_KEY else old(g.lock)) &&
    g.cr == (if unlock then SetBits(old(g.cr), CR_PD7) else old(g.cr)) &&
    g.afsel == SetBits(old(g.afsel), rt.afselPin) &&
    g.den == ClearBits(old(g.den), rt.analogPin) &&
    g.amsel == SetBits(old(g.amsel), rt.analogPin)
  }

  /** No port but `port` has changed. */
  twostate predicate OtherPortsUnchanged(ports: Ports, port: Port)
    reads ports.All()
  {
    forall p :: p != port ==> unchanged(ports.Of(p))
  }

  /** The state `gpio2adc(ch)` leaves for a valid channel: the channel's
      pins routed on its port, and no other port changed. */
  twostate predicate ChannelRouted(sys: SysCtl, ports: Ports, ch: UChar)
    requires ch < CHANNELS
    reads sys`rcgcGpio, ports.All()
  {
    PinsRouted(sys, ports.Of(RouteOf(ch).port), RouteOf(ch), ch == 4) &&
    OtherPortsUnchanged(ports, RouteOf(ch).port)
  }

  /** `gpio2adc(channelNum)`, also written inline at the head of
      `ADC0_InitTimer0ATriggerSeq3`: for a valid channel, `ChannelRouted`: the
      channel's pins routed on its port and no change to any other port; for
      a channel above 19, no write at all (`routed` is false).  The waits
      for the port-ready bit are not modelled. */
  method Gpio2Adc(sys: SysCtl, ports: Ports, ch: UChar) returns (routed: bool)
    requires ports.Distinct()
    modifies sys`rcgcGpio, ports.All()`lock, ports.All()`cr, ports.All()`afsel, ports.All()`den, ports.All()`amsel
    ensures routed <==> ch < CHANNELS
    ensures !routed ==> unchanged(sys) && unchanged(ports.All())
    ensures routed ==> ChannelRouted(sys, ports, ch)
  {
    var port := ClockedPort(ch);
    if port.None? {
      return false;
    }
    RouteMatchesClock(ch);
    sys.rcgcGpio := SetBits(sys.rcgcGpio, ClockBit(port.value));
    var rt := RouteOf(ch);
    var g := ports.Of(rt.port);
    if ch == 4 {
      ports.d.lock := GPIO_LOCK_KEY;
      ports.d.cr := SetBits(ports.d.cr, CR_PD7);
    }
    g.afsel := SetBits(g.afsel, rt.afselPin);
    g.den := ClearBits(g.den, rt.analogPin);
    g.amsel := SetBits(g.amsel, rt.analogPin);
    return true;
  }

  /** Or-ing a pin into AFSEL and AMSEL and clearing it from DEN makes it an
      ADC input, whatever the registers held. */
  lemma RoutingMakesAnalogInput(afsel: Word, den: Word, amsel: Word, pin: Word)
    ensures AnalogInput(SetBits(afsel, pin), ClearBits(den, pin), SetBits(amsel, pin), pin)
  {
  }

  /** So every channel but 4 makes its pin an ADC input. */
  lemma RoutedPinIsAnalogInput(afsel: Word, den: Word, amsel: Word, ch: UChar)
    requires ch < CHANNELS && ch != 4
    ensures var rt := RouteOf(ch);
      AnalogInput(SetBits(afsel, rt.afselPin), ClearBits(den, rt.analogPin), SetBits(amsel, rt.analogPin), rt.analogPin)
  {
    OnlyChannelFourSplitsItsPin(ch);
    RoutingMakesAnalogInput(afsel, den, amsel, RouteOf(ch).analogPin);
  }

  /** Channel 4 as written: from a port whose PD7 is a digital pin and whose
      analog functions are off, PD7, the pin of AIN4, does not become an ADC
      input (its digital function stays on). */
  lemma ChannelFourLeavesPd7Digital()
    ensures var rt := RouteOf(4);
      !AnalogInput(SetBits(0, rt.afselPin), ClearBits(0xFF, rt.analogPin), SetBits(0, rt.analogPin), 0x80)
  {
  }

  /** With the intended route, every channel's pin becomes an ADC input. */
  lemma IntendedRouteIsAnalogInput(afsel: Word, den: Word, amsel: Word, ch: UChar)
    requires ch < CHANNELS
    ensures var rt := IntendedRouteOf(ch);
      AnalogInput(SetBits(afsel, rt.afselPin), ClearBits(den, rt.analogPin), SetBits(amsel, rt.analogPin), rt.analogPin)
  {
    IntendedRoutesAreOnePinEach(ch, ch);
    RoutingMakesAnalogInput(afsel, den, amsel, IntendedRouteOf(ch).analogPin);
  }

  // ---------------------------------------------------------------------
  // ADC0 sequencer 3

  predicate Seq3Disabled(adc: Adc0)
    reads adc
  {
    (adc.actss & ACTSS_ASEN3) == 0
  }

  /** The ADC0 registers after steps 5-18 (steps 15-28 of the timer-
      triggered version): `priority` in SSPRI, `trigger` in the EM3 field,
      MUX and EMUX fields from the channel, SSCTL3 one sample with
      interrupt, the SS3 interrupt mask set when `armed` and cleared
      otherwise, sequencer 3 disabled and enabled again; the ADC clock
      turned on. */
  twostate predicate Seq3SetUp(sys: SysCtl, adc: Adc0, priority: Word, trigger: Word, ch: UChar, armed: bool)
    reads sys`rcgcAdc, adc
  {
    sys.rcgcAdc == SetBits(old(sys.rcgcAdc), RCGCADC_R0) &&
    adc.cc == CcAsWritten(old(adc.cc)) &&
    adc.sspri == priority &&
    adc.actss == SetBits(ClearBits(old(adc.actss), ACTSS_ASEN3), ACTSS_ASEN3) &&
    adc.emux == MaskedWrite(old(adc.emux), EMUX_EM3_M, trigger) &&
    adc.sac == MaskedWrite(old(adc.sac), SAC_AVG_M, SAC_AVG_OFF) &&
    adc.ctl == MaskedWrite(old(adc.ctl), CTL_VREF_M, CTL_VREF_INTERNAL) &&
    adc.ssop3 == ClearBits(old(adc.ssop3), SSOP3_S0DCOP) &&
    adc.sstsh3 == MaskedWrite(old(adc.sstsh3), SSTSH3_TSH0_M, 0) &&
    adc.ssmux3 == MaskedWrite(old(adc.ssmux3), SSMUX3_MUX0_M, MuxField(ch)) &&
    adc.ssemux3 == MaskedWrite(old(adc.ssemux3), SSEMUX3_EMUX0, EmuxField(ch)) &&
    adc.ssctl3 == SSCTL3_IE0_END0 &&
    adc.im == (if armed then SetBits(old(adc.im), IM_MASK3) else ClearBits(old(adc.im), IM_MASK3))
  }

  /** Disabling and re-enabling sequencer 3 turns it on and keeps the
      other sequencers' enable bits. */
  lemma ReenableKeepsOtherSequencers(actss: Word)
    ensures var r := SetBits(ClearBits(actss, ACTSS_ASEN3), ACTSS_ASEN3);
      (r & ACTSS_ASEN3) == ACTSS_ASEN3 && (r & !ACTSS_ASEN3) == (actss & !ACTSS_ASEN3)
  {
  }

  /** A trigger inside the EM3 field becomes sequencer 3's trigger, and the
      other sequencers' trigger fields are kept. */
  lemma TriggerFieldSelects(emux: Word, trigger: Word)
    requires trigger == EM3_PROCESSOR || trigger == EM3_TIMER || trigger == EM3_ALWAYS
    ensures var r := MaskedWrite(emux, EMUX_EM3_M, trigger);
      (r & EMUX_EM3_M) == trigger && (r & !EMUX_EM3_M) == (emux & !EMUX_EM3_M)
  {
  }

  /** The MUX and EMUX fields written for a valid channel select it: 16 *
      EMUX + MUX is the channel, and the other bits of both registers are
      kept. */
  lemma ChannelFieldsSelect(ssmux3: Word, ssemux3: Word, ch: UChar)
    requires ch < CHANNELS
    ensures var m := MaskedWrite(ssmux3, SSMUX3_MUX0_M, MuxField(ch));
            var e := MaskedWrite(ssemux3, SSEMUX3_EMUX0, EmuxField(ch));
      16 * ((e & SSEMUX3_EMUX0) as int) + ((m & SSMUX3_MUX0_M) as int) == ch as int &&
      (m & !SSMUX3_MUX0_M) == (ssmux3 & !SSMUX3_MUX0_M) && (e & !SSEMUX3_EMUX0) == (ssemux3 & !SSEMUX3_EMUX0)
  {
    MuxSplit(ch);
  }

  /** Writing the same channel fields again changes nothing: the set-up can
      be repeated. */
  lemma ChannelFieldsIdempotent(ssmux3: Word, ssemux3: Word, ch: UChar)
    requires ch < CHANNELS
    ensures var m := MaskedWrite(ssmux3, SSMUX3_MUX0_M, MuxField(ch));
            var e := MaskedWrite(ssemux3, SSEMUX3_EMUX0, EmuxField(ch));
      MaskedWrite(m, SSMUX3_MUX0_M, MuxField(ch)) == m && MaskedWrite(e, SSEMUX3_EMUX0, EmuxField(ch)) == e
  {
    MuxSplit(ch);
    assert (MuxField(ch) & !SSMUX3_MUX0_M) == 0;
    assert (EmuxField(ch) & !SSEMUX3_EMUX0) == 0;
    MaskedWriteTwice(ssmux3, SSMUX3_MUX0_M, MuxField(ch));
    MaskedWriteTwice(ssemux3, SSEMUX3_EMUX0, EmuxField(ch));
  }

  /** Steps 5-8: ADC0 clock on, ADC clock source, sequencer priorities,
      sequencer 3 disabled.  The wait for the ADC-ready bit is not
      modelled. */
  method ClockAndDisable(sys: SysCtl, adc: Adc0, priority: Word)
    modifies sys`rcgcAdc, adc`cc, adc`sspri, adc`actss
    ensures sys.rcgcAdc == SetBits(old(sys.rcgcAdc), RCGCADC_R0)
    ensures adc.cc == CcAsWritten(old(adc.cc)) && adc.sspri == priority
    ensures adc.actss == ClearBits(old(adc.actss), ACTSS_ASEN3)
    ensures Seq3Disabled(adc)
  {
    sys.rcgcAdc := SetBits(sys.rcgcAdc, RCGCADC_R0);
    adc.cc := CcAsWritten(adc.cc);
    adc.sspri := priority;
    adc.actss := ClearBits(adc.actss, ACTSS_ASEN3);
  }

  /** Steps 9-13, only while sequencer 3 is disabled: trigger source, no
      hardware oversampling, internal reference, result to the FIFO,
      shortest sample-and-hold time. */
  method ConfigureSeq3(adc: Adc0, trigger: Word)
    requires Seq3Disabled(adc)
    modifies adc`emux, adc`sac, adc`ctl, adc`ssop3, adc`sstsh3
    ensures adc.emux == MaskedWrite(old(adc.emux), EMUX_EM3_M, trigger)
    ensures adc.sac == MaskedWrite(old(adc.sac), SAC_AVG_M, SAC_AVG_OFF)
    ensures adc.ctl == MaskedWrite(old(adc.ctl), CTL_VREF_M, CTL_VREF_INTERNAL)
    ensures adc.ssop3 == ClearBits(old(adc.ssop3), SSOP3_S0DCOP)
    ensures adc.sstsh3 == MaskedWrite(old(adc.sstsh3), SSTSH3_TSH0_M, 0)
  {
    adc.emux := MaskedWrite(adc.emux, EMUX_EM3_M, trigger);
    adc.sac := MaskedWrite(adc.sac, SAC_AVG_M, SAC_AVG_OFF);
    adc.ctl := MaskedWrite(adc.ctl, CTL_VREF_M, CTL_VREF_INTERNAL);
    adc.ssop3 := ClearBits(adc.ssop3, SSOP3_S0DCOP);
    adc.sstsh3 := MaskedWrite(adc.sstsh3, SSTSH3_TSH0_M, 0);
  }

  /** Steps 14-15, only while sequencer 3 is disabled: the channel's MUX
      field and extended-MUX bit. */
  method SelectChannel(adc: Adc0, ch: UChar)
    requires Seq3Disabled(adc)
    modifies adc`ssmux3, adc`ssemux3
    ensures adc.ssmux3 == MaskedWrite(old(adc.ssmux3), SSMUX3_MUX0_M, MuxField(ch))
    ensures adc.ssemux3 == MaskedWrite(old(adc.ssemux3), SSEMUX3_EMUX0, EmuxField(ch))
  {
    adc.ssmux3 := MaskedWrite(adc.ssmux3, SSMUX3_MUX0_M, MuxField(ch));
    adc.ssemux3 := MaskedWrite(adc.ssemux3, SSEMUX3_EMUX0, EmuxField(ch));
  }

  /** Steps 16-18, only while sequencer 3 is disabled: sample control, the
      SS3 interrupt mask (set when `armed`, cleared otherwise), and
      sequencer 3 enabled as the last write. */
  method EnableSeq3(adc: Adc0, armed: bool)
    requires Seq3Disabled(adc)
    modifies adc`ssctl3, adc`im, adc`actss
    ensures adc.ssctl3 == SSCTL3_IE0_END0
    ensures adc.im == if armed then SetBits(old(adc.im), IM_MASK3) else ClearBits(old(adc.im), IM_MASK3)
    ensures adc.actss == SetBits(old(adc.actss), ACTSS_ASEN3)
  {
    adc.ssctl3 := SSCTL3_IE0_END0;
    if armed {
      adc.im := SetBits(adc.im, IM_MASK3);
    } else {
      adc.im := ClearBits(adc.im, IM_MASK3);
    }
    adc.actss := SetBits(adc.actss, ACTSS_ASEN3);
  }

  /** Steps 5-18 for a channel. */
  method SetUpSeq3(sys: SysCtl, adc: Adc0, priority: Word, trigger: Word, ch: UChar, armed: bool)
    modifies sys`rcgcAdc, adc`cc, adc`sspri, adc`actss, adc`emux, adc`sac, adc`ctl, adc`ssop3, adc`sstsh3,
             adc`ssmux3, adc`ssemux3, adc`ssctl3, adc`im
    ensures Seq3SetUp(sys, adc, priority, trigger, ch, armed)
  {
    ClockAndDisable(sys, adc, priority);
    ConfigureSeq3(adc, trigger);
    SelectChannel(adc, ch);
    EnableSeq3(adc, armed);
  }
}
