/** ADCSWTrigger.c: initialisation of ADC0 sample sequencer 3 for a
    software (or continuous) trigger on one analog channel, and the
    busy-wait conversion `ADC0_InSeq3`. */
module AdcSwTrigger {
  import opened Words
  import opened Registers
  import opened AdcChannels
  import opened AdcSeq3

  /** The body shared by `ADC0_InitSWTriggerSeq3` and
      `ADC0_InitAllTriggerSeq3`, which differ only in the trigger: a
      channel above 19 returns before any write; otherwise `gpio2adc`, then
      steps 5-18 with priority 0x3210 and the SS3 interrupt masked. */
  method InitTriggerSeq3(sys: SysCtl, ports: Ports, adc: Adc0, ch: UChar, trigger: Word)
    requires ports.Distinct()
    modifies sys`rcgcGpio, ports.All()`lock, ports.All()`cr, ports.All()`afsel, ports.All()`den, ports.All()`amsel
    modifies sys`rcgcAdc, adc`cc, adc`sspri, adc`actss, adc`emux, adc`sac, adc`ctl, adc`ssop3, adc`sstsh3,
             adc`ssmux3, adc`ssemux3, adc`ssctl3, adc`im
    ensures ch >= CHANNELS ==> unchanged(sys, adc) && unchanged(ports.All())
    ensures ch < CHANNELS ==> ChannelRouted(sys, ports, ch)
    ensures ch < CHANNELS ==> Seq3SetUp(sys, adc, 0x3210, trigger, ch, false)
  {
    if ch > 19 {
      return;
    }
    var routed := Gpio2Adc(sys, ports, ch);
    SetUpSeq3(sys, adc, 0x3210, trigger, ch, false);
  }

  /** `ADC0_InitSWTriggerSeq3`: the processor (software) trigger. */
  method InitSwTriggerSeq3(sys: SysCtl, ports: Ports, adc: Adc0, ch: UChar)
    requires ports.Distinct()
    modifies sys`rcgcGpio, ports.All()`lock, ports.All()`cr, ports.All()`afsel, ports.All()`den, ports.All()`amsel
    modifies sys`rcgcAdc, adc`cc, adc`sspri, adc`actss, adc`emux, adc`sac, adc`ctl, adc`ssop3, adc`sstsh3,
             adc`ssmux3, adc`ssemux3, adc`ssctl3, adc`im
    ensures ch >= CHANNELS ==> unchanged(sys, adc) && unchanged(ports.All())
    ensures ch < CHANNELS ==> ChannelRouted(sys, ports, ch)
    ensures ch < CHANNELS ==> Seq3SetUp(sys, adc, 0x3210, EM3_PROCESSOR, ch, false)
  {
    InitTriggerSeq3(sys, ports, adc, ch, EM3_PROCESSOR);
  }

  /** `ADC0_InitAllTriggerSeq3`: the continuous (always) trigger. */
  method InitAllTriggerSeq3(sys: SysCtl, ports: Ports, adc: Adc0, ch: UChar)
    requires ports.Distinct()
    modifies sys`rcgcGpio, ports.All()`lock, ports.All()`cr, ports.All()`afsel, ports.All()`den, ports.All()`amsel
    modifies sys`rcgcAdc, adc`cc, adc`sspri, adc`actss, adc`emux, adc`sac, adc`ctl, adc`ssop3, adc`sstsh3,
             adc`ssmux3, adc`ssemux3, adc`ssctl3, adc`im
    ensures ch >= CHANNELS ==> unchanged(sys, adc) && unchanged(ports.All())
    ensures ch < CHANNELS ==> ChannelRouted(sys, ports, ch)
    ensures ch < CHANNELS ==> Seq3SetUp(sys, adc, 0x3210, EM3_ALWAYS, ch, false)
  {
    InitTriggerSeq3(sys, ports, adc, ch, EM3_ALWAYS);
  }

  /** Steps 1-4 of `ADC0_InitSWTriggerSeq3_Ch0`: port E's clock, then PE3
      handed to the ADC, as `gpio2adc(0)` does. */
  method RoutePe3(sys: SysCtl, pe: GpioPort)
    modifies sys`rcgcGpio, pe`afsel, pe`den, pe`amsel
    ensures PinsRouted(sys, pe, RouteOf(0), false)
  {
    sys.rcgcGpio := SetBits(sys.rcgcGpio, ClockBit(PortE));
    pe.afsel := SetBits(pe.afsel, 0x08);
    pe.den := ClearBits(pe.den, 0x08);
    pe.amsel := SetBits(pe.amsel, 0x08);
  }

  /** Steps 14-15 of `ADC0_InitSWTriggerSeq3_Ch0`, only while sequencer 3
      is disabled: `(SSMUX3 & ~0xF) + 0` and `SSEMUX3 &= ~1`, which are the
      channel fields of channel 0. */
  method SelectChannelZero(adc: Adc0)
    requires Seq3Disabled(adc)
    modifies adc`ssmux3, adc`ssemux3
    ensures adc.ssmux3 == MaskedWrite(old(adc.ssmux3), SSMUX3_MUX0_M, MuxField(0))
    ensures adc.ssemux3 == MaskedWrite(old(adc.ssemux3), SSEMUX3_EMUX0, EmuxField(0))
  {
    adc.ssmux3 := MaskedWrite(adc.ssmux3, SSMUX3_MUX0_M, 0);
    adc.ssemux3 := ClearBits(adc.ssemux3, SSEMUX3_EMUX0);
  }

  /** Steps 5-18 of `ADC0_InitSWTriggerSeq3_Ch0`, with sequencer 3 given
      the highest priority (0x0123). */
  method SetUpSeq3Ch0(sys: SysCtl, adc: Adc0)
    modifies sys`rcgcAdc, adc`cc, adc`sspri, adc`actss, adc`emux, adc`sac, adc`ctl, adc`ssop3, adc`sstsh3,
             adc`ssmux3, adc`ssemux3, adc`ssctl3, adc`im
    ensures Seq3SetUp(sys, adc, 0x0123, EM3_PROCESSOR, 0, false)
  {
    ClockAndDisable(sys, adc, 0x0123);
    ConfigureSeq3(adc, EM3_PROCESSOR);
    SelectChannelZero(adc);
    EnableSeq3(adc, false);
  }

  /** `ADC0_InitSWTriggerSeq3_Ch0`: channel 0 on PE3 written out inline.
      It leaves the state that `gpio2adc(0)` and the channel-parameterised
      set-up leave, for channel 0 and priority 0x0123. */
  method InitSwTriggerSeq3Ch0(sys: SysCtl, ports: Ports, adc: Adc0)
    requires ports.Distinct()
    modifies sys`rcgcGpio, ports.e`afsel, ports.e`den, ports.e`amsel
    modifies sys`rcgcAdc, adc`cc, adc`sspri, adc`actss, adc`emux, adc`sac, adc`ctl, adc`ssop3, adc`sstsh3,
             adc`ssmux3, adc`ssemux3, adc`ssctl3, adc`im
    ensures ChannelRouted(sys, ports, 0)
    ensures Seq3SetUp(sys, adc, 0x0123, EM3_PROCESSOR, 0, false)
  {
    RoutePe3(sys, ports.e);
    SetUpSeq3Ch0(sys, adc);
  }

  /** `ADC0_InSeq3`: start sequencer 3, read the 12-bit result, acknowledge.
      The wait for the raw interrupt flag is not modelled: the FIFO word
      read is the one in the register. */
  method InSeq3(adc: Adc0) returns (result: Word)
    modifies adc`pssi, adc`isc
    ensures adc.pssi == 0x8 && adc.isc == ISC_IN3
    ensures result == adc.ssfifo3 & SSFIFO3_DATA_M
  {
    adc.pssi := 0x8;
    result := adc.ssfifo3 & SSFIFO3_DATA_M;
    adc.isc := ISC_IN3;
  }

  /** The result of `ADC0_InSeq3` is the 12 low bits of the FIFO word, so
      it is at most 4095, and a FIFO word that already fits comes back
      unchanged. */
  lemma InSeq3ResultIsTwelveBits(fifo: Word)
    ensures (fifo & SSFIFO3_DATA_M) <= 4095
    ensures (fifo & SSFIFO3_DATA_M) == fifo <==> fifo <= 4095
  {
  }
}
