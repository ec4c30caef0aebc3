/** ADCT0ATrigger.c: ADC0 sample sequencer 3 triggered by Timer0A, with
    the sequencer's interrupt calling a user task on each result.

    The file's global `ADCTask` (a function pointer) and the handler's
    calls out of the file are the fields of `Seq3Task`: the user task is named
    by a `TaskId`, and the ghost log `steps` records what the handler does
    and in which order. */
module AdcT0aTrigger {
  import opened Words
  import opened Registers
  import opened AdcChannels
  import opened AdcSeq3

  const RCGCTIMER_R0: Word := 0x1
  const TIMER_CTL_TAEN: Word := 0x1
  const TIMER_CTL_TAOTE: Word := 0x20
  const TIMER_ADCEV_TATOADCEN: Word := 0x1
  const TIMER_CFG_16_BIT: Word := 0x4
  const TIMER_CC_ALTCLK: Word := 0x1
  const TIMER_TAMR_PERIOD: Word := 0x2
  const TIMER_IMR_TATOIM: Word := 0x1
  /** Bit 17 of `NVIC_EN0_R`: interrupt 17, ADC0 sequence 3. */
  const EN0_INT17: Word := 0x0002_0000

  type UShort = bv16

  /** The user task a function pointer designates. */
  type TaskId = nat

  /** What `ADC0Seq3_Handler` does that the rest of the program can see. */
  datatype HandlerStep = AcknowledgeIn3 | RunTask(task: TaskId, argument: Word)

  /** The global `ADCTask` and the log of the handler's steps. */
  class Seq3Task {
    var adcTask: TaskId
    ghost var steps: seq<HandlerStep>
  }

  /** `NVIC_PRI4_R = (NVIC_PRI4_R & 0xFFFF00FF) | 0x00004000`. */
  function Pri4Write(pri4: Word): Word
  {
    (pri4 & 0xFFFF_00FF) | 0x0000_4000
  }

  /** The write sets the byte of interrupt 17 to 0x40, that is priority 2
      in its top three bits (bits 13-15), and keeps every other byte. */
  lemma Pri4WriteSetsPriorityTwo(pri4: Word)
    ensures (Pri4Write(pri4) & 0x0000_FF00) == 0x0000_4000
    ensures (Pri4Write(pri4) & !0x0000_FF00) == (pri4 & !0x0000_FF00)
    ensures (Pri4Write(pri4) >> 13) & 0x7 == 2
  {
  }

  /** The number of bus-clock periods between two Timer0A time-outs,
      (prescale + 1) * (period + 1), for the values of an `unsigned char`
      prescale and an `unsigned short` period. */
  function SampleTicks(prescale: nat, period: nat): nat
  {
    (prescale + 1) * (period + 1)
  }

  lemma MulMonotone(a: nat, b: nat, c: nat)
    requires a <= b
    ensures a * c <= b * c
  {
  }

  /** The documented sample interval is busPeriod * SampleTicks: between
      one and 2^24 bus periods, and it grows with each of the prescale and
      the period. */
  lemma SampleTicksBounds(prescale: nat, period: nat, prescale': nat, period': nat)
    requires prescale < 0x100 && prescale' < 0x100 && period < 0x1_0000 && period' < 0x1_0000
    ensures 1 <= SampleTicks(prescale, period) <= 0x100_0000
    ensures prescale <= prescale' && period <= period' ==> SampleTicks(prescale, period) <= SampleTicks(prescale', period')
  {
    var p, q := prescale + 1, period + 1;
    MulMonotone(1, p, q);
    MulMonotone(p, 0x100, q);
    MulMonotone(q, 0x1_0000, 0x100);
    if prescale <= prescale' && period <= period' {
      var p', q' := prescale' + 1, period' + 1;
      MulMonotone(p, p', q);
      MulMonotone(q, q', p');
    }
  }

  /** The timer registers after steps 5-14: Timer0 clocked, Timer0A
      disabled, its ADC trigger output and time-out ADC event enabled,
      16-bit periodic mode from the system clock with `prescale` and
      `period`, its time-out interrupt masked, and Timer0A enabled again. */
  twostate predicate Timer0ASetUp(sys: SysCtl, timer: Timer0, prescale: UChar, period: UShort)
    reads sys`rcgcTimer, timer
  {
    sys.rcgcTimer == SetBits(old(sys.rcgcTimer), RCGCTIMER_R0) &&
    timer.ctl == SetBits(SetBits(ClearBits(old(timer.ctl), TIMER_CTL_TAEN), TIMER_CTL_TAOTE), TIMER_CTL_TAEN) &&
    timer.adcev == SetBits(old(timer.adcev), TIMER_ADCEV_TATOADCEN) &&
    timer.cfg == TIMER_CFG_16_BIT &&
    timer.cc == ClearBits(old(timer.cc), TIMER_CC_ALTCLK) &&
    timer.tamr == TIMER_TAMR_PERIOD &&
    timer.tapr == prescale as Word &&
    timer.tailr == period as Word &&
    timer.imr == ClearBits(old(timer.imr), TIMER_IMR_TATOIM)
  }

  /** Timer0A ends enabled with its ADC trigger output on, the other
      control bits kept; prescale and period are loaded without loss. */
  lemma Timer0AEndsEnabled(ctl: Word, prescale: UChar, period: UShort)
    ensures var r := SetBits(SetBits(ClearBits(ctl, TIMER_CTL_TAEN), TIMER_CTL_TAOTE), TIMER_CTL_TAEN);
      (r & (TIMER_CTL_TAEN | TIMER_CTL_TAOTE)) == TIMER_CTL_TAEN | TIMER_CTL_TAOTE &&
      (r & !(TIMER_CTL_TAEN | TIMER_CTL_TAOTE)) == (ctl & !(TIMER_CTL_TAEN | TIMER_CTL_TAOTE))
    ensures (prescale as Word) as int == prescale as int && (period as Word) as int == period as int
  {
  }

  predicate Timer0ADisabled(timer: Timer0)
    reads timer
  {
    (timer.ctl & TIMER_CTL_TAEN) == 0
  }

  /** Steps 5-6: Timer0 clocked, Timer0A disabled during set-up.  The wait
      for the timer-ready bit is not modelled. */
  method DisableTimer0A(sys: SysCtl, timer: Timer0)
    modifies sys`rcgcTimer, timer`ctl
    ensures sys.rcgcTimer == SetBits(old(sys.rcgcTimer), RCGCTIMER_R0)
    ensures timer.ctl == ClearBits(old(timer.ctl), TIMER_CTL_TAEN)
    ensures Timer0ADisabled(timer)
  {
    sys.rcgcTimer := SetBits(sys.rcgcTimer, RCGCTIMER_R0);
    timer.ctl := ClearBits(timer.ctl, TIMER_CTL_TAEN);
  }

  /** Steps 7-13, only while Timer0A is disabled. */
  method ConfigureTimer0A(timer: Timer0, prescale: UChar, period: UShort)
    requires Timer0ADisabled(timer)
    modifies timer`ctl, timer`adcev, timer`cfg, timer`cc, timer`tamr, timer`tapr, timer`tailr, timer`imr
    ensures timer.ctl == SetBits(old(timer.ctl), TIMER_CTL_TAOTE)
    ensures timer.adcev == SetBits(old(timer.adcev), TIMER_ADCEV_TATOADCEN)
    ensures timer.cfg == TIMER_CFG_16_BIT && timer.tamr == TIMER_TAMR_PERIOD
    ensures timer.cc == ClearBits(old(timer.cc), TIMER_CC_ALTCLK)
    ensures timer.tapr == prescale as Word && timer.tailr == period as Word
    ensures timer.imr == ClearBits(old(timer.imr), TIMER_IMR_TATOIM)
  {
    timer.ctl := SetBits(timer.ctl, TIMER_CTL_TAOTE);
    timer.adcev := SetBits(timer.adcev, TIMER_ADCEV_TATOADCEN);
    timer.cfg := TIMER_CFG_16_BIT;
    timer.cc := ClearBits(timer.cc, TIMER_CC_ALTCLK);
    timer.tamr := TIMER_TAMR_PERIOD;
    timer.tapr := prescale as Word;
    timer.tailr := period as Word;
    timer.imr := ClearBits(timer.imr, TIMER_IMR_TATOIM);
  }

  /** Steps 5-14: Timer0A disabled first, configured, and enabled last. */
  method SetUpTimer0A(sys: SysCtl, timer: Timer0, prescale: UChar, period: UShort)
    modifies sys`rcgcTimer, timer`ctl, timer`adcev, timer`cfg, timer`cc, timer`tamr, timer`tapr, timer`tailr, timer`imr
    ensures Timer0ASetUp(sys, timer, prescale, period)
  {
    DisableTimer0A(sys, timer);
    ConfigureTimer0A(timer, prescale, period);
    timer.ctl := SetBits(timer.ctl, TIMER_CTL_TAEN);
  }

  /** Steps 29-31: interrupt 17 at priority 2, enabled, and the user task
      linked. */
  method ArmSeq3Interrupt(nvic: Nvic, st: Seq3Task, task: TaskId)
    modifies nvic`pri4, nvic`en0, st`adcTask
    ensures nvic.pri4 == Pri4Write(old(nvic.pri4)) && nvic.en0 == EN0_INT17 && st.adcTask == task
  {
    nvic.pri4 := Pri4Write(nvic.pri4);
    nvic.en0 := EN0_INT17;
    st.adcTask := task;
  }

  /** Steps 5-31 for a valid channel: Timer0A, sequencer 3 on the timer
      trigger with its interrupt unmasked, and the interrupt armed. */
  method SetUpTimerTriggeredSeq3(sys: SysCtl, ports: Ports, timer: Timer0, adc: Adc0, nvic: Nvic, st: Seq3Task,
                                 ch: UChar, prescale: UChar, period: UShort, task: TaskId)
    modifies sys`rcgcTimer, timer`ctl, timer`adcev, timer`cfg, timer`cc, timer`tamr, timer`tapr, timer`tailr, timer`imr
    modifies sys`rcgcAdc, adc`cc, adc`sspri, adc`actss, adc`emux, adc`sac, adc`ctl, adc`ssop3, adc`sstsh3,
             adc`ssmux3, adc`ssemux3, adc`ssctl3, adc`im
    modifies nvic`pri4, nvic`en0, st`adcTask
    ensures Timer0ASetUp(sys, timer, prescale, period)
    ensures Seq3SetUp(sys, adc, 0x3210, EM3_TIMER, ch, true)
    ensures nvic.pri4 == Pri4Write(old(nvic.pri4)) && nvic.en0 == EN0_INT17 && st.adcTask == task
    ensures unchanged(sys`rcgcGpio) && unchanged(ports.All())
  {
    SetUpTimer0A(sys, timer, prescale, period);
    SetUpSeq3(sys, adc, 0x3210, EM3_TIMER, ch, true);
    ArmSeq3Interrupt(nvic, st, task);
  }

  /** `ADC0_InitTimer0ATriggerSeq3`: a channel above 19 returns from the
      first switch before any write; otherwise the channel's pin, Timer0A,
      sequencer 3 on the timer trigger with its interrupt unmasked, and the
      interrupt armed with `task`. */
  method InitTimer0ATriggerSeq3(sys: SysCtl, ports: Ports, timer: Timer0, adc: Adc0, nvic: Nvic, st: Seq3Task,
                                ch: UChar, prescale: UChar, period: UShort, task: TaskId)
    requires ports.Distinct()
    modifies sys`rcgcGpio, ports.All()`lock, ports.All()`cr, ports.All()`afsel, ports.All()`den, ports.All()`amsel
    modifies sys`rcgcTimer, timer`ctl, timer`adcev, timer`cfg, timer`cc, timer`tamr, timer`tapr, timer`tailr, timer`imr
    modifies sys`rcgcAdc, adc`cc, adc`sspri, adc`actss, adc`emux, adc`sac, adc`ctl, adc`ssop3, adc`sstsh3,
             adc`ssmux3, adc`ssemux3, adc`ssctl3, adc`im
    modifies nvic`pri4, nvic`en0, st`adcTask
    ensures ch >= CHANNELS ==> unchanged(sys, timer, adc, nvic, st) && unchanged(ports.All())
    ensures ch < CHANNELS ==> ChannelRouted(sys, ports, ch)
    ensures ch < CHANNELS ==> Timer0ASetUp(sys, timer, prescale, period)
    ensures ch < CHANNELS ==> Seq3SetUp(sys, adc, 0x3210, EM3_TIMER, ch, true)
    ensures ch < CHANNELS ==> nvic.pri4 == Pri4Write(old(nvic.pri4)) && nvic.en0 == EN0_INT17 && st.adcTask == task
  {
    var routed := Gpio2Adc(sys, ports, ch);
    if !routed {
      return;
    }
    assert ChannelRouted(sys, ports, ch);
    SetUpTimerTriggeredSeq3(sys, ports, timer, adc, nvic, st, ch, prescale, period, task);
  }

  /** `ADC0Seq3_Handler`: acknowledges the sequence-3 completion first, and
      then runs the linked task on the 12-bit result. */
  method Seq3Handler(st: Seq3Task, adc: Adc0)
    modifies adc`isc, st`steps
    ensures adc.isc == ISC_IN3
    ensures st.steps == old(st.steps) + [AcknowledgeIn3, RunTask(st.adcTask, adc.ssfifo3 & SSFIFO3_DATA_M)]
  {
    adc.isc := ISC_IN3;
    st.steps := st.steps + [AcknowledgeIn3];
    st.steps := st.steps + [RunTask(st.adcTask, adc.ssfifo3 & SSFIFO3_DATA_M)];
  }
}
