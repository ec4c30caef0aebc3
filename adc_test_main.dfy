/** ADCT0ATrigger_4C1294/ADCTestMain.c: the timer-triggered ADC sample on
    channel 0 sets the duty cycle of the PWM output M0PWM0 (PF0, LED4), and
    each sample toggles LED1 (PN1).

    `GPIO_PORTN1` is the bit-specific alias of port N's DATA register at
    offset 0x008: a read returns only bit 1 and a write changes only bit 1,
    so `GPIO_PORTN1 ^= 0x02` toggles bit 1 of `data` and `GPIO_PORTN1 = 0`
    clears it. */
module AdcTestMain {
  import opened Words
  import opened Registers
  import opened AdcChannels
  import opened AdcSeq3
  import opened AdcT0aTrigger

  const RCGCPWM_R0: Word := 0x1
  const RCGCGPIO_R5: Word := 0x20
  const RCGCGPIO_R12: Word := 0x1000
  const PWM_CC_PWMDIV_M: Word := 0x7
  const PWM_CC_PWMDIV_2: Word := 0x0
  const PWM_CC_USEPWM: Word := 0x100
  const PWM_0_GENA_ACTCMPAD_ONE: Word := 0xC0
  const PWM_0_GENA_ACTLOAD_ZERO: Word := 0x8
  const PWM_0_CTL_ENABLE: Word := 0x1
  const PWM_ENABLE_PWM0EN: Word := 0x1
  /** PF0 and PN1. */
  const PF0: Word := 0x01
  const PN1: Word := 0x02

  /** The PWM period `main` uses: 60000 PWM clocks, 1 kHz at 60 MHz. */
  const PERIOD: nat := 60000

  /** An `unsigned short` value. */
  type U16 = x: int | 0 <= x < 0x1_0000

  /** `(ADCvalue*60000)>>12` in `uint32_t` arithmetic, passed to the
      `unsigned short` parameter of `M0PWM0_Duty`. */
  function TaskDuty(adcValue: U32): U16
  {
    (Wrap(adcValue * 60000) / 0x1000) % 0x1_0000
  }

  lemma ProductBound(adcValue: nat)
    requires adcValue <= 4095
    ensures adcValue * 60000 <= 245_700_000
  {
  }

  /** For a 12-bit sample the product fits in 32 bits and the result fits in
      16, so the duty is exactly floor(ADCvalue * 60000 / 4096): at most
      59985, below the period. */
  lemma TaskDutyBelowPeriod(adcValue: U32)
    requires adcValue <= 4095
    ensures adcValue * 60000 < WORD_MODULUS
    ensures TaskDuty(adcValue) == adcValue * 60000 / 0x1000
    ensures TaskDuty(adcValue) <= 59985 < PERIOD
  {
    var p := adcValue * 60000;
    ProductBound(adcValue);
    assert Wrap(p) == p;
    assert p / 0x1000 <= 245_700_000 / 0x1000;
  }

  /** A larger sample never gives a smaller duty. */
  lemma TaskDutyMonotone(v: U32, w: U32)
    requires v <= w <= 4095
    ensures TaskDuty(v) <= TaskDuty(w)
  {
    TaskDutyBelowPeriod(v);
    TaskDutyBelowPeriod(w);
    assert v * 60000 <= w * 60000;
  }

  /** The documented range 2 <= duty <= period - 1 holds for every 12-bit
      sample except 0. */
  lemma TaskDutyDocumentedRange(adcValue: U32)
    requires adcValue <= 4095
    ensures 2 <= TaskDuty(adcValue) <= PERIOD - 1 <==> adcValue != 0
  {
    TaskDutyBelowPeriod(adcValue);
    if adcValue != 0 {
      assert adcValue * 60000 >= 60000;
    }
  }

  /** The sample 0 gives the duty 0, below the documented range, and
      `M0PWM0_Duty` then writes `0 - 1`, that is 0xFFFFFFFF, to CMPA: a
      compare value above any load value, which the counter never reaches. */
  lemma ZeroSampleLeavesDocumentedRange()
    ensures TaskDuty(0) == 0
    ensures CompareValue(TaskDuty(0) as UShort) == 0xFFFF_FFFF
  {
  }

  /** The result the Timer0A handler passes to the user task is a 12-bit value,
      so the duty it sets is below the period. */
  lemma HandlerSampleGivesDutyBelowPeriod(fifo: Word)
    ensures (fifo & SSFIFO3_DATA_M) as int <= 4095
    ensures TaskDuty((fifo & SSFIFO3_DATA_M) as int) < PERIOD
  {
    var v := (fifo & SSFIFO3_DATA_M) as int;
    assert v <= 4095 by {
      assert (fifo & SSFIFO3_DATA_M) <= 0xFFF;
    }
    TaskDutyBelowPeriod(v);
  }

  /** `duty - 1` (or `period - 1`) of an `unsigned short`, promoted to
      `int` and stored in a 32-bit register: one below the argument, and 0
      becomes 0xFFFFFFFF. */
  function CompareValue(duty: UShort): (r: Word)
    ensures duty == 0 <==> r == 0xFFFF_FFFF
    ensures duty != 0 ==> r < 0xFFFF && r + 1 == duty as Word
  {
    (duty as Word) - 1
  }

  /** `(PCTL & 0xFFFFFFF0) + 0x6`: PF0's port-control field selects
      M0PWM0, the other 28 bits are kept. */
  lemma Pf0PctlSelectsPwm(pctl: Word)
    ensures (MaskedWrite(pctl, 0xF, 0x6) & 0xF) == 0x6
    ensures (MaskedWrite(pctl, 0xF, 0x6) & 0xFFFF_FFF0) == (pctl & 0xFFFF_FFF0)
  {
    assert (0x6 as Word & !0xF) == 0;
    assert !(0xF as Word) == 0xFFFF_FFF0;
  }

  /** `((CC & ~PWMDIV_M) + PWMDIV_2) | USEPWM`: the PWM clock is the system
      clock divided by 2, and the other bits are kept. */
  lemma PwmClockDividedByTwo(cc: Word)
    ensures var r := SetBits(MaskedWrite(cc, PWM_CC_PWMDIV_M, PWM_CC_PWMDIV_2), PWM_CC_USEPWM);
      (r & PWM_CC_PWMDIV_M) == PWM_CC_PWMDIV_2 && (r & PWM_CC_USEPWM) == PWM_CC_USEPWM &&
      (r & !(PWM_CC_PWMDIV_M | PWM_CC_USEPWM)) == (cc & !(PWM_CC_PWMDIV_M | PWM_CC_USEPWM))
  {
    var m := MaskedWrite(cc, PWM_CC_PWMDIV_M, PWM_CC_PWMDIV_2);
    assert (m & !PWM_CC_PWMDIV_M) == (cc & !PWM_CC_PWMDIV_M);
  }

  predicate GeneratorDisabled(pwm: Pwm0)
    reads pwm
  {
    pwm.ctl0 == 0
  }

  /** Steps 1-4 of `M0PWM0_Init`: PWM0's and port F's clocks, PF0 as the
      digital alternate function M0PWM0.  The waits for the ready bits are
      not modelled. */
  method RoutePf0ToPwm(sys: SysCtl, pf: GpioPort)
    modifies sys`rcgcPwm, sys`rcgcGpio, pf`afsel, pf`den, pf`pctl, pf`amsel
    ensures sys.rcgcPwm == SetBits(old(sys.rcgcPwm), RCGCPWM_R0)
    ensures sys.rcgcGpio == SetBits(old(sys.rcgcGpio), RCGCGPIO_R5)
    ensures pf.afsel == SetBits(old(pf.afsel), PF0) && pf.den == SetBits(old(pf.den), PF0)
    ensures pf.pctl == MaskedWrite(old(pf.pctl), 0xF, 0x6)
    ensures pf.amsel == ClearBits(old(pf.amsel), PF0)
  {
    sys.rcgcPwm := SetBits(sys.rcgcPwm, RCGCPWM_R0);
    sys.rcgcGpio := SetBits(sys.rcgcGpio, RCGCGPIO_R5);
    pf.afsel := SetBits(pf.afsel, PF0);
    pf.den := SetBits(pf.den, PF0);
    pf.pctl := MaskedWrite(pf.pctl, 0xF, 0x6);
    pf.amsel := ClearBits(pf.amsel, PF0);
  }

  /** Steps 7-8 (and `M0PWM0_Duty`'s write) change only the compare value
      of the generator. */
  method M0Pwm0Duty(pwm: Pwm0, duty: UShort)
    modifies pwm`cmpa0
    ensures pwm.cmpa0 == CompareValue(duty)
  {
    pwm.cmpa0 := CompareValue(duty);
  }

  /** Steps 5-10 of `M0PWM0_Init`: the generator is stopped (CTL = 0) while
      the divider, the output actions, LOAD and CMPA are written, and
      started last. */
  method StartGenerator0(pwm: Pwm0, period: UShort, duty: UShort)
    modifies pwm`cc, pwm`ctl0, pwm`gena0, pwm`load0, pwm`cmpa0, pwm`enable
    ensures pwm.cc == SetBits(MaskedWrite(old(pwm.cc), PWM_CC_PWMDIV_M, PWM_CC_PWMDIV_2), PWM_CC_USEPWM)
    ensures pwm.gena0 == PWM_0_GENA_ACTCMPAD_ONE | PWM_0_GENA_ACTLOAD_ZERO
    ensures pwm.load0 == CompareValue(period) && pwm.cmpa0 == CompareValue(duty)
    ensures pwm.ctl0 == PWM_0_CTL_ENABLE
    ensures pwm.enable == SetBits(old(pwm.enable), PWM_ENABLE_PWM0EN)
  {
    pwm.cc := SetBits(MaskedWrite(pwm.cc, PWM_CC_PWMDIV_M, PWM_CC_PWMDIV_2), PWM_CC_USEPWM);
    pwm.ctl0 := 0;
    pwm.gena0 := PWM_0_GENA_ACTCMPAD_ONE | PWM_0_GENA_ACTLOAD_ZERO;
    LoadGenerator0(pwm, period);
    M0Pwm0Duty(pwm, duty);
    pwm.ctl0 := SetBits(pwm.ctl0, PWM_0_CTL_ENABLE);
    pwm.enable := SetBits(pwm.enable, PWM_ENABLE_PWM0EN);
  }

  /** Step 7, only while the generator is stopped. */
  method LoadGenerator0(pwm: Pwm0, period: UShort)
    requires GeneratorDisabled(pwm)
    modifies pwm`load0
    ensures pwm.load0 == CompareValue(period)
  {
    pwm.load0 := CompareValue(period);
  }

  /** `M0PWM0_Init(period, duty)`. */
  method M0Pwm0Init(sys: SysCtl, pf: GpioPort, pwm: Pwm0, period: UShort, duty: UShort)
    modifies sys`rcgcPwm, sys`rcgcGpio, pf`afsel, pf`den, pf`pctl, pf`amsel
    modifies pwm`cc, pwm`ctl0, pwm`gena0, pwm`load0, pwm`cmpa0, pwm`enable
    ensures sys.rcgcGpio == SetBits(old(sys.rcgcGpio), RCGCGPIO_R5)
    ensures PwmOnPf0(sys, pf, pwm, period, duty)
  {
    RoutePf0ToPwm(sys, pf);
    StartGenerator0(pwm, period, duty);
  }

  /** `UserTask(ADCvalue)`: toggles LED1 and sets the duty from the sample;
      nothing else changes. */
  method UserTask(pn: GpioPort, pwm: Pwm0, adcValue: U32)
    modifies pn`data, pwm`cmpa0
    ensures pn.data == ToggleBits(old(pn.data), PN1)
    ensures pwm.cmpa0 == CompareValue(TaskDuty(adcValue) as UShort)
  {
    pn.data := ToggleBits(pn.data, PN1);
    M0Pwm0Duty(pwm, TaskDuty(adcValue) as UShort);
  }

  /** PN1 as a digital output, off. */
  method InitLed1(pn: GpioPort)
    modifies pn`dir, pn`afsel, pn`den, pn`pctl, pn`amsel, pn`data
    ensures Led1Off(pn)
  {
    pn.dir := SetBits(pn.dir, PN1);
    pn.afsel := ClearBits(pn.afsel, PN1);
    pn.den := SetBits(pn.den, PN1);
    pn.pctl := MaskedWrite(pn.pctl, 0xF0, 0x0);
    pn.amsel := ClearBits(pn.amsel, PN1);
    pn.data := ClearBits(pn.data, PN1);
  }

  /** The state `ADC0_InitTimer0ATriggerSeq3(0, 199, 59999, &UserTask)`
      leaves, apart from the GPIO clocks: PE3 routed to the ADC, Timer0A
      triggering every 200 * 60000 clocks, sequencer 3 sampling channel 0
      on that trigger with its interrupt armed, and `UserTask` linked. */
  twostate predicate Channel0OnTimer0A(pe: GpioPort, sys: SysCtl, timer: Timer0, adc: Adc0, nvic: Nvic, st: Seq3Task)
    reads pe, sys`rcgcTimer, sys`rcgcAdc, timer, adc, nvic, st
  {
    PortRouted(pe, RouteOf(0), false) &&
    Timer0ASetUp(sys, timer, 199, 59999) && Seq3SetUp(sys, adc, 0x3210, EM3_TIMER, 0, true) &&
    nvic.pri4 == Pri4Write(old(nvic.pri4)) && nvic.en0 == EN0_INT17 && st.adcTask == USER_TASK
  }

  /** The state `M0PWM0_Init(period, duty)` leaves. */
  twostate predicate PwmOnPf0(sys: SysCtl, pf: GpioPort, pwm: Pwm0, period: UShort, duty: UShort)
    reads sys`rcgcPwm, sys`rcgcGpio, pf, pwm
  {
    sys.rcgcPwm == SetBits(old(sys.rcgcPwm), RCGCPWM_R0) &&
    pf.afsel == SetBits(old(pf.afsel), PF0) && pf.den == SetBits(old(pf.den), PF0) &&
    pf.pctl == MaskedWrite(old(pf.pctl), 0xF, 0x6) && pf.amsel == ClearBits(old(pf.amsel), PF0) &&
    pf.dir == old(pf.dir) && pf.data == old(pf.data) && pf.lock == old(pf.lock) && pf.cr == old(pf.cr) &&
    pwm.cc == SetBits(MaskedWrite(old(pwm.cc), PWM_CC_PWMDIV_M, PWM_CC_PWMDIV_2), PWM_CC_USEPWM) &&
    pwm.gena0 == PWM_0_GENA_ACTCMPAD_ONE | PWM_0_GENA_ACTLOAD_ZERO &&
    pwm.load0 == CompareValue(period) && pwm.cmpa0 == CompareValue(duty) &&
    pwm.ctl0 == PWM_0_CTL_ENABLE && pwm.enable == SetBits(old(pwm.enable), PWM_ENABLE_PWM0EN)
  }

  /** The state `InitLed1` leaves on port N. */
  twostate predicate Led1Off(pn: GpioPort)
    reads pn
  {
    pn.dir == SetBits(old(pn.dir), PN1) && pn.den == SetBits(old(pn.den), PN1) &&
    pn.afsel == ClearBits(old(pn.afsel), PN1) && pn.amsel == ClearBits(old(pn.amsel), PN1) &&
    pn.pctl == MaskedWrite(old(pn.pctl), 0xF0, 0x0) && pn.data == ClearBits(old(pn.data), PN1) &&
    pn.lock == old(pn.lock) && pn.cr == old(pn.cr)
  }

  /** The `TaskId` that `&UserTask` designates. */
  const USER_TASK: TaskId := 0

  /** Lines 87-91 of `main`: port N's clock, then channel 0 triggered by
      timer 0A with `UserTask` linked. */
  method SetUpSampling(sys: SysCtl, ports: Ports, timer: Timer0, adc: Adc0, nvic: Nvic, st: Seq3Task)
    requires ports.Distinct()
    modifies sys`rcgcGpio, ports.All()`lock, ports.All()`cr, ports.All()`afsel, ports.All()`den, ports.All()`amsel
    modifies sys`rcgcTimer, timer`ctl, timer`adcev, timer`cfg, timer`cc, timer`tamr, timer`tapr, timer`tailr, timer`imr
    modifies sys`rcgcAdc, adc`cc, adc`sspri, adc`actss, adc`emux, adc`sac, adc`ctl, adc`ssop3, adc`sstsh3,
             adc`ssmux3, adc`ssemux3, adc`ssctl3, adc`im
    modifies nvic`pri4, nvic`en0, st`adcTask
    ensures sys.rcgcGpio == SetBits(SetBits(old(sys.rcgcGpio), RCGCGPIO_R12), ClockBit(PortE))
    ensures Channel0OnTimer0A(ports.e, sys, timer, adc, nvic, st)
    ensures OtherPortsUnchanged(ports, PortE)
  {
    sys.rcgcGpio := SetBits(sys.rcgcGpio, RCGCGPIO_R12);
    InitTimer0ATriggerSeq3(sys, ports, timer, adc, nvic, st, 0, 199, 59999, USER_TASK);
    assert RouteOf(0).port == PortE;
  }

  /** Lines 92-99 of `main`: the PWM at period 60000 and duty 9000, then
      LED1 as an output, off. */
  method SetUpOutputs(sys: SysCtl, pf: GpioPort, pn: GpioPort, pwm: Pwm0)
    requires pf != pn
    modifies sys`rcgcPwm, sys`rcgcGpio, pf`afsel, pf`den, pf`pctl, pf`amsel
    modifies pn`dir, pn`afsel, pn`den, pn`pctl, pn`amsel, pn`data
    modifies pwm`cc, pwm`ctl0, pwm`gena0, pwm`load0, pwm`cmpa0, pwm`enable
    ensures sys.rcgcGpio == SetBits(old(sys.rcgcGpio), RCGCGPIO_R5)
    ensures PwmOnPf0(sys, pf, pwm, 60000, 9000)
    ensures Led1Off(pn)
  {
    M0Pwm0Init(sys, pf, pwm, 60000, 9000);
    InitLed1(pn);
  }

  /** `main`'s arguments give the documented rates: 200 * 60000 bus clocks
      between samples and a PWM period of 60000 at a 60 MHz PWM clock, with
      the initial duty 9000 its 15%. */
  lemma SetUpRates()
    ensures SampleTicks(199, 59999) == 120_000_000 / 10
    ensures 60_000_000 / PERIOD == 1000 && 9000 * 100 / PERIOD == 15
  {
  }
}
