/** switch_counter_interrupt_debounce/switch_counter_interrupt.c: the
    switch counter with both edges armed, so that the handler sees presses
    and releases.  It masks its own interrupt around a delay, counts a
    switch only when its pin reads low (pressed) and drives one LED per
    switch.  Timer 0A toggles both LEDs periodically, and `main` arms only
    the timer: the switch interrupt set-up is never called. */
module SwitchCounterDebounce {
  import opened Words
  import opened Registers
  import opened SwitchCounter
  import opened AdcT0aTrigger

  const RCGCGPIO_R12: Word := 0x1000
  /** The LEDs: D1 on PN1 follows SW1, D2 on PN0 follows SW2. */
  const LED_D1: Word := 0x02
  const LED_D2: Word := 0x01
  const LEDS: Word := 0x03
  /** Timer 0A is NVIC interrupt 19: bit 19 of EN0, bits 31:29 of PRI4. */
  const EN0_INT19: Word := 0x0008_0000
  const PRI4_INT19_M: Word := 0xE000_0000
  /** The value 2 in interrupt 51's priority field of PRI12. */
  const PRI12_INT51_TWO: Word := 0x4000_0000
  const TIMER_ICR_TATOCINT: Word := 0x1
  /** `main`'s reload: half a second of the 16 MHz precision oscillator. */
  const PERIOD: Word := 8_000_000

  /** `PortFunctionInit`: the clocks of ports N and J (assigned), the
      switches as inputs, PN0 and PN1 as digital outputs. */
  method PortFunctionInit(sys: SysCtl, pj: GpioPort, pn: GpioPort)
    requires pj != pn
    modifies sys`rcgcGpio, pj`dir, pj`den, pj`pur, pn`dir, pn`den
    ensures sys.rcgcGpio == RCGCGPIO_R12 | RCGCGPIO_R8
    ensures pj.dir == ClearBits(old(pj.dir), SW_PINS) && pj.den == SetBits(old(pj.den), SW_PINS)
    ensures pj.pur == SetBits(old(pj.pur), SW_PINS) && SwitchesAreInputs(pj)
    ensures pn.dir == SetBits(old(pn.dir), LEDS) && pn.den == SetBits(old(pn.den), LEDS)
  {
    sys.rcgcGpio := RCGCGPIO_R12 | RCGCGPIO_R8;
    SwitchPinsAsInputs(pj);
    pn.dir := SetBits(pn.dir, LEDS);
    pn.den := SetBits(pn.den, LEDS);
  }

  /** The switch flags interrupt on both edges. */
  predicate ArmedOnBothEdges(pj: GpioPort)
    reads pj
  {
    (pj.im & SW_PINS) == SW_PINS && (pj.sense & SW_PINS) == 0 && (pj.ibe & SW_PINS) == SW_PINS
  }

  /** `Button_Interrupt_Init` as written: the priority write clears only
      bit 30 of PRI12; IEV is left alone, as both edges trigger. */
  method ButtonInterruptInit(nvic: Nvic, pj: GpioPort)
    modifies nvic`en1, nvic`pri12, pj`im, pj`sense, pj`ibe
    ensures nvic.en1 == SetBits(old(nvic.en1), EN1_INT51) && nvic.pri12 == ClearBits(old(nvic.pri12), PRI12_INT51_TWO)
    ensures pj.im == SetBits(old(pj.im), SW_PINS) && pj.sense == ClearBits(old(pj.sense), SW_PINS)
    ensures pj.ibe == SetBits(old(pj.ibe), SW_PINS)
    ensures ArmedOnBothEdges(pj)
  {
    nvic.en1 := SetBits(nvic.en1, EN1_INT51);
    nvic.pri12 := ClearBits(nvic.pri12, PRI12_INT51_TWO);
    pj.im := SetBits(pj.im, SW_PINS);
    pj.sense := ClearBits(pj.sense, SW_PINS);
    pj.ibe := SetBits(pj.ibe, SW_PINS);
  }

  /** Whatever PRI12 held, the written priority write never leaves
      interrupt 51 at priority 2: it clears the very bit that holds 2, and
      from the reset value the priority stays 0. */
  lemma ButtonPriorityNeverTwo(pri12: Word)
    ensures ClearBits(pri12, PRI12_INT51_TWO) >> 29 != 2
    ensures ClearBits(0, PRI12_INT51_TWO) >> 29 == 0
  {
  }

  /** The priority write the comment describes: priority 2 in interrupt
      51's field. */
  function ButtonPriorityTwo(pri12: Word): Word
  {
    MaskedWrite(pri12, PRI12_INT51_M, PRI12_INT51_TWO)
  }

  /** It sets interrupt 51's priority to 2 whatever the register held, and
      keeps the other three interrupts' priorities. */
  lemma ButtonPriorityTwoIsTwo(pri12: Word)
    ensures ButtonPriorityTwo(pri12) >> 29 == 2
    ensures (ButtonPriorityTwo(pri12) & 0x1FFF_FFFF) == (pri12 & 0x1FFF_FFFF)
  {
    assert (PRI12_INT51_TWO & !PRI12_INT51_M) == 0;
  }

  /** 1 when switch `sw` is flagged and reads low (pressed through the
      pull-up). */
  function Press(ris: Word, data: Word, sw: Word): nat
  {
    if (ris & sw) != 0 && (data & sw) == 0 then 1 else 0
  }

  /** The switches pressed in this call. */
  function Presses(ris: Word, data: Word): nat
  {
    Press(ris, data, SW1) + Press(ris, data, SW2)
  }

  /** Presses are the flagged switches whose pins read 0, the population
      count of `RIS & ~DATA & 0x3`.  A release (pin high) never counts, so
      with both switches up nothing is counted, and every flagged switch
      counts exactly when all flagged pins are low. */
  lemma PressesOnlyCount(ris: Word, data: Word)
    ensures Presses(ris, data) == LowBitCount(ris & !data, 2)
    ensures Presses(ris, data) <= FlaggedPins(ris)
    ensures (data & SW_PINS) == SW_PINS ==> Presses(ris, data) == 0
    ensures Presses(ris, data) == FlaggedPins(ris) <==> (ris & data & SW_PINS) == 0
  {
    LowTwoBits(ris & !data);
  }

  /** The LED write for switch `sw`: on when pressed, off when released,
      untouched when not flagged. */
  function LedWrite(d: Word, ris: Word, data: Word, sw: Word, led: Word): Word
  {
    if (ris & sw) == 0 then d else if (data & sw) == 0 then SetBits(d, led) else ClearBits(d, led)
  }

  /** Port N after both switch branches. */
  function LedsAfter(d: Word, ris: Word, data: Word): Word
  {
    LedWrite(LedWrite(d, ris, data, SW1, LED_D1), ris, data, SW2, LED_D2)
  }

  /** After a handler call each LED shows its switch if the switch was
      flagged (on exactly when pressed) and is untouched otherwise; the
      other bits of port N are kept. */
  lemma LedsFollowSwitches(d: Word, ris: Word, data: Word)
    ensures (ris & SW1) != 0 ==> ((LedsAfter(d, ris, data) & LED_D1) != 0 <==> (data & SW1) == 0)
    ensures (ris & SW1) == 0 ==> (LedsAfter(d, ris, data) & LED_D1) == (d & LED_D1)
    ensures (ris & SW2) != 0 ==> ((LedsAfter(d, ris, data) & LED_D2) != 0 <==> (data & SW2) == 0)
    ensures (ris & SW2) == 0 ==> (LedsAfter(d, ris, data) & LED_D2) == (d & LED_D2)
    ensures (LedsAfter(d, ris, data) & !LEDS) == (d & !LEDS)
  {
  }

  /** The ICR write for switch `sw`: its bit, when flagged. */
  function Acknowledge(icr: Word, ris: Word, sw: Word): Word
  {
    if (ris & sw) != 0 then SetBits(icr, sw) else icr
  }

  /** The two branches together acknowledge exactly the flagged switches. */
  lemma AcknowledgeBoth(icr: Word, ris: Word)
    ensures Acknowledge(Acknowledge(icr, ris, SW1), ris, SW2) == SetBits(icr, ris & SW_PINS)
  {
    if (ris & SW1) != 0 && (ris & SW2) != 0 {
      assert ris & SW_PINS == SW_PINS;
    } else if (ris & SW1) != 0 {
      assert ris & SW_PINS == SW1;
    } else if (ris & SW2) != 0 {
      assert ris & SW_PINS == SW2;
    } else {
      assert ris & SW_PINS == 0;
    }
  }

  /** Proof hint for `ServiceSwitch`: the three per-switch definitions
      unfolded for one branch. */
  lemma SwitchBranch(d: Word, icr: Word, ris: Word, data: Word, sw: Word, led: Word)
    ensures Acknowledge(icr, ris, sw) == if (ris & sw) != 0 then SetBits(icr, sw) else icr
    ensures Press(ris, data, sw) == if (ris & sw) != 0 && (data & sw) == 0 then 1 else 0
    ensures LedWrite(d, ris, data, sw, led) ==
      if (ris & sw) == 0 then d else if (data & sw) == 0 then SetBits(d, led) else ClearBits(d, led)
  {
  }

  /** One `if(GPIO_PORTJ_AHB_RIS_R & sw)` branch of the handler. */
  method ServiceSwitch(g: Globals, pj: GpioPort, pn: GpioPort, sw: Word, led: Word)
    requires pj != pn
    modifies g`count, pj`icr, pn`data
    ensures pj.icr == Acknowledge(old(pj.icr), pj.ris, sw)
    ensures g.count == Wrap(old(g.count) + Press(pj.ris, pj.data, sw))
    ensures pn.data == LedWrite(old(pn.data), pj.ris, pj.data, sw, led)
  {
    var ris, data := pj.ris, pj.data;
    SwitchBranch(pn.data, pj.icr, ris, data, sw, led);
    if (ris & sw) != 0 {
      pj.icr := SetBits(pj.icr, sw);
      if (data & sw) == 0 {
        g.count := Wrap(g.count + 1);
        pn.data := SetBits(pn.data, led);
      } else {
        pn.data := ClearBits(pn.data, led);
      }
    }
  }

  /** `GPIOPortJ_Handler`.  EN1's bit is cleared and set again around a
      delay (not modelled), so it is set on exit.  Each flagged switch is
      acknowledged; a pressed one is counted and turns its LED on, a
      released one turns its LED off (`LedsFollowSwitches`). */
  method GpioPortJHandler(g: Globals, nvic: Nvic, pj: GpioPort, pn: GpioPort)
    requires pj != pn
    modifies g`count, nvic`en1, pj`icr, pn`data
    ensures nvic.en1 == SetBits(old(nvic.en1), EN1_INT51)
    ensures pj.icr == SetBits(old(pj.icr), pj.ris & SW_PINS)
    ensures g.count == Wrap(old(g.count) + Presses(pj.ris, pj.data))
    ensures pn.data == LedsAfter(old(pn.data), pj.ris, pj.data)
  {
    nvic.en1 := ClearBits(nvic.en1, EN1_INT51);
    nvic.en1 := SetBits(nvic.en1, EN1_INT51);
    ServiceSwitch(g, pj, pn, SW1, LED_D1);
    ServiceSwitch(g, pj, pn, SW2, LED_D2);
    WrapAdd(old(g.count) + Press(pj.ris, pj.data, SW1), Press(pj.ris, pj.data, SW2));
    AcknowledgeBoth(old(pj.icr), pj.ris);
  }

  /** `Timer0A_Init` after the timer is disabled: 32-bit periodic mode,
      reload `period - 1`, interrupt 19 at priority 0, timeout armed. */
  method ConfigureTimer0A(timer: Timer0, nvic: Nvic, period: Word)
    requires Timer0ADisabled(timer)
    modifies timer`cfg, timer`tamr, timer`tailr, timer`imr, nvic`pri4, nvic`en0
    ensures timer.cfg == 0 && timer.tamr == TIMER_TAMR_PERIOD && timer.tailr == period - 1
    ensures nvic.pri4 == ClearBits(old(nvic.pri4), PRI4_INT19_M) && nvic.en0 == SetBits(old(nvic.en0), EN0_INT19)
    ensures timer.imr == SetBits(old(timer.imr), TIMER_IMR_TATOIM)
  {
    timer.cfg := 0;
    timer.tamr := TIMER_TAMR_PERIOD;
    timer.tailr := period - 1;
    nvic.pri4 := ClearBits(nvic.pri4, PRI4_INT19_M);
    nvic.en0 := SetBits(nvic.en0, EN0_INT19);
    timer.imr := SetBits(timer.imr, TIMER_IMR_TATOIM);
  }

  /** `Timer0A_Init(period)`. */
  method Timer0AInit(sys: SysCtl, timer: Timer0, nvic: Nvic, period: Word)
    modifies sys`rcgcTimer, timer`ctl, timer`cfg, timer`tamr, timer`tailr, timer`imr, nvic`pri4, nvic`en0
    ensures sys.rcgcTimer == SetBits(old(sys.rcgcTimer), RCGCTIMER_R0)
    ensures timer.ctl == SetBits(ClearBits(old(timer.ctl), TIMER_CTL_TAEN), TIMER_CTL_TAEN)
    ensures timer.cfg == 0 && timer.tamr == TIMER_TAMR_PERIOD && timer.tailr == period - 1
    ensures nvic.pri4 == ClearBits(old(nvic.pri4), PRI4_INT19_M) && nvic.en0 == SetBits(old(nvic.en0), EN0_INT19)
    ensures timer.imr == SetBits(old(timer.imr), TIMER_IMR_TATOIM)
  {
    DisableTimer0A(sys, timer);
    ConfigureTimer0A(timer, nvic, period);
    timer.ctl := SetBits(timer.ctl, TIMER_CTL_TAEN);
  }

  /** A periodic down-counter reloaded with `period - 1` times out every
      `period` cycles; a period of 0 wraps to the longest reload.  The bits
      written are timer 0A's: EN0 bit 19 and PRI4's fourth field. */
  lemma TimeoutEveryPeriod(period: Word, pri4: Word)
    ensures period != 0 ==> period - 1 < period
    ensures period == 0 ==> period - 1 == 0xFFFF_FFFF
    ensures EN0_INT19 == 1 << 19 && PRI4_INT19_M == 7 << (8 * (19 - 4 * 4) + 5)
    ensures ClearBits(pri4, PRI4_INT19_M) >> 29 == 0
  {
  }

  /** `Timer0A_Handler`: acknowledge the timeout and toggle both LEDs. */
  method Timer0AHandler(timer: Timer0, pn: GpioPort)
    modifies timer`icr, pn`data
    ensures timer.icr == SetBits(old(timer.icr), TIMER_ICR_TATOCINT)
    ensures pn.data == ToggleBits(old(pn.data), LEDS)
  {
    timer.icr := SetBits(timer.icr, TIMER_ICR_TATOCINT);
    pn.data := ToggleBits(pn.data, LEDS);
  }

  /** Every timeout inverts both LEDs and two timeouts restore them, so
      from `main`'s D1-on, D2-off state the LEDs alternate. */
  lemma LedsAlternate(data: Word)
    ensures (ToggleBits(data, LEDS) & LEDS) == (!data & LEDS)
    ensures ToggleBits(ToggleBits(data, LEDS), LEDS) == data
    ensures (data & LEDS) == LED_D1 ==> (ToggleBits(data, LEDS) & LEDS) == LED_D2
    ensures (data & LEDS) == LED_D2 ==> (ToggleBits(data, LEDS) & LEDS) == LED_D1
  {
  }

  /** `main`: the ports, LED D1 on, timer 0A with the half-second period,
      then `cpsie i`.  The switch interrupt is left as it was: neither
      EN1, PRI12 nor the port J interrupt registers are written. */
  method Start(g: Globals, sys: SysCtl, timer: Timer0, nvic: Nvic, pj: GpioPort, pn: GpioPort)
    requires pj != pn
    modifies g`calls, sys`rcgcGpio, sys`rcgcTimer, pj`dir, pj`den, pj`pur, pn`dir, pn`den, pn`data
    modifies timer`ctl, timer`cfg, timer`tamr, timer`tailr, timer`imr, nvic`pri4, nvic`en0
    ensures sys.rcgcGpio == RCGCGPIO_R12 | RCGCGPIO_R8 && SwitchesAreInputs(pj)
    ensures pj.dir == ClearBits(old(pj.dir), SW_PINS) && pj.den == SetBits(old(pj.den), SW_PINS)
    ensures pj.pur == SetBits(old(pj.pur), SW_PINS)
    ensures pn.dir == SetBits(old(pn.dir), LEDS) && pn.den == SetBits(old(pn.den), LEDS)
    ensures pn.data == SetBits(old(pn.data), LED_D1)
    ensures sys.rcgcTimer == SetBits(old(sys.rcgcTimer), RCGCTIMER_R0)
    ensures timer.tailr == 7_999_999 && timer.cfg == 0 && timer.tamr == TIMER_TAMR_PERIOD
    ensures timer.ctl == SetBits(ClearBits(old(timer.ctl), TIMER_CTL_TAEN), TIMER_CTL_TAEN)
    ensures timer.imr == SetBits(old(timer.imr), TIMER_IMR_TATOIM)
    ensures nvic.pri4 == ClearBits(old(nvic.pri4), PRI4_INT19_M) && nvic.en0 == SetBits(old(nvic.en0), EN0_INT19)
    ensures nvic.en1 == old(nvic.en1) && nvic.pri12 == old(nvic.pri12) && pj.im == old(pj.im)
    ensures g.calls == old(g.calls) + [Cpsie]
  {
    PortFunctionInit(sys, pj, pn);
    pn.data := SetBits(pn.data, LED_D1);
    Timer0AInit(sys, timer, nvic, PERIOD);
    g.calls := g.calls + [Cpsie];
  }
}
