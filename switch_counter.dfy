/** switch_counter_interrupt.c: the two user switches SW1 (PJ0) and SW2
    (PJ1) raise the port J interrupt on a falling edge, and the handler
    adds one to `count` for each switch whose raw interrupt flag it finds
    set.  `count` is an `unsigned long`, 32 bits on the Cortex-M4.  The
    counting rule here is shared with the TivaWare variant. */
module SwitchCounter {
  import opened Words
  import opened Registers

  const SW1: Word := 0x01
  const SW2: Word := 0x02
  const SW_PINS: Word := 0x03
  const RCGCGPIO_R8: Word := 0x100
  /** NVIC interrupt 51 (GPIO port J) is bit 19 of EN1 and the top three
      bits of PRI12. */
  const EN1_INT51: Word := 0x0008_0000
  const PRI12_INT51_M: Word := 0xE000_0000

  /** The program's global `count`, and the calls it makes. */
  class Globals {
    var count: U32
    ghost var calls: seq<Call>
  }

  /** 1 when `pin`'s bit of `w` is set. */
  function Flag(w: Word, pin: Word): nat
  {
    if (w & pin) != 0 then 1 else 0
  }

  /** What one handler call adds to the count: one per switch whose raw
      interrupt flag is set, checked by two separate `if`s. */
  function FlaggedPins(ris: Word): nat
  {
    Flag(ris, SW1) + Flag(ris, SW2)
  }

  /** The number of set bits among the `n` low bits of `w`. */
  function LowBitCount(w: Word, n: nat): nat
    requires n <= 32
  {
    if n == 0 then 0 else LowBitCount(w, n - 1) + (if (w >> (n - 1)) & 1 == 1 then 1 else 0)
  }

  /** A call counts the population count of `RIS & 0x3`: only the two switch
      flags matter, no flag set means no count, both set means two. */
  lemma FlaggedPinsIsPopCount(ris: Word)
    ensures FlaggedPins(ris) == LowBitCount(ris, 2) == LowBitCount(ris & SW_PINS, 2)
    ensures FlaggedPins(ris) == 0 <==> (ris & SW_PINS) == 0
    ensures FlaggedPins(ris) == 2 <==> (ris & SW_PINS) == SW_PINS
  {
    LowTwoBits(ris);
    LowTwoBits(ris & SW_PINS);
  }

  lemma LowTwoBits(w: Word)
    ensures LowBitCount(w, 2) == Flag(w, SW1) + Flag(w, SW2)
  {
    assert LowBitCount(w, 0) == 0;
    assert w >> 0 == w;
    assert LowBitCount(w, 1) == Flag(w, SW1);
    assert LowBitCount(w, 2) == LowBitCount(w, 1) + (if (w >> 1) & 1 == 1 then 1 else 0);
  }

  /** The switches are inputs with digital function and pull-ups. */
  predicate SwitchesAreInputs(pj: GpioPort)
    reads pj
  {
    (pj.dir & SW_PINS) == 0 && (pj.den & SW_PINS) == SW_PINS && (pj.pur & SW_PINS) == SW_PINS
  }

  /** The switch flags interrupt the processor on falling edges only. */
  predicate ArmedOnFallingEdges(pj: GpioPort)
    reads pj
  {
    (pj.im & SW_PINS) == SW_PINS && (pj.sense & SW_PINS) == 0 && (pj.ibe & SW_PINS) == 0 && (pj.iev & SW_PINS) == 0
  }

  /** The pin writes of `PortFunctionInit`, shared by the variants that
      write the registers directly: PJ0 and PJ1 as inputs, digital, with
      pull-ups; no other bit changes. */
  method SwitchPinsAsInputs(pj: GpioPort)
    modifies pj`dir, pj`den, pj`pur
    ensures pj.dir == ClearBits(old(pj.dir), SW_PINS) && pj.den == SetBits(old(pj.den), SW_PINS)
    ensures pj.pur == SetBits(old(pj.pur), SW_PINS)
    ensures SwitchesAreInputs(pj)
  {
    pj.dir := ClearBits(pj.dir, SW_PINS);
    pj.den := SetBits(pj.den, SW_PINS);
    pj.pur := SetBits(pj.pur, SW_PINS);
  }

  /** `PortFunctionInit`: port J's clock (the whole RCGCGPIO register is
      assigned), then the switch pins. */
  method PortFunctionInit(sys: SysCtl, pj: GpioPort)
    modifies sys`rcgcGpio, pj`dir, pj`den, pj`pur
    ensures sys.rcgcGpio == RCGCGPIO_R8
    ensures pj.dir == ClearBits(old(pj.dir), SW_PINS) && pj.den == SetBits(old(pj.den), SW_PINS)
    ensures pj.pur == SetBits(old(pj.pur), SW_PINS)
    ensures SwitchesAreInputs(pj)
  {
    sys.rcgcGpio := RCGCGPIO_R8;
    SwitchPinsAsInputs(pj);
  }

  /** The port J interrupt writes of `Interrupt_Init`, shared with the
      TivaWare variant: arm PJ0 and PJ1, edge-sensitive, one edge, falling. */
  method ArmFallingEdges(pj: GpioPort)
    modifies pj`im, pj`sense, pj`ibe, pj`iev
    ensures pj.im == SetBits(old(pj.im), SW_PINS) && pj.sense == ClearBits(old(pj.sense), SW_PINS)
    ensures pj.ibe == ClearBits(old(pj.ibe), SW_PINS) && pj.iev == ClearBits(old(pj.iev), SW_PINS)
    ensures ArmedOnFallingEdges(pj)
  {
    pj.im := SetBits(pj.im, SW_PINS);
    pj.sense := ClearBits(pj.sense, SW_PINS);
    pj.ibe := ClearBits(pj.ibe, SW_PINS);
    pj.iev := ClearBits(pj.iev, SW_PINS);
  }

  /** `Interrupt_Init`: interrupt 51 enabled at priority 0, the switches
      armed, then `IntGlobalEnable` (`cpsie i`). */
  method InterruptInit(g: Globals, nvic: Nvic, pj: GpioPort)
    modifies g`calls, nvic`en1, nvic`pri12, pj`im, pj`sense, pj`ibe, pj`iev
    ensures nvic.en1 == SetBits(old(nvic.en1), EN1_INT51) && nvic.pri12 == ClearBits(old(nvic.pri12), PRI12_INT51_M)
    ensures pj.im == SetBits(old(pj.im), SW_PINS) && pj.sense == ClearBits(old(pj.sense), SW_PINS)
    ensures pj.ibe == ClearBits(old(pj.ibe), SW_PINS) && pj.iev == ClearBits(old(pj.iev), SW_PINS)
    ensures ArmedOnFallingEdges(pj)
    ensures g.calls == old(g.calls) + [Cpsie]
  {
    nvic.en1 := SetBits(nvic.en1, EN1_INT51);
    nvic.pri12 := ClearBits(nvic.pri12, PRI12_INT51_M);
    ArmFallingEdges(pj);
    g.calls := g.calls + [Cpsie];
  }

  /** EN1's bit and PRI12's field are interrupt 51's: bit 51 - 32 of EN1,
      and the priority field of the fourth interrupt of PRI12 (bits 31:29),
      which the write sets to 0 leaving the other interrupts' priorities. */
  lemma Interrupt51Bits(pri12: Word)
    ensures EN1_INT51 == 1 << (51 - 32)
    ensures PRI12_INT51_M == 7 << (8 * (51 - 4 * 12) + 5)
    ensures ClearBits(pri12, PRI12_INT51_M) >> 29 == 0
    ensures (ClearBits(pri12, PRI12_INT51_M) & 0x1FFF_FFFF) == (pri12 & 0x1FFF_FFFF)
  {
  }

  /** `GPIOPortJ_Handler`: each flagged switch is acknowledged in ICR and
      counted.  The flags are read from `ris`; that the hardware clears
      them on the acknowledgement is not modelled. */
  method GpioPortJHandler(g: Globals, pj: GpioPort)
    modifies g`count, pj`icr
    ensures g.count == Wrap(old(g.count) + FlaggedPins(pj.ris))
    ensures pj.icr == SetBits(old(pj.icr), pj.ris & SW_PINS)
  {
    if (pj.ris & SW1) != 0 {
      pj.icr := SetBits(pj.icr, SW1);
      g.count := Wrap(g.count + 1);
    }
    if (pj.ris & SW2) != 0 {
      pj.icr := SetBits(pj.icr, SW2);
      WrapAdd(old(g.count) + Flag(pj.ris, SW1), 1);
      g.count := Wrap(g.count + 1);
    }
  }

  /** `main`: the ports, then the interrupt. */
  method Start(g: Globals, sys: SysCtl, nvic: Nvic, pj: GpioPort)
    modifies sys`rcgcGpio, pj`dir, pj`den, pj`pur, g`calls, nvic`en1, nvic`pri12, pj`im, pj`sense, pj`ibe, pj`iev
    ensures sys.rcgcGpio == RCGCGPIO_R8 && SwitchesAreInputs(pj) && ArmedOnFallingEdges(pj)
    ensures pj.dir == ClearBits(old(pj.dir), SW_PINS) && pj.den == SetBits(old(pj.den), SW_PINS)
    ensures pj.pur == SetBits(old(pj.pur), SW_PINS)
    ensures pj.im == SetBits(old(pj.im), SW_PINS) && pj.sense == ClearBits(old(pj.sense), SW_PINS)
    ensures pj.ibe == ClearBits(old(pj.ibe), SW_PINS) && pj.iev == ClearBits(old(pj.iev), SW_PINS)
    ensures nvic.en1 == SetBits(old(nvic.en1), EN1_INT51) && nvic.pri12 == ClearBits(old(nvic.pri12), PRI12_INT51_M)
    ensures g.calls == old(g.calls) + [Cpsie]
  {
    PortFunctionInit(sys, pj);
    InterruptInit(g, nvic, pj);
  }
}
