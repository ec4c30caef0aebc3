/** switch_counter_interrupt_TivaWare.c: the switch counter written against
    TI's driver library.  The NVIC set-up, the pin set-up and the flag
    acknowledgement are driver-library calls, recorded in the call log;
    the port J interrupt registers are still written directly, as in the
    plain variant. */
module SwitchCounterTivaWare {
  import opened Words
  import opened Registers
  import opened SwitchCounter

  /** `INT_GPIOJ` for the TM4C129 parts: exception vector 67, NVIC
      interrupt 51. */
  const INT_GPIOJ: nat := 67

  /** `PortFunctionInit`: port J's clock and PJ0, PJ1 as GPIO inputs through
      the driver library, then the pull-ups. */
  method PortFunctionInit(g: Globals, pj: GpioPort)
    modifies g`calls, pj`pur
    ensures g.calls == old(g.calls) + [SysCtlPeripheralEnable(PortJ), GpioPinTypeGpioInput(PortJ, SW1),
                                       GpioPinTypeGpioInput(PortJ, SW2)]
    ensures pj.pur == SetBits(old(pj.pur), SW_PINS)
  {
    g.calls := g.calls + [SysCtlPeripheralEnable(PortJ)];
    g.calls := g.calls + [GpioPinTypeGpioInput(PortJ, SW1)];
    g.calls := g.calls + [GpioPinTypeGpioInput(PortJ, SW2)];
    pj.pur := SetBits(pj.pur, SW_PINS);
  }

  /** `Interrupt_Init`: the GPIO J interrupt enabled at priority 0, the
      switches armed on falling edges, then interrupts enabled globally;
      the driver-library calls frame the register writes. */
  method InterruptInit(g: Globals, pj: GpioPort)
    modifies g`calls, pj`im, pj`sense, pj`ibe, pj`iev
    ensures g.calls == old(g.calls) + [IntEnable(INT_GPIOJ), IntPrioritySet(INT_GPIOJ, 0), IntMasterEnable]
    ensures pj.im == SetBits(old(pj.im), SW_PINS) && pj.sense == ClearBits(old(pj.sense), SW_PINS)
    ensures pj.ibe == ClearBits(old(pj.ibe), SW_PINS) && pj.iev == ClearBits(old(pj.iev), SW_PINS)
    ensures ArmedOnFallingEdges(pj)
  {
    g.calls := g.calls + [IntEnable(INT_GPIOJ)];
    g.calls := g.calls + [IntPrioritySet(INT_GPIOJ, 0)];
    ArmFallingEdges(pj);
    g.calls := g.calls + [IntMasterEnable];
  }

  /** The acknowledgements one handler call makes: `GPIOIntClear` for each
      flagged switch, SW1 first. */
  function Acknowledgements(ris: Word): (acks: seq<Call>)
    ensures |acks| == FlaggedPins(ris)
    ensures forall i :: 0 <= i < |acks| ==> acks[i].GpioIntClear? && acks[i].port == PortJ
  {
    (if (ris & SW1) != 0 then [GpioIntClear(PortJ, SW1)] else []) +
    (if (ris & SW2) != 0 then [GpioIntClear(PortJ, SW2)] else [])
  }

  /** Each switch is acknowledged exactly when its flag is set, and only
      the switch pins are ever cleared. */
  lemma AcknowledgementsMatchFlags(ris: Word)
    ensures GpioIntClear(PortJ, SW1) in Acknowledgements(ris) <==> (ris & SW1) != 0
    ensures GpioIntClear(PortJ, SW2) in Acknowledgements(ris) <==> (ris & SW2) != 0
    ensures forall c :: c in Acknowledgements(ris) ==> c == GpioIntClear(PortJ, SW1) || c == GpioIntClear(PortJ, SW2)
  {
  }

  /** `GPIOPortJ_Handler`: each flagged switch is acknowledged through
      `GPIOIntClear` and counted, so the count grows by exactly the number
      of acknowledgements. */
  method GpioPortJHandler(g: Globals, pj: GpioPort)
    modifies g`count, g`calls
    ensures g.count == Wrap(old(g.count) + FlaggedPins(pj.ris))
    ensures g.calls == old(g.calls) + Acknowledgements(pj.ris)
  {
    if (pj.ris & SW1) != 0 {
      g.calls := g.calls + [GpioIntClear(PortJ, SW1)];
      g.count := Wrap(g.count + 1);
    }
    if (pj.ris & SW2) != 0 {
      g.calls := g.calls + [GpioIntClear(PortJ, SW2)];
      WrapAdd(old(g.count) + Flag(pj.ris, SW1), 1);
      g.count := Wrap(g.count + 1);
    }
  }

  /** `main`: the ports, then the interrupt. */
  method Start(g: Globals, pj: GpioPort)
    modifies g`calls, pj`pur, pj`im, pj`sense, pj`ibe, pj`iev
    ensures g.calls == old(g.calls) + [SysCtlPeripheralEnable(PortJ), GpioPinTypeGpioInput(PortJ, SW1),
                                       GpioPinTypeGpioInput(PortJ, SW2), IntEnable(INT_GPIOJ),
                                       IntPrioritySet(INT_GPIOJ, 0), IntMasterEnable]
    ensures pj.pur == SetBits(old(pj.pur), SW_PINS) && (pj.pur & SW_PINS) == SW_PINS
    ensures pj.im == SetBits(old(pj.im), SW_PINS) && pj.sense == ClearBits(old(pj.sense), SW_PINS)
    ensures pj.ibe == ClearBits(old(pj.ibe), SW_PINS) && pj.iev == ClearBits(old(pj.iev), SW_PINS)
    ensures ArmedOnFallingEdges(pj)
  {
    PortFunctionInit(g, pj);
    InterruptInit(g, pj);
  }
}
