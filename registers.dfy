/** The memory-mapped peripherals of the TM4C1294 that the firmware
    examples touch, one class per peripheral with one field per register
    (`ADC0_SSMUX3_R` is `Adc0.ssmux3`, `GPIO_PORTE_AFSEL_R` is the `afsel`
    field of port E's `GpioPort`), and the calls the examples make out of
    the code they define.

    Registers are plain 32-bit words: the model does not give them hardware
    behaviour (clock gating, write-1-to-clear acknowledge registers, status
    bits that the hardware sets).  Flags that the hardware sets, such as a
    raw interrupt status or a conversion result, are read from the fields
    as inputs.  Methods that write registers say which fields they may
    change in field-granular `modifies` clauses (`adc`ssmux3`). */
module Registers {
  import opened Words

  /** The GPIO ports the examples use (port J through its AHB aperture). */
  datatype Port = PortB | PortD | PortE | PortF | PortJ | PortK | PortN

  /** System control: the run-mode clock-gating registers. */
  class SysCtl {
    var rcgcGpio: Word
    var rcgcAdc: Word
    var rcgcTimer: Word
    var rcgcPwm: Word
  }

  /** One GPIO port's registers. */
  class GpioPort {
    var data: Word
    var dir: Word
    var sense: Word  // GPIOIS (interrupt sense); `is` is a Dafny keyword
    var ibe: Word
    var iev: Word
    var im: Word
    var ris: Word
    var icr: Word
    var afsel: Word
    var den: Word
    var pur: Word
    var amsel: Word
    var pctl: Word
    var lock: Word
    var cr: Word
  }

  /** The GPIO ports, so that code choosing a port by number can be
      written; they are distinct peripherals. */
  datatype Ports = Ports(b: GpioPort, d: GpioPort, e: GpioPort, f: GpioPort, j: GpioPort, k: GpioPort, n: GpioPort)
  {
    function Of(p: Port): GpioPort
    {
      match p
      case PortB => b
      case PortD => d
      case PortE => e
      case PortF => f
      case PortJ => j
      case PortK => k
      case PortN => n
    }

    function All(): set<GpioPort>
    {
      {b, d, e, f, j, k, n}
    }

    predicate Distinct()
    {
      forall p: Port, q: Port :: p != q ==> Of(p) != Of(q)
    }
  }

  /** ADC module 0, with sample sequencer 3's registers. */
  class Adc0 {
    var cc: Word
    var sspri: Word
    var actss: Word
    var emux: Word
    var sac: Word
    var ctl: Word
    var ssop3: Word
    var sstsh3: Word
    var ssmux3: Word
    var ssemux3: Word
    var ssctl3: Word
    var im: Word
    var pssi: Word
    var ris: Word
    var isc: Word
    var ssfifo3: Word
  }

  /** General-purpose timer 0, with Timer A's registers. */
  class Timer0 {
    var ctl: Word
    var adcev: Word
    var cfg: Word
    var cc: Word
    var tamr: Word
    var tapr: Word
    var tailr: Word
    var imr: Word
    var icr: Word
  }

  /** The interrupt controller's enable and priority registers. */
  class Nvic {
    var en0: Word
    var en1: Word
    var pri4: Word
    var pri12: Word
  }

  /** PWM module 0 (`PWM0_CC_R`, `PWM0_ENABLE_R`) and its generator 0
      (`PWM0_0_CTL_R`, `PWM0_0_GENA_R`, `PWM0_0_LOAD_R`, `PWM0_0_CMPA_R`). */
  class Pwm0 {
    var cc: Word
    var ctl0: Word
    var gena0: Word
    var load0: Word
    var cmpa0: Word
    var enable: Word
  }

  /** The `UDMA_ATTR_*` flags of `uDMAChannelAttributeEnable` and
      `uDMAChannelAttributeDisable`. */
  datatype UdmaAttribute = UseBurst | AltSelect | HighPriority | ReqMask

  /** The fields `uDMAChannelControlSet` is given: the item size in bits
      (`UDMA_SIZE_n`), the source and destination address increments in
      bits, 0 for `UDMA_SRC_INC_NONE` and `UDMA_DST_INC_NONE`
      (`UDMA_SRC_INC_n`, `UDMA_DST_INC_n`), and the arbitration size in
      items (`UDMA_ARB_n`). */
  datatype UdmaControl = UdmaControl(itemBits: nat, srcInc: nat, dstInc: nat, arbSize: nat)

  /** Calls out of the modelled code: into TI's driver library (whose code
      is not part of this model) and the `cpsie i` instruction.  Only the
      fact, the arguments and the order of the calls are recorded.  A uDMA
      channel is named by the ADC0 sample sequencer it serves
      (`UDMA_CHANNEL_ADC0` serves sequencer 0, `UDMA_CHANNEL_ADC1`
      sequencer 1), a structure by `alternate` (`UDMA_ALT_SELECT`) or not
      (`UDMA_PRI_SELECT`). */
  datatype Call =
    | AdcIntStatus(sequencer: nat)
    | AdcIntClear(sequencer: nat)
    | AdcProcessorTrigger(sequencer: nat)
    | AdcSequenceDataGet(sequencer: nat)
    | GpioIntClear(port: Port, pins: Word)
    | IntEnable(interrupt: nat)
    | IntPrioritySet(interrupt: nat, priority: nat)
    | IntMasterEnable
    | SysCtlPeripheralEnable(port: Port)
    | GpioPinTypeGpioInput(port: Port, pins: Word)
    | Cpsie
    | SysCtlPeripheralEnableUdma
    | UdmaEnable
    | UdmaControlBaseSet
    | UdmaChannelAttributeDisable(adcSequencer: nat, attributes: set<UdmaAttribute>)
    | UdmaChannelAttributeEnable(adcSequencer: nat, attributes: set<UdmaAttribute>)
    | UdmaChannelControlSet(adcSequencer: nat, alternate: bool, control: UdmaControl)
}
