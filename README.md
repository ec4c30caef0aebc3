# TivaWare example firmware and the M2X stream client, modelled in Dafny

This project models the core of a collection of TM4C1294 (EK-TM4C1294XL
LaunchPad) firmware examples and of the M2X cloud client that runs on the
same board:

- **ADC0 sample sequencer 3** (`ADCSWTrigger.c`, `ADCT0ATrigger.c`): the
  decoding of an analog channel number into a GPIO port and pin,
  `gpio2adc`, the numbered register steps that set up sequencer 3 for a
  software, continuous or Timer0A trigger, the busy-wait conversion and
  the interrupt handler that hands each result to a user task.
- **The ADC test program** (`ADCTestMain.c` of the timer-triggered
  project): the user task that turns a sample into a PWM duty cycle, the
  PWM generator set-up and the LED set-up.
- **Temperature sensing** (`ADC_temperature.c` and the two `ADC_DMA.c`
  programs): the averaging of sensor codes, the Celsius and Fahrenheit
  conversions in `uint32_t` arithmetic, the ping-pong uDMA buffers and the
  LED counter the handlers advance.
- **Switch counters** (`switch_counter_interrupt.c` in its register,
  TivaWare and debounce versions): port J switch set-up, edge-triggered
  interrupts, the handler that counts presses and acknowledges them, and
  in the debounce version the Timer0A that blinks the LEDs.
- **The M2X stream client** (`M2XStreamClient.cpp`,
  `StreamParseFunctions.h`, `LocationParseFunctions.h`): percent-encoding
  of query values, the HTTP request header, the reply parser (status
  code, `Content-Length`, header skip, chunked body reading) and the two
  JSON callback state machines that pick stream values and locations out
  of a reply.

Memory-mapped registers are the fields of one class per peripheral
(`Registers`), each a 32-bit word (`bv32`); C's `uint32_t` arithmetic is
written out with `Words.Wrap`.  Every initialisation routine and handler
is a method whose `ensures` gives the new value of every register it
writes as a function of the old values, either clause by clause or through
a named two-state predicate that lists them (`AdcSeq3.Seq3SetUp`,
`AdcT0aTrigger.Timer0ASetUp`, `AdcTestMain.PwmOnPf0`, ...); bit
predicates such as `SwitchesAreInputs` only sum those values up.  The
lemmas beside them say what the values mean (a pin
becomes an ADC input, a field selects the channel, a priority is 2, a
count grows by the number of presses).  The client's socket is a class
whose input is a sequence of bytes and whose output is the bytes printed
so far; the parsing it does is specified by pure functions over byte
sequences (`M2XReply`), with round-trip lemmas against the functions that
produce replies (`M2XText`).  Calls into TI's driver library, whose code
is not part of this model, are recorded in a ghost log of `Call`s, in
order, with their arguments.

The device-header constants (`ADC_CC_CLKDIV_M`, `INT_GPIOJ`,
`UDMA_MODE_STOP`, ...) come from TI's `tm4c1294ncpdt.h`, `hw_ints.h` and
`udma.h`, which are not part of this model; their values are written in
the modules that use them.

## Model

| member | source | states |
|---|---|---|
| AdcChannels.ClockedPort | examples/boards/my_projects/ADCSWTrigger_4C1294/ADCSWTrigger.c:106-144 | the first switch of `gpio2adc` turns on a port's clock exactly for channels 0-19 and returns for any other |
| AdcChannels.RouteMatchesClock | examples/boards/my_projects/ADCSWTrigger_4C1294/ADCSWTrigger.c:106-248 | the port whose clock the first switch turns on is the port whose pins the second switch configures, and every case writes single pin bits |
| AdcChannels.OnlyChannelFourSplitsItsPin | examples/boards/my_projects/ADCSWTrigger_4C1294/ADCSWTrigger.c:166-171 | the AFSEL pin and the DEN/AMSEL pin of a channel differ exactly for channel 4, whose DEN/AMSEL pin is PD3, the pin of channel 12 |
| AdcChannels.IntendedRouteOf | examples/boards/my_projects/ADCSWTrigger_4C1294/ADCSWTrigger.c:166-171 | the corrected route agrees with the written one on every channel but 4 |
| AdcChannels.IntendedRoutesAreOnePinEach | examples/boards/my_projects/ADCSWTrigger_4C1294/ADCSWTrigger.c:145-248 | with the corrected route each channel uses one pin in all three registers and no two channels share a pin |
| AdcChannels.MuxSplit | examples/boards/my_projects/ADCSWTrigger_4C1294/ADCSWTrigger.c:294-296 | `channelNum&0xF` is 4 bits, `(channelNum&0x10)>>4` is 1 bit, and 16 * EMUX + MUX is the channel |
| AdcSeq3.CcAsWrittenKeepsOldFields | examples/boards/my_projects/ADCSWTrigger_4C1294/ADCSWTrigger.c:278-279 | the ADC clock statement as written equals CC or-ed with 0xE0: it never clears the divider field and keeps whatever clock source was there |
| AdcSeq3.CcIntended | examples/boards/my_projects/ADCSWTrigger_4C1294/ADCSWTrigger.c:277-279 | the corrected statement puts 14 in the divider field and SYSPLL in the clock-source field and keeps every other bit |
| AdcSeq3.CcAsWrittenDiffers | examples/boards/my_projects/ADCSWTrigger_4C1294/ADCSWTrigger.c:278-279 | written and corrected statements agree from the reset value 0 (both 0xE0) and differ from the value 1 |
| AdcSeq3.Gpio2Adc | examples/boards/my_projects/ADCSWTrigger_4C1294/ADCSWTrigger.c:105-249 | for a channel 0-19: the port clock on, PD7 unlocked for channel 4, the route's AFSEL bit set, DEN bit cleared, AMSEL bit set, no other port touched; for any other channel no register changes |
| AdcSeq3.RoutingMakesAnalogInput | examples/boards/my_projects/ADCSWTrigger_4C1294/ADCSWTrigger.c:145-248 | setting a pin in AFSEL and AMSEL and clearing it in DEN makes it an ADC input whatever the registers held |
| AdcSeq3.RoutedPinIsAnalogInput | examples/boards/my_projects/ADCSWTrigger_4C1294/ADCSWTrigger.c:145-248 | every channel's route but channel 4's makes its pin an ADC input |
| AdcSeq3.ChannelFourLeavesPd7Digital | examples/boards/my_projects/ADCSWTrigger_4C1294/ADCSWTrigger.c:166-171 | channel 4 as written leaves PD7, the pin of AIN4, a digital pin |
| AdcSeq3.IntendedRouteIsAnalogInput | examples/boards/my_projects/ADCSWTrigger_4C1294/ADCSWTrigger.c:166-171 | with the corrected route every channel's pin becomes an ADC input |
| AdcSeq3.ReenableKeepsOtherSequencers | examples/boards/my_projects/ADCSWTrigger_4C1294/ADCSWTrigger.c:282-299 | disabling then enabling ASEN3 leaves sequencer 3 on and the other sequencers' enable bits as they were |
| AdcSeq3.TriggerFieldSelects | examples/boards/my_projects/ADCSWTrigger_4C1294/ADCSWTrigger.c:284 | the trigger written in the EM3 field is sequencer 3's trigger and the other sequencers' trigger fields are kept |
| AdcSeq3.ChannelFieldsSelect | examples/boards/my_projects/ADCSWTrigger_4C1294/ADCSWTrigger.c:294-296 | after steps 14-15, 16 * EMUX + MUX read back from the registers is the channel, and the other bits of both registers are kept |
| AdcSeq3.ChannelFieldsIdempotent | examples/boards/my_projects/ADCSWTrigger_4C1294/ADCSWTrigger.c:294-296 | writing the same channel fields twice gives what writing them once gives |
| AdcSeq3.ClockAndDisable | examples/boards/my_projects/ADCSWTrigger_4C1294/ADCSWTrigger.c:274-282 | steps 5-8: ADC0 clock bit set, CC as written, SSPRI the priority, ASEN3 cleared so sequencer 3 is disabled |
| AdcSeq3.ConfigureSeq3 | examples/boards/my_projects/ADCSWTrigger_4C1294/ADCSWTrigger.c:284-292 | steps 9-13, callable only while sequencer 3 is disabled: trigger, averaging off, internal reference, FIFO output and sample-and-hold fields written, other bits kept |
| AdcSeq3.SelectChannel | examples/boards/my_projects/ADCSWTrigger_4C1294/ADCSWTrigger.c:294-296 | steps 14-15, only while sequencer 3 is disabled: the MUX and EMUX fields of the channel, other bits kept |
| AdcSeq3.EnableSeq3 | examples/boards/my_projects/ADCSWTrigger_4C1294/ADCSWTrigger.c:297-299 | steps 16-18, only while sequencer 3 is disabled: SSCTL3 = 6, the SS3 mask set or cleared, and ASEN3 set last |
| AdcSeq3.SetUpSeq3 | examples/boards/my_projects/ADCSWTrigger_4C1294/ADCSWTrigger.c:274-299 | steps 5-18 leave every ADC0 register as `Seq3SetUp` gives it, with sequencer 3 configured only while disabled |
| AdcSwTrigger.InitTriggerSeq3 | examples/boards/my_projects/ADCSWTrigger_4C1294/ADCSWTrigger.c:268-300 | a channel above 19 changes nothing; otherwise the channel's pin routed and steps 5-18 done with priority 0x3210 and the SS3 interrupt masked |
| AdcSwTrigger.InitSwTriggerSeq3 | examples/boards/my_projects/ADCSWTrigger_4C1294/ADCSWTrigger.c:268-300 | `ADC0_InitSWTriggerSeq3`: the same with the processor trigger |
| AdcSwTrigger.InitAllTriggerSeq3 | examples/boards/my_projects/ADCSWTrigger_4C1294/ADCSWTrigger.c:319-351 | `ADC0_InitAllTriggerSeq3`: the same with the continuous trigger |
| AdcSwTrigger.RoutePe3 | examples/boards/my_projects/ADCSWTrigger_4C1294/ADCSWTrigger.c:69-74 | steps 1-4 of the channel-0 routine leave exactly the state `gpio2adc(0)` leaves |
| AdcSwTrigger.SelectChannelZero | examples/boards/my_projects/ADCSWTrigger_4C1294/ADCSWTrigger.c:96-97 | the literal writes of steps 14-15 are the channel fields of channel 0 |
| AdcSwTrigger.SetUpSeq3Ch0 | examples/boards/my_projects/ADCSWTrigger_4C1294/ADCSWTrigger.c:76-100 | steps 5-18 of the channel-0 routine are the shared set-up with priority 0x0123 and channel 0 |
| AdcSwTrigger.InitSwTriggerSeq3Ch0 | examples/boards/my_projects/ADCSWTrigger_4C1294/ADCSWTrigger.c:67-101 | `ADC0_InitSWTriggerSeq3_Ch0` leaves what the general routine leaves for channel 0, with sequencer 3 at the highest priority |
| AdcSwTrigger.InSeq3 | examples/boards/my_projects/ADCSWTrigger_4C1294/ADCSWTrigger.c:357-363 | PSSI started, ISC acknowledged, and the result the low 12 bits of the FIFO word |
| AdcSwTrigger.InSeq3ResultIsTwelveBits | examples/boards/my_projects/ADCSWTrigger_4C1294/ADCSWTrigger.c:360 | the result is at most 4095 and equals the FIFO word exactly when that word is at most 4095 |
| AdcT0aTrigger.Pri4WriteSetsPriorityTwo | examples/boards/my_projects/ADCT0ATrigger_4C1294/ADCT0ATrigger.c:266 | the PRI4 write sets interrupt 17's byte to 0x40, priority 2 in bits 13-15, and keeps every other byte |
| AdcT0aTrigger.SampleTicksBounds | examples/boards/my_projects/ADCT0ATrigger_4C1294/ADCT0ATrigger.c:58-60 | the documented sample interval (prescale+1)*(period+1) lies between 1 and 2^24 bus periods and grows with each argument |
| AdcT0aTrigger.Timer0AEndsEnabled | examples/boards/my_projects/ADCT0ATrigger_4C1294/ADCT0ATrigger.c:226-237 | Timer0A ends enabled with its ADC trigger output on and the other control bits kept; prescale and period are loaded without loss |
| AdcT0aTrigger.DisableTimer0A | examples/boards/my_projects/ADCT0ATrigger_4C1294/ADCT0ATrigger.c:223-226 | steps 5-6: Timer0 clocked and Timer0A disabled |
| AdcT0aTrigger.ConfigureTimer0A | examples/boards/my_projects/ADCT0ATrigger_4C1294/ADCT0ATrigger.c:227-236 | steps 7-13, only while Timer0A is disabled: trigger output, ADC event, 16-bit periodic mode, system clock, prescale, period, time-out interrupt masked |
| AdcT0aTrigger.SetUpTimer0A | examples/boards/my_projects/ADCT0ATrigger_4C1294/ADCT0ATrigger.c:223-237 | steps 5-14 leave the timer registers as `Timer0ASetUp` gives them, configured only while disabled |
| AdcT0aTrigger.ArmSeq3Interrupt | examples/boards/my_projects/ADCT0ATrigger_4C1294/ADCT0ATrigger.c:266-268 | steps 29-31: PRI4 priority write, interrupt 17 enabled, task linked |
| AdcT0aTrigger.SetUpTimerTriggeredSeq3 | examples/boards/my_projects/ADCT0ATrigger_4C1294/ADCT0ATrigger.c:222-268 | steps 5-31: timer set up, sequencer 3 on the timer trigger with its interrupt unmasked, interrupt armed, no GPIO register touched |
| AdcT0aTrigger.InitTimer0ATriggerSeq3 | examples/boards/my_projects/ADCT0ATrigger_4C1294/ADCT0ATrigger.c:75-269 | a channel above 19 changes nothing; otherwise the pin routed as `gpio2adc` does, then steps 5-31 |
| AdcT0aTrigger.Seq3Handler | examples/boards/my_projects/ADCT0ATrigger_4C1294/ADCT0ATrigger.c:271-275 | the completion is acknowledged first, then the linked task runs on the low 12 bits of the FIFO word |
| Udma.TransferSet | examples/boards/my_projects/ADC_DMA_2/ADC_DMA.c:202-216 | `uDMAChannelTransferSet` replaces the selected control structure and leaves the other |
| Udma.ChannelEnable | examples/boards/my_projects/ADC_DMA_2/ADC_DMA.c:225 | `uDMAChannelEnable` leaves the channel enabled |
| Temperature.ScaledCodeBounds | examples/boards/my_projects/ADC_temperature/ADC_temperature.c:58 | for a 12-bit code `2475 * avg` fits in 32 bits, and its quotient by 4096 is at most 1475 exactly up to code 2442 |
| Temperature.CelsiusWithoutWrap | examples/boards/my_projects/ADC_temperature/ADC_temperature.c:58 | for codes up to 2442 the `uint32_t` Celsius formula equals the integer formula and is at most 147 |
| Temperature.CelsiusMonotone | examples/boards/my_projects/ADC_temperature/ADC_temperature.c:58 | over the non-wrapping range a higher code never gives a higher Celsius value |
| Temperature.CelsiusWrapsBelowZero | examples/boards/my_projects/ADC_temperature/ADC_temperature.c:58 | every 12-bit code from 2443 up makes `1475 - ...` wrap, giving a Celsius value above 429 million |
| Temperature.CelsiusAt2443 | examples/boards/my_projects/ADC_temperature/ADC_temperature.c:58 | at code 2443 the written formula gives 429496729 where the signed formula gives 0 |
| Temperature.SignedCelsiusCorrect | examples/boards/my_projects/ADC_temperature/ADC_temperature.c:58 | the signed formula agrees with the written one wherever that does not wrap, stays within -99..147 for every 12-bit code and falls as the code rises |
| Temperature.FahrenheitOfCelsius | examples/boards/my_projects/ADC_temperature/ADC_temperature.c:59 | for Celsius values 0..147 the `uint32_t` Fahrenheit formula does not wrap and equals 32 + floor(9C/5), within 32..296 |
| Temperature.SignedFahrenheitOfCelsius | examples/boards/my_projects/ADC_temperature/ADC_temperature.c:59 | the signed Fahrenheit formula stays within one degree of 9C/5 + 32 for negative temperatures too, and maps -40 to -40 |
| Temperature.LedNextCycles | examples/boards/my_projects/ADC_temperature/ADC_temperature.c:61 | the LED value `(++data)%4` is always 0..3, depends only on the low two bits, steps 0,1,2,3,0 and repeats every four calls |
| Temperature.SumOfSamples | examples/boards/my_projects/ADC_DMA_2/ADC_DMA.c:269-272 | a buffer of 12-bit samples sums to at most 4095 per sample |
| AdcTemperature.RoundedMeanOfSamples | examples/boards/my_projects/ADC_temperature/ADC_temperature.c:57 | for four 12-bit samples the sum does not wrap and the average is their mean rounded to nearest (halves up), a 12-bit value between the least and greatest sample |
| AdcTemperature.SequenceDataGet | examples/boards/my_projects/ADC_temperature/ADC_temperature.c:56 | `ADCSequenceDataGet` is logged and copies the four FIFO words into `ui32ADC0Value` |
| AdcTemperature.Adc0Handler | examples/boards/my_projects/ADC_temperature/ADC_temperature.c:51-62 | the handler clears the interrupt, triggers the next sequence and only then reads the samples; average, Celsius and Fahrenheit are the formulas above and the LED value advances once |
| AdcTemperature.ReadingsOfSamples | examples/boards/my_projects/ADC_temperature/ADC_temperature.c:57-59 | from four 12-bit samples the handler's average is at most 4095 and, at 0 C or above, Celsius is at most 147 and Fahrenheit is 32 + floor(9C/5) |
| AdcTestMain.TaskDutyBelowPeriod | examples/boards/my_projects/ADCT0ATrigger_4C1294/ADCTestMain.c:82 | for a 12-bit sample `ADCvalue*60000` fits in 32 bits and the duty is floor(ADCvalue*60000/4096), at most 59985, below the period 60000 |
| AdcTestMain.TaskDutyMonotone | examples/boards/my_projects/ADCT0ATrigger_4C1294/ADCTestMain.c:82 | a larger sample never gives a smaller duty |
| AdcTestMain.TaskDutyDocumentedRange | examples/boards/my_projects/ADCT0ATrigger_4C1294/ADCTestMain.c:72-82 | the documented range 2 <= duty <= period-1 holds exactly for the 12-bit samples other than 0 |
| AdcTestMain.ZeroSampleLeavesDocumentedRange | examples/boards/my_projects/ADCT0ATrigger_4C1294/ADCTestMain.c:74-82 | the sample 0 gives duty 0, and `duty - 1` then writes 0xFFFFFFFF to CMPA |
| AdcTestMain.HandlerSampleGivesDutyBelowPeriod | examples/boards/my_projects/ADCT0ATrigger_4C1294/ADCTestMain.c:80-82 | the value the sequencer-3 handler hands to `UserTask` is at most 4095, so the duty it sets is below the period |
| AdcTestMain.CompareValue | examples/boards/my_projects/ADCT0ATrigger_4C1294/ADCTestMain.c:66-67 | `duty - 1` from an `unsigned short` stored in a 32-bit register is one below the argument, and 0xFFFFFFFF exactly for 0 |
| AdcTestMain.Pf0PctlSelectsPwm | examples/boards/my_projects/ADCT0ATrigger_4C1294/ADCTestMain.c:55 | the PCTL write puts 6 (M0PWM0) in PF0's nibble and keeps the other 28 bits |
| AdcTestMain.PwmClockDividedByTwo | examples/boards/my_projects/ADCT0ATrigger_4C1294/ADCTestMain.c:60-61 | the PWM CC write selects divide-by-2, sets USEPWM and keeps every other bit |
| AdcTestMain.RoutePf0ToPwm | examples/boards/my_projects/ADCT0ATrigger_4C1294/ADCTestMain.c:47-56 | steps 1-4: PWM0 and port F clocks on, PF0 a digital alternate-function pin with PCTL selecting M0PWM0 and analog off |
| AdcTestMain.M0Pwm0Duty | examples/boards/my_projects/ADCT0ATrigger_4C1294/ADCTestMain.c:73-75 | `M0PWM0_Duty` changes only CMPA, to `duty - 1` |
| AdcTestMain.StartGenerator0 | examples/boards/my_projects/ADCT0ATrigger_4C1294/ADCTestMain.c:60-69 | steps 5-10: divider, output actions, LOAD and CMPA written while the generator is stopped (CTL = 0), then generator and output enabled |
| AdcTestMain.LoadGenerator0 | examples/boards/my_projects/ADCT0ATrigger_4C1294/ADCTestMain.c:66 | LOAD is written only while the generator is stopped, as `period - 1` |
| AdcTestMain.M0Pwm0Init | examples/boards/my_projects/ADCT0ATrigger_4C1294/ADCTestMain.c:46-70 | `M0PWM0_Init`: PWM0 and port F clocks on; PF0 a digital alternate-function pin with PCTL nibble 6 and analog off, the other PF0 registers and port bits kept; PWM clock divided by 2; generator 0 low at LOAD, high at CMPA-down; LOAD = period - 1, CMPA = duty - 1; generator and M0PWM0 output enabled |
| AdcTestMain.UserTask | examples/boards/my_projects/ADCT0ATrigger_4C1294/ADCTestMain.c:80-83 | `UserTask` toggles only LED1's bit and sets CMPA from the duty formula |
| AdcTestMain.InitLed1 | examples/boards/my_projects/ADCT0ATrigger_4C1294/ADCTestMain.c:93-99 | PN1 becomes a digital GPIO output (DIR and DEN set, AFSEL, AMSEL and its PCTL nibble cleared), off, with every other bit of port N kept |
| AdcTestMain.SetUpSampling | examples/boards/my_projects/ADCT0ATrigger_4C1294/ADCTestMain.c:87-91 | port N's clock, then channel 0: PE3 an analog input, Timer0A 16-bit periodic with prescale 199, period 59999 and its ADC trigger on, sequencer 3 on the timer trigger sampling channel 0 with its interrupt armed, interrupt 17 at priority 2 and alone enabled in EN0, `UserTask` linked; every port but E untouched |
| AdcTestMain.SetUpOutputs | examples/boards/my_projects/ADCT0ATrigger_4C1294/ADCTestMain.c:92-99 | the PWM at period 60000 and duty 9000 (LOAD 59999, CMPA 8999) with every register `M0PWM0_Init` writes, then LED1 (PN1) a digital output, off |
| AdcTestMain.SetUpRates | examples/boards/my_projects/ADCT0ATrigger_4C1294/ADCTestMain.c:90-92 | `main`'s arguments give 10 Hz sampling at 120 MHz, a 1 kHz PWM at 60 MHz and a 15% initial duty |
| AdcDmaPingPong.DmaInit | examples/boards/my_projects/ADC_DMA_2/ADC_DMA.c:127-225 | `DMA_Init` logs steps 1-3 for sequencer 0's channel in order (`SysCtlPeripheralEnable(SYSCTL_PERIPH_UDMA)`, `uDMAEnable`, `uDMAControlBaseSet`, ALTSELECT, HIGH_PRIORITY and REQMASK disabled, USEBURST enabled, then 32-bit items, no source increment, 32-bit destination increment and arbitration 2 on the primary and then the alternate structure), then arms the primary structure with buffer A and the alternate with buffer B, ping-pong, 200 items each, and enables the channel |
| AdcDmaPingPong.TransfersCoverBothBuffers | examples/boards/my_projects/ADC_DMA_2/ADC_DMA.c:202-216 | the two armed transfers fill distinct buffers, both in ping-pong mode, each for a whole buffer of 200 |
| AdcDmaPingPong.BufferMeanOfSamples | examples/boards/my_projects/ADC_DMA_2/ADC_DMA.c:267-274 | for 12-bit samples a buffer sums to at most 819000, so the `uint32_t` sum does not wrap and the average is the floor of the mean, at most 4095 |
| AdcDmaPingPong.AverageOf | examples/boards/my_projects/ADC_DMA_2/ADC_DMA.c:267-274 | the averaging loop returns the `uint32_t` sum of the whole buffer divided by 200 |
| AdcDmaPingPong.ProcessBuffer | examples/boards/my_projects/ADC_DMA_2/ADC_DMA.c:267-279 | average of the buffer, Celsius and Fahrenheit of it, and the LED value advanced once |
| AdcDmaPingPong.ServicePrimary | examples/boards/my_projects/ADC_DMA_2/ADC_DMA.c:251-296 | a stopped primary structure: buffer A counted (wrapping), processed, primary re-armed with buffer A and the channel enabled; otherwise nothing changes |
| AdcDmaPingPong.ServiceAlternate | examples/boards/my_projects/ADC_DMA_2/ADC_DMA.c:303-349 | the same for the alternate structure and buffer B |
| AdcDmaPingPong.Adc0Handler | examples/boards/my_projects/ADC_DMA_2/ADC_DMA.c:238-350 | status read and cleared; each stopped structure counted and re-armed independently, so afterwards neither is stopped and each still serves its own buffer; the LED advances once per completed buffer; B's readings win when both completed; nothing changes beyond the status otherwise; buffers only read |
| AdcDma.DmaInit | examples/boards/my_projects/ADC_DMA/ADC_DMA.c:89-185 | `DMA_Init` logs the same steps 1-3 for sequencer 1's channel, then arms buffer A on the primary and buffer B on the alternate, ping-pong from sequencer 1, 100 items each, and enables the channel |
| AdcDma.Adc0Handler | examples/boards/my_projects/ADC_DMA/ADC_DMA.c:198-282 | each stopped structure is counted (wrapping) and re-armed with its own buffer, independently; with neither stopped nothing changes; afterwards neither is stopped and each still serves its own buffer |
| SwitchCounter.FlaggedPinsIsPopCount | examples/boards/my_projects/switch_counter_interrupt/switch_counter_interrupt.c:70-92 | what one handler call counts is the population count of `RIS & 0x3`: no flag set counts nothing, both set count two |
| SwitchCounter.SwitchPinsAsInputs | examples/boards/my_projects/switch_counter_interrupt/switch_counter_interrupt.c:35-41 | DIR bits 0-1 cleared, DEN and PUR bits 0-1 set, every other bit kept: the switches are pulled-up digital inputs |
| SwitchCounter.PortFunctionInit | examples/boards/my_projects/switch_counter_interrupt/switch_counter_interrupt.c:20-43 | RCGCGPIO assigned port J's bit alone, then the switch pins as pulled-up digital inputs |
| SwitchCounter.ArmFallingEdges | examples/boards/my_projects/switch_counter_interrupt/switch_counter_interrupt.c:62-65 | IM bits 0-1 set, IS, IBE and IEV bits 0-1 cleared, other bits kept: the switches interrupt on falling edges only |
| SwitchCounter.InterruptInit | examples/boards/my_projects/switch_counter_interrupt/switch_counter_interrupt.c:58-67 | interrupt 51 enabled at priority 0, the switches armed on falling edges, then `cpsie i` |
| SwitchCounter.Interrupt51Bits | examples/boards/my_projects/switch_counter_interrupt/switch_counter_interrupt.c:60-61 | EN1's bit 0x00080000 is interrupt 51 and PRI12's mask 0xE0000000 is its priority field, which the write sets to 0 keeping the other interrupts' priorities |
| SwitchCounter.GpioPortJHandler | examples/boards/my_projects/switch_counter_interrupt/switch_counter_interrupt.c:70-92 | `count` grows (modulo 2^32) by the number of flagged switches and ICR gets exactly the flagged switch bits |
| SwitchCounter.Start | examples/boards/my_projects/switch_counter_interrupt/switch_counter_interrupt.c:94-110 | `main` assigns RCGCGPIO port J's bit alone; PJ0 and PJ1 become digital inputs with pull-ups and are armed on falling edges (IM set, IS, IBE and IEV cleared), every other bit kept; interrupt 51 enabled in EN1 at priority 0 in PRI12; `cpsie i` recorded |
| SwitchCounterTivaWare.PortFunctionInit | examples/boards/my_projects/switch_counter_interrupt_TivaWare/switch_counter_interrupt_TivaWare.c:28-48 | port J's clock and PJ0, PJ1 as inputs through the driver library, in that order, then PUR bits 0-1 set |
| SwitchCounterTivaWare.InterruptInit | examples/boards/my_projects/switch_counter_interrupt_TivaWare/switch_counter_interrupt_TivaWare.c:52-61 | `IntEnable(INT_GPIOJ)` and priority 0, the switches armed on falling edges, then `IntMasterEnable` last |
| SwitchCounterTivaWare.Acknowledgements | examples/boards/my_projects/switch_counter_interrupt_TivaWare/switch_counter_interrupt_TivaWare.c:68-83 | a handler call makes one `GPIOIntClear` on port J per flagged switch |
| SwitchCounterTivaWare.AcknowledgementsMatchFlags | examples/boards/my_projects/switch_counter_interrupt_TivaWare/switch_counter_interrupt_TivaWare.c:68-83 | each switch is acknowledged exactly when its flag is set, and nothing but the two switch pins is ever cleared |
| SwitchCounterTivaWare.GpioPortJHandler | examples/boards/my_projects/switch_counter_interrupt_TivaWare/switch_counter_interrupt_TivaWare.c:64-86 | `count` grows (modulo 2^32) by the number of flagged switches, which is the number of acknowledgements logged |
| SwitchCounterTivaWare.Start | examples/boards/my_projects/switch_counter_interrupt_TivaWare/switch_counter_interrupt_TivaWare.c:88-104 | `main` makes the six driver-library calls in order; PJ0 and PJ1 get pull-ups and are armed on falling edges (IM set, IS, IBE and IEV cleared), every other bit kept |
| SwitchCounterDebounce.PortFunctionInit | examples/boards/my_projects/switch_counter_interrupt_debounce/switch_counter_interrupt.c:19-45 | RCGCGPIO assigned ports N and J, the switches pulled-up digital inputs, PN0 and PN1 digital outputs |
| SwitchCounterDebounce.ButtonInterruptInit | examples/boards/my_projects/switch_counter_interrupt_debounce/switch_counter_interrupt.c:60-68 | as written: EN1 bit set, PRI12 bit 30 cleared, the switches armed on both edges, IEV left alone |
| SwitchCounterDebounce.ButtonPriorityNeverTwo | examples/boards/my_projects/switch_counter_interrupt_debounce/switch_counter_interrupt.c:63 | the PRI12 write as written never leaves interrupt 51 at priority 2, and from the reset value leaves it at 0 |
| SwitchCounterDebounce.ButtonPriorityTwoIsTwo | examples/boards/my_projects/switch_counter_interrupt_debounce/switch_counter_interrupt.c:63 | the corrected write sets interrupt 51's priority to 2 whatever PRI12 held and keeps the other interrupts' priorities |
| SwitchCounterDebounce.PressesOnlyCount | examples/boards/my_projects/switch_counter_interrupt_debounce/switch_counter_interrupt.c:79-118 | the count grows by the population count of `RIS & ~DATA & 0x3`: never more than the flagged switches, nothing when both switches are up, and every flagged switch exactly when none of them reads high |
| SwitchCounterDebounce.LedsFollowSwitches | examples/boards/my_projects/switch_counter_interrupt_debounce/switch_counter_interrupt.c:79-118 | after the handler each flagged switch's LED is on exactly when its switch reads pressed, an unflagged switch's LED is untouched, and no other port N bit changes |
| SwitchCounterDebounce.AcknowledgeBoth | examples/boards/my_projects/switch_counter_interrupt_debounce/switch_counter_interrupt.c:82-103 | the two branches acknowledge exactly the flagged switches |
| SwitchCounterDebounce.ServiceSwitch | examples/boards/my_projects/switch_counter_interrupt_debounce/switch_counter_interrupt.c:79-97 | one branch: ICR bit for a flagged switch, count and LED on when it reads low, LED off when it reads high, nothing when not flagged |
| SwitchCounterDebounce.GpioPortJHandler | examples/boards/my_projects/switch_counter_interrupt_debounce/switch_counter_interrupt.c:71-119 | EN1 bit set on exit, ICR gets exactly the flagged switch bits, `count` grows by the presses only, port N as `LedsAfter` gives it |
| SwitchCounterDebounce.ConfigureTimer0A | examples/boards/my_projects/switch_counter_interrupt_debounce/switch_counter_interrupt.c:128-133 | only while Timer0A is disabled: 32-bit periodic mode, reload `period - 1`, interrupt 19 at priority 0 and enabled, timeout armed |
| SwitchCounterDebounce.Timer0AInit | examples/boards/my_projects/switch_counter_interrupt_debounce/switch_counter_interrupt.c:121-135 | `Timer0A_Init`: the timer clocked, disabled, configured, and enabled last |
| SwitchCounterDebounce.TimeoutEveryPeriod | examples/boards/my_projects/switch_counter_interrupt_debounce/switch_counter_interrupt.c:130-132 | the reload `period - 1` is below the period (a period of 0 wraps to 0xFFFFFFFF); EN0 0x00080000 and PRI4 0xE0000000 are interrupt 19's bit and priority field |
| SwitchCounterDebounce.Timer0AHandler | examples/boards/my_projects/switch_counter_interrupt_debounce/switch_counter_interrupt.c:138-145 | the timeout acknowledged and exactly LED bits 0x03 toggled |
| SwitchCounterDebounce.LedsAlternate | examples/boards/my_projects/switch_counter_interrupt_debounce/switch_counter_interrupt.c:144-155 | a timeout inverts both LEDs and two restore them, so from D1 on, D2 off the LEDs alternate |
| SwitchCounterDebounce.Start | examples/boards/my_projects/switch_counter_interrupt_debounce/switch_counter_interrupt.c:147-170 | `main`: ports J and N clocked, PJ0-PJ1 digital inputs with pull-ups, PN0-PN1 digital outputs with D1 on; Timer0A clocked, 32-bit periodic with reload 7999999, its time-out interrupt armed and enabled, interrupt 19 at priority 0 in PRI4 and enabled in EN0; `cpsie i`; EN1, PRI12 and the port J interrupt mask are left as they were, since `Button_Interrupt_Init` is never called |
| ParseText.HasPrefixIsPrefix | tiva-c-master/boards/ek-tm4c1294xl/m2x-launchpad-energia-master/M2XStreamClient/StreamParseFunctions.h:35-39 | the `strncmp` test against a literal's own length holds exactly when the token is at least that long and starts with the literal |
| ParseText.Truncate | tiva-c-master/boards/ek-tm4c1294xl/m2x-launchpad-energia-master/M2XStreamClient/StreamParseFunctions.h:50-52 | the `strncpy` of at most n characters followed by a NUL stores a prefix of the token: the whole token when it fits, exactly n characters when it does not |
| PercentEncoding.HexDigit | tiva-c-master/boards/ek-tm4c1294xl/m2x-launchpad-energia-master/M2XStreamClient/M2XStreamClient.cpp:122-123 | `HEX` of a nibble is an unreserved hexadecimal digit, a decimal digit exactly for nibbles below 10 |
| PercentEncoding.HexValue | tiva-c-master/boards/ek-tm4c1294xl/m2x-launchpad-energia-master/M2XStreamClient/M2XStreamClient.cpp:122-123 | reading a hexadecimal digit gives a nibble |
| PercentEncoding.HexValueOfHexDigit | tiva-c-master/boards/ek-tm4c1294xl/m2x-launchpad-energia-master/M2XStreamClient/M2XStreamClient.cpp:122-123 | the digit `HEX` prints reads back as the nibble it was printed from |
| PercentEncoding.EscapedCount | tiva-c-master/boards/ek-tm4c1294xl/m2x-launchpad-energia-master/M2XStreamClient/M2XStreamClient.cpp:113-124 | at most every byte of the string is escaped |
| PercentEncoding.Encode | tiva-c-master/boards/ek-tm4c1294xl/m2x-launchpad-energia-master/M2XStreamClient/M2XStreamClient.cpp:110-127 | every escaped byte costs two extra characters: the output is the input's length plus twice the number of escaped bytes |
| PercentEncoding.EncodeAlphabet | tiva-c-master/boards/ek-tm4c1294xl/m2x-launchpad-energia-master/M2XStreamClient/M2XStreamClient.cpp:113-123 | the printed text holds only letters, digits and `-_.~` (the unreserved characters of section 2.3 of RFC 3986) and `%`; the source's comment cites RFC 1738, whose safe set differs (it excludes `~` and allows `$+!*'(),`) |
| PercentEncoding.DecodeEncode | tiva-c-master/boards/ek-tm4c1294xl/m2x-launchpad-energia-master/M2XStreamClient/M2XStreamClient.cpp:110-127 | percent-decoding the printed text gives the input back |
| PercentEncoding.EncodeInjective | tiva-c-master/boards/ek-tm4c1294xl/m2x-launchpad-energia-master/M2XStreamClient/M2XStreamClient.cpp:110-127 | two strings print the same text only if they are equal |
| PercentEncoding.EncodeIsIdentity | tiva-c-master/boards/ek-tm4c1294xl/m2x-launchpad-energia-master/M2XStreamClient/M2XStreamClient.cpp:113-118 | a string is printed unchanged exactly when all of its bytes are unreserved |
| PercentEncoding.EncodeAppend | tiva-c-master/boards/ek-tm4c1294xl/m2x-launchpad-energia-master/M2XStreamClient/M2XStreamClient.cpp:112-125 | the encoding works byte by byte: the encoding of a concatenation is the concatenation of the encodings |
| M2XText.DigitChar | tiva-c-master/boards/ek-tm4c1294xl/m2x-launchpad-energia-master/M2XStreamClient/M2XStreamClient.cpp:151 | a digit 0..9 prints as a decimal digit character |
| M2XText.Digits | tiva-c-master/boards/ek-tm4c1294xl/m2x-launchpad-energia-master/M2XStreamClient/M2XStreamClient.cpp:151 | a natural number prints as at least one decimal digit, with no leading zero when it is positive |
| M2XText.DecimalString | tiva-c-master/boards/ek-tm4c1294xl/m2x-launchpad-energia-master/M2XStreamClient/M2XStreamClient.cpp:161 | `print(int)` writes a leading `-` exactly for a negative number |
| M2XText.AccumulateAppend | tiva-c-master/boards/ek-tm4c1294xl/m2x-launchpad-energia-master/M2XStreamClient/M2XStreamClient.cpp:261 | the `ret * 10 + (c - '0')` accumulation over two pieces of text is the accumulation of the second continued from the first |
| M2XText.AccumulateDigits | tiva-c-master/boards/ek-tm4c1294xl/m2x-launchpad-energia-master/M2XStreamClient/M2XStreamClient.cpp:258-261 | accumulating the printed digits of a number gives the number back |
| M2XText.PresentItems | tiva-c-master/boards/ek-tm4c1294xl/m2x-launchpad-energia-master/M2XStreamClient/M2XStreamClient.cpp:39-50 | only the parts whose value is present are written: no more items than parts |
| M2XText.WritePartsStarted | tiva-c-master/boards/ek-tm4c1294xl/m2x-launchpad-energia-master/M2XStreamClient/M2XStreamClient.cpp:39-50 | once the query is started, each present part is written as `&name=value` and an absent part not at all |
| M2XText.JoinAfterFirst | tiva-c-master/boards/ek-tm4c1294xl/m2x-launchpad-energia-master/M2XStreamClient/M2XStreamClient.cpp:41-46 | a non-empty list joined with `&` is its first item followed by `&item` for each later item |
| M2XText.WritePartsIsQueryString | tiva-c-master/boards/ek-tm4c1294xl/m2x-launchpad-energia-master/M2XStreamClient/M2XStreamClient.cpp:39-50 | from `query_started = false` the parts written are `?` and the present items joined with `&`, or nothing when no part is present |
| M2XText.QueryOfThree | tiva-c-master/boards/ek-tm4c1294xl/m2x-launchpad-energia-master/M2XStreamClient/M2XStreamClient.cpp:57-68 | the three `WRITE_QUERY_PART` calls of `fetchValues`, each given the flag the earlier ones leave, write the query string of start, end and limit |
| M2XText.HeaderEndsWithBlankLine | tiva-c-master/boards/ek-tm4c1294xl/m2x-launchpad-energia-master/M2XStreamClient/M2XStreamClient.cpp:141-164 | the header always ends with an empty line (CR LF CR LF) |
| M2XText.HeaderWithBody | tiva-c-master/boards/ek-tm4c1294xl/m2x-launchpad-energia-master/M2XStreamClient/M2XStreamClient.cpp:155-163 | a positive content length adds exactly the Content-Type and Content-Length lines before the final empty line; 0 or the -1 of `fetchValues` adds nothing |
| M2XText.HeaderPort | tiva-c-master/boards/ek-tm4c1294xl/m2x-launchpad-energia-master/M2XStreamClient/M2XStreamClient.cpp:146-153 | only a port other than the default 80 is written, as `:port` right after the encoded host name |
| M2XReply.ToLowerIdentifies | tiva-c-master/boards/ek-tm4c1294xl/m2x-launchpad-energia-master/M2XStreamClient/M2XStreamClient.cpp:14-21 | `tolower` maps two characters to the same one exactly when they are equal or are the upper- and lower-case forms of one ASCII letter |
| M2XReply.Match | tiva-c-master/boards/ek-tm4c1294xl/m2x-launchpad-energia-master/M2XStreamClient/M2XStreamClient.cpp:170-191 | a completed match has consumed at least one and at most all of the available characters |
| M2XReply.MatchSoundFrom | tiva-c-master/boards/ek-tm4c1294xl/m2x-launchpad-energia-master/M2XStreamClient/M2XStreamClient.cpp:176-190 | a match completed from pattern position k consumed characters each accepted by its pattern character (`*` accepts any) |
| M2XReply.MatchSound | tiva-c-master/boards/ek-tm4c1294xl/m2x-launchpad-energia-master/M2XStreamClient/M2XStreamClient.cpp:166-204 | when `waitForString` succeeds the characters it consumed end with a full occurrence of the pattern |
| M2XReply.MatchAtStart | tiva-c-master/boards/ek-tm4c1294xl/m2x-launchpad-energia-master/M2XStreamClient/M2XStreamClient.cpp:176-186 | input that starts with the rest of the pattern completes the match at once |
| M2XReply.MatchMissesOverlap | tiva-c-master/boards/ek-tm4c1294xl/m2x-launchpad-energia-master/M2XStreamClient/M2XStreamClient.cpp:187-190 | the matcher restarts at pattern position 0 without looking at the mismatching character again, so it misses `aab` inside `aaab` |
| M2XReply.WaitFor | tiva-c-master/boards/ek-tm4c1294xl/m2x-launchpad-energia-master/M2XStreamClient/M2XStreamClient.cpp:166-204 | `waitForString` returns only E_OK or E_DISCONNECTED, or polls forever, and consumes only input it is given |
| M2XReply.WaitForFails | tiva-c-master/boards/ek-tm4c1294xl/m2x-launchpad-energia-master/M2XStreamClient/M2XStreamClient.cpp:166-204 | every outcome other than E_OK means a non-empty pattern never matched; the call then returns E_DISCONNECTED if the server has gone and polls forever otherwise |
| M2XReply.StatusCode | tiva-c-master/boards/ek-tm4c1294xl/m2x-launchpad-energia-master/M2XStreamClient/M2XStreamClient.cpp:206-242 | `readStatusCode` consumes only input it is given |
| M2XReply.AccumulateDigitsBound | tiva-c-master/boards/ek-tm4c1294xl/m2x-launchpad-energia-master/M2XStreamClient/M2XStreamClient.cpp:222 | n decimal digits accumulate to a value in 0 .. 10^n - 1 |
| M2XReply.WaitForPrefix | tiva-c-master/boards/ek-tm4c1294xl/m2x-launchpad-energia-master/M2XStreamClient/M2XStreamClient.cpp:166-190 | input that starts with an occurrence of the pattern: E_OK with everything after it left unread |
| M2XReply.StatusLineRoundTrip | tiva-c-master/boards/ek-tm4c1294xl/m2x-launchpad-energia-master/M2XStreamClient/M2XStreamClient.cpp:206-227 | a status line `HTTP/x.y ` followed by a three-digit code reads back as that code, with the rest left unread |
| M2XReply.StatusCodeRange | tiva-c-master/boards/ek-tm4c1294xl/m2x-launchpad-energia-master/M2XStreamClient/M2XStreamClient.cpp:222-227 | three digits after the status pattern give a code in 0..999 |
| M2XReply.LengthField | tiva-c-master/boards/ek-tm4c1294xl/m2x-launchpad-energia-master/M2XStreamClient/M2XStreamClient.cpp:253-263 | each step of the length loop consumes at least one character, or all of them, and the value it returns fits a 32-bit `int` |
| M2XReply.ContentLength | tiva-c-master/boards/ek-tm4c1294xl/m2x-launchpad-energia-master/M2XStreamClient/M2XStreamClient.cpp:244-276 | `readContentLength` consumes only input it is given and returns a 32-bit `int` |
| M2XReply.LengthFieldAppend | tiva-c-master/boards/ek-tm4c1294xl/m2x-launchpad-energia-master/M2XStreamClient/M2XStreamClient.cpp:254-262 | characters before the line end accumulate into the value |
| M2XReply.LengthFieldDigits | tiva-c-master/boards/ek-tm4c1294xl/m2x-launchpad-energia-master/M2XStreamClient/M2XStreamClient.cpp:258-261 | digits ended by CR or LF give their decimal value reduced to a 32-bit `int` (the value itself below 2^31), E_INVALID when that is 0, leaving what follows the line end unread |
| M2XReply.ContentLengthRoundTrip | tiva-c-master/boards/ek-tm4c1294xl/m2x-launchpad-energia-master/M2XStreamClient/M2XStreamClient.cpp:244-262 | the `Content-Length:` line `writeHttpHeader` writes (lines 160-161) for any positive `int` length reads back as that length, leaving the LF unread |
| M2XReply.ContentLengthNotZero | tiva-c-master/boards/ek-tm4c1294xl/m2x-launchpad-energia-master/M2XStreamClient/M2XStreamClient.cpp:259 | `readContentLength` never returns 0 |
| M2XReply.LengthFieldNotZero | tiva-c-master/boards/ek-tm4c1294xl/m2x-launchpad-energia-master/M2XStreamClient/M2XStreamClient.cpp:258-262 | the length loop never returns 0, whatever it has accumulated |
| M2XReply.AccumulateIntWraps | tiva-c-master/boards/ek-tm4c1294xl/m2x-launchpad-energia-master/M2XStreamClient/M2XStreamClient.cpp:261 | `ret = ret * 10 + (c - '0')` on a 32-bit `int` ends with the exact decimal value reduced modulo 2^32 into the `int` range |
| M2XReply.ContentLengthWraps | tiva-c-master/boards/ek-tm4c1294xl/m2x-launchpad-energia-master/M2XStreamClient/M2XStreamClient.cpp:244-262 | a `Content-Length:` line with any positive decimal value reads back as that value reduced to a 32-bit `int` (E_INVALID when it reduces to 0), leaving the LF unread |
| M2XReply.ReadBodyLengthOverflow | tiva-c-master/boards/ek-tm4c1294xl/m2x-launchpad-energia-master/M2XStreamClient/M2XStreamClient.cpp:293-297 | a length from 2^31 to 2^32 - 1 is read as the negative `int` n - 2^32, which the body reader returns as its error code without reading further |
| M2XReply.MatchSkips | tiva-c-master/boards/ek-tm4c1294xl/m2x-launchpad-energia-master/M2XStreamClient/M2XStreamClient.cpp:187-190 | characters the first pattern character rejects are passed over one by one with the matcher at the start of the pattern |
| M2XReply.MatchResets | tiva-c-master/boards/ek-tm4c1294xl/m2x-launchpad-energia-master/M2XStreamClient/M2XStreamClient.cpp:187-190 | a character rejected at position k and at position 0 sends the matcher back to position 0 and is not looked at again |
| M2XReply.AcceptsLineEnd | tiva-c-master/boards/ek-tm4c1294xl/m2x-launchpad-energia-master/M2XStreamClient/M2XStreamClient.cpp:176-182 | a CR or LF pattern character accepts itself and nothing else, with or without case folding |
| M2XReply.ReadBodyAfterLengthLine | tiva-c-master/boards/ek-tm4c1294xl/m2x-launchpad-energia-master/M2XStreamClient/M2XStreamClient.cpp:293-320 | after a `Content-Length` line with a positive `int` value, the body reader skips to where the header-end wait succeeds and reads from there |
| M2XReply.HeaderEndAfterLines | tiva-c-master/boards/ek-tm4c1294xl/m2x-launchpad-energia-master/M2XStreamClient/M2XStreamClient.cpp:278-280 | after CR LF, header lines each ended by CR LF and then an empty line, the `\r\n\r\n` wait ends exactly after the empty line |
| M2XReply.HeaderEndAfterLengthLine | tiva-c-master/boards/ek-tm4c1294xl/m2x-launchpad-energia-master/M2XStreamClient/M2XStreamClient.cpp:278-280 | the LF left unread after the `Content-Length` line, then one or more header lines and an empty line: the `\r\n\r\n` wait ends exactly where the body starts |
| M2XReply.ReadBodyAfterLaterHeader | tiva-c-master/boards/ek-tm4c1294xl/m2x-launchpad-energia-master/M2XStreamClient/M2XStreamClient.cpp:293-320 | when another header line follows `Content-Length`, the body reader skips the header and reads exactly the bytes after the empty line as the body |
| M2XReply.ReadBodyMissesLastLengthHeader | tiva-c-master/boards/ek-tm4c1294xl/m2x-launchpad-energia-master/M2XStreamClient/M2XStreamClient.cpp:258-259 | when `Content-Length` is the last header and the body has no CR, the header skip never completes: the read polls forever, or returns E_DISCONNECTED once the server has gone |
| M2XReply.LastLengthHeaderExample | tiva-c-master/boards/ek-tm4c1294xl/m2x-launchpad-energia-master/M2XStreamClient/M2XStreamClient.cpp:258-259 | `Content-Length: 2\r\n\r\n{}` never reaches its body |
| M2XReply.BlankLineRestSkipsLine | tiva-c-master/boards/ek-tm4c1294xl/m2x-launchpad-energia-master/M2XStreamClient/M2XStreamClient.cpp:187-190 | LF followed by a header line: the LF starts the LF CR LF pattern, the line's first character sends the matcher back to the start, and the rest of the line up to its CR is passed over |
| M2XReply.BlankLineRestAfterLines | tiva-c-master/boards/ek-tm4c1294xl/m2x-launchpad-energia-master/M2XStreamClient/M2XStreamClient.cpp:278-280 | after the LF left unread, header lines each ended by CR LF and an empty line (none at all included), the wait for LF CR LF ends exactly after the empty line |
| M2XReply.BlankLineRestAfterLengthLine | tiva-c-master/boards/ek-tm4c1294xl/m2x-launchpad-energia-master/M2XStreamClient/M2XStreamClient.cpp:278-280 | the LF left unread after the `Content-Length` line, any header lines and an empty line: the wait for LF CR LF ends exactly where the body starts |
| M2XReply.ReadBodyIntendedReadsBody | tiva-c-master/boards/ek-tm4c1294xl/m2x-launchpad-energia-master/M2XStreamClient/M2XStreamClient.cpp:293-320 | with the header skip waiting for the rest of the blank line, the body is read whether `Content-Length` is the last header or not |
| M2XReply.ChunkLoopRound | tiva-c-master/boards/ek-tm4c1294xl/m2x-launchpad-energia-master/M2XStreamClient/M2XStreamClient.cpp:320-347 | one round of the chunk loop: give up on a short body from a closed connection, stop on a tokenizer error, poll forever on an empty buffer from an open one, else carry on with the buffer handed over |
| M2XReply.ChunkLoopPrefix | tiva-c-master/boards/ek-tm4c1294xl/m2x-launchpad-energia-master/M2XStreamClient/M2XStreamClient.cpp:320-347 | the buffers handed to the tokenizer are, in order, a prefix of the body as received |
| M2XReply.ChunkLoopBufferSize | tiva-c-master/boards/ek-tm4c1294xl/m2x-launchpad-energia-master/M2XStreamClient/M2XStreamClient.cpp:324-327 | each buffer holds at most `BUF_LEN` bytes |
| M2XReply.ChunkLoopShort | tiva-c-master/boards/ek-tm4c1294xl/m2x-launchpad-energia-master/M2XStreamClient/M2XStreamClient.cpp:330-336 | E_NOCONNECTION only when the server has gone and the body is short; polling forever only when it is open and the body is short |
| M2XReply.ChunkLoopCodes | tiva-c-master/boards/ek-tm4c1294xl/m2x-launchpad-energia-master/M2XStreamClient/M2XStreamClient.cpp:330-351 | the loop returns only E_OK, E_NOCONNECTION or E_JSON_INVALID |
| M2XReply.ChunkLoopSuccessLength | tiva-c-master/boards/ek-tm4c1294xl/m2x-launchpad-energia-master/M2XStreamClient/M2XStreamClient.cpp:320-347 | on success at least the declared length and fewer than length + `BUF_LEN` bytes were read |
| M2XReply.ChunkLoopSuccessVerdict | tiva-c-master/boards/ek-tm4c1294xl/m2x-launchpad-energia-master/M2XStreamClient/M2XStreamClient.cpp:338-351 | on success the tokenizer's verdict on everything fed to it is ok |
| M2XReply.CompleteBodyIsRead | tiva-c-master/boards/ek-tm4c1294xl/m2x-launchpad-energia-master/M2XStreamClient/M2XStreamClient.cpp:320-351 | a body that has fully arrived ends in E_OK or E_JSON_INVALID, never in a lost connection or a hang |
| M2XReply.ReadBodyOk | tiva-c-master/boards/ek-tm4c1294xl/m2x-launchpad-energia-master/M2XStreamClient/M2XStreamClient.cpp:288-352 | a body read succeeds only after a positive Content-Length and a tokenizer that accepted at least that many bytes, over-reading by less than one buffer |
| M2XClient.Client.Print | tiva-c-master/boards/ek-tm4c1294xl/m2x-launchpad-energia-master/M2XStreamClient/M2XStreamClient.cpp:118 | `print` appends its text and returns the number of bytes written |
| M2XClient.Client.Read | tiva-c-master/boards/ek-tm4c1294xl/m2x-launchpad-energia-master/M2XStreamClient/M2XStreamClient.cpp:172 | `read` returns the first available byte and removes it |
| M2XClient.Client.Close | tiva-c-master/boards/ek-tm4c1294xl/m2x-launchpad-energia-master/M2XStreamClient/M2XStreamClient.cpp:282-286 | `flush` and `stop`: unread input dropped, connection closed, nothing written |
| M2XClient.PrintEncodedString | tiva-c-master/boards/ek-tm4c1294xl/m2x-launchpad-energia-master/M2XStreamClient/M2XStreamClient.cpp:110-127 | the connection receives the percent-encoding of the string, and the return value is its length, the string's length plus twice the escaped bytes |
| M2XClient.PrintEncodedByte | tiva-c-master/boards/ek-tm4c1294xl/m2x-launchpad-energia-master/M2XStreamClient/M2XStreamClient.cpp:113-124 | one byte: itself if unreserved, else `%` and two hex digits |
| M2XClient.WriteQueryPart | tiva-c-master/boards/ek-tm4c1294xl/m2x-launchpad-energia-master/M2XStreamClient/M2XStreamClient.cpp:39-50 | `WRITE_QUERY_PART` writes the part (`?` or `&` as started says) and returns the started flag, set once a value is present |
| M2XClient.M2XStreamClient.constructor | tiva-c-master/boards/ek-tm4c1294xl/m2x-launchpad-energia-master/M2XStreamClient/M2XStreamClient.cpp:27-37 | the client keeps its connection, key, case flag, host and port |
| M2XClient.M2XStreamClient.WriteFetchQuery | tiva-c-master/boards/ek-tm4c1294xl/m2x-launchpad-energia-master/M2XStreamClient/M2XStreamClient.cpp:66-68 | the connection receives the query string of start, end and limit |
| M2XClient.M2XStreamClient.WriteHttpHeader | tiva-c-master/boards/ek-tm4c1294xl/m2x-launchpad-energia-master/M2XStreamClient/M2XStreamClient.cpp:141-164 | the connection receives exactly the header text: user agent, key, encoded host, port when not 80, the body lines for a positive length, an empty line |
| M2XClient.M2XStreamClient.WaitForString | tiva-c-master/boards/ek-tm4c1294xl/m2x-launchpad-energia-master/M2XStreamClient/M2XStreamClient.cpp:166-204 | the loop returns what the matcher decides and leaves the input after the match unread |
| M2XClient.M2XStreamClient.ReadStatusCode | tiva-c-master/boards/ek-tm4c1294xl/m2x-launchpad-energia-master/M2XStreamClient/M2XStreamClient.cpp:206-242 | returns the status code as read, closing the connection on return exactly when asked to |
| M2XClient.M2XStreamClient.ReadContentLength | tiva-c-master/boards/ek-tm4c1294xl/m2x-launchpad-energia-master/M2XStreamClient/M2XStreamClient.cpp:244-276 | the loop over the connection returns what `ContentLength` decides, accumulating in a 32-bit `int`, and leaves the rest of the input unread |
| M2XClient.M2XStreamClient.SkipHttpHeader | tiva-c-master/boards/ek-tm4c1294xl/m2x-launchpad-energia-master/M2XStreamClient/M2XStreamClient.cpp:278-280 | waits for CR LF CR LF and leaves the body unread |
| M2XClient.M2XStreamClient.ReadJsonBody | tiva-c-master/boards/ek-tm4c1294xl/m2x-launchpad-energia-master/M2XStreamClient/M2XStreamClient.cpp:293-351 | the outcome and buffers of the body reader, with the connection closed on every return |
| M2XClient.M2XStreamClient.ReadChunks | tiva-c-master/boards/ek-tm4c1294xl/m2x-launchpad-energia-master/M2XStreamClient/M2XStreamClient.cpp:319-347 | the chunk loop over the connection, as the chunk-loop function describes it |
| M2XClient.M2XStreamClient.ReadBuffer | tiva-c-master/boards/ek-tm4c1294xl/m2x-launchpad-energia-master/M2XStreamClient/M2XStreamClient.cpp:321-327 | reads `BUF_LEN` bytes or all that are available, whichever is fewer, from the front of the input |
| M2XClient.M2XStreamClient.ReadStreamValue | tiva-c-master/boards/ek-tm4c1294xl/m2x-launchpad-energia-master/M2XStreamClient/M2XStreamClient.cpp:288-352 | `readStreamValue` reads its body 32 bytes at a time |
| M2XClient.M2XStreamClient.ReadLocation | tiva-c-master/boards/ek-tm4c1294xl/m2x-launchpad-energia-master/M2XStreamClient/M2XStreamClient.cpp:354-418 | `readLocation` reads its body 40 bytes at a time |
| StreamParse.Initial | tiva-c-master/boards/ek-tm4c1294xl/m2x-launchpad-energia-master/M2XStreamClient/M2XStreamClient.cpp:306-307 | the parser starts with no flags, index 0 and nothing reported |
| StreamParse.KeyFound | tiva-c-master/boards/ek-tm4c1294xl/m2x-launchpad-energia-master/M2XStreamClient/StreamParseFunctions.h:30-41 | a key starting with `at` arms `at`; one starting with `value` but not `values` arms `value`; no other flag or field changes |
| StreamParse.Fill | tiva-c-master/boards/ek-tm4c1294xl/m2x-launchpad-energia-master/M2XStreamClient/StreamParseFunctions.h:49-59 | filling a buffer neither reports nor moves the index |
| StreamParse.StringFoundFills | tiva-c-master/boards/ek-tm4c1294xl/m2x-launchpad-energia-master/M2XStreamClient/StreamParseFunctions.h:49-59 | a string fills `at` exactly when `at` is armed and empty, else `value` exactly when it is armed and empty, truncated to 20 characters; otherwise nothing changes |
| StreamParse.StringFoundEmits | tiva-c-master/boards/ek-tm4c1294xl/m2x-launchpad-energia-master/M2XStreamClient/StreamParseFunctions.h:61-65 | a value is reported exactly when both fields are filled, with the current index, which then goes up by one as the flags clear |
| StreamParse.FlagsAccumulate | tiva-c-master/boards/ek-tm4c1294xl/m2x-launchpad-energia-master/M2XStreamClient/StreamParseFunctions.h:36-58 | between two reports the flags are only ever set, never cleared |
| StreamParse.StepKeepsInvariants | tiva-c-master/boards/ek-tm4c1294xl/m2x-launchpad-energia-master/M2XStreamClient/StreamParseFunctions.h:30-66 | each callback keeps the reported indices consecutive and every string within 20 characters |
| StreamParse.RunKeepsInvariants | tiva-c-master/boards/ek-tm4c1294xl/m2x-launchpad-energia-master/M2XStreamClient/StreamParseFunctions.h:30-66 | so does any sequence of callbacks |
| StreamParse.RunReportsInOrder | tiva-c-master/boards/ek-tm4c1294xl/m2x-launchpad-energia-master/M2XStreamClient/StreamParseFunctions.h:61-64 | from the initial state the reports carry the indices 0, 1, 2, … and the running index counts them |
| StreamParse.RunIndexCount | tiva-c-master/boards/ek-tm4c1294xl/m2x-launchpad-energia-master/M2XStreamClient/StreamParseFunctions.h:61-64 | the index goes up exactly by the number of reports |
| StreamParse.RunAppends | tiva-c-master/boards/ek-tm4c1294xl/m2x-launchpad-energia-master/M2XStreamClient/StreamParseFunctions.h:61-65 | reports are only ever appended |
| StreamParse.StreamParsingContext.constructor | tiva-c-master/boards/ek-tm4c1294xl/m2x-launchpad-energia-master/M2XStreamClient/M2XStreamClient.cpp:306-307 | the context starts in the initial state |
| StreamParse.StreamParsingContext.OnKeyFound | tiva-c-master/boards/ek-tm4c1294xl/m2x-launchpad-energia-master/M2XStreamClient/StreamParseFunctions.h:30-41 | the context's new state is the key step of the old one |
| StreamParse.StreamParsingContext.OnStringFound | tiva-c-master/boards/ek-tm4c1294xl/m2x-launchpad-energia-master/M2XStreamClient/StreamParseFunctions.h:43-66 | the context's new state is the string step of the old one |
| LocationParse.FlagsAreDistinctBits | tiva-c-master/boards/ek-tm4c1294xl/m2x-launchpad-energia-master/M2XStreamClient/LocationParseFunctions.h:26-39 | the ten flags are distinct single bits of the 16-bit state, and the GOT flags make up `GOT_LOCATION` 0x3E0 |
| LocationParse.FirstArmedIsFirst | tiva-c-master/boards/ek-tm4c1294xl/m2x-launchpad-energia-master/M2XStreamClient/LocationParseFunctions.h:76-95 | a string goes to the first field, in the order name, latitude, longitude, elevation, timestamp, that is armed and not yet filled |
| LocationParse.KeyFieldIsFirst | tiva-c-master/boards/ek-tm4c1294xl/m2x-launchpad-energia-master/M2XStreamClient/LocationParseFunctions.h:58-68 | a key arms the first field, in the callback's order, whose name it starts with |
| LocationParse.Stored | tiva-c-master/boards/ek-tm4c1294xl/m2x-launchpad-energia-master/M2XStreamClient/LocationParseFunctions.h:77-93 | name and timestamp are stored truncated to 20 characters |
| LocationParse.Initial | tiva-c-master/boards/ek-tm4c1294xl/m2x-launchpad-energia-master/M2XStreamClient/M2XStreamClient.cpp:372-373 | the parser starts with no flags, index 0 and nothing reported |
| LocationParse.Classify | tiva-c-master/boards/ek-tm4c1294xl/m2x-launchpad-energia-master/M2XStreamClient/LocationParseFunctions.h:55-68 | a key that arms a field names one of the five fields |
| LocationParse.Fill | tiva-c-master/boards/ek-tm4c1294xl/m2x-launchpad-energia-master/M2XStreamClient/LocationParseFunctions.h:76-95 | filling a field neither reports nor moves the index |
| LocationParse.KeyRule | tiva-c-master/boards/ek-tm4c1294xl/m2x-launchpad-energia-master/M2XStreamClient/LocationParseFunctions.h:51-69 | `waypoints` clears every flag; a field's key sets that field's WAITING flag and no other; any other key changes nothing |
| LocationParse.FillRule | tiva-c-master/boards/ek-tm4c1294xl/m2x-launchpad-energia-master/M2XStreamClient/LocationParseFunctions.h:71-95 | a string fills exactly the first armed field and sets its GOT flag and no other; with no field armed nothing changes |
| LocationParse.StringFoundEmits | tiva-c-master/boards/ek-tm4c1294xl/m2x-launchpad-energia-master/M2XStreamClient/LocationParseFunctions.h:97-102 | a location is reported exactly when all five GOT flags are set, with the current index, which then goes up by one as the flags clear |
| LocationParse.StepKeepsReports | tiva-c-master/boards/ek-tm4c1294xl/m2x-launchpad-energia-master/M2XStreamClient/LocationParseFunctions.h:51-103 | each callback keeps every report at its position and its name and timestamp within 20 characters |
| LocationParse.RunReportsInOrder | tiva-c-master/boards/ek-tm4c1294xl/m2x-launchpad-energia-master/M2XStreamClient/LocationParseFunctions.h:97-102 | from the initial state the locations are reported with the indices 0, 1, 2, … |
| LocationParse.RunKeepsReports | tiva-c-master/boards/ek-tm4c1294xl/m2x-launchpad-energia-master/M2XStreamClient/LocationParseFunctions.h:51-103 | any sequence of callbacks keeps the reports in order and within bounds |
| LocationParse.LocationParsingContext.constructor | tiva-c-master/boards/ek-tm4c1294xl/m2x-launchpad-energia-master/M2XStreamClient/M2XStreamClient.cpp:372-373 | the context starts in the initial state |
| LocationParse.LocationParsingContext.OnKeyFound | tiva-c-master/boards/ek-tm4c1294xl/m2x-launchpad-energia-master/M2XStreamClient/LocationParseFunctions.h:51-69 | the context's new state is the key step of the old one |
| LocationParse.LocationParsingContext.OnStringFound | tiva-c-master/boards/ek-tm4c1294xl/m2x-launchpad-energia-master/M2XStreamClient/LocationParseFunctions.h:71-103 | the context's new state is the string step of the old one |
| Words.Wrap | examples/boards/my_projects/switch_counter_interrupt/switch_counter_interrupt.c:79 | `count++` on a 32-bit `unsigned long`: the result is the sum modulo 2^32, and unchanged when it is in range |
| Words.WrapInt | tiva-c-master/boards/ek-tm4c1294xl/m2x-launchpad-energia-master/M2XStreamClient/M2XStreamClient.cpp:261 | an `int` result on the 32-bit target: congruent to the exact value modulo 2^32, in [-2^31, 2^31), and the value itself when it is in range |
| Words.WrapAdd | examples/boards/my_projects/ADC_temperature/ADC_temperature.c:57 | reducing a partial sum modulo 2^32 before the next addition does not change the result |
| Words.TruncDiv | examples/boards/my_projects/ADC_temperature/ADC_temperature.c:58 | C's `/` truncates towards zero, also for negative dividends |
| Words.TruncDivMonotone | examples/boards/my_projects/ADC_temperature/ADC_temperature.c:58 | truncating division keeps the order of its dividends |
| Words.MaskedWrite | examples/boards/my_projects/ADCSWTrigger_4C1294/ADCSWTrigger.c:284-296 | `R = (R & ~M) + v` with v inside the field puts v in the field and leaves every other bit |
| Words.MaskedWriteInField | examples/boards/my_projects/ADCSWTrigger_4C1294/ADCSWTrigger.c:284-296 | with v inside the field the `+` of the idiom is an `or` |
| Words.MaskedWriteTwice | examples/boards/my_projects/ADCSWTrigger_4C1294/ADCSWTrigger.c:284-296 | writing the same field value twice is writing it once |

## Left out

- Network I/O of the M2X client: `connect`, `available`, `connected`, `delay`, `flush` and `stop` are not modelled as calls. The connection is the bytes it will deliver plus a flag saying whether the server keeps it open once they are used up. The client's loops that poll an open connection with no byte available never end; that outcome is `Hang` rather than a precondition.
- `fetchValues` and `readLocation(feedId, ...)` (M2XStreamClient.cpp:52-106): the `connect` call and the fixed request-line text are not modelled. Only the query string, the header, the status code and the body reading they call are modelled.
- `writePostHeader` (M2XStreamClient.cpp:129-139) is not modelled. It prints fixed text around two percent-encoded names.
- The jsonlite tokenizer is third-party code that is not part of this model. The chunk loop sees it as a function from the bytes fed so far to its verdict. The two callback state machines are driven by an explicit sequence of key and string tokens. The model does not connect the buffers to the tokens the tokenizer would report for them.
- `atof` and the `double` latitude, longitude and elevation fields: the location callbacks keep the token text. Floating-point conversion is not modelled.
- M2XStreamClient.h is not part of this model. `E_OK` 0, `E_NOCONNECTION` -1, `E_DISCONNECTED` -2, `E_INVALID` -4, `E_JSON_INVALID` -5 and the default port 80 are the values of the M2X Arduino library. `USER_AGENT` is a parameter. `HEX` is taken to give upper-case digits.
- Only the ASCII `tolower` (M2XStreamClient.cpp:14-21) is modelled. The C library's `tolower` on other platforms is not.
- `print_encoded_string` is modelled for bytes 0..255. Plain `char` is unsigned on the ARM target, so `str[i] / 16` is the high nibble. A signed-`char` target would print other digits for bytes of 0x80 and above, which the model does not capture.
- Arduino's `print` is taken to write every byte it is given and to return their number.
- Register hardware behaviour is not modelled: clock gating, the waits on the peripheral-ready and raw-interrupt registers, write-1-to-clear acknowledge registers, ADC conversion, uDMA transfers and NVIC priority arbitration. Registers are plain 32-bit words, and bits the hardware sets (raw interrupt status, FIFO words, uDMA modes) are inputs.
- `SysCtlClockFreqSet` and the PLL set-up, `SysCtlDelay` (including the debounce delay), `IntMasterEnable` and `cpsie i` are recorded as calls or left out. Their timing is not modelled.
- Interrupt concurrency: each handler is one atomic step, and `main`'s idle loops are not modelled.
- TI's driver library is not part of this model. Calls into it are recorded in ghost logs with their arguments, and only the effects that the examples depend on are modelled (`ADCSequenceDataGet` copying FIFO words, `uDMAChannelTransferSet` and `uDMAChannelModeGet` on the control structures).
- `ADC0_Init` and `main` of ADC_temperature.c, ADC_DMA/ADC_DMA.c and ADC_DMA_2/ADC_DMA.c are not modelled. They are fixed sequences of driver-library set-up calls with constant arguments. Their handlers and `DMA_Init` are modelled.
- `uDMAControlBaseSet(ui8ControlTable)` is recorded without its argument: the control table's address and its 1024-byte alignment are not modelled. The `UDMA_*` arguments of the uDMA calls are recorded by meaning (attribute names, item size and increments in bits, arbitration size), not by their numeric values.
- `IntGlobalEnable` in the switch counters is a single `cpsie i` instruction. It is recorded as a call, in order, and has no other effect in the model. `IntGlobalDisable` is never called.
- The LED counter statement `GPIO_PORTN_DATA_R = (++GPIO_PORTN_DATA_R)%4` (ADC_temperature.c:61, ADC_DMA_2/ADC_DMA.c:279 and 332) writes the register twice with no sequence point between the writes. It is modelled as one write of `(x + 1) % 4`.
- LocationParse: the `uint16_t` state word is modelled as a set of flags. `LocationParse.Bit` maps each flag to its bit, and `FlagsAreDistinctBits` shows the sets and the words correspond.
- M2XReply.StatusCode, M2XReply.ContentLength: their own contracts say only that they consume input they are given and, for `ContentLength`, that it returns a 32-bit `int`. What they return is stated by `StatusLineRoundTrip`, `StatusCodeRange`, `LengthFieldDigits`, `ContentLengthWraps`, `ContentLengthRoundTrip` and `ContentLengthNotZero`.
- M2XReply.LengthStep: C leaves the overflow of `ret * 10 + (c - '0')` in the `int` accumulator undefined. The model gives it the 32-bit two's-complement wrap that the ARM target's multiply and add produce.
- AdcTestMain.SetUpSampling, AdcTestMain.SetUpOutputs: `main`'s set-up (ADCTestMain.c:84-99) is modelled as these two halves, each with the full register state it leaves. No member states their composition in sequence: the composed proof was not carried out.

## Findings

| source | as written | input that shows it | evidently intended | confidence | as-written member | corrected member |
|---|---|---|---|---|---|---|
| examples/boards/my_projects/ADCSWTrigger_4C1294/ADCSWTrigger.c:278-279 | the two masked copies of ADC0_CC are or-ed, so each gives back the field the other cleared: the result is CC or-ed with 0xE0 | CC = 0x1 before the write gives 0xE1, not 0xE0 | divider field 14 and clock source SYSPLL, other bits kept | not executed | AdcSeq3.CcAsWrittenDiffers | AdcSeq3.CcIntended |
| examples/boards/my_projects/ADCSWTrigger_4C1294/ADCSWTrigger.c:166-171 | channel 4 sets AFSEL bit 0x80 (PD7) but clears DEN and sets AMSEL on bit 0x08 (PD3) | channel 4: PD7 stays a digital pin and PD3 loses its digital function | DEN and AMSEL on PD7, the pin of AIN4 | not executed | AdcSeq3.ChannelFourLeavesPd7Digital | AdcSeq3.IntendedRouteIsAnalogInput |
| examples/boards/my_projects/ADC_temperature/ADC_temperature.c:58 | `1475 - (2475 * avg) / 4096` is computed in `uint32_t` and wraps below 0 C | average code 2443 gives 429496729 C | signed arithmetic: 0 C at code 2443, down to -99 C at 4095 | not executed | Temperature.CelsiusAt2443 | Temperature.SignedCelsiusCorrect |
| examples/boards/my_projects/switch_counter_interrupt_debounce/switch_counter_interrupt.c:63 | `NVIC_PRI12_R &= ~0x40000000` clears the bit that holds priority 2 | any PRI12 value: interrupt 51's priority is never 2, and from reset it stays 0 | interrupt 51's priority field set to 2 (0x40000000) | not executed | SwitchCounterDebounce.ButtonPriorityNeverTwo | SwitchCounterDebounce.ButtonPriorityTwoIsTwo |
| tiva-c-master/boards/ek-tm4c1294xl/m2x-launchpad-energia-master/M2XStreamClient/M2XStreamClient.cpp:258-259 | `readContentLength` stops at the CR of the `Content-Length` line and leaves its LF unread, and `skipHttpHeader` (lines 278-280) then waits for CR LF CR LF | `Content-Length: 2\r\n\r\n{}` with `Content-Length` the last header: only LF CR LF is left before the body, so the wait never ends | the body is read whichever header comes last | not executed | M2XReply.ReadBodyMissesLastLengthHeader | M2XReply.ReadBodyIntendedReadsBody |
