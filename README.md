# ADC acquisition core of the DueMotorCtrl motor controller

This project models `adc.cpp`, the analog-acquisition core of a motor controller. The PWM hardware triggers
the ADC. The ADC converts seven enabled channels. A DMA transfer writes one 16-bit sample per
channel into the seven-slot buffer `adc_buf`. The end-of-buffer interrupt then runs `ADC_Handler`. The handler:

- copies each slot, masked to its 12 data bits, into the raw field of the sensor that slot is wired to
  (bus voltage, two phase currents, two inverter temperatures, two motor temperatures);
- re-arms the DMA receive pointer and counter;
- increments `interruptCount`;
- hands off to the V/Hz or the FOC control update, chosen by `settings.controlType`;
- on a comparison event, overwrites the raw bus voltage with the sentinel 4000.

Seven getters turn a raw field into a calibrated value, `(raw - bias) * scale`.

Modules:

- `AdcBits` (`bits.dfy`) holds the 12-bit mask, the two status flags of ADC_ISR (bit 27, end of receive
  buffer; bit 26, comparison event), and the constants `setup_adc` programs (buffer length 7,
  channel-enable mask 0xFD, DMA count 7).
- `ChannelMap` (`channel_map.dfy`) holds the seven sensors and the fixed slot-to-sensor wiring. It proves
  that the wiring is a bijection.
- `Calibration` (`calibration.dfy`) holds the calibration transform in int32 and the configuration fields it reads.
  It proves a round trip, monotonicity and an overflow bound.
- `Acquisition` (`acquisition.dfy`) states one handler run on values:
  - the new raw state (`NextChannels`) and the new controller state, raw fields plus DMA registers plus counter (`Step`);
  - the ordered side effects (`CycleEvents`): latch, re-arm, count, dispatch, bus fault. Each event records the
    controller state right after it, so a dispatch records the state the control update starts from.
  Per run it proves the order (the DMA is re-armed and the counter has moved before a control update starts),
  exclusivity and counting. Over any sequence of runs it proves the counts, that every control update starts
  with the DMA armed, and that the raw fields stay 12-bit.
- `Adc` (`adc.dfy`) holds the class `AdcController`. Its fields are the C++ globals: the seven raw fields,
  `adc_buf` as an array, the DMA pointer and count registers, and the counter. A ghost trace records the side
  effects, each with a snapshot of the fields taken when it happens. `Setup` models `setup_adc`. `Handler`
  models `ADC_Handler` and is proved against `Step` and `CycleEvents`. The getters are functions of the fields.

Inputs that come from outside the core are parameters:

- the status word read from ADC_ISR;
- the configuration store `settings` (the control mode and the bias/scale values);
- the link address of `adc_buf`.

`config.h`, `vhz`, `foc` and the Arduino/SAM3X headers are not part of this model.
The V/Hz and FOC updates appear only as `Dispatch` events in the trace.

Consequences of the handler's order and constants, modelled as the code has them:

- The fault sentinel is applied after the control update, not before it. When both status bits are
  set, the control update runs on the latched bus voltage (`Acquisition.HookSeesLatchedBusVoltage`).
- The sentinel 4000 is itself a valid 12-bit reading, so a raw bus voltage of 4000 does not by
  itself reveal a fault (`Acquisition.SentinelIsAReading`).
- `getMotorTemp2` uses the motor temperature 1 bias and scale (adc.cpp:130). This is modelled as written
  (`Calibration.BiasOf`, `Calibration.ScaleOf`, `Adc.AdcController.MotorTempsShareCalibration`).

## Model

| member | source | states |
|---|---|---|
| AdcBits.Mask | adc.cpp:25-31 | a masked slot is below 4096, and a slot already below 4096 passes through unchanged |
| AdcBits.MaskDropsUpperBits | adc.cpp:25-31 | setting any of the four bits above the 12-bit data width leaves the masked value unchanged |
| AdcBits.MaskIgnoresUpperBits | adc.cpp:25-31 | two slots with equal low 12 bits give the same raw value |
| AdcBits.EnableMaskCount | adc.cpp:76-84 | the channel-enable mask 0xFD has seven bits set, which equals the DMA count and the buffer length |
| AdcBits.EnableMaskChannels | adc.cpp:75-76 | 0xFD enables hardware channels 0 and 2 to 7 |
| ChannelMap.SlotOf | adc.cpp:25-31 | each sensor is read from a slot inside the seven-slot buffer |
| ChannelMap.SensorAt | adc.cpp:25-31 | each of the seven slots feeds a sensor whose slot is that slot, so SensorAt inverts SlotOf |
| ChannelMap.SlotOfRoundTrip | adc.cpp:25-31 | the sensor fed by a sensor's slot is that sensor |
| ChannelMap.SlotOfInjective | adc.cpp:25-31 | no two sensors share a slot |
| ChannelMap.SlotsAreAPermutation | adc.cpp:25-31 | the seven sensors use seven distinct slots, and every slot feeds one of them |
| Calibration.Calibrate | adc.cpp:92-96 | the physical value is (raw - bias) * scale, as a signed 32-bit value |
| Calibration.CalibrateRoundTrip | adc.cpp:92-131 | with a non-zero scale, the raw reading is recovered from the physical value |
| Calibration.CalibrateMonotone | adc.cpp:92-131 | a non-negative scale keeps the order of readings, and a non-positive scale reverses it |
| Calibration.FitsForTwelveBitReadings | adc.cpp:92-131 | a 12-bit reading with a 12-bit bias and a scale of magnitude at most 2^15 never overflows int32 |
| Calibration.CalibrateExamples | adc.cpp:92-96 | raw 2048, bias 0 and scale 1 give 2048; raw 0, bias 100 and scale 2 give -200 |
| Calibration.BiasOf | adc.cpp:92-132 | the bias each getter subtracts; the motor temperature 2 entry is the motor temperature 1 bias |
| Calibration.ScaleOf | adc.cpp:92-132 | the scale each getter multiplies by; the motor temperature 2 entry is the motor temperature 1 scale |
| Acquisition.Latched | adc.cpp:24-31 | on the end-of-buffer path each sensor's raw field is its wired slot ANDed with 0xFFF, and all seven fields are below 4096 |
| Acquisition.LatchedIgnoresUpperBits | adc.cpp:25-31 | buffers that agree on their low 12 bits latch the same raw state |
| Acquisition.NextChannels | adc.cpp:21-42 | bit 26 makes bus voltage 4000. Otherwise bus voltage is latched under bit 27 and unchanged without it. The other six fields are latched under bit 27 and unchanged without it, whatever bit 26 says. A 12-bit state stays 12-bit |
| Acquisition.Step | adc.cpp:21-42 | after one run the raw fields are NextChannels of the old ones. On bit 27 the DMA pointer is the buffer address, the count is 7 and the counter is one higher; without bit 27 all three are unchanged |
| Acquisition.HooksFor | adc.cpp:38-39 | mode 0 starts exactly one V/Hz update and mode 1 exactly one FOC update, each from the given state; any other mode starts none |
| Acquisition.CycleEvents | adc.cpp:24-41 | a run with neither status bit has no side effect, and otherwise the last side effect of the run records exactly the state Step describes |
| Acquisition.CycleDispatchSeesArmed | adc.cpp:25-39 | the counter moves with the DMA already re-armed, and a control update starts from the state with the slots latched, the DMA re-armed on the buffer with count 7 and the counter one higher |
| Acquisition.CompareBitAppendsFault | adc.cpp:41 | setting bit 26 leaves the rest of the run as it is without bit 26 and adds one fault event at the end, after which the raw bus voltage is 4000 |
| Acquisition.EndOfRxBitPrependsCapture | adc.cpp:24-41 | setting bit 27 runs the whole end-of-buffer block first and then the rest of the run, from the state that block leaves |
| Acquisition.CycleRearmsFirst | adc.cpp:33-39 | in every handler run the DMA is re-armed before the counter increment and before any control update |
| Acquisition.CycleDispatchesOnce | adc.cpp:36-40 | exactly one control update runs when bit 27 is set and the mode is 0 or 1, and none otherwise. Mode 0 runs V/Hz and mode 1 runs FOC |
| Acquisition.CycleCountsOnce | adc.cpp:24-36 | the counter event occurs exactly once when bit 27 is set, and never otherwise |
| Acquisition.CycleTallies | adc.cpp:24-41 | appending a handler run to a trace adds one counter event exactly on the bit-27 path, and at most one control update |
| Acquisition.HookSeesLatchedBusVoltage | adc.cpp:38-41 | with both bits set, the control update sees the latched bus voltage, and only afterwards does the sentinel replace it |
| Acquisition.SentinelIsAReading | adc.cpp:41 | the sentinel 4000 is a 12-bit value. A capture whose bus slot reads 4000 yields the same raw state with or without the fault bit |
| Acquisition.RunState | adc.cpp:21-42 | after any sequence of interrupts the counter has risen by the number of interrupts with bit 27 set |
| Acquisition.Run | adc.cpp:21-42 | over any sequence of interrupts, the last side effect recorded is the state the sequence leaves, and no side effect means the state is unchanged |
| Acquisition.RunDispatchesArmed | adc.cpp:33-39 | over any sequence of interrupts, every control update starts with the DMA pointer on the buffer and the count at 7 |
| Acquisition.RunTallies | adc.cpp:21-42 | over any sequence of interrupts, the control updates equal the bit-27 interrupts taken in mode 0 or 1, and the counter events equal the bit-27 interrupts |
| Acquisition.RunStaysTwelveBit | adc.cpp:21-42 | starting from 12-bit raw values, every raw field stays below 4096 over any sequence of interrupts |
| Adc.AdcController.Setup | adc.cpp:44-84 | after setup the counter is zero (line 46) and the DMA is armed with the buffer address and a count of 7 (lines 83-84); the raw fields are zero, as the globals are zero-initialised (lines 12-18) |
| Adc.AdcController.Handler | adc.cpp:21-42 | the fields (raw values, DMA registers, counter) become exactly Step of the old ones, and the trace grows by exactly CycleEvents from the old state, whose snapshots pin the order of the updates. The invariant (12-bit raw fields, counter = counter events, last event = current state) is kept |
| Adc.AdcController.EndOfCapture | adc.cpp:24-40 | the bit-27 block leaves the state AfterCapture describes, and its events are those of CaptureEvents: each snapshot taken after latching, after re-arming, after counting and at the hand-off matches the one that order produces, so re-arming or counting after the hand-off fails to verify |
| Adc.AdcController.StartControlUpdate | adc.cpp:38-39 | the hand-off appends HooksFor of the current mode and the current state |
| Adc.AdcController.LatchSlots | adc.cpp:25-31 | the seven raw fields become the latched, masked buffer, and nothing else changes |
| Adc.AdcController.SubstituteBusFault | adc.cpp:41 | only bus voltage changes, to 4000. The DMA registers and the counter are untouched, and the fault event records that state |
| Adc.AdcController.GetBusVoltage | adc.cpp:92-96 | (busVoltRaw - busVoltageBias) * busVoltageScale, within int32 |
| Adc.AdcController.GetCurrent1 | adc.cpp:98-102 | (current1Raw - current1Bias) * current1Scale, within int32 |
| Adc.AdcController.GetCurrent2 | adc.cpp:104-108 | (current2Raw - current2Bias) * current2Scale, within int32 |
| Adc.AdcController.GetInvTemp1 | adc.cpp:110-114 | (invTemp1Raw - inverterTemp1Bias) * inverterTemp1Scale, within int32 |
| Adc.AdcController.GetInvTemp2 | adc.cpp:116-120 | (invTemp2Raw - inverterTemp2Bias) * inverterTemp2Scale, within int32 |
| Adc.AdcController.GetMotorTemp1 | adc.cpp:122-126 | (motorTemp1Raw - motorTemp1Bias) * motorTemp1Scale, within int32 |
| Adc.AdcController.GetMotorTemp2 | adc.cpp:128-132 | (motorTemp2Raw - motorTemp1Bias) * motorTemp1Scale, which uses the motor temperature 1 calibration as written |
| Adc.AdcController.GettersFollowTable | adc.cpp:92-132 | each getter is the one calibration transform applied to its sensor's raw field and to that sensor's entry in the bias/scale table |
| Adc.AdcController.MotorTempsShareCalibration | adc.cpp:128-132 | with equal raw fields the two motor-temperature getters return the same value |

## Left out

- Register programming in `setup_adc` (adc.cpp:48-89) is memory-mapped hardware I/O and is not modelled. This
  covers the peripheral clock, `adc_init`, the ADC_MR timing and trigger fields, ADC_IDR/ADC_IER,
  ADC_RNPR/ADC_RNCR, ADC_PTCR and the NVIC enable. Only the constants it shares with the handler are
  modelled: the enable mask, the DMA count and the buffer address.
- The timing estimate in the comment at adc.cpp:51-65 is hardware behaviour and is not asserted.
- The disabled comparison-window setup (adc.cpp:78-79) is commented-out code.
- The DMA engine filling `adc_buf` is hardware. The buffer holds whatever the transfer delivered, and the
  model does not advance ADC_RPR/ADC_RCR between interrupts.
- Interrupt preemption and `volatile` semantics are not modelled. The handler runs as one atomic sequential step.
- The bodies of `updatePosVHz` and `updateFOC` are not modelled. Each call is recorded as a `Dispatch` event that
  carries the raw state it runs on.
- Handler: `settings.controlType` is read from one `Settings` value for the whole run. The source reads it again after
  `updatePosVHz`, so a V/Hz update that changed the mode could also start FOC in the same run. The model assumes
  that `settings` is not written while the handler runs.
- Handler: `interruptCount` is an unbounded integer. Signed overflow of the C++ `int` is undefined behaviour and is
  not modelled as a wrap-around.
- Calibration.Calibrate: the arithmetic is required to stay within int32, for the difference and for the product.
  The C++ types of the `settings` fields are not known here, so each field is an integer.
- AdcBits.Mask: the contract states the bit-level facts. It does not state the equality with `raw % 4096`, which
  needs reasoning about bit-vector-to-integer conversion that the solver does not finish.
- Reading ADC_ISR clears hardware flags. The model treats the status word as a plain input.
