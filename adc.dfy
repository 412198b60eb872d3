/** The ADC controller's state and its operations: `setup_adc` as the
    constructor, `ADC_Handler` as a method that updates the fields in place,
    and the seven calibrated getters as functions of the current fields.
    Hardware registers other than the DMA receive pointer and counter are not
    modelled; the status word read from ADC_ISR and the configuration store
    are parameters. */
module Adc {
  import opened AdcBits
  import opened ChannelMap
  import opened Calibration
  import opened Acquisition

  class AdcController {
    /** `adc_buf`, written by the DMA engine with one slot per enabled channel. */
    const buf: array<bv16>

    var busVoltRaw: bv16
    var current1Raw: bv16
    var current2Raw: bv16
    var invTemp1Raw: bv16
    var invTemp2Raw: bv16
    var motorTemp1Raw: bv16
    var motorTemp2Raw: bv16

    /** The address of `adc_buf` as the 32-bit value written to ADC_RPR. */
    const bufAddress: bv32

    /** ADC_RPR: the address the DMA engine writes the next sample to. */
    var rpr: bv32
    /** ADC_RCR: how many samples the DMA engine still expects. */
    var rcr: int

    /** Completed end-of-buffer interrupts. */
    var interruptCount: int

    /** The handler's side effects so far, oldest first. */
    ghost var trace: seq<Event>

    /** The raw fields are 12-bit, the counter equals the counter events of
        the trace, no more control updates than counted interrupts have
        started, and the last event recorded is the current state. */
    ghost predicate Valid()
      reads this
    {
      buf.Length == BufferLength
      && Channels().TwelveBit()
      && interruptCount == Number(trace, IsCount)
      && Number(trace, IsDispatch) <= interruptCount
      && (trace != [] ==> trace[|trace| - 1].state == Snap())
    }

    /** The raw fields as one value. */
    function Channels(): Channels
      reads this`busVoltRaw, this`current1Raw, this`current2Raw, this`invTemp1Raw,
        this`invTemp2Raw, this`motorTemp1Raw, this`motorTemp2Raw
    {
      Acquisition.Channels(busVoltRaw, current1Raw, current2Raw, invTemp1Raw,
                           invTemp2Raw, motorTemp1Raw, motorTemp2Raw)
    }

    /** The raw fields, the DMA registers and the counter as one value. */
    function Snap(): Snapshot
      reads this`busVoltRaw, this`current1Raw, this`current2Raw, this`invTemp1Raw,
        this`invTemp2Raw, this`motorTemp1Raw, this`motorTemp2Raw,
        this`rpr, this`rcr, this`interruptCount
    {
      Snapshot(Channels(), rpr, rcr, interruptCount)
    }

    /** The transfer is armed for a full capture into `adc_buf`. */
    predicate Armed()
      reads this
    {
      rpr == bufAddress && rcr == DmaSampleCount && rcr == buf.Length
    }

    /** `setup_adc`: the counter starts at zero and the DMA is armed with
        the buffer and a count of seven samples. The raw fields start at zero
        like any C++ global. `address` is where the linker placed `adc_buf`. */
    constructor Setup(address: bv32)
      ensures Valid() && Armed() && fresh(buf) && bufAddress == address
      ensures interruptCount == 0 && trace == []
      ensures Channels() == Acquisition.Channels(0, 0, 0, 0, 0, 0, 0)
    {
      buf := new bv16[BufferLength];
      bufAddress := address;
      busVoltRaw, current1Raw, current2Raw := 0, 0, 0;
      invTemp1Raw, invTemp2Raw, motorTemp1Raw, motorTemp2Raw := 0, 0, 0, 0;
      interruptCount := 0;
      rpr := address;
      rcr := DmaSampleCount;
      trace := [];
      new;
      assert Number([], IsCount) == 0;
    }

    /** `ADC_Handler` for status word `status`, with the control mode taken
        from the configuration store `settings`. */
    method Handler(status: bv32, settings: Settings)
      requires Valid()
      modifies this
      ensures Valid()
      ensures Snap() == Step(old(Snap()), buf[..], status, bufAddress)
      ensures trace == old(trace) + CycleEvents(old(Snap()), buf[..], status, settings.controlType, bufAddress)
    {
      ghost var before, start, slots := trace, Snap(), buf[..];
      if status & EndOfRxFlag != 0 {
        EndOfCapture(settings.controlType);
      }
      ghost var mid := trace;
      assert mid == before + if EndOfRx(status) then CaptureEvents(start, slots, settings.controlType, bufAddress) else [];
      if status & CompareEventFlag != 0 {
        SubstituteBusFault();
      }
      assert Snap() == Step(start, slots, status, bufAddress);
      assert trace == mid + if CompareEvent(status) then [BusFault(Snap())] else [];
      assert trace == before + CycleEvents(start, slots, status, settings.controlType, bufAddress);
      CycleTallies(before, start, slots, status, settings.controlType, bufAddress);
    }

    /** The end-of-buffer path: latch the seven slots into the raw fields
        through the channel map, re-arm the DMA, count the interrupt, then
        start the control update selected by `controlType`. Each event
        records the state as it stands when the event happens. */
    method EndOfCapture(controlType: int)
      requires buf.Length == BufferLength
      modifies this
      ensures Snap() == AfterCapture(old(Snap()), buf[..], bufAddress)
      ensures trace == old(trace) + CaptureEvents(old(Snap()), buf[..], controlType, bufAddress)
    {
      ghost var before := Snap();
      LatchSlots();
      ghost var latched := Snap();
      assert latched == before.(channels := Latched(buf[..]));
      trace := trace + [Latch(latched)];

      rpr := bufAddress;
      rcr := DmaSampleCount;
      ghost var armed := Snap();
      trace := trace + [Rearm(armed)];

      interruptCount := interruptCount + 1;
      ghost var counted := Snap();
      trace := trace + [Count(counted)];

      StartControlUpdate(controlType);
    }

    /** The hand-off to the control update: V/Hz in mode 0, FOC in mode 1.
        The update runs on the state as it stands. */
    method StartControlUpdate(controlType: int)
      modifies this`trace
      ensures trace == old(trace) + HooksFor(controlType, Snap())
    {
      if controlType == 0 {
        trace := trace + [Dispatch(PosVHz, Snap())];
      }
      if controlType == 1 {
        trace := trace + [Dispatch(Foc, Snap())];
      }
    }

    /** Copies each slot of `adc_buf`, masked to 12 bits, into the raw field
        of the sensor it is wired to. */
    method LatchSlots()
      requires buf.Length == BufferLength
      modifies this`busVoltRaw, this`current1Raw, this`current2Raw, this`invTemp1Raw,
        this`invTemp2Raw, this`motorTemp1Raw, this`motorTemp2Raw
      ensures Channels() == Latched(buf[..])
    {
      busVoltRaw := Mask(buf[3]);
      current1Raw := Mask(buf[5]);
      current2Raw := Mask(buf[4]);
      invTemp1Raw := Mask(buf[2]);
      invTemp2Raw := Mask(buf[6]);
      motorTemp1Raw := Mask(buf[1]);
      motorTemp2Raw := Mask(buf[0]);
    }

    /** The comparison-event path: bus voltage becomes the fault sentinel and
        nothing else changes. */
    method SubstituteBusFault()
      modifies this
      ensures Snap() == WithFault(old(Snap()))
      ensures trace == old(trace) + [BusFault(Snap())]
    {
      busVoltRaw := BusFaultSentinel;
      trace := trace + [BusFault(Snap())];
    }

    function GetBusVoltage(settings: Settings): (v: int32)
      reads this
      requires Fits(busVoltRaw as int, settings.busVoltageBias, settings.busVoltageScale)
      ensures v as int == (busVoltRaw as int - settings.busVoltageBias) * settings.busVoltageScale
    {
      Calibrate(busVoltRaw as int, settings.busVoltageBias, settings.busVoltageScale)
    }

    function GetCurrent1(settings: Settings): (v: int32)
      reads this
      requires Fits(current1Raw as int, settings.current1Bias, settings.current1Scale)
      ensures v as int == (current1Raw as int - settings.current1Bias) * settings.current1Scale
    {
      Calibrate(current1Raw as int, settings.current1Bias, settings.current1Scale)
    }

    function GetCurrent2(settings: Settings): (v: int32)
      reads this
      requires Fits(current2Raw as int, settings.current2Bias, settings.current2Scale)
      ensures v as int == (current2Raw as int - settings.current2Bias) * settings.current2Scale
    {
      Calibrate(current2Raw as int, settings.current2Bias, settings.current2Scale)
    }

    function GetInvTemp1(settings: Settings): (v: int32)
      reads this
      requires Fits(invTemp1Raw as int, settings.inverterTemp1Bias, settings.inverterTemp1Scale)
      ensures v as int == (invTemp1Raw as int - settings.inverterTemp1Bias) * settings.inverterTemp1Scale
    {
      Calibrate(invTemp1Raw as int, settings.inverterTemp1Bias, settings.inverterTemp1Scale)
    }

    function GetInvTemp2(settings: Settings): (v: int32)
      reads this
      requires Fits(invTemp2Raw as int, settings.inverterTemp2Bias, settings.inverterTemp2Scale)
      ensures v as int == (invTemp2Raw as int - settings.inverterTemp2Bias) * settings.inverterTemp2Scale
    {
      Calibrate(invTemp2Raw as int, settings.inverterTemp2Bias, settings.inverterTemp2Scale)
    }

    function GetMotorTemp1(settings: Settings): (v: int32)
      reads this
      requires Fits(motorTemp1Raw as int, settings.motorTemp1Bias, settings.motorTemp1Scale)
      ensures v as int == (motorTemp1Raw as int - settings.motorTemp1Bias) * settings.motorTemp1Scale
    {
      Calibrate(motorTemp1Raw as int, settings.motorTemp1Bias, settings.motorTemp1Scale)
    }

    /** Uses the motor temperature 1 bias and scale, as the source does. */
    function GetMotorTemp2(settings: Settings): (v: int32)
      reads this
      requires Fits(motorTemp2Raw as int, settings.motorTemp1Bias, settings.motorTemp1Scale)
      ensures v as int == (motorTemp2Raw as int - settings.motorTemp1Bias) * settings.motorTemp1Scale
    {
      Calibrate(motorTemp2Raw as int, settings.motorTemp1Bias, settings.motorTemp1Scale)
    }

    /** Every getter is the one calibration transform applied to its
        sensor's raw field and that sensor's bias and scale entry. */
    lemma GettersFollowTable(settings: Settings, s: Sensor)
      requires Fits(Channels().Get(s) as int, BiasOf(settings, s), ScaleOf(settings, s))
      ensures s == BusVoltage ==> GetBusVoltage(settings) == Calibrate(Channels().Get(s) as int, BiasOf(settings, s), ScaleOf(settings, s))
      ensures s == Current1 ==> GetCurrent1(settings) == Calibrate(Channels().Get(s) as int, BiasOf(settings, s), ScaleOf(settings, s))
      ensures s == Current2 ==> GetCurrent2(settings) == Calibrate(Channels().Get(s) as int, BiasOf(settings, s), ScaleOf(settings, s))
      ensures s == InvTemp1 ==> GetInvTemp1(settings) == Calibrate(Channels().Get(s) as int, BiasOf(settings, s), ScaleOf(settings, s))
      ensures s == InvTemp2 ==> GetInvTemp2(settings) == Calibrate(Channels().Get(s) as int, BiasOf(settings, s), ScaleOf(settings, s))
      ensures s == MotorTemp1 ==> GetMotorTemp1(settings) == Calibrate(Channels().Get(s) as int, BiasOf(settings, s), ScaleOf(settings, s))
      ensures s == MotorTemp2 ==> GetMotorTemp2(settings) == Calibrate(Channels().Get(s) as int, BiasOf(settings, s), ScaleOf(settings, s))
    {
    }

    /** The motor temperature 2 getter reads its own raw field but motor
        temperature 1's calibration: with equal raw fields the two agree. */
    lemma MotorTempsShareCalibration(settings: Settings)
      requires motorTemp1Raw == motorTemp2Raw
      requires Fits(motorTemp1Raw as int, settings.motorTemp1Bias, settings.motorTemp1Scale)
      ensures GetMotorTemp2(settings) == GetMotorTemp1(settings)
    {
    }
  }
}
