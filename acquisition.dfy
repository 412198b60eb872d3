/** What one run of the end-of-capture interrupt handler does, stated on
    values: the new controller state, and the ordered list of side effects
    it performs (latching, re-arming the DMA, counting, dispatching a control
    update, substituting the fault sentinel), each recording the state right
    after it. The class in module Adc is proved to follow these definitions,
    and the lemmas here extend them to any sequence of interrupts. */
module Acquisition {
  import opened AdcBits
  import opened ChannelMap

  /** The seven per-sensor raw fields the handler writes. */
  datatype Channels = Channels(
    busVoltRaw: bv16,
    current1Raw: bv16,
    current2Raw: bv16,
    invTemp1Raw: bv16,
    invTemp2Raw: bv16,
    motorTemp1Raw: bv16,
    motorTemp2Raw: bv16)
  {
    function Get(s: Sensor): bv16 {
      match s
      case BusVoltage => busVoltRaw
      case Current1 => current1Raw
      case Current2 => current2Raw
      case InvTemp1 => invTemp1Raw
      case InvTemp2 => invTemp2Raw
      case MotorTemp1 => motorTemp1Raw
      case MotorTemp2 => motorTemp2Raw
    }

    /** Every field holds a 12-bit value. */
    predicate TwelveBit() {
      forall s: Sensor :: Get(s) < 0x1000
    }
  }

  /** The raw state written from a full DMA buffer on the end-of-buffer path:
      each sensor takes its slot, masked to 12 bits. */
  function Latched(buf: seq<bv16>): (c: Channels)
    requires |buf| == BufferLength
    ensures forall s: Sensor :: c.Get(s) == Mask(buf[SlotOf(s)])
    ensures c.TwelveBit()
  {
    Channels(Mask(buf[3]), Mask(buf[5]), Mask(buf[4]), Mask(buf[2]), Mask(buf[6]), Mask(buf[1]), Mask(buf[0]))
  }

  /** Bits above the 12-bit data width of a slot never reach the raw state. */
  lemma LatchedIgnoresUpperBits(buf: seq<bv16>, other: seq<bv16>)
    requires |buf| == |other| == BufferLength
    requires forall i :: 0 <= i < BufferLength ==> buf[i] & 0x0FFF == other[i] & 0x0FFF
    ensures Latched(buf) == Latched(other)
  {
  }

  /** The raw state after one handler run on status word `status`. */
  function NextChannels(before: Channels, buf: seq<bv16>, status: bv32): (after: Channels)
    requires |buf| == BufferLength
    ensures CompareEvent(status) ==> after.busVoltRaw == BusFaultSentinel
    ensures !CompareEvent(status) ==>
      after.busVoltRaw == if EndOfRx(status) then Mask(buf[SlotOf(BusVoltage)]) else before.busVoltRaw
    ensures forall s: Sensor :: s != BusVoltage ==>
      after.Get(s) == if EndOfRx(status) then Mask(buf[SlotOf(s)]) else before.Get(s)
    ensures before.TwelveBit() ==> after.TwelveBit()
  {
    var latched := if EndOfRx(status) then Latched(buf) else before;
    if CompareEvent(status) then latched.(busVoltRaw := BusFaultSentinel) else latched
  }

  /** The controller's observable state: the raw fields, the DMA receive
      pointer ADC_RPR, the DMA receive counter ADC_RCR and `interruptCount`. */
  datatype Snapshot = Snapshot(channels: Channels, rpr: bv32, rcr: int, count: int)

  /** The state once the end-of-buffer block has run from `before`: the
      slots latched, the DMA re-armed with `address` and seven samples, and
      the counter one higher. */
  function AfterCapture(before: Snapshot, buf: seq<bv16>, address: bv32): Snapshot
    requires |buf| == BufferLength
  {
    Snapshot(Latched(buf), address, DmaSampleCount, before.count + 1)
  }

  /** The state with the raw bus voltage replaced by the fault sentinel. */
  function WithFault(s: Snapshot): Snapshot {
    s.(channels := s.channels.(busVoltRaw := BusFaultSentinel))
  }

  /** The state after one handler run on status word `status`, with
      `adc_buf` at `address`. */
  function Step(before: Snapshot, buf: seq<bv16>, status: bv32, address: bv32): (after: Snapshot)
    requires |buf| == BufferLength
    ensures after.channels == NextChannels(before.channels, buf, status)
    ensures EndOfRx(status) ==>
      after.rpr == address && after.rcr == DmaSampleCount && after.count == before.count + 1
    ensures !EndOfRx(status) ==>
      after.rpr == before.rpr && after.rcr == before.rcr && after.count == before.count
  {
    var mid := if EndOfRx(status) then AfterCapture(before, buf, address) else before;
    if CompareEvent(status) then WithFault(mid) else mid
  }

  /** The two control-update routines the handler can hand off to. */
  datatype Hook = PosVHz | Foc

  /** One observable step of the handler, with the controller's state right
      after it; for a dispatch, the state the control update starts from. */
  datatype Event =
    | Latch(state: Snapshot)
    | Rearm(state: Snapshot)
    | Count(state: Snapshot)
    | Dispatch(hook: Hook, state: Snapshot)
    | BusFault(state: Snapshot)

  predicate IsCount(e: Event) { e.Count? }

  predicate IsDispatch(e: Event) { e.Dispatch? }

  /** The control updates started from state `at` in mode `controlType`:
      V/Hz in mode 0, FOC in mode 1, nothing in any other mode. */
  function HooksFor(controlType: int, at: Snapshot): (hooks: seq<Event>)
    ensures |hooks| == if controlType == 0 || controlType == 1 then 1 else 0
    ensures forall e :: e in hooks ==> e == Dispatch(if controlType == 0 then PosVHz else Foc, at)
  {
    (if controlType == 0 then [Dispatch(PosVHz, at)] else [])
    + (if controlType == 1 then [Dispatch(Foc, at)] else [])
  }

  /** The events of the end-of-buffer block run from `before`: latch the
      slots, re-arm the DMA, count, then start the control update. */
  function CaptureEvents(before: Snapshot, buf: seq<bv16>, controlType: int, address: bv32): seq<Event>
    requires |buf| == BufferLength
  {
    var latched := before.(channels := Latched(buf));
    var armed := latched.(rpr := address, rcr := DmaSampleCount);
    var counted := armed.(count := before.count + 1);
    [Latch(latched), Rearm(armed), Count(counted)] + HooksFor(controlType, counted)
  }

  /** The side effects of one handler run from state `before`, in the order
      they happen. A run with neither status bit does nothing, and the last
      event of a run records the state the run leaves behind. */
  function CycleEvents(before: Snapshot, buf: seq<bv16>, status: bv32, controlType: int, address: bv32): (events: seq<Event>)
    requires |buf| == BufferLength
    ensures events == [] <==> !EndOfRx(status) && !CompareEvent(status)
    ensures (if events == [] then before else events[|events| - 1].state) == Step(before, buf, status, address)
  {
    (if EndOfRx(status) then CaptureEvents(before, buf, controlType, address) else [])
    + (if CompareEvent(status) then [BusFault(Step(before, buf, status, address))] else [])
  }

  /** How many events of a trace satisfy `p`. */
  function Number(trace: seq<Event>, p: Event -> bool): (n: nat)
    ensures n <= |trace|
  {
    if trace == [] then 0
    else (if p(trace[|trace| - 1]) then 1 else 0) + Number(trace[..|trace| - 1], p)
  }

  lemma {:induction false} NumberAppend(a: seq<Event>, b: seq<Event>, p: Event -> bool)
    ensures Number(a + b, p) == Number(a, p) + Number(b, p)
    decreases |b|
  {
    if b == [] {
      assert a + b == a;
    } else {
      var last := |b| - 1;
      assert (a + b)[..|a + b| - 1] == a + b[..last];
      assert (a + b)[|a + b| - 1] == b[last];
      NumberAppend(a, b[..last], p);
    }
  }

  lemma NumberSingle(e: Event, p: Event -> bool)
    ensures Number([e], p) == if p(e) then 1 else 0
  {
  }

  lemma NumberTriple(a: Event, b: Event, c: Event, p: Event -> bool)
    ensures Number([a, b, c], p) == Number([a], p) + Number([b], p) + Number([c], p)
  {
    assert [a, b, c] == [a, b] + [c];
    assert [a, b] == [a] + [b];
    NumberAppend([a], [b], p);
    NumberAppend([a, b], [c], p);
  }

  /** Within one run, the DMA is re-armed before the counter moves and
      before any control update starts. */
  predicate RearmedFirst(trace: seq<Event>) {
    forall j :: 0 <= j < |trace| && (trace[j].Count? || trace[j].Dispatch?) ==>
      exists i :: 0 <= i < j && trace[i].Rearm?
  }

  lemma {:induction false} CycleRearmsFirst(before: Snapshot, buf: seq<bv16>, status: bv32, controlType: int, address: bv32)
    requires |buf| == BufferLength
    ensures RearmedFirst(CycleEvents(before, buf, status, controlType, address))
  {
    var e := CycleEvents(before, buf, status, controlType, address);
    forall j | 0 <= j < |e| && (e[j].Count? || e[j].Dispatch?)
      ensures exists i :: 0 <= i < j && e[i].Rearm?
    {
      assert EndOfRx(status);
      assert e[1].Rearm?;
    }
  }

  /** The counter moves with the DMA already re-armed, and a control update
      starts only once the slots are latched, the DMA is re-armed and the
      counter has moved: the state it sees is the one the end-of-buffer
      block leaves. */
  lemma CycleDispatchSeesArmed(before: Snapshot, buf: seq<bv16>, status: bv32, controlType: int, address: bv32)
    requires |buf| == BufferLength
    ensures var e := CycleEvents(before, buf, status, controlType, address);
      forall j :: 0 <= j < |e| && e[j].Count? ==>
        e[j].state.rpr == address && e[j].state.rcr == DmaSampleCount && e[j].state.count == before.count + 1
    ensures var e := CycleEvents(before, buf, status, controlType, address);
      forall j :: 0 <= j < |e| && e[j].Dispatch? ==> e[j].state == AfterCapture(before, buf, address)
  {
  }

  lemma {:induction false} CaptureTallies(before: Snapshot, buf: seq<bv16>, controlType: int, address: bv32)
    requires |buf| == BufferLength
    ensures Number(CaptureEvents(before, buf, controlType, address), IsCount) == 1
    ensures Number(CaptureEvents(before, buf, controlType, address), IsDispatch)
      == if controlType == 0 || controlType == 1 then 1 else 0
  {
    var latched := before.(channels := Latched(buf));
    var armed := latched.(rpr := address, rcr := DmaSampleCount);
    var counted := armed.(count := before.count + 1);
    var hooks := HooksFor(controlType, counted);
    NumberTriple(Latch(latched), Rearm(armed), Count(counted), IsCount);
    NumberTriple(Latch(latched), Rearm(armed), Count(counted), IsDispatch);
    NumberSingle(Latch(latched), IsCount);
    NumberSingle(Rearm(armed), IsCount);
    NumberSingle(Count(counted), IsCount);
    NumberSingle(Latch(latched), IsDispatch);
    NumberSingle(Rearm(armed), IsDispatch);
    NumberSingle(Count(counted), IsDispatch);
    assert Number([], IsCount) == 0 && Number([], IsDispatch) == 0;
    if |hooks| == 1 {
      assert hooks == [hooks[0]] && hooks[0] in hooks;
      NumberSingle(hooks[0], IsCount);
      NumberSingle(hooks[0], IsDispatch);
    } else {
      assert hooks == [];
    }
    NumberAppend([Latch(latched), Rearm(armed), Count(counted)], hooks, IsCount);
    NumberAppend([Latch(latched), Rearm(armed), Count(counted)], hooks, IsDispatch);
  }

  /** Dispatch is exclusive: exactly one control update runs when the
      end-of-buffer bit is set and the mode is 0 or 1 (V/Hz for 0, FOC for
      1), none otherwise. */
  lemma {:induction false} CycleDispatchesOnce(before: Snapshot, buf: seq<bv16>, status: bv32, controlType: int, address: bv32)
    requires |buf| == BufferLength
    ensures Number(CycleEvents(before, buf, status, controlType, address), IsDispatch)
      == if EndOfRx(status) && (controlType == 0 || controlType == 1) then 1 else 0
    ensures var e := CycleEvents(before, buf, status, controlType, address);
      forall j :: 0 <= j < |e| && e[j].Dispatch? ==>
        EndOfRx(status) && (controlType == 0 || controlType == 1)
        && e[j].hook == (if controlType == 0 then PosVHz else Foc)
  {
    var e := CycleEvents(before, buf, status, controlType, address);
    var fault := if CompareEvent(status) then [BusFault(Step(before, buf, status, address))] else [];
    NumberSingle(BusFault(Step(before, buf, status, address)), IsDispatch);
    assert Number(fault, IsDispatch) == 0;
    if EndOfRx(status) {
      var head := CaptureEvents(before, buf, controlType, address);
      var counted := AfterCapture(before, buf, address);
      CaptureTallies(before, buf, controlType, address);
      NumberAppend(head, fault, IsDispatch);
      assert e == head + fault;
      forall j | 0 <= j < |e| && e[j].Dispatch?
        ensures (controlType == 0 || controlType == 1) && e[j].hook == (if controlType == 0 then PosVHz else Foc)
      {
        assert 3 <= j < |head|;
        assert e[j] in HooksFor(controlType, counted);
      }
    } else {
      assert e == fault;
    }
  }

  /** The interrupt counter's event occurs exactly on the end-of-buffer path. */
  lemma {:induction false} CycleCountsOnce(before: Snapshot, buf: seq<bv16>, status: bv32, controlType: int, address: bv32)
    requires |buf| == BufferLength
    ensures Number(CycleEvents(before, buf, status, controlType, address), IsCount) == if EndOfRx(status) then 1 else 0
  {
    var fault := if CompareEvent(status) then [BusFault(Step(before, buf, status, address))] else [];
    NumberSingle(BusFault(Step(before, buf, status, address)), IsCount);
    assert Number(fault, IsCount) == 0;
    if EndOfRx(status) {
      var head := CaptureEvents(before, buf, controlType, address);
      CaptureTallies(before, buf, controlType, address);
      NumberAppend(head, fault, IsCount);
      assert CycleEvents(before, buf, status, controlType, address) == head + fault;
    } else {
      assert CycleEvents(before, buf, status, controlType, address) == fault;
    }
  }

  /** Appending one handler run to a trace adds one counter event exactly
      on the end-of-buffer path, and at most that many control updates. */
  lemma {:induction false} CycleTallies(trace: seq<Event>, before: Snapshot, buf: seq<bv16>, status: bv32, controlType: int, address: bv32)
    requires |buf| == BufferLength
    ensures Number(trace + CycleEvents(before, buf, status, controlType, address), IsCount)
      == Number(trace, IsCount) + if EndOfRx(status) then 1 else 0
    ensures Number(trace + CycleEvents(before, buf, status, controlType, address), IsDispatch)
      <= Number(trace, IsDispatch) + if EndOfRx(status) then 1 else 0
  {
    NumberAppend(trace, CycleEvents(before, buf, status, controlType, address), IsCount);
    NumberAppend(trace, CycleEvents(before, buf, status, controlType, address), IsDispatch);
    CycleCountsOnce(before, buf, status, controlType, address);
    CycleDispatchesOnce(before, buf, status, controlType, address);
  }

  /** Setting the comparison bit only appends the fault event: the run
      without it happens unchanged, and then the raw bus voltage becomes the
      sentinel. */
  lemma CompareBitAppendsFault(before: Snapshot, buf: seq<bv16>, status: bv32, controlType: int, address: bv32)
    requires |buf| == BufferLength
    ensures NextChannels(before.channels, buf, status | CompareEventFlag)
      == NextChannels(before.channels, buf, status & !CompareEventFlag).(busVoltRaw := BusFaultSentinel)
    ensures Step(before, buf, status | CompareEventFlag, address)
      == WithFault(Step(before, buf, status & !CompareEventFlag, address))
    ensures CycleEvents(before, buf, status | CompareEventFlag, controlType, address)
      == CycleEvents(before, buf, status & !CompareEventFlag, controlType, address)
         + [BusFault(Step(before, buf, status | CompareEventFlag, address))]
  {
  }

  /** Setting the end-of-buffer bit puts the whole end-of-buffer block in
      front of the run without it, and that run starts from the state the
      block leaves. */
  lemma EndOfRxBitPrependsCapture(before: Snapshot, buf: seq<bv16>, status: bv32, controlType: int, address: bv32)
    requires |buf| == BufferLength
    ensures Step(before, buf, status | EndOfRxFlag, address)
      == Step(AfterCapture(before, buf, address), buf, status & !EndOfRxFlag, address)
    ensures CycleEvents(before, buf, status | EndOfRxFlag, controlType, address)
      == CaptureEvents(before, buf, controlType, address)
         + CycleEvents(AfterCapture(before, buf, address), buf, status & !EndOfRxFlag, controlType, address)
  {
  }

  /** When both status bits are set, the control update runs on the latched
      bus voltage, and the fault sentinel only replaces it afterwards. */
  lemma HookSeesLatchedBusVoltage(before: Snapshot, buf: seq<bv16>, status: bv32, controlType: int, address: bv32)
    requires |buf| == BufferLength
    requires EndOfRx(status) && CompareEvent(status)
    requires controlType == 0 || controlType == 1
    ensures CycleEvents(before, buf, status, controlType, address)[3].Dispatch?
    ensures CycleEvents(before, buf, status, controlType, address)[3].state.channels.busVoltRaw == Mask(buf[3])
    ensures Step(before, buf, status, address).channels.busVoltRaw == BusFaultSentinel
  {
  }

  /** The fault sentinel is itself a 12-bit value: a capture whose bus
      voltage slot reads 4000 leaves the same raw bus voltage as a fault. */
  lemma SentinelIsAReading(buf: seq<bv16>)
    requires |buf| == BufferLength && buf[SlotOf(BusVoltage)] == BusFaultSentinel
    ensures BusFaultSentinel < 0x1000
    ensures NextChannels(Latched(buf), buf, EndOfRxFlag) == NextChannels(Latched(buf), buf, EndOfRxFlag | CompareEventFlag)
  {
  }

  /** One interrupt: the buffer contents the DMA delivered, the status word
      read from ADC_ISR, and the control mode in force. */
  datatype Interrupt = Interrupt(buf: seq<bv16>, status: bv32, controlType: int)

  predicate WellFormed(irqs: seq<Interrupt>) {
    forall k :: 0 <= k < |irqs| ==> |irqs[k].buf| == BufferLength
  }

  /** Interrupts whose end-of-buffer bit is set. */
  function Completed(irqs: seq<Interrupt>): (n: nat)
    ensures n <= |irqs|
  {
    if irqs == [] then 0
    else (if EndOfRx(irqs[|irqs| - 1].status) then 1 else 0) + Completed(irqs[..|irqs| - 1])
  }

  /** Completed interrupts taken in mode 0 or 1. */
  function Dispatching(irqs: seq<Interrupt>): (n: nat)
    ensures n <= Completed(irqs)
  {
    if irqs == [] then 0
    else
      var last := irqs[|irqs| - 1];
      (if EndOfRx(last.status) && (last.controlType == 0 || last.controlType == 1) then 1 else 0)
      + Dispatching(irqs[..|irqs| - 1])
  }

  /** The state after a sequence of handler runs from `init`: the counter
      has risen once per completed interrupt. */
  function RunState(init: Snapshot, address: bv32, irqs: seq<Interrupt>): (s: Snapshot)
    requires WellFormed(irqs)
    ensures s.count == init.count + Completed(irqs)
  {
    if irqs == [] then init
    else
      var last := irqs[|irqs| - 1];
      Step(RunState(init, address, irqs[..|irqs| - 1]), last.buf, last.status, address)
  }

  /** The side effects of a sequence of handler runs from `init`; the last
      event, if any, records the state the sequence leaves. */
  function Run(init: Snapshot, address: bv32, irqs: seq<Interrupt>): (events: seq<Event>)
    requires WellFormed(irqs)
    ensures (if events == [] then init else events[|events| - 1].state) == RunState(init, address, irqs)
  {
    if irqs == [] then []
    else
      var last := irqs[|irqs| - 1];
      var prefix := irqs[..|irqs| - 1];
      Run(init, address, prefix) + CycleEvents(RunState(init, address, prefix), last.buf, last.status, last.controlType, address)
  }

  /** Over any run, control updates equal the completed interrupts taken in
      mode 0 or 1, and counter events equal the completed interrupts. */
  lemma {:induction false} RunTallies(init: Snapshot, address: bv32, irqs: seq<Interrupt>)
    requires WellFormed(irqs)
    ensures Number(Run(init, address, irqs), IsDispatch) == Dispatching(irqs)
    ensures Number(Run(init, address, irqs), IsCount) == Completed(irqs)
  {
    if irqs != [] {
      var prefix, last := irqs[..|irqs| - 1], irqs[|irqs| - 1];
      var from := RunState(init, address, prefix);
      var e := CycleEvents(from, last.buf, last.status, last.controlType, address);
      RunTallies(init, address, prefix);
      NumberAppend(Run(init, address, prefix), e, IsDispatch);
      NumberAppend(Run(init, address, prefix), e, IsCount);
      CycleDispatchesOnce(from, last.buf, last.status, last.controlType, address);
      CycleCountsOnce(from, last.buf, last.status, last.controlType, address);
    }
  }

  /** Every control update of `trace` starts with the DMA armed on the
      buffer at `address` for seven samples. */
  predicate DispatchesArmed(trace: seq<Event>, address: bv32) {
    forall j :: 0 <= j < |trace| && trace[j].Dispatch? ==>
      trace[j].state.rpr == address && trace[j].state.rcr == DmaSampleCount
  }

  /** Over any run, every control update starts with the DMA armed. */
  lemma {:induction false} RunDispatchesArmed(init: Snapshot, address: bv32, irqs: seq<Interrupt>)
    requires WellFormed(irqs)
    ensures DispatchesArmed(Run(init, address, irqs), address)
  {
    if irqs != [] {
      var prefix, last := irqs[..|irqs| - 1], irqs[|irqs| - 1];
      var from := RunState(init, address, prefix);
      var head: seq<Event> := Run(init, address, prefix);
      var tail: seq<Event> := CycleEvents(from, last.buf, last.status, last.controlType, address);
      var e: seq<Event> := head + tail;
      RunDispatchesArmed(init, address, prefix);
      CycleDispatchSeesArmed(from, last.buf, last.status, last.controlType, address);
      forall j | 0 <= j < |e| && e[j].Dispatch?
        ensures e[j].state.rpr == address && e[j].state.rcr == DmaSampleCount
      {
        if j >= |head| {
          var k := j - |head|;
          assert e[j] == tail[k] && tail[k].Dispatch?;
          assert tail[k].state == AfterCapture(from, last.buf, address);
        } else {
          assert e[j] == head[j] && head[j].Dispatch?;
        }
      }
      assert Run(init, address, irqs) == e;
    }
  }

  /** Starting from 12-bit values, the raw state stays 12-bit over any run. */
  lemma {:induction false} RunStaysTwelveBit(init: Snapshot, address: bv32, irqs: seq<Interrupt>)
    requires WellFormed(irqs)
    requires init.channels.TwelveBit()
    ensures RunState(init, address, irqs).channels.TwelveBit()
  {
    if irqs != [] {
      RunStaysTwelveBit(init, address, irqs[..|irqs| - 1]);
    }
  }
}
