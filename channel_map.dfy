/** The fixed wiring from DMA buffer slots to the seven logical sensors.
    The hardware delivers the enabled channels in its own order, which is not
    the order of the sensors, so the handler reads the slots out of order. */
module ChannelMap {
  import opened AdcBits

  datatype Sensor =
    | BusVoltage
    | Current1
    | Current2
    | InvTemp1
    | InvTemp2
    | MotorTemp1
    | MotorTemp2

  /** Every sensor, each once. */
  const AllSensors: seq<Sensor> :=
    [BusVoltage, Current1, Current2, InvTemp1, InvTemp2, MotorTemp1, MotorTemp2]

  /** The buffer slot the handler reads for a sensor. */
  function SlotOf(s: Sensor): (slot: nat)
    ensures slot < BufferLength
  {
    match s
    case BusVoltage => 3
    case Current1 => 5
    case Current2 => 4
    case InvTemp1 => 2
    case InvTemp2 => 6
    case MotorTemp1 => 1
    case MotorTemp2 => 0
  }

  /** The sensor a buffer slot feeds: the inverse of SlotOf. */
  function SensorAt(slot: nat): (s: Sensor)
    requires slot < BufferLength
    ensures SlotOf(s) == slot
  {
    if slot == 0 then MotorTemp2
    else if slot == 1 then MotorTemp1
    else if slot == 2 then InvTemp1
    else if slot == 3 then BusVoltage
    else if slot == 4 then Current2
    else if slot == 5 then Current1
    else InvTemp2
  }

  /** Every sensor is fed by exactly one slot, and SensorAt undoes SlotOf. */
  lemma SlotOfRoundTrip(s: Sensor)
    ensures SensorAt(SlotOf(s)) == s
  {
  }

  /** No two sensors share a slot. */
  lemma SlotOfInjective(s: Sensor, t: Sensor)
    requires SlotOf(s) == SlotOf(t)
    ensures s == t
  {
  }

  /** The map is a bijection between the seven slots and the seven sensors:
      the slots of AllSensors are exactly 0..6, each once. */
  lemma SlotsAreAPermutation()
    ensures |AllSensors| == BufferLength
    ensures forall s: Sensor :: s in AllSensors
    ensures forall i, j :: 0 <= i < j < |AllSensors| ==> SlotOf(AllSensors[i]) != SlotOf(AllSensors[j])
    ensures forall slot :: 0 <= slot < BufferLength ==> SensorAt(slot) in AllSensors
  {
    forall s: Sensor
      ensures s in AllSensors
    {
      match s
      case BusVoltage => assert AllSensors[0] == s;
      case Current1 => assert AllSensors[1] == s;
      case Current2 => assert AllSensors[2] == s;
      case InvTemp1 => assert AllSensors[3] == s;
      case InvTemp2 => assert AllSensors[4] == s;
      case MotorTemp1 => assert AllSensors[5] == s;
      case MotorTemp2 => assert AllSensors[6] == s;
    }
  }
}
