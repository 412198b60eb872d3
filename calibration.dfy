/** The calibration transform behind the seven public getters: a raw 12-bit
    reading minus a per-sensor bias, times a per-sensor scale, returned as a
    signed 32-bit value. Bias, scale and the control-mode selector live in the
    configuration store `settings`, which this core only reads. */
module Calibration {
  import opened ChannelMap

  newtype int32 = x: int | -0x8000_0000 <= x < 0x8000_0000

  predicate InInt32(x: int) {
    -0x8000_0000 <= x < 0x8000_0000
  }

  /** The fields of the configuration store read by the ADC core. Their C++
      types are not part of this model; each is taken as an integer. */
  datatype Settings = Settings(
    busVoltageBias: int, busVoltageScale: int,
    current1Bias: int, current1Scale: int,
    current2Bias: int, current2Scale: int,
    inverterTemp1Bias: int, inverterTemp1Scale: int,
    inverterTemp2Bias: int, inverterTemp2Scale: int,
    motorTemp1Bias: int, motorTemp1Scale: int,
    controlType: int)

  /** The getter's signed arithmetic stays inside int32: both the difference
      and the product are defined in C++ only when they do. */
  predicate Fits(raw: int, bias: int, scale: int) {
    InInt32(raw - bias) && InInt32((raw - bias) * scale)
  }

  /** `(raw - bias) * scale`, the physical value of a raw reading. */
  function Calibrate(raw: int, bias: int, scale: int): (v: int32)
    requires Fits(raw, bias, scale)
    ensures v as int == (raw - bias) * scale
  {
    ((raw - bias) * scale) as int32
  }

  /** Recovers the raw reading from a physical value. */
  function Uncalibrate(v: int32, bias: int, scale: int): (raw: int)
    requires scale != 0
  {
    v as int / scale + bias
  }

  lemma {:induction false} MulDivCancel(d: int, scale: int)
    requires scale != 0
    ensures (d * scale) / scale == d
  {
    var q, r := (d * scale) / scale, (d * scale) % scale;
    assert scale * (d - q) == r;
    if d != q {
      MulMagnitude(scale, d - q);
    }
  }

  /** A non-zero multiple of `scale` is at least `|scale|` in magnitude. */
  lemma MulMagnitude(scale: int, k: int)
    requires scale != 0 && k != 0
    ensures scale * k >= (if scale > 0 then scale else -scale) || scale * k <= -(if scale > 0 then scale else -scale)
  {
  }

  /** With a non-zero scale no information is lost: the raw reading is
      recovered from the physical value. */
  lemma {:induction false} CalibrateRoundTrip(raw: int, bias: int, scale: int)
    requires Fits(raw, bias, scale) && scale != 0
    ensures Uncalibrate(Calibrate(raw, bias, scale), bias, scale) == raw
  {
    MulDivCancel(raw - bias, scale);
  }

  /** A positive scale preserves the order of readings, a negative scale
      reverses it. */
  lemma CalibrateMonotone(lo: int, hi: int, bias: int, scale: int)
    requires Fits(lo, bias, scale) && Fits(hi, bias, scale)
    requires lo <= hi
    ensures scale >= 0 ==> Calibrate(lo, bias, scale) <= Calibrate(hi, bias, scale)
    ensures scale <= 0 ==> Calibrate(lo, bias, scale) >= Calibrate(hi, bias, scale)
  {
  }

  /** A 12-bit reading with a 12-bit bias and a scale of at most 2^15 in
      magnitude never leaves int32. */
  lemma {:induction false} FitsForTwelveBitReadings(raw: int, bias: int, scale: int)
    requires 0 <= raw < 0x1000 && 0 <= bias < 0x1000
    requires -0x8000 <= scale <= 0x8000
    ensures Fits(raw, bias, scale)
  {
    var d := raw - bias;
    var m := if d >= 0 then d else -d;
    var s := if scale >= 0 then scale else -scale;
    MulBounded(m, s, 0x1000, 0x8000);
    assert d * scale == m * s || d * scale == -(m * s);
  }

  lemma MulBounded(m: int, s: int, a: int, b: int)
    requires 0 <= m <= a && 0 <= s <= b
    ensures m * s <= a * b
  {
  }

  /** The two worked examples: raw 2048, bias 0, scale 1 gives 2048, and
      raw 0, bias 100, scale 2 gives -200. */
  lemma CalibrateExamples()
    ensures Fits(2048, 0, 1) && Calibrate(2048, 0, 1) == 2048
    ensures Fits(0, 100, 2) && Calibrate(0, 100, 2) == -200
  {
  }

  /** The bias each getter subtracts. The motor temperature 2 getter uses the
      motor temperature 1 calibration. */
  function BiasOf(settings: Settings, s: Sensor): int {
    match s
    case BusVoltage => settings.busVoltageBias
    case Current1 => settings.current1Bias
    case Current2 => settings.current2Bias
    case InvTemp1 => settings.inverterTemp1Bias
    case InvTemp2 => settings.inverterTemp2Bias
    case MotorTemp1 => settings.motorTemp1Bias
    case MotorTemp2 => settings.motorTemp1Bias
  }

  /** The scale each getter multiplies by; MotorTemp2 again shares MotorTemp1's. */
  function ScaleOf(settings: Settings, s: Sensor): int {
    match s
    case BusVoltage => settings.busVoltageScale
    case Current1 => settings.current1Scale
    case Current2 => settings.current2Scale
    case InvTemp1 => settings.inverterTemp1Scale
    case InvTemp2 => settings.inverterTemp2Scale
    case MotorTemp1 => settings.motorTemp1Scale
    case MotorTemp2 => settings.motorTemp1Scale
  }
}
