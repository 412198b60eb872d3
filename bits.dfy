/** Bit-level vocabulary of the ADC core: the 12-bit data mask applied to
    every DMA slot, the two interrupt-status flags the handler tests, and the
    constants that `setup_adc` programs into the controller. */
module AdcBits {

  /** Number of slots of the DMA buffer `adc_buf`, one per enabled channel. */
  const BufferLength: nat := 7

  /** Value written to the channel-enable register ADC_CHER: hardware
      channels 0 and 2..7. */
  const ChannelEnableMask: nat := 0xFD

  /** Sample count written to the receive counter register ADC_RCR when the
      transfer is armed, at setup and on every re-arm. */
  const DmaSampleCount: nat := 7

  /** Width mask of a conversion result: the low 12 bits of a 16-bit slot. */
  const DataMask: bv16 := 0xFFF

  /** Raw bus-voltage value substituted when the comparison event fires. */
  const BusFaultSentinel: bv16 := 4000

  /** Status bit 27 of ADC_ISR: the receive counter reached the end of the
      buffer, i.e. a full capture has landed in `adc_buf`. */
  const EndOfRxFlag: bv32 := 0x0800_0000

  /** Status bit 26 of ADC_ISR: the comparison (out-of-window) event. */
  const CompareEventFlag: bv32 := 0x0400_0000

  predicate EndOfRx(status: bv32) {
    status & EndOfRxFlag != 0
  }

  predicate CompareEvent(status: bv32) {
    status & CompareEventFlag != 0
  }

  /** Keeps the 12 data bits of a slot and drops the upper four. */
  function Mask(x: bv16): (r: bv16)
    ensures r < 0x1000
    ensures x < 0x1000 ==> r == x
  {
    x & DataMask
  }

  /** Setting any of the upper four bits of a slot leaves its masked value
      unchanged. */
  lemma MaskDropsUpperBits(x: bv16, h: bv16)
    ensures Mask(x | (h << 12)) == Mask(x)
  {
  }

  /** Two slots that agree on their low 12 bits mask to the same value,
      whatever their upper bits hold. */
  lemma MaskIgnoresUpperBits(x: bv16, y: bv16)
    requires x & 0x0FFF == y & 0x0FFF
    ensures Mask(x) == Mask(y)
  {
  }

  /** The two flags are distinct bits: setting or clearing one decides its
      own test and never changes the test of the other. */
  lemma CompareFlagLeavesEndOfRx(status: bv32)
    ensures CompareEvent(status | CompareEventFlag) && !CompareEvent(status & !CompareEventFlag)
    ensures EndOfRx(status | CompareEventFlag) == EndOfRx(status)
    ensures EndOfRx(status & !CompareEventFlag) == EndOfRx(status)
  {
  }

  lemma EndOfRxFlagLeavesCompare(status: bv32)
    ensures EndOfRx(status | EndOfRxFlag) && !EndOfRx(status & !EndOfRxFlag)
    ensures CompareEvent(status | EndOfRxFlag) == CompareEvent(status)
    ensures CompareEvent(status & !EndOfRxFlag) == CompareEvent(status)
  {
  }

  /** Number of one bits of a non-negative register value. */
  function PopCount(m: nat): (n: nat)
    ensures n <= m
    ensures m > 0 ==> n > 0
  {
    if m == 0 then 0 else m % 2 + PopCount(m / 2)
  }

  /** Bit i of a register value. */
  predicate BitSet(m: nat, i: nat) {
    (m / Pow2(i)) % 2 == 1
  }

  function Pow2(i: nat): (p: nat)
    ensures p >= 1
  {
    if i == 0 then 1 else 2 * Pow2(i - 1)
  }

  /** The enabled hardware channels of ADC_CHER, lowest first; the DMA writes
      one slot per enabled channel. */
  function EnabledChannels(m: nat, from: nat, width: nat): (cs: seq<nat>)
    decreases width
    ensures |cs| <= width
    ensures forall k :: 0 <= k < |cs| ==> from <= cs[k] < from + width && BitSet(m, cs[k])
  {
    if width == 0 then []
    else (if BitSet(m, from) then [from] else []) + EnabledChannels(m, from + 1, width - 1)
  }

  /** The setup constants agree: seven channels are enabled, the DMA is
      asked for seven samples, and the buffer has seven slots. */
  lemma EnableMaskCount()
    ensures PopCount(ChannelEnableMask) == DmaSampleCount == BufferLength
  {
  }

  lemma EnableMaskChannels()
    ensures EnabledChannels(ChannelEnableMask, 0, 8) == [0, 2, 3, 4, 5, 6, 7]
  {
  }
}
