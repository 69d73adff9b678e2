/**
 The SH1106 opcode table and the bit-packing rules for parameterised commands.

 Every fixed command byte is a named constant; every parameterised command is a
 total function from its 8-bit argument(s) to the byte put on the bus. The C
 macros evaluate in `int` after integer promotion and the result is handed to a
 `uint8_t` sink; each function below states, in plain integer arithmetic, which
 value that is, so the bit-level body is checked against an independent
 arithmetic reading of the same datasheet field.
 */
module SysCfg {

  // ---------------------------------------------------------------------------
  // Fixed command bytes
  // ---------------------------------------------------------------------------

  const SetPumpVoltage7_4: bv8 := 0x30
  const SetPumpVoltage8_0: bv8 := 0x31
  const SetPumpVoltage8_4: bv8 := 0x32
  const SetPumpVoltage9_0: bv8 := 0x33

  const ContrastControlModeSet: bv8 := 0x81

  const SetSegmentReMapNormalDirection: bv8 := 0xA0
  const SetSegmentReMapReverseDirection: bv8 := 0xA1

  const SetEntireDisplayOff: bv8 := 0xA4
  const SetEntireDisplayOn: bv8 := 0xA5
  const DisplayOffOled: bv8 := 0xAE
  const DisplayOnOled: bv8 := 0xAF

  const SetNormalDisplayDirection: bv8 := 0xA6
  const SetReverseDisplayDirection: bv8 := 0xA7

  const MultiplexRatioModeSet: bv8 := 0xA8

  const DcDcControlModeSet: bv8 := 0xAD
  const DcDcOffModeSet: bv8 := 0x8A
  const DcDcOnModeSet: bv8 := 0x8B

  const ScanFromCom0ToComN: bv8 := 0xC0
  const ScanFromComNToCom0: bv8 := 0xC8

  const DisplayOffsetModeSet: bv8 := 0xD3
  const DivideRatioOscillatorFrequencyModeSet: bv8 := 0xD5
  const PreChargePeriodModeSet: bv8 := 0xD9

  const CommonPadsHardwareConfigurationModeSet: bv8 := 0xDA
  const SequentialModeSet: bv8 := 0x02
  const AlternativeModeSet: bv8 := 0x12

  const VcomDeselectLevelModeSet: bv8 := 0xDB

  const ReadModifyWrite: bv8 := 0xE0
  const End: bv8 := 0xEE
  const Nop: bv8 := 0xE3

  /** The mode-select bytes that open a double-byte command. */
  predicate IsModeSelect(b: bv8) {
    || b == ContrastControlModeSet
    || b == MultiplexRatioModeSet
    || b == DcDcControlModeSet
    || b == DisplayOffsetModeSet
    || b == DivideRatioOscillatorFrequencyModeSet
    || b == PreChargePeriodModeSet
    || b == CommonPadsHardwareConfigurationModeSet
    || b == VcomDeselectLevelModeSet
  }

  // ---------------------------------------------------------------------------
  // Nibble arithmetic used by the contracts below
  // ---------------------------------------------------------------------------

  lemma LowNibbleValue(x: bv8)
    ensures (0x0F & x) as int == x as int % 16
  {
  }

  lemma LowSixBitsValue(x: bv8)
    ensures (0x3F & x) as int == x as int % 64
  {
  }

  lemma HighNibbleValue(x: bv8)
    ensures (x >> 4) as int == x as int / 16
  {
  }

  lemma ShiftedNibbleValue(x: bv8)
    ensures (0xF0 & (x << 4)) as int == (x as int % 16) * 16
  {
  }

  lemma DisjointOrIsSum(h: bv8, l: bv8)
    requires h & 0x0F == 0 && l <= 0x0F
    ensures (h | l) as int == h as int + l as int
  {
  }

  /** `x - 1` on a byte wraps exactly like C's `int` subtraction followed by `& 0x0F`. */
  lemma DecrementNibbleValue(x: bv8)
    ensures (0x0F & (x - 1)) as int == (x as int - 1) % 16
  {
    LowNibbleValue(x - 1);
    if x == 0 {
      assert (x - 1) as int == 255;
    } else {
      assert (x - 1) as int == x as int - 1;
    }
  }

  // ---------------------------------------------------------------------------
  // Parameterised commands
  // ---------------------------------------------------------------------------

  /** Lower column address command: the low nibble of the address, in 0x00..0x0F. */
  function LowerColumnAddress(addr: bv8): (b: bv8)
    ensures b <= 0x0F
    ensures b as int == addr as int % 16
  {
    LowNibbleValue(addr);
    0x0F & addr
  }

  /** Higher column address command: 0x10 plus the high nibble, in 0x10..0x1F. */
  function HigherColumnAddress(addr: bv8): (b: bv8)
    ensures 0x10 <= b <= 0x1F
    ensures b as int == 0x10 + addr as int / 16
  {
    0x10 | (addr >> 4)
  }

  /** Display start line command: 0x40 plus the line modulo 64, in 0x40..0x7F. */
  function DisplayStartLine(line: bv8): (b: bv8)
    ensures 0x40 <= b <= 0x7F
    ensures b as int == 0x40 + line as int % 64
  {
    LowSixBitsValue(line);
    0x40 | (0x3F & line)
  }

  /** Contrast data byte: the mask with 0xFF keeps every one of the 256 steps. */
  function ContrastDataRegister(step: bv8): (b: bv8)
    ensures b == step
  {
    0xFF & step
  }

  /** Multiplex ratio data byte: the six data bits, don't-care bits cleared. */
  function MultiplexRatioData(ratio: bv8): (b: bv8)
    ensures b <= 0x3F
    ensures b as int == ratio as int % 64
  {
    LowSixBitsValue(ratio);
    0x3F & ratio
  }

  /** Page address command: 0xB0 plus the low four bits of the page. */
  function PageAddress(page: bv8): (b: bv8)
    ensures 0xB0 <= b <= 0xBF
    ensures b as int == 0xB0 + page as int % 16
  {
    LowNibbleValue(page);
    0xB0 | (0x0F & page)
  }

  /** Display offset data byte: the six data bits, don't-care bits cleared. */
  function DisplayOffsetData(offset: bv8): (b: bv8)
    ensures b <= 0x3F
    ensures b as int == offset as int % 64
  {
    LowSixBitsValue(offset);
    0x3F & offset
  }

  /**
   Clock data byte: oscillator-frequency nibble on top, divide ratio minus one
   below. A ratio of 0 wraps to the low nibble 0xF, as `(0 - 1) & 0x0F` does in C.
   */
  function DivideRatioOscillatorFrequencyData(ratio: bv8, freq: bv8): (b: bv8)
    ensures b as int == (freq as int % 16) * 16 + (ratio as int - 1) % 16
  {
    var hi := 0xF0 & (freq << 4);
    var lo := 0x0F & (ratio - 1);
    ShiftedNibbleValue(freq);
    DecrementNibbleValue(ratio);
    DisjointOrIsSum(hi, lo);
    hi | lo
  }

  /** Dis-charge/pre-charge data byte: dis-charge nibble on top, pre-charge below. */
  function DisChargePreChargePeriodData(pre: bv8, dis: bv8): (b: bv8)
    ensures b as int == (dis as int % 16) * 16 + pre as int % 16
  {
    var hi := 0xF0 & (dis << 4);
    var lo := 0x0F & pre;
    ShiftedNibbleValue(dis);
    LowNibbleValue(pre);
    DisjointOrIsSum(hi, lo);
    hi | lo
  }

  /** VCOM deselect level data byte: the mask with 0xFF keeps the level unchanged. */
  function VcomDeselectLevelData(level: bv8): (b: bv8)
    ensures b == level
  {
    0xFF & level
  }

  /** Display RAM data byte: the mask with 0xFF keeps the pixel byte unchanged. */
  function WriteDisplayData(data: bv8): (b: bv8)
    ensures b == data
  {
    0xFF & data
  }

  // ---------------------------------------------------------------------------
  // Properties of the packing rules
  // ---------------------------------------------------------------------------

  /** The two column-address bytes carry the whole 8-bit address: it is rebuilt from their nibbles. */
  lemma ColumnAddressRoundTrip(addr: bv8)
    ensures ((HigherColumnAddress(addr) & 0x0F) << 4) | (LowerColumnAddress(addr) & 0x0F) == addr
  {
  }

  /** Two start lines give the same command exactly when they agree modulo 64; in particular `a` and `a + 64`. */
  lemma DisplayStartLineModulo64(a: bv8, c: bv8)
    ensures DisplayStartLine(a) == DisplayStartLine(c) <==> a as int % 64 == c as int % 64
    ensures DisplayStartLine(a) == DisplayStartLine(a + 64)
  {
  }

  /** Two pages give the same command exactly when they agree modulo 16; in particular `p` and `p + 16`. */
  lemma PageAddressModulo16(p: bv8, q: bv8)
    ensures PageAddress(p) == PageAddress(q) <==> p as int % 16 == q as int % 16
    ensures PageAddress(p) == PageAddress(p + 16)
  {
  }

  /**
   The page command lies in the documented range 0xB0..0xB7 exactly when the low
   four bits of the page are below 8; page 0xFF is sent as 0xBF, not 0xB7.
   */
  lemma PageAddressDocumentedRange(p: bv8)
    ensures PageAddress(p) <= 0xB7 <==> p & 0x0F < 8
    ensures PageAddress(0xFF) == 0xBF
  {
  }

  /** Masking the six data bits twice is the same as once, and leaves a 6-bit value alone. */
  lemma SixBitDataIdempotent(x: bv8)
    ensures MultiplexRatioData(MultiplexRatioData(x)) == MultiplexRatioData(x)
    ensures DisplayOffsetData(DisplayOffsetData(x)) == DisplayOffsetData(x)
    ensures x <= 0x3F ==> MultiplexRatioData(x) == x && DisplayOffsetData(x) == x
  {
  }

  /** Clearing the bits a mask discards does not change the byte sent. */
  lemma DiscardedBitsIgnored(x: bv8, y: bv8)
    ensures DisplayStartLine(x & 0x3F) == DisplayStartLine(x)
    ensures MultiplexRatioData(x & 0x3F) == MultiplexRatioData(x)
    ensures PageAddress(x & 0x0F) == PageAddress(x)
    ensures DisplayOffsetData(x & 0x3F) == DisplayOffsetData(x)
    ensures DisChargePreChargePeriodData(x & 0x0F, y & 0x0F) == DisChargePreChargePeriodData(x, y)
  {
    assert DisChargePreChargePeriodData(x & 0x0F, y & 0x0F) == (0xF0 & ((y & 0x0F) << 4)) | (0x0F & (x & 0x0F));
    assert DisChargePreChargePeriodData(x, y) == (0xF0 & (y << 4)) | (0x0F & x);
  }

  /** A multiplex ratio of 64 is not reduced by one: its data byte is 0x00. */
  lemma MultiplexRatio64SendsZero()
    ensures MultiplexRatioData(64) == 0x00
  {
  }

  /**
   For ratio 1..16 and frequency nibble 0..15 the clock data byte decodes back to
   both: the high nibble is the frequency and the low nibble plus one the ratio.
   */
  lemma ClockDataDecodes(ratio: bv8, freq: bv8)
    requires 1 <= ratio <= 16 && freq <= 15
    ensures DivideRatioOscillatorFrequencyData(ratio, freq) >> 4 == freq
    ensures (DivideRatioOscillatorFrequencyData(ratio, freq) & 0x0F) + 1 == ratio
  {
    var b := DivideRatioOscillatorFrequencyData(ratio, freq);
    HighNibbleValue(b);
    LowNibbleValue(b);
    assert b as int == freq as int * 16 + (ratio as int - 1);
    assert (b >> 4) as int == freq as int;
    assert (b & 0x0F) as int == ratio as int - 1;
  }

  /**
   Every byte is the clock data byte of the in-range pair its own nibbles name:
   ratio (b & 0x0F) + 1 in 1..16 and frequency b >> 4 in 0..15. That pair is
   the only one in range, by ClockDataDecodes.
   */
  lemma ClockDataSurjective(b: bv8)
    ensures 1 <= (b & 0x0F) as int + 1 <= 16 && (b >> 4) as int <= 15
    ensures DivideRatioOscillatorFrequencyData((b & 0x0F) + 1, b >> 4) == b
  {
    var ratio := (b & 0x0F) + 1;
    var freq := b >> 4;
    LowNibbleValue(b);
    HighNibbleValue(b);
    assert ratio as int == b as int % 16 + 1;
    var c := DivideRatioOscillatorFrequencyData(ratio, freq);
    assert c as int == b as int;
  }

  /** The clock data byte's fields, bit by bit: frequency nibble on top, ratio minus one below. */
  lemma ClockDataFields(ratio: bv8, freq: bv8)
    ensures DivideRatioOscillatorFrequencyData(ratio, freq) & 0x0F == (ratio - 1) & 0x0F
    ensures DivideRatioOscillatorFrequencyData(ratio, freq) >> 4 == freq & 0x0F
  {
    var b := DivideRatioOscillatorFrequencyData(ratio, freq);
    assert b == (0xF0 & (freq << 4)) | (0x0F & (ratio - 1));
  }

  /** Two divide ratios that agree modulo 16 after the decrement give the same clock data byte. */
  lemma ClockDataRatioModulo16(ratio: bv8, other: bv8, freq: bv8)
    requires (ratio - 1) & 0x0F == (other - 1) & 0x0F
    ensures DivideRatioOscillatorFrequencyData(ratio, freq) == DivideRatioOscillatorFrequencyData(other, freq)
  {
    assert DivideRatioOscillatorFrequencyData(ratio, freq) == (0xF0 & (freq << 4)) | (0x0F & (ratio - 1));
    assert DivideRatioOscillatorFrequencyData(other, freq) == (0xF0 & (freq << 4)) | (0x0F & (other - 1));
  }

  /** A divide ratio of 0 wraps to the low nibble 0xF, so it is sent like a ratio of 16. */
  lemma ClockRatioZeroWraps(freq: bv8)
    ensures DivideRatioOscillatorFrequencyData(0, freq) & 0x0F == 0x0F
    ensures DivideRatioOscillatorFrequencyData(0, freq) == DivideRatioOscillatorFrequencyData(16, freq)
  {
    var z := DivideRatioOscillatorFrequencyData(0, freq);
    var s := DivideRatioOscillatorFrequencyData(16, freq);
    LowNibbleValue(z);
    assert z as int == s as int;
  }

  /** The pre-charge period is the low nibble and the dis-charge period (mod 16) the high nibble. */
  lemma DisChargePreChargeDecodes(pre: bv8, dis: bv8)
    ensures DisChargePreChargePeriodData(pre, dis) & 0x0F == pre & 0x0F
    ensures DisChargePreChargePeriodData(pre, dis) >> 4 == dis & 0x0F
    ensures pre <= 0x0F ==> DisChargePreChargePeriodData(pre, dis) & 0x0F == pre
  {
    var b := DisChargePreChargePeriodData(pre, dis);
    LowNibbleValue(b);
    LowNibbleValue(pre);
    LowNibbleValue(dis);
    HighNibbleValue(b);
    assert (b & 0x0F) as int == (pre & 0x0F) as int;
    assert (b >> 4) as int == (dis & 0x0F) as int;
  }
}
