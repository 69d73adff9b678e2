/**
 The two-sink command encoder: one function per public entry point.

 Each function returns the trace of sink calls the C function makes. Every
 entry point except `WriteDisplayData` receives only the command sink, so its
 trace holds `Cmd` bytes only; `WriteDisplayData` receives only the data sink.
 The contracts state each byte by its datasheet meaning (an ordinal, a nibble,
 a residue), not by the table or mask the body uses.
 */
module Encoder {
  import opened Api
  import SysCfg

  function SetColumnAddress(addr: bv8): (t: Trace)
    ensures |t| == 2 && OnlyCommands(t)
    ensures t[0].byte as int == addr as int % 16
    ensures t[1].byte as int == 0x10 + addr as int / 16
  {
    [Cmd(SysCfg.LowerColumnAddress(addr)), Cmd(SysCfg.HigherColumnAddress(addr))]
  }

  function SetPumpVoltage(v: PumpVoltage): (t: Trace)
    ensures t == [Cmd(0x30 + v.Ordinal() as bv8)]
  {
    match v
    case Vpp7_4 => [Cmd(SysCfg.SetPumpVoltage7_4)]
    case Vpp8_0 => [Cmd(SysCfg.SetPumpVoltage8_0)]
    case Vpp8_4 => [Cmd(SysCfg.SetPumpVoltage8_4)]
    case Vpp9_0 => [Cmd(SysCfg.SetPumpVoltage9_0)]
  }

  function SetDisplayStartLine(line: bv8): (t: Trace)
    ensures |t| == 1 && OnlyCommands(t)
    ensures 0x40 <= t[0].byte <= 0x7F
    ensures t[0].byte as int == 0x40 + line as int % 64
  {
    [Cmd(SysCfg.DisplayStartLine(line))]
  }

  function SetContrastControlRegister(step: bv8): (t: Trace)
    ensures t == [Cmd(0x81), Cmd(step)]
  {
    [Cmd(SysCfg.ContrastControlModeSet), Cmd(SysCfg.ContrastDataRegister(step))]
  }

  function SetSegmentReMap(d: SegmentReMapDirection): (t: Trace)
    ensures t == [Cmd(0xA0 + d.Ordinal() as bv8)]
  {
    match d
    case SegmentNormal => [Cmd(SysCfg.SetSegmentReMapNormalDirection)]
    case SegmentReverse => [Cmd(SysCfg.SetSegmentReMapReverseDirection)]
  }

  /**
   Entire-display states use 0xA4/0xA5 and OLED power states 0xAE/0xAF; bit 0
   is set exactly for the states whose name says ON.
   */
  function SetDisplayState(s: DisplayState): (t: Trace)
    ensures |t| == 1 && OnlyCommands(t)
    ensures t[0].byte & 0xFE == (if s.IsOledPower() then 0xAE else 0xA4)
    ensures t[0].byte & 0x01 == (if s.TurnsOn() then 1 else 0)
  {
    match s
    case InternalOn => [Cmd(SysCfg.SetEntireDisplayOn)]
    case InternalOff => [Cmd(SysCfg.SetEntireDisplayOff)]
    case OledOn => [Cmd(SysCfg.DisplayOnOled)]
    case OledOff => [Cmd(SysCfg.DisplayOffOled)]
  }

  function SetDisplayDirection(d: DisplayDirection): (t: Trace)
    ensures t == [Cmd(0xA6 + d.Ordinal() as bv8)]
  {
    match d
    case DisplayNormal => [Cmd(SysCfg.SetNormalDisplayDirection)]
    case DisplayReverse => [Cmd(SysCfg.SetReverseDisplayDirection)]
  }

  function SetMultiplexRatio(ratio: bv8): (t: Trace)
    ensures |t| == 2 && OnlyCommands(t)
    ensures t[0].byte == 0xA8
    ensures t[1].byte as int == ratio as int % 64
  {
    [Cmd(SysCfg.MultiplexRatioModeSet), Cmd(SysCfg.MultiplexRatioData(ratio))]
  }

  /** The control-mode byte 0xAD, then 0x8A or 0x8B; bit 0 of the second byte is set exactly for ENABLE. */
  function SetDcDcMode(m: DcDcMode): (t: Trace)
    ensures |t| == 2 && OnlyCommands(t)
    ensures t[0].byte == 0xAD
    ensures t[1].byte & 0xFE == 0x8A
    ensures t[1].byte & 0x01 == 1 <==> m == DcDcEnable
  {
    match m
    case DcDcDisable => [Cmd(SysCfg.DcDcControlModeSet), Cmd(SysCfg.DcDcOffModeSet)]
    case DcDcEnable => [Cmd(SysCfg.DcDcControlModeSet), Cmd(SysCfg.DcDcOnModeSet)]
  }

  function SetPageAddress(page: bv8): (t: Trace)
    ensures |t| == 1 && OnlyCommands(t)
    ensures t[0].byte as int == 0xB0 + page as int % 16
  {
    [Cmd(SysCfg.PageAddress(page))]
  }

  function SetCommonOutputScanDirection(d: CommonOutputScanDirection): (t: Trace)
    ensures t == [Cmd(0xC0 + 8 * d.Ordinal() as bv8)]
  {
    match d
    case ScanNormal => [Cmd(SysCfg.ScanFromCom0ToComN)]
    case ScanFlipped => [Cmd(SysCfg.ScanFromComNToCom0)]
  }

  function SetDisplayOffset(offset: bv8): (t: Trace)
    ensures |t| == 2 && OnlyCommands(t)
    ensures t[0].byte == 0xD3
    ensures t[1].byte as int == offset as int % 64
  {
    [Cmd(SysCfg.DisplayOffsetModeSet), Cmd(SysCfg.DisplayOffsetData(offset))]
  }

  /** The frequency nibble the clock function passes for each oscillator constant. */
  function OscillatorFrequencyNibble(f: OscillatorFrequency): (n: bv8)
    ensures n as int == f.Ordinal()
  {
    match f
    case Minus25 => 0x00
    case Minus20 => 0x01
    case Minus15 => 0x02
    case Minus10 => 0x03
    case Minus5 => 0x04
    case Por => 0x05
    case Plus5 => 0x06
    case Plus10 => 0x07
    case Plus15 => 0x08
    case Plus20 => 0x09
    case Plus25 => 0x0A
    case Plus30 => 0x0B
    case Plus35 => 0x0C
    case Plus40 => 0x0D
    case Plus45 => 0x0E
    case Plus50 => 0x0F
  }

  /** Mode byte 0xD5, then the frequency's declaration index on top and the divide ratio minus one below. */
  function SetClockDivideRatioOscillatorFrequency(ratio: bv8, f: OscillatorFrequency): (t: Trace)
    ensures |t| == 2 && OnlyCommands(t)
    ensures t[0].byte == 0xD5
    ensures t[1].byte as int == f.Ordinal() * 16 + (ratio as int - 1) % 16
  {
    var n := OscillatorFrequencyNibble(f);
    assert n as int % 16 == f.Ordinal();
    [Cmd(SysCfg.DivideRatioOscillatorFrequencyModeSet), Cmd(SysCfg.DivideRatioOscillatorFrequencyData(ratio, n))]
  }

  function SetDisChargePreChargePeriod(pre: bv8, dis: bv8): (t: Trace)
    ensures |t| == 2 && OnlyCommands(t)
    ensures t[0].byte == 0xD9
    ensures t[1].byte as int == (dis as int % 16) * 16 + pre as int % 16
  {
    [Cmd(SysCfg.PreChargePeriodModeSet), Cmd(SysCfg.DisChargePreChargePeriodData(pre, dis))]
  }

  function SetCommonPadsHardwareConfiguration(c: CommonSignalsPadConfiguration): (t: Trace)
    ensures t == [Cmd(0xDA), Cmd(0x02 + 0x10 * c.Ordinal() as bv8)]
  {
    match c
    case PadsSequential => [Cmd(SysCfg.CommonPadsHardwareConfigurationModeSet), Cmd(SysCfg.SequentialModeSet)]
    case PadsAlternative => [Cmd(SysCfg.CommonPadsHardwareConfigurationModeSet), Cmd(SysCfg.AlternativeModeSet)]
  }

  function SetVcomDeselectLevel(level: bv8): (t: Trace)
    ensures t == [Cmd(0xDB), Cmd(level)]
  {
    [Cmd(SysCfg.VcomDeselectLevelModeSet), Cmd(SysCfg.VcomDeselectLevelData(level))]
  }

  function ReadModifyWrite(): (t: Trace)
    ensures t == [Cmd(0xE0)]
  {
    [Cmd(SysCfg.ReadModifyWrite)]
  }

  function End(): (t: Trace)
    ensures t == [Cmd(0xEE)]
  {
    [Cmd(SysCfg.End)]
  }

  function Nop(): (t: Trace)
    ensures t == [Cmd(0xE3)]
  {
    [Cmd(SysCfg.Nop)]
  }

  /** The only entry point that uses the data sink: the pixel byte, unchanged, and nothing on the command sink. */
  function WriteDisplayData(data: bv8): (t: Trace)
    ensures t == [Data(data)]
  {
    [Data(SysCfg.WriteDisplayData(data))]
  }

  // ---------------------------------------------------------------------------
  // Properties across entry points
  // ---------------------------------------------------------------------------

  /**
   The single-byte selectors with more than two options are injective, and the
   three fixed one-byte commands (read-modify-write, end, nop) are distinct.
   Injectivity of the whole opcode table follows from the decoder in `Protocol`.
   */
  lemma SelectorsInjective(v: PumpVoltage, w: PumpVoltage, s: DisplayState, u: DisplayState,
                           d: CommonOutputScanDirection, e: CommonOutputScanDirection)
    ensures SetPumpVoltage(v) == SetPumpVoltage(w) <==> v == w
    ensures SetDisplayState(s) == SetDisplayState(u) <==> s == u
    ensures SetCommonOutputScanDirection(d) == SetCommonOutputScanDirection(e) <==> d == e
    ensures ReadModifyWrite() != End() && End() != Nop() && Nop() != ReadModifyWrite()
  {
    if SetDisplayState(s) == SetDisplayState(u) {
      DisplayStatePartition(s, u);
    }
  }

  /** The clock function sends the same bytes for a divide ratio of 0 as for 16. */
  lemma ClockRatioZeroLikeSixteen(f: OscillatorFrequency)
    ensures SetClockDivideRatioOscillatorFrequency(0, f) == SetClockDivideRatioOscillatorFrequency(16, f)
  {
    SysCfg.ClockRatioZeroWraps(OscillatorFrequencyNibble(f));
  }

  /**
   The bits a parameter's mask discards do not reach the sink: the functions
   that mask their argument send the same bytes for the masked argument.
   */
  lemma DiscardedBitsIgnored(x: bv8, y: bv8)
    ensures SetDisplayStartLine(x & 0x3F) == SetDisplayStartLine(x)
    ensures SetMultiplexRatio(x & 0x3F) == SetMultiplexRatio(x)
    ensures SetPageAddress(x & 0x0F) == SetPageAddress(x)
    ensures SetDisplayOffset(x & 0x3F) == SetDisplayOffset(x)
    ensures SetDisChargePreChargePeriod(x & 0x0F, y & 0x0F) == SetDisChargePreChargePeriod(x, y)
  {
    SysCfg.DiscardedBitsIgnored(x, y);
  }

  /** The clock function sends the same bytes for every divide ratio with the same residue of ratio - 1 modulo 16. */
  lemma ClockRatioModulo16(ratio: bv8, other: bv8, f: OscillatorFrequency)
    requires (ratio - 1) & 0x0F == (other - 1) & 0x0F
    ensures SetClockDivideRatioOscillatorFrequency(ratio, f) == SetClockDivideRatioOscillatorFrequency(other, f)
  {
    SysCfg.ClockDataRatioModulo16(ratio, other, OscillatorFrequencyNibble(f));
  }
}
