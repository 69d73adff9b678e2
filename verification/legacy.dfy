/**
 The older encoder: the same entry points over a single `t_send8` sink.

 With one sink there is no command/data tag, so a trace is a plain byte
 sequence. Each function is written from the older source's own switch tables
 (the clock table uses binary literals) and is proved to send exactly the
 bytes of its two-sink namesake with the tags dropped.
 */
module LegacyEncoder {
  import opened Api
  import SysCfg
  import Encoder
  import Protocol

  /** The bytes handed to the one sink, in call order. */
  type Send8Trace = seq<bv8>

  /** The two-sink trace with command and data bytes merged into one stream. */
  function Merge(t: Trace): Send8Trace {
    seq(|t|, i requires 0 <= i < |t| => t[i].byte)
  }

  function SetColumnAddress(addr: bv8): (r: Send8Trace)
    ensures r == Merge(Encoder.SetColumnAddress(addr))
  {
    [SysCfg.LowerColumnAddress(addr), SysCfg.HigherColumnAddress(addr)]
  }

  function SetPumpVoltage(v: PumpVoltage): (r: Send8Trace)
    ensures r == Merge(Encoder.SetPumpVoltage(v))
  {
    match v
    case Vpp7_4 => [SysCfg.SetPumpVoltage7_4]
    case Vpp8_0 => [SysCfg.SetPumpVoltage8_0]
    case Vpp8_4 => [SysCfg.SetPumpVoltage8_4]
    case Vpp9_0 => [SysCfg.SetPumpVoltage9_0]
  }

  function SetDisplayStartLine(line: bv8): (r: Send8Trace)
    ensures r == Merge(Encoder.SetDisplayStartLine(line))
  {
    [SysCfg.DisplayStartLine(line)]
  }

  function SetContrastControlRegister(contrast: bv8): (r: Send8Trace)
    ensures r == Merge(Encoder.SetContrastControlRegister(contrast))
  {
    [SysCfg.ContrastControlModeSet, SysCfg.ContrastDataRegister(contrast)]
  }

  function SetSegmentReMap(d: SegmentReMapDirection): (r: Send8Trace)
    ensures r == Merge(Encoder.SetSegmentReMap(d))
  {
    match d
    case SegmentNormal => [SysCfg.SetSegmentReMapNormalDirection]
    case SegmentReverse => [SysCfg.SetSegmentReMapReverseDirection]
  }

  function SetDisplayState(s: DisplayState): (r: Send8Trace)
    ensures r == Merge(Encoder.SetDisplayState(s))
  {
    match s
    case InternalOn => [SysCfg.SetEntireDisplayOn]
    case InternalOff => [SysCfg.SetEntireDisplayOff]
    case OledOn => [SysCfg.DisplayOnOled]
    case OledOff => [SysCfg.DisplayOffOled]
  }

  function SetDisplayDirection(d: DisplayDirection): (r: Send8Trace)
    ensures r == Merge(Encoder.SetDisplayDirection(d))
  {
    match d
    case DisplayNormal => [SysCfg.SetNormalDisplayDirection]
    case DisplayReverse => [SysCfg.SetReverseDisplayDirection]
  }

  function SetMultiplexRatio(ratio: bv8): (r: Send8Trace)
    ensures r == Merge(Encoder.SetMultiplexRatio(ratio))
  {
    [SysCfg.MultiplexRatioModeSet, SysCfg.MultiplexRatioData(ratio)]
  }

  /** Exactly two bytes, the control-mode byte first. */
  function SetDcDcMode(m: DcDcMode): (r: Send8Trace)
    ensures |r| == 2 && r[0] == 0xAD
    ensures r == Merge(Encoder.SetDcDcMode(m))
  {
    match m
    case DcDcDisable => [SysCfg.DcDcControlModeSet, SysCfg.DcDcOffModeSet]
    case DcDcEnable => [SysCfg.DcDcControlModeSet, SysCfg.DcDcOnModeSet]
  }

  function SetPageAddress(page: bv8): (r: Send8Trace)
    ensures r == Merge(Encoder.SetPageAddress(page))
  {
    [SysCfg.PageAddress(page)]
  }

  function SetCommonOutputScanDirection(d: CommonOutputScanDirection): (r: Send8Trace)
    ensures r == Merge(Encoder.SetCommonOutputScanDirection(d))
  {
    match d
    case ScanNormal => [SysCfg.ScanFromCom0ToComN]
    case ScanFlipped => [SysCfg.ScanFromComNToCom0]
  }

  function SetDisplayOffset(offset: bv8): (r: Send8Trace)
    ensures r == Merge(Encoder.SetDisplayOffset(offset))
  {
    [SysCfg.DisplayOffsetModeSet, SysCfg.DisplayOffsetData(offset)]
  }

  /** A nibble written digit by digit, most significant first, as the older source's binary literals are. */
  function Bits(b3: bv8, b2: bv8, b1: bv8, b0: bv8): bv8
    requires b3 <= 1 && b2 <= 1 && b1 <= 1 && b0 <= 1
  {
    (b3 << 3) | (b2 << 2) | (b1 << 1) | b0
  }

  /** The older clock table, written with binary literals: the same nibbles as the newer hex table. */
  function OscillatorFrequencyNibble(f: OscillatorFrequency): (n: bv8)
    ensures n == Encoder.OscillatorFrequencyNibble(f)
  {
    match f
    case Minus25 => Bits(0, 0, 0, 0)
    case Minus20 => Bits(0, 0, 0, 1)
    case Minus15 => Bits(0, 0, 1, 0)
    case Minus10 => Bits(0, 0, 1, 1)
    case Minus5 => Bits(0, 1, 0, 0)
    case Por => Bits(0, 1, 0, 1)
    case Plus5 => Bits(0, 1, 1, 0)
    case Plus10 => Bits(0, 1, 1, 1)
    case Plus15 => Bits(1, 0, 0, 0)
    case Plus20 => Bits(1, 0, 0, 1)
    case Plus25 => Bits(1, 0, 1, 0)
    case Plus30 => Bits(1, 0, 1, 1)
    case Plus35 => Bits(1, 1, 0, 0)
    case Plus40 => Bits(1, 1, 0, 1)
    case Plus45 => Bits(1, 1, 1, 0)
    case Plus50 => Bits(1, 1, 1, 1)
  }

  function SetClockDivideRatioOscillatorFrequency(ratio: bv8, f: OscillatorFrequency): (r: Send8Trace)
    ensures r == Merge(Encoder.SetClockDivideRatioOscillatorFrequency(ratio, f))
  {
    [SysCfg.DivideRatioOscillatorFrequencyModeSet,
     SysCfg.DivideRatioOscillatorFrequencyData(ratio, OscillatorFrequencyNibble(f))]
  }

  function SetDisChargePreChargePeriod(pre: bv8, dis: bv8): (r: Send8Trace)
    ensures r == Merge(Encoder.SetDisChargePreChargePeriod(pre, dis))
  {
    [SysCfg.PreChargePeriodModeSet, SysCfg.DisChargePreChargePeriodData(pre, dis)]
  }

  /** Exactly two bytes, the configuration mode byte first. */
  function SetCommonPadsHardwareConfiguration(c: CommonSignalsPadConfiguration): (r: Send8Trace)
    ensures |r| == 2 && r[0] == 0xDA
    ensures r == Merge(Encoder.SetCommonPadsHardwareConfiguration(c))
  {
    match c
    case PadsSequential => [SysCfg.CommonPadsHardwareConfigurationModeSet, SysCfg.SequentialModeSet]
    case PadsAlternative => [SysCfg.CommonPadsHardwareConfigurationModeSet, SysCfg.AlternativeModeSet]
  }

  function SetVcomDeselectLevel(level: bv8): (r: Send8Trace)
    ensures r == Merge(Encoder.SetVcomDeselectLevel(level))
  {
    [SysCfg.VcomDeselectLevelModeSet, SysCfg.VcomDeselectLevelData(level)]
  }

  function ReadModifyWrite(): (r: Send8Trace)
    ensures r == Merge(Encoder.ReadModifyWrite())
  {
    [SysCfg.ReadModifyWrite]
  }

  function End(): (r: Send8Trace)
    ensures r == Merge(Encoder.End())
  {
    [SysCfg.End]
  }

  function Nop(): (r: Send8Trace)
    ensures r == Merge(Encoder.Nop())
  {
    [SysCfg.Nop]
  }

  /** The pixel byte goes to the same sink as the commands. */
  function WriteDisplayData(data: bv8): (r: Send8Trace)
    ensures r == Merge(Encoder.WriteDisplayData(data))
  {
    [SysCfg.WriteDisplayData(data)]
  }

  /** The trace of one call on the older interface. */
  function Encode(c: Protocol.Command): Send8Trace {
    match c
    case SetColumnAddress(a) => SetColumnAddress(a)
    case SetPumpVoltage(v) => SetPumpVoltage(v)
    case SetDisplayStartLine(l) => SetDisplayStartLine(l)
    case SetContrastControlRegister(s) => SetContrastControlRegister(s)
    case SetSegmentReMap(d) => SetSegmentReMap(d)
    case SetDisplayState(s) => SetDisplayState(s)
    case SetDisplayDirection(d) => SetDisplayDirection(d)
    case SetMultiplexRatio(r) => SetMultiplexRatio(r)
    case SetDcDcMode(m) => SetDcDcMode(m)
    case SetPageAddress(p) => SetPageAddress(p)
    case SetCommonOutputScanDirection(d) => SetCommonOutputScanDirection(d)
    case SetDisplayOffset(o) => SetDisplayOffset(o)
    case SetClockDivideRatioOscillatorFrequency(r, f) => SetClockDivideRatioOscillatorFrequency(r, f)
    case SetDisChargePreChargePeriod(p, d) => SetDisChargePreChargePeriod(p, d)
    case SetCommonPadsHardwareConfiguration(p) => SetCommonPadsHardwareConfiguration(p)
    case SetVcomDeselectLevel(l) => SetVcomDeselectLevel(l)
    case ReadModifyWrite => ReadModifyWrite()
    case End => End()
    case Nop => Nop()
    case WriteDisplayData(d) => WriteDisplayData(d)
  }

  /** Every call sends the same bytes as on the two-sink interface, with the sinks merged. */
  lemma EncodeMatchesTwoSink(c: Protocol.Command)
    ensures Encode(c) == Merge(Protocol.Encode(c))
  {
    if Protocol.IsDoubleByte(c) || c.SetColumnAddress? {
      TwoByteCallMatchesTwoSink(c);
    } else {
      OneByteCallMatchesTwoSink(c);
    }
  }

  lemma TwoByteCallMatchesTwoSink(c: Protocol.Command)
    requires Protocol.IsDoubleByte(c) || c.SetColumnAddress?
    ensures Encode(c) == Merge(Protocol.Encode(c))
  {
    match c
    case SetColumnAddress(a) =>
    case SetContrastControlRegister(s) =>
    case SetMultiplexRatio(r) =>
    case SetDcDcMode(m) =>
    case SetDisplayOffset(o) =>
    case SetClockDivideRatioOscillatorFrequency(r, f) =>
    case SetDisChargePreChargePeriod(p, d) =>
    case SetCommonPadsHardwareConfiguration(p) =>
    case SetVcomDeselectLevel(l) =>
  }

  lemma OneByteCallMatchesTwoSink(c: Protocol.Command)
    requires !Protocol.IsDoubleByte(c) && !c.SetColumnAddress?
    ensures Encode(c) == Merge(Protocol.Encode(c))
  {
    match c
    case SetPumpVoltage(v) =>
    case SetDisplayStartLine(l) =>
    case SetSegmentReMap(d) =>
    case SetDisplayState(s) =>
    case SetDisplayDirection(d) =>
    case SetPageAddress(p) =>
    case SetCommonOutputScanDirection(d) =>
    case ReadModifyWrite =>
    case End =>
    case Nop =>
    case WriteDisplayData(d) =>
  }

  function EncodeAll(cs: seq<Protocol.Command>): Send8Trace {
    if |cs| == 0 then [] else Encode(cs[0]) + EncodeAll(cs[1..])
  }

  lemma MergeAppend(a: Trace, b: Trace)
    ensures Merge(a + b) == Merge(a) + Merge(b)
  {
    assert forall i :: 0 <= i < |a + b| ==> Merge(a + b)[i] == (Merge(a) + Merge(b))[i];
  }

  /** Every sequence of calls sends the same byte stream as the two-sink encoder, with the two sinks merged. */
  lemma {:induction false} EncodeAllMatchesTwoSink(cs: seq<Protocol.Command>)
    ensures EncodeAll(cs) == Merge(Protocol.EncodeAll(cs))
  {
    if |cs| != 0 {
      EncodeAllMatchesTwoSink(cs[1..]);
      EncodeMatchesTwoSink(cs[0]);
      MergeAppend(Protocol.Encode(cs[0]), Protocol.EncodeAll(cs[1..]));
    }
  }

  /**
   On the single sink a display-data byte cannot be told from a command: every
   one-byte call sends the same stream as writing that byte as pixel data,
   e.g. writing 0xAF is indistinguishable from switching the OLED on.
   */
  lemma DataIndistinguishableFromCommands(c: Protocol.Command)
    requires |Encode(c)| == 1
    ensures Encode(c) == WriteDisplayData(Encode(c)[0])
    ensures WriteDisplayData(0xAF) == SetDisplayState(OledOn)
    ensures Protocol.Encode(Protocol.WriteDisplayData(0xAF)) != Protocol.Encode(Protocol.SetDisplayState(OledOn))
  {
    var b := Encode(c)[0];
    assert Encode(c) == [b];
  }
}
