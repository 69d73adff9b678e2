/**
 The encoder seen as a whole: one datatype value per call of a public entry
 point, the trace a sequence of calls produces, and a reference decoder that
 reads back every trace the encoder produces, following the opcode table.
 It is not a full model of the controller's parser: it rejects byte sequences
 the encoder never sends, such as a lone column-address byte or a data byte
 with its don't-care bits set.

 The decoder is the partner of the encoder: every trace the encoder produces
 decodes to the commands that produced it, up to the bits the masks discard.
 */
module Protocol {
  import opened Wrappers
  import opened Api
  import SysCfg
  import Encoder

  /** One call of a public entry point, with its arguments. */
  datatype Command =
    | SetColumnAddress(addr: bv8)
    | SetPumpVoltage(voltage: PumpVoltage)
    | SetDisplayStartLine(line: bv8)
    | SetContrastControlRegister(step: bv8)
    | SetSegmentReMap(segment: SegmentReMapDirection)
    | SetDisplayState(state: DisplayState)
    | SetDisplayDirection(direction: DisplayDirection)
    | SetMultiplexRatio(multiplex: bv8)
    | SetDcDcMode(mode: DcDcMode)
    | SetPageAddress(page: bv8)
    | SetCommonOutputScanDirection(scan: CommonOutputScanDirection)
    | SetDisplayOffset(offset: bv8)
    | SetClockDivideRatioOscillatorFrequency(divide: bv8, freq: OscillatorFrequency)
    | SetDisChargePreChargePeriod(pre: bv8, dis: bv8)
    | SetCommonPadsHardwareConfiguration(pads: CommonSignalsPadConfiguration)
    | SetVcomDeselectLevel(level: bv8)
    | ReadModifyWrite
    | End
    | Nop
    | WriteDisplayData(data: bv8)

  /** The commands the datasheet defines as double-byte: a mode-select byte, then a data byte. */
  predicate IsDoubleByte(c: Command) {
    || c.SetContrastControlRegister?
    || c.SetMultiplexRatio?
    || c.SetDcDcMode?
    || c.SetDisplayOffset?
    || c.SetClockDivideRatioOscillatorFrequency?
    || c.SetDisChargePreChargePeriod?
    || c.SetCommonPadsHardwareConfiguration?
    || c.SetVcomDeselectLevel?
  }

  /** The trace of one call. */
  function Encode(c: Command): Trace {
    match c
    case SetColumnAddress(a) => Encoder.SetColumnAddress(a)
    case SetPumpVoltage(v) => Encoder.SetPumpVoltage(v)
    case SetDisplayStartLine(l) => Encoder.SetDisplayStartLine(l)
    case SetContrastControlRegister(s) => Encoder.SetContrastControlRegister(s)
    case SetSegmentReMap(d) => Encoder.SetSegmentReMap(d)
    case SetDisplayState(s) => Encoder.SetDisplayState(s)
    case SetDisplayDirection(d) => Encoder.SetDisplayDirection(d)
    case SetMultiplexRatio(r) => Encoder.SetMultiplexRatio(r)
    case SetDcDcMode(m) => Encoder.SetDcDcMode(m)
    case SetPageAddress(p) => Encoder.SetPageAddress(p)
    case SetCommonOutputScanDirection(d) => Encoder.SetCommonOutputScanDirection(d)
    case SetDisplayOffset(o) => Encoder.SetDisplayOffset(o)
    case SetClockDivideRatioOscillatorFrequency(r, f) => Encoder.SetClockDivideRatioOscillatorFrequency(r, f)
    case SetDisChargePreChargePeriod(p, d) => Encoder.SetDisChargePreChargePeriod(p, d)
    case SetCommonPadsHardwareConfiguration(p) => Encoder.SetCommonPadsHardwareConfiguration(p)
    case SetVcomDeselectLevel(l) => Encoder.SetVcomDeselectLevel(l)
    case ReadModifyWrite => Encoder.ReadModifyWrite()
    case End => Encoder.End()
    case Nop => Encoder.Nop()
    case WriteDisplayData(d) => Encoder.WriteDisplayData(d)
  }

  /** The trace of a sequence of calls: each call's bytes, in call order, nothing in between. */
  function EncodeAll(cs: seq<Command>): Trace {
    if |cs| == 0 then [] else Encode(cs[0]) + EncodeAll(cs[1..])
  }

  /**
   The argument bits the controller actually reads: start line, multiplex ratio
   and offset keep 6 bits, page 4 bits, pre/dis-charge periods 4 bits each, and
   the divide ratio is brought into 1..16 (a ratio of 0 wraps to 16).
   */
  function Normalize(c: Command): Command {
    match c
    case SetDisplayStartLine(l) => SetDisplayStartLine(l & 0x3F)
    case SetMultiplexRatio(r) => SetMultiplexRatio(r & 0x3F)
    case SetPageAddress(p) => SetPageAddress(p & 0x0F)
    case SetDisplayOffset(o) => SetDisplayOffset(o & 0x3F)
    case SetClockDivideRatioOscillatorFrequency(r, f) =>
      SetClockDivideRatioOscillatorFrequency(((r - 1) & 0x0F) + 1, f)
    case SetDisChargePreChargePeriod(p, d) => SetDisChargePreChargePeriod(p & 0x0F, d & 0x0F)
    case _ => c
  }

  function NormalizeAll(cs: seq<Command>): (r: seq<Command>)
    ensures |r| == |cs|
    ensures forall i :: 0 <= i < |cs| ==> r[i] == Normalize(cs[i])
  {
    if |cs| == 0 then [] else [Normalize(cs[0])] + NormalizeAll(cs[1..])
  }

  // ---------------------------------------------------------------------------
  // Reference decoder
  // ---------------------------------------------------------------------------

  /** The command opened by mode-select byte `mode` whose data byte is `x`, if the pair is one the encoder emits. */
  function DecodeDoubleByte(mode: bv8, x: bv8): Option<Command> {
    if mode == SysCfg.ContrastControlModeSet then Some(SetContrastControlRegister(x))
    else if mode == SysCfg.MultiplexRatioModeSet then
      (if x <= 0x3F then Some(SetMultiplexRatio(x)) else None)
    else if mode == SysCfg.DcDcControlModeSet then
      (if x == SysCfg.DcDcOnModeSet then Some(SetDcDcMode(DcDcEnable))
       else if x == SysCfg.DcDcOffModeSet then Some(SetDcDcMode(DcDcDisable))
       else None)
    else if mode == SysCfg.DisplayOffsetModeSet then
      (if x <= 0x3F then Some(SetDisplayOffset(x)) else None)
    else if mode == SysCfg.DivideRatioOscillatorFrequencyModeSet then
      (match OscillatorFrequency.FromOrdinal((x >> 4) as int)
       case Some(f) => Some(SetClockDivideRatioOscillatorFrequency((x & 0x0F) + 1, f))
       case None => None)
    else if mode == SysCfg.PreChargePeriodModeSet then
      Some(SetDisChargePreChargePeriod(x & 0x0F, x >> 4))
    else if mode == SysCfg.CommonPadsHardwareConfigurationModeSet then
      (if x == SysCfg.SequentialModeSet then Some(SetCommonPadsHardwareConfiguration(PadsSequential))
       else if x == SysCfg.AlternativeModeSet then Some(SetCommonPadsHardwareConfiguration(PadsAlternative))
       else None)
    else if mode == SysCfg.VcomDeselectLevelModeSet then Some(SetVcomDeselectLevel(x))
    else None
  }

  /** The command a lone command byte `b` stands for, if it is a single-byte command. */
  function DecodeSingleByte(b: bv8): Option<Command> {
    if 0x30 <= b <= 0x33 then
      (match PumpVoltage.FromOrdinal((b - 0x30) as int)
       case Some(v) => Some(SetPumpVoltage(v))
       case None => None)
    else if 0x40 <= b <= 0x7F then Some(SetDisplayStartLine(b & 0x3F))
    else if b == SysCfg.SetSegmentReMapNormalDirection then Some(SetSegmentReMap(SegmentNormal))
    else if b == SysCfg.SetSegmentReMapReverseDirection then Some(SetSegmentReMap(SegmentReverse))
    else if b == SysCfg.SetEntireDisplayOn then Some(SetDisplayState(InternalOn))
    else if b == SysCfg.SetEntireDisplayOff then Some(SetDisplayState(InternalOff))
    else if b == SysCfg.DisplayOnOled then Some(SetDisplayState(OledOn))
    else if b == SysCfg.DisplayOffOled then Some(SetDisplayState(OledOff))
    else if b == SysCfg.SetNormalDisplayDirection then Some(SetDisplayDirection(DisplayNormal))
    else if b == SysCfg.SetReverseDisplayDirection then Some(SetDisplayDirection(DisplayReverse))
    else if 0xB0 <= b <= 0xBF then Some(SetPageAddress(b & 0x0F))
    else if b == SysCfg.ScanFromCom0ToComN then Some(SetCommonOutputScanDirection(ScanNormal))
    else if b == SysCfg.ScanFromComNToCom0 then Some(SetCommonOutputScanDirection(ScanFlipped))
    else if b == SysCfg.ReadModifyWrite then Some(ReadModifyWrite)
    else if b == SysCfg.End then Some(End)
    else if b == SysCfg.Nop then Some(Nop)
    else None
  }

  /** Reads one command off the front of a trace; returns it with the number of bytes it took. */
  function DecodeOne(t: Trace): (r: Option<(Command, nat)>)
    ensures r.Some? ==> 0 < r.value.1 <= |t|
  {
    if |t| == 0 then None
    else match t[0]
      case Data(d) => Some((WriteDisplayData(d), 1))
      case Cmd(b) =>
        if b <= 0x0F then
          (if |t| >= 2 && t[1].Cmd? && 0x10 <= t[1].byte <= 0x1F
           then Some((SetColumnAddress(((t[1].byte & 0x0F) << 4) | b), 2))
           else None)
        else if SysCfg.IsModeSelect(b) then
          (if |t| >= 2 && t[1].Cmd? then
             match DecodeDoubleByte(b, t[1].byte)
             case Some(c) => Some((c, 2))
             case None => None
           else None)
        else
          match DecodeSingleByte(b)
          case Some(c) => Some((c, 1))
          case None => None
  }

  /** Reads a whole trace as a sequence of commands. */
  function DecodeAll(t: Trace): Option<seq<Command>>
    decreases |t|
  {
    if |t| == 0 then Some([])
    else match DecodeOne(t)
      case None => None
      case Some((c, n)) =>
        match DecodeAll(t[n..])
        case None => None
        case Some(cs) => Some([c] + cs)
  }

  // ---------------------------------------------------------------------------
  // Properties
  // ---------------------------------------------------------------------------

  /**
   Every call emits one or two bytes; two exactly for the double-byte commands
   and the column address. All go to the command sink except a display-data
   write, whose one byte goes to the data sink.
   */
  lemma EncodeShape(c: Command)
    ensures 1 <= |Encode(c)| <= 2
    ensures |Encode(c)| == 2 <==> IsDoubleByte(c) || c.SetColumnAddress?
    ensures OnlyCommands(Encode(c)) <==> !c.WriteDisplayData?
    ensures c.WriteDisplayData? ==> Encode(c) == [Data(c.data)]
  {
    if c.WriteDisplayData? {
      assert !Encode(c)[0].Cmd?;
    }
  }

  /** A call opens with a mode-select byte exactly when it is a double-byte command; the data byte follows it. */
  lemma ModeSelectFirst(c: Command)
    ensures Encode(c)[0].Cmd? && SysCfg.IsModeSelect(Encode(c)[0].byte) <==> IsDoubleByte(c)
  {
    EncodeShape(c);
  }

  /** A normalized command is its own normal form. */
  lemma NormalizeIdempotent(c: Command)
    ensures Normalize(Normalize(c)) == Normalize(c)
  {
  }

  /** Normalizing a command changes none of its bytes. */
  lemma NormalizeKeepsBytes(c: Command)
    ensures Encode(Normalize(c)) == Encode(c)
  {
    match c
    case SetDisplayStartLine(l) => StartLineKeepsBytes(l);
    case SetMultiplexRatio(r) => MultiplexKeepsBytes(r);
    case SetDisplayOffset(o) => OffsetKeepsBytes(o);
    case SetPageAddress(p) => PageKeepsBytes(p);
    case SetClockDivideRatioOscillatorFrequency(r, f) => ClockKeepsBytes(r, f);
    case SetDisChargePreChargePeriod(p, d) => PreChargeKeepsBytes(p, d);
    case _ =>
  }

  // One lemma per masking command keeps each proof obligation small.

  lemma StartLineKeepsBytes(x: bv8)
    ensures Encode(Normalize(SetDisplayStartLine(x))) == Encode(SetDisplayStartLine(x))
  {
    Encoder.DiscardedBitsIgnored(x, 0);
  }

  lemma MultiplexKeepsBytes(x: bv8)
    ensures Encode(Normalize(SetMultiplexRatio(x))) == Encode(SetMultiplexRatio(x))
  {
    Encoder.DiscardedBitsIgnored(x, 0);
  }

  lemma OffsetKeepsBytes(x: bv8)
    ensures Encode(Normalize(SetDisplayOffset(x))) == Encode(SetDisplayOffset(x))
  {
    Encoder.DiscardedBitsIgnored(x, 0);
  }

  lemma PageKeepsBytes(x: bv8)
    ensures Encode(Normalize(SetPageAddress(x))) == Encode(SetPageAddress(x))
  {
    Encoder.DiscardedBitsIgnored(x, 0);
  }

  lemma ClockKeepsBytes(x: bv8, f: OscillatorFrequency)
    ensures Encode(Normalize(SetClockDivideRatioOscillatorFrequency(x, f)))
         == Encode(SetClockDivideRatioOscillatorFrequency(x, f))
  {
    Encoder.ClockRatioModulo16(((x - 1) & 0x0F) + 1, x, f);
  }

  lemma PreChargeKeepsBytes(x: bv8, y: bv8)
    ensures Encode(Normalize(SetDisChargePreChargePeriod(x, y))) == Encode(SetDisChargePreChargePeriod(x, y))
  {
    Encoder.DiscardedBitsIgnored(x, y);
  }

  lemma DecodeClock(r: bv8, f: OscillatorFrequency)
    ensures DecodeDoubleByte(0xD5, SysCfg.DivideRatioOscillatorFrequencyData(r, Encoder.OscillatorFrequencyNibble(f)))
         == Some(SetClockDivideRatioOscillatorFrequency(((r - 1) & 0x0F) + 1, f))
  {
    var n := Encoder.OscillatorFrequencyNibble(f);
    var x := SysCfg.DivideRatioOscillatorFrequencyData(r, n);
    SysCfg.ClockDataFields(r, n);
    assert x >> 4 == n;
    assert OscillatorFrequency.FromOrdinal((x >> 4) as int) == Some(f);
  }

  lemma DecodePrecharge(pre: bv8, dis: bv8)
    ensures DecodeDoubleByte(0xD9, Encode(SetDisChargePreChargePeriod(pre, dis))[1].byte)
         == Some(Normalize(SetDisChargePreChargePeriod(pre, dis)))
  {
    SysCfg.DisChargePreChargeDecodes(pre, dis);
  }

  /** The bytes of the single-byte commands: above the column-address range and not a mode-select byte. */
  predicate SingleByteDecodes(c: Command) {
    && |Encode(c)| == 1 && Encode(c)[0].Cmd?
    && 0x0F < Encode(c)[0].byte && !SysCfg.IsModeSelect(Encode(c)[0].byte)
    && DecodeSingleByte(Encode(c)[0].byte) == Some(Normalize(c))
  }

  lemma DecodeSelectorEncode(c: Command)
    requires c.SetPumpVoltage? || c.SetSegmentReMap? || c.SetDisplayState?
          || c.SetDisplayDirection? || c.SetCommonOutputScanDirection?
    ensures SingleByteDecodes(c)
  {
    match c
    case SetPumpVoltage(v) =>
      assert PumpVoltage.FromOrdinal(v.Ordinal()) == Some(v);
    case SetDisplayState(st) =>
    case _ => DecodeTwoWaySelectorEncode(c);
  }

  lemma DecodeTwoWaySelectorEncode(c: Command)
    requires c.SetSegmentReMap? || c.SetDisplayDirection? || c.SetCommonOutputScanDirection?
    ensures SingleByteDecodes(c)
  {
    match c
    case SetSegmentReMap(d) =>
    case SetDisplayDirection(d) =>
    case SetCommonOutputScanDirection(d) =>
  }

  lemma DecodeMaskedSingleByteEncode(c: Command)
    requires c.SetDisplayStartLine? || c.SetPageAddress?
    ensures SingleByteDecodes(c)
  {
    var b := Encode(c)[0].byte;
    match c
    case SetDisplayStartLine(l) =>
      assert b == SysCfg.DisplayStartLine(l);
      assert 0x40 <= b <= 0x7F && b & 0x3F == l & 0x3F;
    case SetPageAddress(p) =>
      assert b == SysCfg.PageAddress(p);
      assert 0xB0 <= b <= 0xBF && b & 0x0F == p & 0x0F;
  }

  /** A single-byte command's byte is read back by `DecodeSingleByte` and opens no other command. */
  lemma DecodeSingleByteEncode(c: Command)
    requires !IsDoubleByte(c) && !c.SetColumnAddress? && !c.WriteDisplayData?
    ensures SingleByteDecodes(c)
  {
    if c.SetDisplayStartLine? || c.SetPageAddress? {
      DecodeMaskedSingleByteEncode(c);
    } else if c.ReadModifyWrite? || c.End? || c.Nop? {
    } else {
      DecodeSelectorEncode(c);
    }
  }

  /** A double-byte command's pair is read back by `DecodeDoubleByte`. */
  lemma DecodeDoubleByteEncode(c: Command)
    requires IsDoubleByte(c)
    ensures |Encode(c)| == 2 && OnlyCommands(Encode(c))
    ensures 0x0F < Encode(c)[0].byte && SysCfg.IsModeSelect(Encode(c)[0].byte)
    ensures DecodeDoubleByte(Encode(c)[0].byte, Encode(c)[1].byte) == Some(Normalize(c))
  {
    if c.SetMultiplexRatio? || c.SetDisplayOffset? || c.SetClockDivideRatioOscillatorFrequency?
       || c.SetDisChargePreChargePeriod? {
      DecodeMaskedDoubleByteEncode(c);
    }
  }

  lemma DecodeMaskedDoubleByteEncode(c: Command)
    requires c.SetMultiplexRatio? || c.SetDisplayOffset? || c.SetClockDivideRatioOscillatorFrequency?
          || c.SetDisChargePreChargePeriod?
    ensures |Encode(c)| == 2 && OnlyCommands(Encode(c))
    ensures 0x0F < Encode(c)[0].byte && SysCfg.IsModeSelect(Encode(c)[0].byte)
    ensures DecodeDoubleByte(Encode(c)[0].byte, Encode(c)[1].byte) == Some(Normalize(c))
  {
    match c
    case SetMultiplexRatio(r) =>
    case SetDisplayOffset(o) =>
    case SetClockDivideRatioOscillatorFrequency(r, f) =>
      DecodeClock(r, f);
    case SetDisChargePreChargePeriod(p, d) =>
      DecodePrecharge(p, d);
  }

  /**
   The decoder reads the front call of any trace back, up to the discarded bits, and consumes exactly its bytes.
   The case split below only keeps each proof obligation small; it is not a
   step the proof logically needs.
   */
  lemma DecodeOneEncode(c: Command, rest: Trace)
    ensures DecodeOne(Encode(c) + rest) == Some((Normalize(c), |Encode(c)|))
  {
    var t := Encode(c) + rest;
    if c.SetColumnAddress? {
      SysCfg.ColumnAddressRoundTrip(c.addr);
      assert t[0] == Cmd(SysCfg.LowerColumnAddress(c.addr));
      assert t[1] == Cmd(SysCfg.HigherColumnAddress(c.addr));
    } else if c.WriteDisplayData? {
      assert t[0] == Data(c.data);
    } else if IsDoubleByte(c) {
      DecodeDoubleByteEncode(c);
      assert t[0] == Encode(c)[0] && t[1] == Encode(c)[1];
    } else {
      DecodeSingleByteEncode(c);
      assert t[0] == Encode(c)[0];
      assert DecodeSingleByte(t[0].byte) == Some(Normalize(c));
    }
  }

  lemma EncodeAllAppend(a: seq<Command>, b: seq<Command>)
    ensures EncodeAll(a + b) == EncodeAll(a) + EncodeAll(b)
  {
    if |a| == 0 {
      assert a + b == b;
    } else {
      assert (a + b)[1..] == a[1..] + b;
      EncodeAllAppend(a[1..], b);
    }
  }

  /** Round trip: decoding the trace of any sequence of calls gives back those calls, normalized. */
  lemma {:induction false} DecodeAllEncodeAll(cs: seq<Command>)
    ensures DecodeAll(EncodeAll(cs)) == Some(NormalizeAll(cs))
  {
    if |cs| == 0 {
    } else {
      var t := EncodeAll(cs);
      var head := Encode(cs[0]);
      assert t == head + EncodeAll(cs[1..]);
      DecodeOneEncode(cs[0], EncodeAll(cs[1..]));
      assert t[|head|..] == EncodeAll(cs[1..]);
      DecodeAllEncodeAll(cs[1..]);
      assert NormalizeAll(cs) == [Normalize(cs[0])] + NormalizeAll(cs[1..]);
    }
  }

  /**
   Two calls put the same bytes on the sinks exactly when they agree on every
   bit the controller reads.
   */
  lemma EncodeInjectiveUpToNormalize(c: Command, d: Command)
    ensures Encode(c) == Encode(d) <==> Normalize(c) == Normalize(d)
  {
    if Encode(c) == Encode(d) {
      DecodeOneEncode(c, []);
      DecodeOneEncode(d, []);
      assert Encode(c) + [] == Encode(d) + [];
    }
    if Normalize(c) == Normalize(d) {
      NormalizeKeepsBytes(c);
      NormalizeKeepsBytes(d);
    }
  }

  /** The decoder rejects a lone higher- or lower-column byte, which the encoder always sends as a pair. */
  lemma DecoderRejectsLoneColumnBytes()
    ensures DecodeAll([Cmd(0x12)]) == None
    ensures DecodeAll([Cmd(0x05)]) == None
  {
    assert DecodeOne([Cmd(0x12)]) == None;
    assert DecodeOne([Cmd(0x05)]) == None;
  }

  /** The decoder rejects a multiplex data byte with its don't-care bits set, which the encoder never sends. */
  lemma DecoderRejectsDontCareBits()
    ensures DecodeAll([Cmd(0xA8), Cmd(0x7F)]) == None
  {
    assert DecodeOne([Cmd(0xA8), Cmd(0x7F)]) == None;
  }

  /** A call sequence goes only to the command sink exactly when it writes no display data. */
  lemma {:induction false} OnlyCommandsWithoutData(cs: seq<Command>)
    ensures OnlyCommands(EncodeAll(cs)) <==> forall i :: 0 <= i < |cs| ==> !cs[i].WriteDisplayData?
  {
    if |cs| != 0 {
      EncodeShape(cs[0]);
      OnlyCommandsWithoutData(cs[1..]);
      OnlyCommandsAppend(Encode(cs[0]), EncodeAll(cs[1..]));
      assert forall i :: 1 <= i < |cs| ==> cs[i] == cs[1..][i - 1];
    }
  }

  // ---------------------------------------------------------------------------
  // The decoder accepts only encoder traces
  // ---------------------------------------------------------------------------

  /** A column-address pair the decoder accepts is exactly what the decoded call sends. */
  lemma ColumnPairSound(lo: bv8, hi: bv8)
    requires lo <= 0x0F && 0x10 <= hi <= 0x1F
    ensures Encode(SetColumnAddress(((hi & 0x0F) << 4) | lo)) == [Cmd(lo), Cmd(hi)]
  {
  }

  /** A clock data byte the decoder accepts is exactly what the decoded call sends after 0xD5. */
  lemma ClockPairSound(x: bv8)
    requires DecodeDoubleByte(0xD5, x).Some?
    ensures Encode(DecodeDoubleByte(0xD5, x).value) == [Cmd(0xD5), Cmd(x)]
  {
    var f := OscillatorFrequency.FromOrdinal((x >> 4) as int).value;
    assert Encoder.OscillatorFrequencyNibble(f) == x >> 4;
    SysCfg.ClockDataSurjective(x);
  }

  /** A pre/dis-charge data byte the decoder accepts is exactly what the decoded call sends after 0xD9. */
  lemma PrechargePairSound(x: bv8)
    ensures Encode(DecodeDoubleByte(0xD9, x).value) == [Cmd(0xD9), Cmd(x)]
  {
    var pre, dis := x & 0x0F, x >> 4;
    SysCfg.LowNibbleValue(x);
    SysCfg.HighNibbleValue(x);
    var b := SysCfg.DisChargePreChargePeriodData(pre, dis);
    assert b as int == x as int;
  }

  /** A 6-bit data byte the decoder accepts after 0xA8 or 0xD3 is sent unchanged by the decoded call. */
  lemma SixBitPairSound(mode: bv8, x: bv8)
    requires mode == 0xA8 || mode == 0xD3
    requires DecodeDoubleByte(mode, x).Some?
    ensures Encode(DecodeDoubleByte(mode, x).value) == [Cmd(mode), Cmd(x)]
  {
    SysCfg.SixBitDataIdempotent(x);
  }

  /**
   Every mode-select pair the decoder accepts is exactly the pair the decoded call sends.
   The case split below only keeps each proof obligation small; it is not a
   step the proof logically needs.
   */
  lemma DecodeDoubleByteSound(mode: bv8, x: bv8)
    ensures DecodeDoubleByte(mode, x).Some? ==> Encode(DecodeDoubleByte(mode, x).value) == [Cmd(mode), Cmd(x)]
  {
    if DecodeDoubleByte(mode, x).Some? {
      if mode == 0xD5 {
        ClockPairSound(x);
      } else if mode == 0xD9 {
        PrechargePairSound(x);
      } else if mode == 0xA8 || mode == 0xD3 {
        SixBitPairSound(mode, x);
      }
    }
  }

  /** Every lone command byte the decoder accepts is exactly the byte the decoded call sends. */
  lemma DecodeSingleByteSound(b: bv8)
    ensures DecodeSingleByte(b).Some? ==> Encode(DecodeSingleByte(b).value) == [Cmd(b)]
  {
    if 0x30 <= b <= 0x33 {
      PumpByteSound(b);
    } else if 0x40 <= b <= 0x7F {
      StartLineByteSound(b);
    } else if 0xB0 <= b <= 0xBF {
      PageByteSound(b);
    } else {
      SelectorByteSound(b);
    }
  }

  lemma PumpByteSound(b: bv8)
    requires 0x30 <= b <= 0x33
    ensures Encode(DecodeSingleByte(b).value) == [Cmd(b)]
  {
    var v := PumpVoltage.FromOrdinal((b - 0x30) as int).value;
    assert v.Ordinal() == (b - 0x30) as int;
  }

  lemma StartLineByteSound(b: bv8)
    requires 0x40 <= b <= 0x7F
    ensures Encode(DecodeSingleByte(b).value) == [Cmd(b)]
  {
    SysCfg.LowSixBitsValue(b);
  }

  lemma PageByteSound(b: bv8)
    requires 0xB0 <= b <= 0xBF
    ensures Encode(DecodeSingleByte(b).value) == [Cmd(b)]
  {
    SysCfg.LowNibbleValue(b);
  }

  lemma SelectorByteSound(b: bv8)
    requires !(0x30 <= b <= 0x33) && !(0x40 <= b <= 0x7F) && !(0xB0 <= b <= 0xBF)
    ensures DecodeSingleByte(b).Some? ==> Encode(DecodeSingleByte(b).value) == [Cmd(b)]
  {
  }

  /**
   Whatever the decoder reads off the front of a trace sends exactly the bytes it consumed.
   The case split below only keeps each proof obligation small; it is not a
   step the proof logically needs.
   */
  lemma DecodeOneSound(t: Trace)
    ensures DecodeOne(t).Some? ==> Encode(DecodeOne(t).value.0) == t[..DecodeOne(t).value.1]
  {
    if DecodeOne(t).Some? {
      var (c, n) := DecodeOne(t).value;
      match t[0]
      case Data(d) =>
        assert t[..n] == [Data(d)];
      case Cmd(b) =>
        if b <= 0x0F {
          ColumnPairSound(b, t[1].byte);
          assert t[..n] == [Cmd(b), t[1]];
        } else if SysCfg.IsModeSelect(b) {
          DecodeDoubleByteSound(b, t[1].byte);
          assert t[..n] == [Cmd(b), t[1]];
        } else {
          DecodeSingleByteSound(b);
          assert t[..n] == [Cmd(b)];
        }
    }
  }

  /** Encoding a call in front of calls whose trace is the rest of `t` gives back `t`. */
  lemma EncodeAllCons(c: Command, cs: seq<Command>, t: Trace, n: nat)
    requires n <= |t| && Encode(c) == t[..n] && EncodeAll(cs) == t[n..]
    ensures EncodeAll([c] + cs) == t
  {
    assert ([c] + cs)[1..] == cs;
    assert t == t[..n] + t[n..];
  }

  /** One step of `DecodeAll`: the first command, then the decoding of what it leaves. */
  lemma DecodeAllStep(t: Trace)
    requires |t| != 0 && DecodeAll(t).Some?
    ensures DecodeOne(t).Some?
    ensures DecodeAll(t[DecodeOne(t).value.1..]).Some?
    ensures DecodeAll(t).value == [DecodeOne(t).value.0] + DecodeAll(t[DecodeOne(t).value.1..]).value
  {
  }

  /** Soundness: any trace the decoder reads is exactly the trace of the calls it reads. */
  lemma {:induction false} DecodeAllSound(t: Trace)
    ensures DecodeAll(t).Some? ==> EncodeAll(DecodeAll(t).value) == t
    decreases |t|
  {
    if |t| != 0 && DecodeAll(t).Some? {
      DecodeAllStep(t);
      DecodeOneSound(t);
      var (c, n) := DecodeOne(t).value;
      DecodeAllSound(t[n..]);
      EncodeAllCons(c, DecodeAll(t[n..]).value, t, n);
    }
  }

  /** The decoder accepts a trace exactly when some sequence of calls produces it. */
  lemma DecodeAcceptsExactlyEncoderTraces(t: Trace)
    ensures DecodeAll(t).Some? <==> exists cs :: EncodeAll(cs) == t
  {
    if DecodeAll(t).Some? {
      DecodeAllSound(t);
    }
    if cs :| EncodeAll(cs) == t {
      DecodeAllEncodeAll(cs);
    }
  }

  /** Begin read-modify-write, then end, with no call in between: exactly 0xE0 then 0xEE on the command sink. */
  lemma ReadModifyWriteEndTrace()
    ensures EncodeAll([ReadModifyWrite, End]) == [Cmd(0xE0), Cmd(0xEE)]
  {
    assert [ReadModifyWrite, End][1..] == [End];
  }
}
