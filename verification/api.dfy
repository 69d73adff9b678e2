/**
 The public interface of the encoder: the two byte sinks and the closed option
 enumerations.

 A call to a sink is recorded as one tagged byte in a trace: `Cmd(b)` for the
 command sink, `Data(b)` for the display-data sink. Each C enum becomes a
 datatype whose constructors follow the declaration order; `Ordinal` is the
 integer the C compiler assigns to a constant, and `FromOrdinal` is the
 conversion back from an integer, defined for exactly the declared values.
 */
module Api {
  import opened Wrappers

  /** One byte handed to one of the two sinks. */
  datatype Emit = Cmd(byte: bv8) | Data(byte: bv8)

  /** The bytes an operation hands to its sinks, in call order. */
  type Trace = seq<Emit>

  /** Every byte of the trace went to the command sink. */
  predicate OnlyCommands(t: Trace) {
    forall i :: 0 <= i < |t| ==> t[i].Cmd?
  }

  /** A joined trace goes only to the command sink exactly when both parts do. */
  lemma OnlyCommandsAppend(a: Trace, b: Trace)
    ensures OnlyCommands(a + b) <==> OnlyCommands(a) && OnlyCommands(b)
  {
    if OnlyCommands(a + b) {
      assert forall i :: 0 <= i < |a| ==> a[i] == (a + b)[i];
      assert forall i :: 0 <= i < |b| ==> b[i] == (a + b)[|a| + i];
    }
    if OnlyCommands(a) && OnlyCommands(b) {
      forall i | 0 <= i < |a + b|
        ensures (a + b)[i].Cmd?
      {
        if i < |a| {
          assert (a + b)[i] == a[i];
        } else {
          assert (a + b)[i] == b[i - |a|];
        }
      }
    }
  }

  /** Output voltage of the internal charge pump. */
  datatype PumpVoltage = Vpp7_4 | Vpp8_0 | Vpp8_4 | Vpp9_0 {

    function Ordinal(): (n: nat)
      ensures n < 4
    {
      match this
      case Vpp7_4 => 0
      case Vpp8_0 => 1
      case Vpp8_4 => 2
      case Vpp9_0 => 3
    }

    static function FromOrdinal(n: int): (r: Option<PumpVoltage>)
      ensures forall v: PumpVoltage :: r == Some(v) <==> v.Ordinal() == n
    {
      if n == 0 then Some(Vpp7_4)
      else if n == 1 then Some(Vpp8_0)
      else if n == 2 then Some(Vpp8_4)
      else if n == 3 then Some(Vpp9_0)
      else None
    }

    /** The voltage the constant's name denotes, in tenths of a volt. */
    function Decivolts(): nat {
      match this
      case Vpp7_4 => 74
      case Vpp8_0 => 80
      case Vpp8_4 => 84
      case Vpp9_0 => 90
    }
  }

  /** Relation between RAM column address and segment driver. */
  datatype SegmentReMapDirection = SegmentNormal | SegmentReverse {

    function Ordinal(): (n: nat)
      ensures n < 2
    {
      match this
      case SegmentNormal => 0
      case SegmentReverse => 1
    }

    static function FromOrdinal(n: int): (r: Option<SegmentReMapDirection>)
      ensures forall d: SegmentReMapDirection :: r == Some(d) <==> d.Ordinal() == n
    {
      if n == 0 then Some(SegmentNormal)
      else if n == 1 then Some(SegmentReverse)
      else None
    }
  }

  /**
   Entire-display and OLED power states, in declaration order
   INTERNAL_ON, INTERNAL_OFF, OLED_OFF, OLED_ON.
   */
  datatype DisplayState = InternalOn | InternalOff | OledOff | OledOn {

    function Ordinal(): (n: nat)
      ensures n < 4
    {
      match this
      case InternalOn => 0
      case InternalOff => 1
      case OledOff => 2
      case OledOn => 3
    }

    static function FromOrdinal(n: int): (r: Option<DisplayState>)
      ensures forall s: DisplayState :: r == Some(s) <==> s.Ordinal() == n
    {
      if n == 0 then Some(InternalOn)
      else if n == 1 then Some(InternalOff)
      else if n == 2 then Some(OledOff)
      else if n == 3 then Some(OledOn)
      else None
    }

    /** The state switches the OLED panel power rather than the entire-display override. */
    predicate IsOledPower() {
      OledOff? || OledOn?
    }

    /** The state's name says ON. */
    predicate TurnsOn() {
      InternalOn? || OledOn?
    }
  }

  /** Normal or reverse (inverted) display. */
  datatype DisplayDirection = DisplayNormal | DisplayReverse {

    function Ordinal(): (n: nat)
      ensures n < 2
    {
      match this
      case DisplayNormal => 0
      case DisplayReverse => 1
    }

    static function FromOrdinal(n: int): (r: Option<DisplayDirection>)
      ensures forall d: DisplayDirection :: r == Some(d) <==> d.Ordinal() == n
    {
      if n == 0 then Some(DisplayNormal)
      else if n == 1 then Some(DisplayReverse)
      else None
    }
  }

  /** Built-in DC-DC converter mode, in declaration order ENABLE, DISABLE. */
  datatype DcDcMode = DcDcEnable | DcDcDisable {

    function Ordinal(): (n: nat)
      ensures n < 2
    {
      match this
      case DcDcEnable => 0
      case DcDcDisable => 1
    }

    static function FromOrdinal(n: int): (r: Option<DcDcMode>)
      ensures forall m: DcDcMode :: r == Some(m) <==> m.Ordinal() == n
    {
      if n == 0 then Some(DcDcEnable)
      else if n == 1 then Some(DcDcDisable)
      else None
    }
  }

  /** Common output scan direction: COM0 to COM[N-1], or vertically flipped. */
  datatype CommonOutputScanDirection = ScanNormal | ScanFlipped {

    function Ordinal(): (n: nat)
      ensures n < 2
    {
      match this
      case ScanNormal => 0
      case ScanFlipped => 1
    }

    static function FromOrdinal(n: int): (r: Option<CommonOutputScanDirection>)
      ensures forall d: CommonOutputScanDirection :: r == Some(d) <==> d.Ordinal() == n
    {
      if n == 0 then Some(ScanNormal)
      else if n == 1 then Some(ScanFlipped)
      else None
    }
  }

  /** Oscillator frequency relative to fOSC, from -25% to +50% in 5% steps. */
  datatype OscillatorFrequency =
    | Minus25 | Minus20 | Minus15 | Minus10 | Minus5 | Por
    | Plus5 | Plus10 | Plus15 | Plus20 | Plus25 | Plus30 | Plus35 | Plus40 | Plus45 | Plus50
  {
    function Ordinal(): (n: nat)
      ensures n < 16
    {
      match this
      case Minus25 => 0
      case Minus20 => 1
      case Minus15 => 2
      case Minus10 => 3
      case Minus5 => 4
      case Por => 5
      case Plus5 => 6
      case Plus10 => 7
      case Plus15 => 8
      case Plus20 => 9
      case Plus25 => 10
      case Plus30 => 11
      case Plus35 => 12
      case Plus40 => 13
      case Plus45 => 14
      case Plus50 => 15
    }

    static function FromOrdinal(n: int): (r: Option<OscillatorFrequency>)
      ensures forall f: OscillatorFrequency :: r == Some(f) <==> f.Ordinal() == n
    {
      if n == 0 then Some(Minus25)
      else if n == 1 then Some(Minus20)
      else if n == 2 then Some(Minus15)
      else if n == 3 then Some(Minus10)
      else if n == 4 then Some(Minus5)
      else if n == 5 then Some(Por)
      else if n == 6 then Some(Plus5)
      else if n == 7 then Some(Plus10)
      else if n == 8 then Some(Plus15)
      else if n == 9 then Some(Plus20)
      else if n == 10 then Some(Plus25)
      else if n == 11 then Some(Plus30)
      else if n == 12 then Some(Plus35)
      else if n == 13 then Some(Plus40)
      else if n == 14 then Some(Plus45)
      else if n == 15 then Some(Plus50)
      else None
    }

    /** The offset from fOSC, in percent, that the constant's name denotes. */
    function PercentOffset(): int {
      match this
      case Minus25 => -25
      case Minus20 => -20
      case Minus15 => -15
      case Minus10 => -10
      case Minus5 => -5
      case Por => 0
      case Plus5 => 5
      case Plus10 => 10
      case Plus15 => 15
      case Plus20 => 20
      case Plus25 => 25
      case Plus30 => 30
      case Plus35 => 35
      case Plus40 => 40
      case Plus45 => 45
      case Plus50 => 50
    }
  }

  /** Common signals pad configuration, in declaration order SEQUENTIAL, ALTERNATIVE. */
  datatype CommonSignalsPadConfiguration = PadsSequential | PadsAlternative {

    function Ordinal(): (n: nat)
      ensures n < 2
    {
      match this
      case PadsSequential => 0
      case PadsAlternative => 1
    }

    static function FromOrdinal(n: int): (r: Option<CommonSignalsPadConfiguration>)
      ensures forall c: CommonSignalsPadConfiguration :: r == Some(c) <==> c.Ordinal() == n
    {
      if n == 0 then Some(PadsSequential)
      else if n == 1 then Some(PadsAlternative)
      else None
    }
  }

  // ---------------------------------------------------------------------------
  // Properties of the enumerations
  // ---------------------------------------------------------------------------

  /** The pump voltages are declared in strictly increasing order of voltage. */
  lemma PumpVoltageOrdered(v: PumpVoltage, w: PumpVoltage)
    ensures v.Ordinal() < w.Ordinal() <==> v.Decivolts() < w.Decivolts()
  {
  }

  /**
   The oscillator frequencies step by 5% from -25% at position 0; the power-on
   value fOSC sits at position 5 and is the only one with no offset.
   */
  lemma OscillatorFrequencySteps(f: OscillatorFrequency)
    ensures f.PercentOffset() == 5 * f.Ordinal() - 25
    ensures f.PercentOffset() == 0 <==> f == Por
    ensures Por.Ordinal() == 5
  {
  }

  /** The four display states split into two entire-display and two OLED power states, one ON and one OFF each. */
  lemma DisplayStatePartition(s: DisplayState, t: DisplayState)
    ensures s.IsOledPower() == t.IsOledPower() && s.TurnsOn() == t.TurnsOn() <==> s == t
  {
  }
}
