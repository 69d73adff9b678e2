# SH1106 command encoder, modelled in Dafny

The library turns calls such as "set page address 3" or "switch the OLED on"
into the bytes an SH1106 132x64 OLED controller expects. It has no state of its
own. Every public entry point takes one byte sink and calls it with one or two
bytes. Every entry point takes the command sink, except `write_display_data`,
which takes the data sink. A byte for the command register goes to the command
sink; a byte for display RAM goes to the data sink.

The Dafny code is split into six modules. `Wrappers` (`wrappers.dfy`) holds only
the `Option` type. Four follow the C sources: `SysCfg`, `Api`, `Encoder` and
`LegacyEncoder`. `Protocol` has no C counterpart. It adds the call datatype and
its decoder.

- `SysCfg` (`syscfg.dfy`) is the opcode table and the bit-packing rules. Each
  fixed opcode is a named `bv8` constant. Each packing rule is a function on
  `bv8` with the same masks and shifts. Its contract gives the same byte in
  plain integer arithmetic (a residue, a nibble, an offset). So every mask is
  checked against an independent reading of the datasheet field.
- `Api` (`api.dfy`) holds the sink interface and the option enumerations. A
  call to a sink is one tagged byte, `Cmd(b)` or `Data(b)`. An `Emit`
  sequence (`Trace`) records the calls in order. Each C enum is a datatype
  with its constructors in declaration order. `Ordinal` is the integer C
  assigns to a constant, and `FromOrdinal` is its inverse.
- `Encoder` (`encoder.dfy`) has one pure function per entry point of the
  two-sink encoder. Each returns the trace that the C function produces.
- `Protocol` (`protocol.dfy`) gives one datatype value per call. It defines
  the trace of a sequence of calls and a reference decoder that reads back
  every trace the encoder produces. The decoder is the encoder's partner. It
  is not a full model of the controller's command parser (see "Left out").
  Decoding the trace of any call sequence gives back the calls, with only the
  argument bits that the masks discard lost. In the other direction, every
  trace the decoder accepts is exactly the trace of the calls it returns. Two
  calls send the same bytes exactly when they agree on every bit that reaches
  the controller.
- `LegacyEncoder` (`legacy.dfy`) is the older single-sink variant, where every
  byte goes through one `send8` callback. Its trace is a plain `seq<bv8>`. It
  is proved equal to the two-sink trace with the tags dropped, for single calls
  and for whole call sequences. Its clock function writes the frequency nibbles
  as binary literals, and these are proved equal to the hex nibbles of the
  two-sink version. On one sink a pixel byte cannot be told from a one-byte
  command. For example, writing pixel byte 0xAF looks the same as switching
  the OLED on.

Where the comments and the code disagree, the model follows the code:

- `INTERNAL_ON` sends 0xA5 (entire display on) and `INTERNAL_OFF` sends 0xA4
  (normal display). The enum's doc comments describe these the other way
  round. The constructors `InternalOn` and `InternalOff` keep the code's
  mapping.
- `DC_DC_ENABLE` sends 0x8B (converter on) and `DC_DC_DISABLE` sends 0x8A. The
  doc comment of the first constant calls it "disable". The model keeps the
  code's mapping.
- The page-address command is documented as 0xB0..0xB7. The code masks the
  page with 0x0F, so pages 8..15 give 0xB8..0xBF and page 0xFF gives 0xBF,
  not 0xB7. `SysCfg.PageAddressDocumentedRange` states exactly which pages
  stay in the documented range.
- The oscillator-frequency enum has 16 constants, from -25% to +50% in 5%
  steps, and the power-on value sits at index 5. They fill the 4-bit field
  exactly.
- The clock data comment gives the range 0x00..0x3F. The code packs a full
  frequency nibble above the ratio nibble, so any byte 0x00..0xFF can be sent.
  `SysCfg.ClockDataSurjective` proves that every byte is reachable.
- The multiplex-ratio data byte is the raw argument masked to six bits. It is
  not reduced by one, so a ratio of 64 is sent as 0x00.

## Model

| member | source | states |
|---|---|---|
| SysCfg.LowerColumnAddress | lib/syscfg.h:47 | the lower column command is the address modulo 16, always in 0x00..0x0F |
| SysCfg.HigherColumnAddress | lib/syscfg.h:73 | the higher column command is 0x10 plus the address divided by 16, always in 0x10..0x1F |
| SysCfg.ColumnAddressRoundTrip | lib/syscfg.h:47-73 | the 8-bit column address is rebuilt from the nibbles of the two column commands |
| SysCfg.DisplayStartLine | lib/syscfg.h:125 | the start-line command is 0x40 plus the line modulo 64, always in 0x40..0x7F |
| SysCfg.DisplayStartLineModulo64 | lib/syscfg.h:125 | two lines give the same command if and only if they agree modulo 64; line a and line a+64 collide |
| SysCfg.ContrastDataRegister | lib/syscfg.h:182 | the mask with 0xFF keeps all 256 contrast steps unchanged |
| SysCfg.MultiplexRatioData | lib/syscfg.h:344 | the multiplex data byte is the ratio modulo 64, at most 0x3F |
| SysCfg.DiscardedBitsIgnored | lib/syscfg.h:125-634 | the start-line, multiplex, page, offset and pre/dis-charge packings give the same byte for an argument with its discarded bits cleared |
| SysCfg.MultiplexRatio64SendsZero | lib/syscfg.h:344 | a multiplex ratio of 64 is sent as 0x00 |
| SysCfg.SixBitDataIdempotent | lib/syscfg.h:344 | masking multiplex or offset data twice equals masking once, and a 6-bit value passes unchanged |
| SysCfg.PageAddress | lib/syscfg.h:437 | the page command is 0xB0 plus the page modulo 16, always in 0xB0..0xBF |
| SysCfg.PageAddressModulo16 | lib/syscfg.h:437 | two pages give the same command if and only if they agree modulo 16; page p and page p+16 collide |
| SysCfg.PageAddressDocumentedRange | lib/syscfg.h:417-437 | the command is in the documented 0xB0..0xB7 range if and only if the page's low nibble is below 8; page 0xFF is sent as 0xBF |
| SysCfg.DisplayOffsetData | lib/syscfg.h:514 | the offset data byte is the offset modulo 64, at most 0x3F |
| SysCfg.DivideRatioOscillatorFrequencyData | lib/syscfg.h:580 | the clock data byte is 16 times the frequency nibble plus (ratio - 1) modulo 16 |
| SysCfg.ClockDataDecodes | lib/syscfg.h:546-580 | for ratio 1..16 and frequency 0..15 the high nibble is the frequency and the low nibble plus one is the ratio |
| SysCfg.ClockDataSurjective | lib/syscfg.h:546-580 | every byte is the clock data byte of the pair (low nibble + 1, high nibble) |
| SysCfg.ClockDataFields | lib/syscfg.h:580 | for any arguments, the low nibble is (ratio - 1) with wrap-around and the high nibble is the frequency's low nibble |
| SysCfg.ClockDataRatioModulo16 | lib/syscfg.h:580 | ratios that agree modulo 16 after the decrement give the same clock byte |
| SysCfg.ClockRatioZeroWraps | lib/syscfg.h:580 | ratio 0 wraps to low nibble 0xF and is sent like ratio 16 |
| SysCfg.DisChargePreChargePeriodData | lib/syscfg.h:634 | the byte is 16 times the dis-charge nibble plus the pre-charge nibble |
| SysCfg.DisChargePreChargeDecodes | lib/syscfg.h:600-634 | the low nibble is the pre-charge period and the high nibble the dis-charge period modulo 16 |
| SysCfg.VcomDeselectLevelData | lib/syscfg.h:795 | the mask with 0xFF keeps the level unchanged |
| SysCfg.WriteDisplayData | lib/syscfg.h:905 | the mask with 0xFF keeps the pixel byte unchanged |
| Api.OnlyCommandsAppend | include/sh1106.h:30-37 | a joined trace goes only to the command sink if and only if both parts do |
| Api.PumpVoltage.FromOrdinal | include/sh1106.h:54-63 | exactly the integers 0..3 name a pump voltage, and each names the constant with that ordinal |
| Api.PumpVoltageOrdered | include/sh1106.h:54-63 | the pump voltages are declared in strictly increasing order of voltage |
| Api.SegmentReMapDirection.FromOrdinal | include/sh1106.h:102-107 | exactly 0 and 1 name a segment re-map direction |
| Api.DisplayState.FromOrdinal | include/sh1106.h:125-135 | exactly the integers 0..3 name a display state |
| Api.DisplayStatePartition | include/sh1106.h:125-135 | the four states are told apart by two bits: OLED power or entire display, and ON or OFF |
| Api.DisplayDirection.FromOrdinal | include/sh1106.h:162-167 | exactly 0 and 1 name a display direction |
| Api.DcDcMode.FromOrdinal | include/sh1106.h:193-198 | exactly 0 and 1 name a DC-DC mode, ENABLE first |
| Api.CommonOutputScanDirection.FromOrdinal | include/sh1106.h:238-243 | exactly 0 and 1 name a scan direction |
| Api.OscillatorFrequency.FromOrdinal | include/sh1106.h:274-307 | exactly the integers 0..15 name an oscillator frequency |
| Api.OscillatorFrequencySteps | include/sh1106.h:274-307 | constant number k is an offset of 5k - 25 percent; the power-on value is number 5 and is the only one with no offset |
| Api.CommonSignalsPadConfiguration.FromOrdinal | include/sh1106.h:341-354 | exactly 0 and 1 name a pad configuration |
| Encoder.SetColumnAddress | src/sh1106.c:23-26 | two command bytes: the address modulo 16, then 0x10 plus the address divided by 16 |
| Encoder.SetPumpVoltage | src/sh1106.c:28-47 | one command byte, 0x30 plus the voltage's ordinal |
| Encoder.SetDisplayStartLine | src/sh1106.c:49-51 | one command byte in 0x40..0x7F, 0x40 plus the line modulo 64 |
| Encoder.SetContrastControlRegister | src/sh1106.c:53-56 | command bytes 0x81 and then the contrast step unchanged |
| Encoder.SetSegmentReMap | src/sh1106.c:58-69 | one command byte, 0xA0 plus the direction's ordinal |
| Encoder.SetDisplayState | src/sh1106.c:71-90 | one command byte whose upper seven bits select entire display (0xA4) or OLED power (0xAE) and whose bit 0 is set exactly for an ON state |
| Encoder.SetDisplayDirection | src/sh1106.c:92-103 | one command byte, 0xA6 plus the direction's ordinal |
| Encoder.SetMultiplexRatio | src/sh1106.c:105-108 | command bytes 0xA8 and then the ratio modulo 64 |
| Encoder.SetDcDcMode | src/sh1106.c:110-123 | command bytes 0xAD and then 0x8A or 0x8B, with bit 0 set exactly for ENABLE |
| Encoder.SetPageAddress | src/sh1106.c:125-127 | one command byte, 0xB0 plus the page modulo 16 |
| Encoder.SetCommonOutputScanDirection | src/sh1106.c:129-141 | one command byte, 0xC0 for normal scan and 0xC8 for flipped |
| Encoder.SetDisplayOffset | src/sh1106.c:143-146 | command bytes 0xD3 and then the offset modulo 64 |
| Encoder.OscillatorFrequencyNibble | src/sh1106.c:152-216 | the nibble passed for each frequency constant is its declaration index |
| Encoder.SetClockDivideRatioOscillatorFrequency | src/sh1106.c:148-218 | command bytes 0xD5 and then 16 times the frequency index plus (ratio - 1) modulo 16 |
| Encoder.ClockRatioZeroLikeSixteen | src/sh1106.c:148-218 | a divide ratio of 0 sends the same bytes as a ratio of 16 |
| Encoder.DiscardedBitsIgnored | src/sh1106.c:49-223 | the start-line, multiplex, page, offset and pre/dis-charge calls send the same bytes for an argument with its discarded bits cleared |
| Encoder.ClockRatioModulo16 | src/sh1106.c:148-218 | divide ratios that agree modulo 16 after the decrement send the same bytes |
| Encoder.SetDisChargePreChargePeriod | src/sh1106.c:220-223 | command bytes 0xD9 and then 16 times the dis-charge period modulo 16 plus the pre-charge period modulo 16 |
| Encoder.SetCommonPadsHardwareConfiguration | src/sh1106.c:225-239 | command bytes 0xDA and then 0x02 for sequential or 0x12 for alternative |
| Encoder.SetVcomDeselectLevel | src/sh1106.c:241-244 | command bytes 0xDB and then the level unchanged |
| Encoder.ReadModifyWrite | src/sh1106.c:246-248 | the one command byte 0xE0 |
| Encoder.End | src/sh1106.c:250-252 | the one command byte 0xEE |
| Encoder.Nop | src/sh1106.c:254-256 | the one command byte 0xE3 |
| Encoder.WriteDisplayData | src/sh1106.c:258-260 | the pixel byte, unchanged, on the data sink and nothing on the command sink |
| Encoder.SelectorsInjective | src/sh1106.c:28-141 | different pump voltages, display states or scan directions send different bytes; read-modify-write, end and nop differ |
| Protocol.EncodeShape | src/sh1106.c:23-260 | each call sends one or two bytes, two exactly for the double-byte commands and the column address; every byte goes to the command sink except a display-data write |
| Protocol.ModeSelectFirst | src/sh1106.c:53-244 | a call opens with a mode-select byte if and only if it is a double-byte command |
| Protocol.NormalizeIdempotent | lib/syscfg.h:125-634 | clearing the bits that the masks discard is idempotent |
| Protocol.NormalizeKeepsBytes | lib/syscfg.h:125-634 | clearing the bits that the masks discard changes no byte sent |
| Protocol.DecodeOne | src/sh1106.c:23-260 | a decoded command consumes at least one and at most all of the remaining bytes |
| Protocol.DecodeOneEncode | src/sh1106.c:23-260 | the decoder reads any call back from the front of any trace, up to the discarded bits, and consumes exactly its bytes |
| Protocol.DecodeAllEncodeAll | src/sh1106.c:23-260 | decoding the trace of any sequence of calls gives back the same calls with the discarded bits cleared |
| Protocol.EncodeInjectiveUpToNormalize | src/sh1106.c:23-260 | two calls send the same bytes if and only if they agree on every bit that is sent |
| Protocol.EncodeAllAppend | src/sh1106.c:23-260 | the trace of two call sequences run one after the other is the two traces joined |
| Protocol.DecoderRejectsLoneColumnBytes | lib/syscfg.h:40-73 | the reference decoder rejects a lone higher-column byte and a lone lower-column byte, which the encoder never sends apart |
| Protocol.DecoderRejectsDontCareBits | lib/syscfg.h:324-344 | the reference decoder rejects a multiplex data byte with its don't-care bits set, which the encoder never sends |
| Protocol.OnlyCommandsWithoutData | src/sh1106.c:23-260 | a sequence of calls uses only the command sink if and only if it contains no display-data write |
| Protocol.DecodeDoubleByteSound | src/sh1106.c:53-244 | every mode-select byte and data byte that the decoder accepts are exactly the two bytes the decoded call sends |
| Protocol.DecodeSingleByteSound | src/sh1106.c:28-256 | every lone command byte that the decoder accepts is exactly the byte the decoded call sends |
| Protocol.DecodeOneSound | src/sh1106.c:23-260 | whatever the decoder reads off the front of a trace sends exactly the bytes it consumed |
| Protocol.DecodeAllSound | src/sh1106.c:23-260 | any trace the decoder accepts is exactly the trace of the calls it returns |
| Protocol.DecodeAcceptsExactlyEncoderTraces | src/sh1106.c:23-260 | the decoder accepts a trace if and only if some sequence of calls produces it |
| Protocol.ReadModifyWriteEndTrace | src/sh1106.c:246-252 | the call sequence read-modify-write then end sends 0xE0 then 0xEE |
| LegacyEncoder.SetColumnAddress | lib/sh1106.c:23-26 | the single-sink bytes are the two-sink bytes with the sink tags dropped |
| LegacyEncoder.SetPumpVoltage | lib/sh1106.c:28-47 | as above, for the pump voltage |
| LegacyEncoder.SetDisplayStartLine | lib/sh1106.c:49-51 | as above, for the start line |
| LegacyEncoder.SetContrastControlRegister | lib/sh1106.c:53-56 | as above, for the contrast |
| LegacyEncoder.SetSegmentReMap | lib/sh1106.c:58-69 | as above, for the segment re-map |
| LegacyEncoder.SetDisplayState | lib/sh1106.c:71-90 | as above, for the display state |
| LegacyEncoder.SetDisplayDirection | lib/sh1106.c:92-103 | as above, for the display direction |
| LegacyEncoder.SetMultiplexRatio | lib/sh1106.c:105-108 | as above, for the multiplex ratio |
| LegacyEncoder.SetDcDcMode | lib/sh1106.c:110-123 | as above, for the DC-DC mode; the first of its two bytes is 0xAD |
| LegacyEncoder.SetPageAddress | lib/sh1106.c:125-127 | as above, for the page address |
| LegacyEncoder.SetCommonOutputScanDirection | lib/sh1106.c:129-141 | as above, for the scan direction |
| LegacyEncoder.SetDisplayOffset | lib/sh1106.c:143-146 | as above, for the display offset |
| LegacyEncoder.OscillatorFrequencyNibble | lib/sh1106.c:152-216 | the binary-literal nibbles equal the hex nibbles of the two-sink encoder |
| LegacyEncoder.SetClockDivideRatioOscillatorFrequency | lib/sh1106.c:148-218 | as above, for the clock settings |
| LegacyEncoder.SetDisChargePreChargePeriod | lib/sh1106.c:220-223 | as above, for the charge periods |
| LegacyEncoder.SetCommonPadsHardwareConfiguration | lib/sh1106.c:225-239 | as above, for the pad configuration; the first of its two bytes is 0xDA |
| LegacyEncoder.SetVcomDeselectLevel | lib/sh1106.c:241-244 | as above, for the VCOM deselect level |
| LegacyEncoder.ReadModifyWrite | lib/sh1106.c:246-248 | as above, for read-modify-write |
| LegacyEncoder.End | lib/sh1106.c:250-252 | as above, for end |
| LegacyEncoder.Nop | lib/sh1106.c:254-256 | as above, for nop |
| LegacyEncoder.WriteDisplayData | lib/sh1106.c:258-260 | as above, for a pixel byte, which goes to the same sink as the commands |
| LegacyEncoder.EncodeMatchesTwoSink | lib/sh1106.c:23-260 | every single-sink call sends the two-sink bytes with the tags dropped |
| LegacyEncoder.EncodeAllMatchesTwoSink | lib/sh1106.c:23-260 | the same holds for every sequence of calls |
| LegacyEncoder.MergeAppend | lib/sh1106.c:23-260 | dropping the tags of two joined traces equals joining the two untagged traces |
| LegacyEncoder.DataIndistinguishableFromCommands | lib/sh1106.c:258-260 | every one-byte call sends the same stream as writing that byte as pixel data; a pixel byte 0xAF equals OLED on on one sink but not on two |

## Left out

- The sinks themselves and the bus behind them (I2C, SPI, the D/C line) are outside the library. The model records each sink call as one tagged byte in a trace and does not model a sink that fails.
- The controller's reaction to a command is not modelled: column auto-increment, the restore of the column address at the end of read-modify-write, sleep mode and the DC-DC power sequencing. The reference decoder only reads bytes back into calls.
- Integers outside the declared range of a C enum are not modelled. For such a value the C `switch` statements send nothing, except that the clock function has already sent its 0xD5 mode byte (src/sh1106.c:151). Dafny datatypes cannot hold such values, so `FromOrdinal` returning `None` is the only trace of that case.
- Protocol.DecodeOne: the reference decoder accepts only byte sequences the encoder can produce (`Protocol.DecodeAcceptsExactlyEncoderTraces`). The controller would also accept others, which this decoder rejects: a lone higher-column byte such as 0x12, a lone lower-column byte such as 0x05, and a multiplex-ratio or display-offset data byte whose don't-care bits are set, such as 0xA8 followed by 0x7F. The decoder exists to prove the encoder's round trip, not to model the controller's parser.
- There is no read path. The library has no function to read the status register or display RAM, so the model has none either.
- The electrical meaning of the contrast step (segment current) and of the VCOM deselect level (β × VREF, with β = 0.430 + level × 0.006415) is not modelled. Both bytes are passed through unchanged, and that is what the model states.
- Legacy `t_send8` is used by the older file but declared in none of the files modelled here. The model gives it the type of a callback taking one byte.
- Nothing checks that read-modify-write and end come in pairs; the library does not check this either.
- Api.PumpVoltage.Ordinal: this and the other `Ordinal` functions only state an upper bound. Their exact values are stated through `FromOrdinal`.
