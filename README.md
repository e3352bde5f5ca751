# Hardware endpoint names of the AGM device layer

The audio graph manager (AGM) names each hardware endpoint with a string
such as `CODEC_DMA-LPAIF-RX-0`, `MI2S-LPAIF_VA-TX-QUATERNARY`,
`SLIM-DEV1-RX`, `DISPLAY_PORT-RX` or `PCM_RT_PROXY-RX-5`.
`populate_device_hw_ep_info` in `service/src/device_hw_ep.c` reads such a
name, field by field, into the `hw_ep_info` record of a device object. The
record holds the interface family, the direction, and the union member of
that family: lpaif type and interface index, the SLIMBUS device, or the
PCM_RT_PROXY device number.

The project has these modules:

- `Tokenizer`: the one splitting step every parser repeats,
  `sscanf(input, "%20[^-]-%60s", arg, value)`. It follows section 7.21.6.2
  of ISO/IEC 9899:2011. The first field is a non-empty run of at most 20
  characters other than `-`. Then a `-` must follow, and `%60s` takes up to
  60 non-space characters after optional white space. A buffer that sscanf
  does not assign keeps its old contents.
- `CNumber`: `atoi` as described in section 7.22.1.2 of ISO/IEC 9899:2011,
  and the decimal spelling it reads back.
- `HwEpTypes`: the enums, the header constants and the error kinds.
- `Lookups`: the interface, direction, lpaif type, index and SLIMBUS device
  tables. Each is a printer plus a lookup written as the source's chain of
  `strcmp`s.
- `Decoder`: what the whole parse computes, as a pure `Decode` from a name
  to an endpoint or the first error. It also gives the canonical name of
  every well-formed endpoint and proves that decoding reads it back.
- `DeviceHwEp`: the C functions as methods of a class `HwEpInfo` whose fields
  they write in place, plus the dispatcher over a nullable `DeviceObj`. The
  contracts tie the return code and every field written to `Decoder`'s
  functions, including the partial writes left behind by an error.

The C code behaves as follows where a reader might expect otherwise:

- When a name has no `-` after its first field, `value` keeps its old
  contents. It is not emptied.
- Only a missing device object is refused up front. An empty name gets as
  far as the interface lookup and fails there (`UnknownInterface`).
- The CODEC_DMA/MI2S/TDM/AUXPCM parser checks `lpaif_type` before the
  direction.
- An error leaves every field written before it in place.

`EINVAL` is taken as 22. All errors return `-EINVAL`; the error kinds of
`Decoder.Decode` only say which check refused the name.

## Model

| member | source | states |
|---|---|---|
| Tokenizer.Span | service/src/device_hw_ep.c:160 | the length of the longest prefix, up to the width, whose characters are all of one class: every character before it is in the class, and the next one (if the width allows) is not |
| Tokenizer.SpanIs | service/src/device_hw_ep.c:160 | those three facts determine the span uniquely |
| Tokenizer.SkipSpace | service/src/device_hw_ep.c:160 | the white space `%60s` skips: every character before the returned index is white space, and the one at it is not |
| Tokenizer.Scan | service/src/device_hw_ep.c:251 | `arg` is assigned unless the input is empty or starts with `-`; an assigned `arg` is a prefix of 1..20 characters without `-`; `value` is assigned only together with `arg`, only when a `-` follows it, and then holds 1..60 characters without white space (the lemmas below complete the description) |
| Tokenizer.ScanArgLongest | service/src/device_hw_ep.c:251 | an assigned `arg` is the longest run: it stops at 20 characters, at the end of the input or at a `-` |
| Tokenizer.ScanValueAssigned | service/src/device_hw_ep.c:251 | `value` is assigned exactly when `arg` is, a `-` follows it, and some non-space character comes after that `-` |
| Tokenizer.ScanValueText | service/src/device_hw_ep.c:251 | an assigned `value` is the text right after the white space that follows the `-`, and it stops at 60 characters, at the end of the input or at white space |
| Tokenizer.ExampleSkippedSpace | service/src/device_hw_ep.c:251 | `SLIM- DEV1` splits into `SLIM` and `DEV1`: the white space after the `-` is skipped |
| Tokenizer.ScanInto | service/src/device_hw_ep.c:251-252 | a buffer either keeps its old contents or receives a well-formed field; on an empty input or a leading `-` both buffers are unchanged |
| Tokenizer.ScanSplits | service/src/device_hw_ep.c:160 | round trip: a field, a `-` and a rest are split back into exactly that field and that rest |
| Tokenizer.ScanLastField | service/src/device_hw_ep.c:168 | a field with no `-` after it assigns `arg` only, so `value` still holds the old text |
| Tokenizer.ScanEmptyRest | service/src/device_hw_ep.c:251 | a field followed by `-` and only white space assigns `arg` only |
| Tokenizer.ScanTruncates | service/src/device_hw_ep.c:251 | a first field of 21 or more characters without `-` is cut to its first 20 and `value` is not assigned |
| Tokenizer.AdvanceConsumes | service/src/device_hw_ep.c:210-214 | one repeated `sscanf(value, ..., arg, value)` step: each buffer keeps its contents or receives a well-formed field, and an assigned rest is shorter than the old one by at least the field and its `-`; either both buffers are unchanged or `arg` holds a well-formed field |
| CNumber.AtoI | service/src/device_hw_ep.c:169 | the absolute value is below 10^n for an input of n characters, so it has at most as many digits as the input has characters; it is never negative when the input has no `-` |
| CNumber.AtoISkipsSpace | service/src/device_hw_ep.c:169 | leading white space is skipped: it does not change the value |
| CNumber.AtoIDigits | service/src/device_hw_ep.c:169 | an unsigned run of digits followed by anything that is not a digit reads as the value of those digits |
| CNumber.AtoISigned | service/src/device_hw_ep.c:169 | a `+` or `-` then a run of digits reads as that value, negated after `-` |
| CNumber.AtoIReads | service/src/device_hw_ep.c:169 | white space, an optional sign, digits and a tail not starting with a digit (nor, when sign and digits are both empty, with white space or a sign) read as the signed value of the digits; the tail is ignored |
| CNumber.AtoIDecimal | service/src/device_hw_ep.c:169 | atoi reads back the decimal spelling of every natural number |
| CNumber.AtoINonNumeric | service/src/device_hw_ep.c:169 | an input that starts with neither white space, a sign nor a digit reads as 0, not as an error |
| CNumber.DecimalLength | service/src/device_hw_ep.c:160 | a number below 10^k is spelled with at most k characters, so every device number below 10^20 fits one field |
| Lookups.IntfName | service/src/device_hw_ep.c:116-133 | every family name is a single token of at most 12 characters |
| Lookups.IntfOf | service/src/device_hw_ep.c:116-139 | the lookup yields a family exactly when the token is that family's name, and refuses every other token |
| Lookups.DirectionOf | service/src/device_hw_ep.c:141-152 | RX gives output and TX gives input, exactly; every other token is refused |
| Lookups.LpaifTypeOf | service/src/device_hw_ep.c:217-230 | the five lpaif type names map one-to-one onto the five types; every other token is refused |
| Lookups.IntfIdxName | service/src/device_hw_ep.c:67-107 | every index token is a single token of at most 10 characters |
| Lookups.IntfIdxOf | service/src/device_hw_ep.c:49-58 | codec DMA `0`..`4` map to CODEC_RX0..CODEC_RX4 (1..5); MI2S, TDM and AUXPCM map PRIMARY..QUINARY; success exactly when the family's own table has the token; otherwise UnknownIndex for those families and UnsupportedFamily for the rest |
| Lookups.SlimDevIdOf | service/src/device_hw_ep.c:64-65 | DEV1 is device 0 and DEV2 device 1, exactly; any other token is refused |
| Decoder.FirstSplit | service/src/device_hw_ep.c:241-252 | the interface field starts empty and is either left empty or holds a well-formed field |
| Decoder.SplitPcmRtProxy | service/src/device_hw_ep.c:160-168 | the device-number field is empty or a well-formed field |
| Decoder.SplitPcmRtProxyShape | service/src/device_hw_ep.c:160-168 | the direction field is empty or well-formed, and an empty direction leaves the device field empty |
| Decoder.SplitCdcDmaI2sTdmShape | service/src/device_hw_ep.c:210-215 | each of the three fields is empty or well-formed, and an empty lpaif field leaves the other two empty |
| Decoder.SplitSlimDpUsbShape | service/src/device_hw_ep.c:180-194 | the device and direction fields are empty or well-formed; only SLIMBUS reads a device field, and an empty SLIMBUS device leaves the direction empty |
| Decoder.DecodeCdcDmaI2sTdm | service/src/device_hw_ep.c:199-237 | the fields are split before any is checked; lpaif type, then direction, then index decide the error in that order; success exactly when all three lookups succeed, with an index the family allows, and the endpoint then holds those three lookups' values |
| Decoder.DecodeSlimDpUsb | service/src/device_hw_ep.c:174-197 | SLIMBUS fails with UnknownSlimDevice exactly when its device lookup fails; success exactly when the device (SLIMBUS only) and the direction are valid; the endpoint then holds the looked-up direction and, for SLIMBUS only, the looked-up device |
| Decoder.DecodePcmRtProxy | service/src/device_hw_ep.c:154-172 | success exactly when the direction is valid, and the only error is UnknownDirection; the endpoint then holds the direction and atoi of the next field as device number, which lies in 0..10^20-1 |
| Decoder.Dispatch | service/src/device_hw_ep.c:258-273 | a success is a well-formed endpoint of the family it was given (which sub-parser each family reaches is exercised by DecodeRoundTrip) |
| Decoder.Decode | service/src/device_hw_ep.c:239-274 | UnknownInterface exactly when the first field names no family; a success is well-formed and its family's name is the first field |
| Decoder.SplitCdcDmaI2sTdmJoin | service/src/device_hw_ep.c:210-215 | three tokens joined by `-` are split back into those three tokens |
| Decoder.SplitPcmRtProxyJoin | service/src/device_hw_ep.c:160-168 | two tokens joined by `-` are split back into direction and device fields |
| Decoder.DecodeJoin | service/src/device_hw_ep.c:251-269 | a family name, `-` and a rest go, rest and all, to that family's sub-parser |
| Decoder.RoundTripCdcDmaI2sTdm | service/src/device_hw_ep.c:199-237 | every well-formed CODEC_DMA/MI2S/TDM/AUXPCM endpoint decodes from its canonical name |
| Decoder.RoundTripSlimbus | service/src/device_hw_ep.c:174-197 | every well-formed SLIMBUS endpoint decodes from its canonical name |
| Decoder.RoundTripDpUsb | service/src/device_hw_ep.c:174-197 | every DISPLAY_PORT and USB_AUDIO endpoint decodes from its canonical name |
| Decoder.RoundTripPcmRtProxy | service/src/device_hw_ep.c:154-172 | every well-formed PCM_RT_PROXY endpoint decodes from its canonical name |
| Decoder.DecodeRoundTrip | service/src/device_hw_ep.c:239-274 | `Decode(EndpointName(ep)) == Success(ep)` for every well-formed endpoint |
| Decoder.DecodeEmptyRest | service/src/device_hw_ep.c:251-269 | a family name, `-` and only white space hand the empty rest buffer to the family's sub-parser |
| Decoder.FirstFieldTooLong | service/src/device_hw_ep.c:251-256 | a first field longer than 20 characters is truncated and then refused as UnknownInterface |
| Decoder.PcmRtProxyWithoutDevId | service/src/device_hw_ep.c:160-169 | `PCM_RT_PROXY-RX` (or `-TX`) still succeeds: the rest buffer keeps the direction, whose atoi value is device 0 |
| Decoder.PcmRtProxyNonNumeric | service/src/device_hw_ep.c:168-169 | a device field that is not a number gives device 0, and the parse succeeds |
| Decoder.CdcDmaI2sTdmErrorOrder | service/src/device_hw_ep.c:217-236 | the first bad field decides the error, whatever the later fields hold |
| Decoder.ExampleCodecDma | service/src/device_hw_ep.c:74-76 | `CODEC_DMA-LPAIF-RX-0` decodes to lpaif LPAIF, output, index CODEC_RX0 |
| Decoder.ExampleMi2s | service/src/device_hw_ep.c:90-100 | `MI2S-LPAIF_VA-TX-QUATERNARY` decodes to LPAIF_VA, input, QUATERNARY |
| Decoder.ExampleSlimbus | service/src/device_hw_ep.c:180-185 | `SLIM-DEV1-RX` decodes to SLIMBUS device 0, output |
| Decoder.ExampleDisplayPort | service/src/device_hw_ep.c:193-196 | `DISPLAY_PORT-RX` decodes to output with no configuration |
| Decoder.ExamplePcmRtProxy | service/src/device_hw_ep.c:160-169 | `PCM_RT_PROXY-RX-5` decodes to output, device 5 |
| Decoder.ExampleUnknownSlimDevice | service/src/device_hw_ep.c:184-190 | `SLIM-DEV3-RX` fails on the device before the direction is read |
| Decoder.ExampleCodecIndexOutOfRange | service/src/device_hw_ep.c:83-88 | `CODEC_DMA-LPAIF-RX-5` fails with UnknownIndex |
| DeviceHwEp.HwEpInfo.PopulateIntf | service/src/device_hw_ep.c:116-139 | returns 0 exactly when the token names a family, and then writes that family to `intf`; otherwise returns -EINVAL and leaves `intf` alone |
| DeviceHwEp.HwEpInfo.PopulateDirection | service/src/device_hw_ep.c:141-152 | returns 0 exactly when the token is RX or TX, and then writes `dir`; otherwise `dir` is unchanged |
| DeviceHwEp.HwEpInfo.PopulateIntfIdx | service/src/device_hw_ep.c:67-114 | returns 0 exactly when the family's table has the token, and then writes only `intf_idx` |
| DeviceHwEp.HwEpInfo.PopulateCdcDmaI2sTdm | service/src/device_hw_ep.c:199-237 | returns 0 exactly when `DecodeCdcDmaI2sTdm` succeeds, and then `intf`, `dir` and the CODEC_DMA/MI2S/TDM/AUXPCM member form its endpoint; on error, lpaif type, dir and index are each written exactly when every check before it passed |
| DeviceHwEp.HwEpInfo.PopulateSlimDpUsb | service/src/device_hw_ep.c:174-197 | returns 0 exactly when `DecodeSlimDpUsb` succeeds, and then `intf`, `dir` and (for SLIMBUS) the SLIMBUS member form its endpoint; the SLIMBUS device is written exactly when it is valid, and dir exactly when everything before it passed |
| DeviceHwEp.HwEpInfo.PopulatePcmRtProxy | service/src/device_hw_ep.c:154-172 | returns 0 exactly when `DecodePcmRtProxy` succeeds, and then `dir` and the PCM_RT_PROXY member form its endpoint; dir and the device number are written exactly when the direction is valid |
| DeviceHwEp.HwEpInfo.PopulateEpConfig | service/src/device_hw_ep.c:258-269 | returns 0 exactly when `Dispatch` succeeds, and then the record reads back as its endpoint; the union members of other families are untouched |
| DeviceHwEp.PopulateDeviceHwEpInfo | service/src/device_hw_ep.c:239-274 | a null object gives -EINVAL; otherwise returns 0 exactly when `Decode` of the name succeeds, and then the record holds Decode's endpoint; an unknown family leaves the record untouched; any later error still leaves `intf` set; only the active family's union member may change |

## Left out

- Logging (`AGM_LOGE` and the dynamic-log includes at lines 40-44) is output only and is not modelled.
- The `ep_config` union is three separate fields of `HwEpInfo`; the model does not capture that writing one member overwrites the storage of the others.
- `sscanf(value, ..., arg, value)` writes into the buffer it is reading; C leaves that undefined. The model reads the whole input before writing either buffer.
- The `strlcpy` copies of `arg` into `intf`, `lpaif_type`, `dir`, `dev_id` and `intf_idx` are modelled as plain value copies, since every copy fits its buffer.
- Strings are the characters before the terminating NUL; a name is never modelled as longer than its C string.
- CNumber.AtoI: uses unbounded integers; the result of `atoi` on a number outside `int` is undefined behaviour in C and is not modelled. In particular the round trips of PCM_RT_PROXY names hold in the model for every device number below 10^20, but in C only for numbers up to 2147483647.
- A Dafny `char` stands for one byte of an ASCII name. The widths 20 and 60 count bytes, and `isspace` is the C locale's test on a byte; multi-byte characters are not modelled.
- The numeric values of the header enums (`SLIMBUS`, `AUDIO_OUTPUT`, `LPAIF`, `PCM_INTF_IDX_PRIMARY` and the rest) are in a header that is not part of this model; they are abstract constructors here.
- `CODEC_TX0`..`CODEC_TX5` and `CODEC_RX5`..`CODEC_RX7` (lines 50-62) are defined but never used by the parser.
- The `default` branch of the dispatcher's switch (lines 270-272) cannot be reached, because `intf` always holds one of the eight families; the model's switch is exhaustive.
- The `default` branch of `populate_hw_ep_intf_idx` (lines 108-110) is kept as `UnsupportedFamily` in `Lookups.IntfIdxOf`, but the dispatcher never reaches it.
