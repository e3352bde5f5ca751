/**
 * What populate_device_hw_ep_info computes, as a total function from an
 * endpoint name to a decoded endpoint or the first error met, together with
 * the canonical name of every well-formed endpoint and the proof that
 * decoding reads it back.
 *
 * Every sub-parser starts from an `arg` buffer of zeros (the empty string)
 * and repeats Tokenizer.Advance on the rest left by the previous step; a
 * step that assigns nothing leaves both buffers as they were.
 */
module Decoder {
  import opened Wrappers
  import opened Tokenizer
  import opened CNumber
  import opened HwEpTypes
  import opened Lookups

  /** The configuration a family carries, with the values its tables can hold. */
  predicate WellFormed(ep: Endpoint) {
    match ep.intf
    case CodecDma | Mi2s | Tdm | Auxpcm =>
      ep.config.Some? && ep.config.value.CdcDmaI2sTdmArm? && IntfIdxAllowed(ep.intf, ep.config.value.cdc.intfIdx)
    case Slimbus =>
      ep.config.Some? && ep.config.value.SlimArm? && IsSlimDevId(ep.config.value.slim.devId)
    case DisplayPort | UsbAudio =>
      ep.config.None?
    case PcmRtProxy =>
      ep.config.Some? && ep.config.value.PcmRtProxyArm? && 0 <= ep.config.value.proxy.devId < Pow10(ArgWidth)
  }

  // ---------------------------------------------------------------- fields

  /** The buffers after the dispatcher's sscanf of the whole name into `arg` and `value`. */
  function FirstSplit(name: string): (b: Buffers)
    ensures b.arg == "" || IsField(b.arg)
  {
    ScanInto(name, Buffers("", ""))
  }

  /** The lpaif_type, direction and index fields, split off before any is checked. */
  datatype CdcDmaI2sTdmFields = CdcDmaI2sTdmFields(lpaifType: string, dir: string, intfIdx: string)

  function SplitCdcDmaI2sTdm(value: string): CdcDmaI2sTdmFields {
    var b1 := Advance(Buffers("", value));
    var b2 := Advance(b1);
    var b3 := Advance(b2);
    CdcDmaI2sTdmFields(b1.arg, b2.arg, b3.arg)
  }

  /** The device field (SLIMBUS only) and the direction field of the SLIM/DP/USB parser. */
  datatype SlimDpUsbFields = SlimDpUsbFields(devId: string, dir: string)

  function SplitSlimDpUsb(intf: HwIntf, value: string): SlimDpUsbFields {
    if intf.Slimbus? then
      var b1 := Advance(Buffers("", value));
      SlimDpUsbFields(b1.arg, Advance(b1).arg)
    else
      SlimDpUsbFields("", Advance(Buffers("", value)).arg)
  }

  /** The direction field and the device-number field of the PCM_RT_PROXY parser. */
  datatype PcmRtProxyFields = PcmRtProxyFields(dir: string, devId: string)

  function SplitPcmRtProxy(value: string): (f: PcmRtProxyFields)
    ensures f.devId == "" || IsField(f.devId)
  {
    var b1 := Advance(Buffers("", value));
    PcmRtProxyFields(b1.arg, Advance(b1).arg)
  }

  /**
   * Each field is empty or a well-formed field, and an empty field means
   * nothing was scanned, so every later field is empty too.
   */
  lemma SplitCdcDmaI2sTdmShape(value: string)
    ensures var f := SplitCdcDmaI2sTdm(value);
      && (f.lpaifType == "" || IsField(f.lpaifType))
      && (f.dir == "" || IsField(f.dir))
      && (f.intfIdx == "" || IsField(f.intfIdx))
      && (f.lpaifType == "" ==> f.dir == "" && f.intfIdx == "")
  {
    var b1 := Advance(Buffers("", value));
    var b2 := Advance(b1);
    AdvanceConsumes(Buffers("", value));
    AdvanceConsumes(b1);
    AdvanceConsumes(b2);
  }

  /** Only SLIMBUS reads a device field; when that field is empty the direction field is empty too. */
  lemma SplitSlimDpUsbShape(intf: HwIntf, value: string)
    ensures var f := SplitSlimDpUsb(intf, value);
      && (f.devId == "" || IsField(f.devId))
      && (f.dir == "" || IsField(f.dir))
      && (!intf.Slimbus? ==> f.devId == "")
      && (intf.Slimbus? && f.devId == "" ==> f.dir == "")
  {
    var b1 := Advance(Buffers("", value));
    AdvanceConsumes(Buffers("", value));
    AdvanceConsumes(b1);
  }

  /** The direction field is empty or well-formed; when it is empty the device field is empty too. */
  lemma SplitPcmRtProxyShape(value: string)
    ensures var f := SplitPcmRtProxy(value);
      && (f.dir == "" || IsField(f.dir))
      && (f.dir == "" ==> f.devId == "")
  {
    var b1 := Advance(Buffers("", value));
    AdvanceConsumes(Buffers("", value));
    AdvanceConsumes(b1);
  }

  // ------------------------------------------------------------ sub-parsers

  /**
   * populate_cdc_dma_i2s_tdm_pcm_ep_info: lpaif_type is checked first, then
   * the direction, then the index; the first failure is the result.
   */
  function DecodeCdcDmaI2sTdm(intf: HwIntf, value: string): (r: Result<Endpoint, Error>)
    ensures var f := SplitCdcDmaI2sTdm(value);
      && (r == Failure(UnknownLpaifType) <==> LpaifTypeOf(f.lpaifType).None?)
      && (r == Failure(UnknownDirection) <==> LpaifTypeOf(f.lpaifType).Some? && DirectionOf(f.dir).None?)
      && (r.Success? <==> LpaifTypeOf(f.lpaifType).Some? && DirectionOf(f.dir).Some? && IntfIdxOf(intf, f.intfIdx).Success?)
      && (r.Success? ==> r.value == Endpoint(intf, DirectionOf(f.dir).value,
            Some(CdcDmaI2sTdmArm(CdcDmaI2sTdmConfig(LpaifTypeOf(f.lpaifType).value, IntfIdxOf(intf, f.intfIdx).value)))))
    ensures r.Success? ==> r.value.intf == intf && r.value.config.Some? && r.value.config.value.CdcDmaI2sTdmArm?
    ensures r.Success? ==> IntfIdxAllowed(intf, r.value.config.value.cdc.intfIdx)
  {
    var f := SplitCdcDmaI2sTdm(value);
    var lpaif :- LpaifTypeOf(f.lpaifType).ToResult(UnknownLpaifType);
    var dir :- DirectionOf(f.dir).ToResult(UnknownDirection);
    var ix :- IntfIdxOf(intf, f.intfIdx);
    Success(Endpoint(intf, dir, Some(CdcDmaI2sTdmArm(CdcDmaI2sTdmConfig(lpaif, ix)))))
  }

  /**
   * populate_slim_dp_usb_ep_info: SLIMBUS reads a device field before the
   * direction and fails on it first; DISPLAY_PORT and USB_AUDIO read only the
   * direction, whose lookup then decides the result.
   */
  function DecodeSlimDpUsb(intf: HwIntf, value: string): (r: Result<Endpoint, Error>)
    ensures var f := SplitSlimDpUsb(intf, value);
      && (intf.Slimbus? ==> (r == Failure(UnknownSlimDevice) <==> SlimDevIdOf(f.devId).None?))
      && (r.Success? <==> (intf.Slimbus? ==> SlimDevIdOf(f.devId).Some?) && DirectionOf(f.dir).Some?)
      && (r.Success? ==> r.value == Endpoint(intf, DirectionOf(f.dir).value,
            if intf.Slimbus? then Some(SlimArm(SlimbusConfig(SlimDevIdOf(f.devId).value))) else None))
    ensures r.Success? ==> r.value.intf == intf && (r.value.config.None? <==> !intf.Slimbus?)
    ensures r.Success? && intf.Slimbus? ==> r.value.config.value.SlimArm? && IsSlimDevId(r.value.config.value.slim.devId)
  {
    var f := SplitSlimDpUsb(intf, value);
    if intf.Slimbus? then
      var id :- SlimDevIdOf(f.devId).ToResult(UnknownSlimDevice);
      var dir :- DirectionOf(f.dir).ToResult(UnknownDirection);
      Success(Endpoint(intf, dir, Some(SlimArm(SlimbusConfig(id)))))
    else
      var dir :- DirectionOf(f.dir).ToResult(UnknownDirection);
      Success(Endpoint(intf, dir, None))
  }

  /**
   * populate_pcm_rt_proxy_ep_info: the direction must be valid; the device
   * number is atoi of the next field and never fails.
   */
  function DecodePcmRtProxy(value: string): (r: Result<Endpoint, Error>)
    ensures var f := SplitPcmRtProxy(value);
      && (r.Success? <==> DirectionOf(f.dir).Some?)
      && (r.Failure? ==> r.error == UnknownDirection)
      && (r.Success? ==> r.value == Endpoint(PcmRtProxy, DirectionOf(f.dir).value,
            Some(PcmRtProxyArm(PcmRtProxyConfig(AtoI(f.devId))))))
    ensures r.Success? ==> r.value.intf == PcmRtProxy && 0 <= r.value.config.value.proxy.devId < Pow10(ArgWidth)
  {
    var f := SplitPcmRtProxy(value);
    var dir :- DirectionOf(f.dir).ToResult(UnknownDirection);
    Pow10Monotone(|f.devId|, ArgWidth);
    Success(Endpoint(PcmRtProxy, dir, Some(PcmRtProxyArm(PcmRtProxyConfig(AtoI(f.devId))))))
  }

  // ------------------------------------------------------------- dispatcher

  /**
   * populate_device_hw_ep_info on a device object with this name: classify
   * the first field, then hand the rest to the one sub-parser of its family.
   */
  function Decode(name: string): (r: Result<Endpoint, Error>)
    ensures r == Failure(UnknownInterface) <==> IntfOf(FirstSplit(name).arg).None?
    ensures r.Success? ==> WellFormed(r.value) && IntfName(r.value.intf) == FirstSplit(name).arg
  {
    var top := FirstSplit(name);
    var intf :- IntfOf(top.arg).ToResult(UnknownInterface);
    Dispatch(intf, top.value)
  }

  /** The switch on the family: each family reaches exactly one sub-parser. */
  function Dispatch(intf: HwIntf, value: string): (r: Result<Endpoint, Error>)
    ensures r.Success? ==> r.value.intf == intf && WellFormed(r.value)
  {
    if IsCdcDmaI2sTdmFamily(intf) then DecodeCdcDmaI2sTdm(intf, value)
    else if IsSlimDpUsbFamily(intf) then DecodeSlimDpUsb(intf, value)
    else DecodePcmRtProxy(value)
  }

  // --------------------------------------------------------- canonical names

  /** Two fields joined by the separator. */
  function Join(f: string, r: string): string {
    f + "-" + r
  }

  /** The name an endpoint is written with: its fields in the order the parsers read them. */
  function EndpointName(ep: Endpoint): string
    requires WellFormed(ep)
  {
    match ep.intf
    case CodecDma | Mi2s | Tdm | Auxpcm =>
      var c := ep.config.value.cdc;
      Join(IntfName(ep.intf), Join(LpaifTypeName(c.lpaifType), Join(DirectionName(ep.dir), IntfIdxName(c.intfIdx))))
    case Slimbus =>
      Join(IntfName(ep.intf), Join(SlimDevName(ep.config.value.slim.devId), DirectionName(ep.dir)))
    case DisplayPort | UsbAudio =>
      Join(IntfName(ep.intf), DirectionName(ep.dir))
    case PcmRtProxy =>
      Join(IntfName(ep.intf), Join(DirectionName(ep.dir), Decimal(ep.config.value.proxy.devId)))
  }

  lemma TokenIsRest(f: string)
    requires IsToken(f)
    ensures IsRest(f)
  {
  }

  lemma JoinIsRest(f: string, r: string)
    requires IsToken(f) && IsRest(r) && |f| + 1 + |r| <= ValueWidth
    ensures IsRest(Join(f, r))
  {
    var s := Join(f, r);
    forall i | 0 <= i < |s|
      ensures !IsSpace(s[i])
    {
      if i < |f| {
        assert s[i] == f[i];
      } else if |f| < i {
        assert s[i] == r[i - |f| - 1];
      }
    }
  }

  lemma {:induction false} DecimalIsToken(n: nat)
    requires n < Pow10(ArgWidth)
    ensures IsToken(Decimal(n))
  {
    DecimalLength(n, ArgWidth);
    var d := Decimal(n);
    forall i | 0 <= i < |d|
      ensures d[i] != '-' && !IsSpace(d[i])
    {
      assert IsDigit(d[i]);
    }
  }

  /** Splitting a joined pair assigns both buffers. */
  lemma AdvanceJoin(arg: string, f: string, r: string)
    requires IsField(f) && IsRest(r)
    ensures Advance(Buffers(arg, Join(f, r))) == Buffers(f, r)
  {
    ScanSplits(f, r);
  }

  /** The last field assigns `arg` and leaves `value` holding that same field. */
  lemma AdvanceLast(arg: string, f: string)
    requires IsField(f)
    ensures Advance(Buffers(arg, f)) == Buffers(f, f)
  {
    ScanLastField(f);
  }

  /** A name made of a family's name and a rest is handed, rest and all, to that family's sub-parser. */
  lemma DecodeJoin(intf: HwIntf, rest: string)
    requires IsRest(rest)
    ensures Decode(Join(IntfName(intf), rest)) == Dispatch(intf, rest)
  {
    ScanSplits(IntfName(intf), rest);
    assert IntfOf(IntfName(intf)) == Some(intf);
  }

  lemma SplitCdcDmaI2sTdmJoin(l: string, d: string, x: string)
    requires IsToken(l) && IsToken(d) && IsToken(x) && |l| + |d| + |x| + 2 <= ValueWidth
    ensures SplitCdcDmaI2sTdm(Join(l, Join(d, x))) == CdcDmaI2sTdmFields(l, d, x)
  {
    TokenIsRest(x);
    JoinIsRest(d, x);
    AdvanceJoin("", l, Join(d, x));
    AdvanceJoin(l, d, x);
    AdvanceLast(d, x);
  }

  lemma SplitPcmRtProxyJoin(d: string, x: string)
    requires IsToken(d) && IsToken(x) && |d| + |x| + 1 <= ValueWidth
    ensures SplitPcmRtProxy(Join(d, x)) == PcmRtProxyFields(d, x)
  {
    TokenIsRest(x);
    JoinIsRest(d, x);
    AdvanceJoin("", d, x);
    AdvanceLast(d, x);
  }

  lemma RoundTripCdcDmaI2sTdm(ep: Endpoint)
    requires WellFormed(ep) && IsCdcDmaI2sTdmFamily(ep.intf)
    ensures Decode(EndpointName(ep)) == Success(ep)
  {
    var i := IntfName(ep.intf);
    var d := DirectionName(ep.dir);
    var c := ep.config.value.cdc;
    var l := LpaifTypeName(c.lpaifType);
    var x := IntfIdxName(c.intfIdx);
    var rest := Join(l, Join(d, x));
    TokenIsRest(x);
    JoinIsRest(d, x);
    JoinIsRest(l, Join(d, x));
    DecodeJoin(ep.intf, rest);
    SplitCdcDmaI2sTdmJoin(l, d, x);
    assert LpaifTypeOf(l) == Some(c.lpaifType);
    assert DirectionOf(d) == Some(ep.dir);
    assert IntfIdxOf(ep.intf, x) == Success(c.intfIdx);
  }

  lemma RoundTripSlimbus(ep: Endpoint)
    requires WellFormed(ep) && ep.intf.Slimbus?
    ensures Decode(EndpointName(ep)) == Success(ep)
  {
    var i := IntfName(ep.intf);
    var d := DirectionName(ep.dir);
    var s := SlimDevName(ep.config.value.slim.devId);
    TokenIsRest(d);
    JoinIsRest(s, d);
    DecodeJoin(ep.intf, Join(s, d));
    AdvanceJoin("", s, d);
    AdvanceLast(s, d);
    assert SplitSlimDpUsb(ep.intf, Join(s, d)) == SlimDpUsbFields(s, d);
    assert DecodeSlimDpUsb(ep.intf, Join(s, d)) == Success(ep);
  }

  lemma RoundTripDpUsb(ep: Endpoint)
    requires WellFormed(ep) && (ep.intf.DisplayPort? || ep.intf.UsbAudio?)
    ensures Decode(EndpointName(ep)) == Success(ep)
  {
    var i := IntfName(ep.intf);
    var d := DirectionName(ep.dir);
    TokenIsRest(d);
    DecodeJoin(ep.intf, d);
    AdvanceLast("", d);
    assert SplitSlimDpUsb(ep.intf, d) == SlimDpUsbFields("", d);
    assert DecodeSlimDpUsb(ep.intf, d) == Success(ep);
  }

  lemma RoundTripPcmRtProxy(ep: Endpoint)
    requires WellFormed(ep) && ep.intf.PcmRtProxy?
    ensures Decode(EndpointName(ep)) == Success(ep)
  {
    var i := IntfName(ep.intf);
    var d := DirectionName(ep.dir);
    var n := ep.config.value.proxy.devId;
    var x := Decimal(n);
    DecimalIsToken(n);
    TokenIsRest(x);
    JoinIsRest(d, x);
    DecodeJoin(ep.intf, Join(d, x));
    SplitPcmRtProxyJoin(d, x);
    AtoIDecimal(n);
    assert DecodePcmRtProxy(Join(d, x)) == Success(ep);
  }

  /** Decoding reads back the name of every well-formed endpoint. */
  lemma DecodeRoundTrip(ep: Endpoint)
    requires WellFormed(ep)
    ensures Decode(EndpointName(ep)) == Success(ep)
  {
    match ep.intf
    case CodecDma | Mi2s | Tdm | Auxpcm => RoundTripCdcDmaI2sTdm(ep);
    case Slimbus => RoundTripSlimbus(ep);
    case DisplayPort | UsbAudio => RoundTripDpUsb(ep);
    case PcmRtProxy => RoundTripPcmRtProxy(ep);
  }

  // ------------------------------------------------------------ edge cases

  /**
   * A first field longer than 20 characters is truncated before it is
   * looked up, and no family name is 20 characters long.
   */
  lemma FirstFieldTooLong(name: string)
    requires |name| > ArgWidth
    requires forall i :: 0 <= i <= ArgWidth ==> name[i] != '-'
    ensures Decode(name) == Failure(UnknownInterface)
  {
    ScanTruncates(name);
    var arg := FirstSplit(name).arg;
    assert |arg| == ArgWidth;
  }

  /**
   * A family name followed by `-` and only white space: `%60s` assigns
   * nothing, so the sub-parser gets the zeroed rest buffer, the empty string.
   */
  lemma DecodeEmptyRest(intf: HwIntf, w: string)
    requires forall i :: 0 <= i < |w| ==> IsSpace(w[i])
    ensures Decode(IntfName(intf) + "-" + w) == Dispatch(intf, "")
  {
    ScanEmptyRest(IntfName(intf), w);
    assert IntfOf(IntfName(intf)) == Some(intf);
  }

  /**
   * A PCM_RT_PROXY name with no device field still decodes: the rest buffer
   * keeps the direction field, whose atoi value is 0.
   */
  lemma PcmRtProxyWithoutDevId(dir: Direction)
    ensures Decode(Join(IntfName(PcmRtProxy), DirectionName(dir)))
         == Success(Endpoint(PcmRtProxy, dir, Some(PcmRtProxyArm(PcmRtProxyConfig(0)))))
  {
    var i := IntfName(PcmRtProxy);
    var d := DirectionName(dir);
    TokenIsRest(d);
    DecodeJoin(PcmRtProxy, d);
    AdvanceLast("", d);
    AdvanceLast(d, d);
    assert SplitPcmRtProxy(d) == PcmRtProxyFields(d, d);
    AtoINonNumeric(d);
    assert DirectionOf(d) == Some(dir);
  }

  /** A device field that is not a number reads as device 0 and the parse still succeeds. */
  lemma PcmRtProxyNonNumeric(dir: Direction, t: string)
    requires IsToken(t) && !IsDigit(t[0]) && t[0] != '+'
    ensures Decode(Join(IntfName(PcmRtProxy), Join(DirectionName(dir), t)))
         == Success(Endpoint(PcmRtProxy, dir, Some(PcmRtProxyArm(PcmRtProxyConfig(0)))))
  {
    var i := IntfName(PcmRtProxy);
    var d := DirectionName(dir);
    TokenIsRest(t);
    JoinIsRest(d, t);
    DecodeJoin(PcmRtProxy, Join(d, t));
    SplitPcmRtProxyJoin(d, t);
    AtoINonNumeric(t);
    assert DirectionOf(d) == Some(dir);
  }

  // -------------------------------------------------------------- examples

  lemma ExampleCodecDma()
    ensures Decode("CODEC_DMA-LPAIF-RX-0")
         == Success(Endpoint(CodecDma, AudioOutput, Some(CdcDmaI2sTdmArm(CdcDmaI2sTdmConfig(Lpaif, CodecIdx(CodecRx0))))))
  {
    var ep := Endpoint(CodecDma, AudioOutput, Some(CdcDmaI2sTdmArm(CdcDmaI2sTdmConfig(Lpaif, CodecIdx(CodecRx0)))));
    assert EndpointName(ep) == "CODEC_DMA-LPAIF-RX-0";
    DecodeRoundTrip(ep);
  }

  lemma ExampleMi2s()
    ensures Decode("MI2S-LPAIF_VA-TX-QUATERNARY")
         == Success(Endpoint(Mi2s, AudioInput, Some(CdcDmaI2sTdmArm(CdcDmaI2sTdmConfig(LpaifVa, PcmIdx(Quaternary))))))
  {
    var ep := Endpoint(Mi2s, AudioInput, Some(CdcDmaI2sTdmArm(CdcDmaI2sTdmConfig(LpaifVa, PcmIdx(Quaternary)))));
    assert EndpointName(ep) == "MI2S-LPAIF_VA-TX-QUATERNARY";
    DecodeRoundTrip(ep);
  }

  lemma ExampleSlimbus()
    ensures Decode("SLIM-DEV1-RX") == Success(Endpoint(Slimbus, AudioOutput, Some(SlimArm(SlimbusConfig(SlimbusDevice1)))))
  {
    var ep := Endpoint(Slimbus, AudioOutput, Some(SlimArm(SlimbusConfig(SlimbusDevice1))));
    assert EndpointName(ep) == "SLIM-DEV1-RX";
    DecodeRoundTrip(ep);
  }

  lemma ExampleDisplayPort()
    ensures Decode("DISPLAY_PORT-RX") == Success(Endpoint(DisplayPort, AudioOutput, None))
  {
    var ep := Endpoint(DisplayPort, AudioOutput, None);
    assert EndpointName(ep) == "DISPLAY_PORT-RX";
    DecodeRoundTrip(ep);
  }

  lemma ExamplePcmRtProxy()
    ensures Decode("PCM_RT_PROXY-RX-5") == Success(Endpoint(PcmRtProxy, AudioOutput, Some(PcmRtProxyArm(PcmRtProxyConfig(5)))))
  {
    var ep := Endpoint(PcmRtProxy, AudioOutput, Some(PcmRtProxyArm(PcmRtProxyConfig(5))));
    assert Decimal(5) == "5";
    assert EndpointName(ep) == "PCM_RT_PROXY-RX-5";
    DecodeRoundTrip(ep);
  }

  /** DEV3 is not a SLIMBUS device; the direction after it is never looked at. */
  lemma ExampleUnknownSlimDevice()
    ensures Decode("SLIM-DEV3-RX") == Failure(UnknownSlimDevice)
  {
    assert "SLIM-DEV3-RX" == Join(IntfName(Slimbus), Join("DEV3", "RX"));
    assert IsToken("DEV3") && IsRest("RX");
    JoinIsRest("DEV3", "RX");
    DecodeJoin(Slimbus, Join("DEV3", "RX"));
    AdvanceJoin("", "DEV3", "RX");
    assert SlimDevIdOf("DEV3") == None;
  }

  /** Codec DMA indexes stop at "4": "5" is refused after lpaif_type and direction were accepted. */
  lemma ExampleCodecIndexOutOfRange()
    ensures Decode("CODEC_DMA-LPAIF-RX-5") == Failure(UnknownIndex)
  {
    assert "CODEC_DMA-LPAIF-RX-5" == Join(IntfName(CodecDma), Join("LPAIF", Join("RX", "5")));
    assert IsToken("LPAIF") && IsToken("RX") && IsToken("5");
    TokenIsRest("5");
    JoinIsRest("RX", "5");
    JoinIsRest("LPAIF", Join("RX", "5"));
    DecodeJoin(CodecDma, Join("LPAIF", Join("RX", "5")));
    SplitCdcDmaI2sTdmJoin("LPAIF", "RX", "5");
    assert IntfIdxOf(CodecDma, "5") == Failure(UnknownIndex);
  }

  /**
   * On a name of the CODEC_DMA/MI2S/TDM/AUXPCM shape the first bad field
   * decides the error, whatever the fields after it hold.
   */
  lemma CdcDmaI2sTdmErrorOrder(intf: HwIntf, l: string, d: string, x: string)
    requires IsCdcDmaI2sTdmFamily(intf)
    requires IsToken(l) && IsToken(d) && IsToken(x) && |l| + |d| + |x| + 2 <= ValueWidth
    ensures var r := Decode(Join(IntfName(intf), Join(l, Join(d, x))));
      && (LpaifTypeOf(l).None? ==> r == Failure(UnknownLpaifType))
      && (LpaifTypeOf(l).Some? && DirectionOf(d).None? ==> r == Failure(UnknownDirection))
      && (LpaifTypeOf(l).Some? && DirectionOf(d).Some? && IntfIdxOf(intf, x).Failure? ==> r == Failure(UnknownIndex))
  {
    TokenIsRest(x);
    JoinIsRest(d, x);
    JoinIsRest(l, Join(d, x));
    DecodeJoin(intf, Join(l, Join(d, x)));
    SplitCdcDmaI2sTdmJoin(l, d, x);
  }
}
