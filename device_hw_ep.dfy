/**
 * The C functions of device_hw_ep.c as methods that fill in the caller's
 * hw_ep_info field by field. Each sub-parser splits its fields with the
 * same tokenizing step as the specification in Decoder, so the methods'
 * contracts tie the outcome and every field written to Decoder's functions.
 * On an error the record is left partly written, as in C; the frames and
 * postconditions say which fields each path writes.
 */
module DeviceHwEp {
  import opened Wrappers
  import opened Tokenizer
  import opened CNumber
  import opened HwEpTypes
  import opened Lookups
  import opened Decoder

  /**
   * hw_ep_info_t. The three members of the ep_config union are three
   * fields here; only the one that `intf` selects is meant to be read.
   */
  class HwEpInfo {
    var intf: HwIntf
    var dir: Direction
    var cdcDmaI2sTdmConfig: CdcDmaI2sTdmConfig
    var slimConfig: SlimbusConfig
    var pcmRtProxyConfig: PcmRtProxyConfig

    /** A record holding whatever its owner left in it. */
    constructor (intf: HwIntf, dir: Direction, cdc: CdcDmaI2sTdmConfig, slim: SlimbusConfig, proxy: PcmRtProxyConfig)
      ensures this.intf == intf && this.dir == dir
      ensures cdcDmaI2sTdmConfig == cdc && slimConfig == slim && pcmRtProxyConfig == proxy
    {
      this.intf := intf;
      this.dir := dir;
      cdcDmaI2sTdmConfig := cdc;
      slimConfig := slim;
      pcmRtProxyConfig := proxy;
    }

    /** The union member `intf` selects, as a tagged value; DISPLAY_PORT and USB_AUDIO select none. */
    function ActiveConfig(): Option<EpConfig>
      reads this
    {
      match intf
      case CodecDma | Mi2s | Tdm | Auxpcm => Some(CdcDmaI2sTdmArm(cdcDmaI2sTdmConfig))
      case Slimbus => Some(SlimArm(slimConfig))
      case DisplayPort | UsbAudio => None
      case PcmRtProxy => Some(PcmRtProxyArm(pcmRtProxyConfig))
    }

    /** What a caller reads back after a successful parse. */
    function AsEndpoint(): Endpoint
      reads this
    {
      Endpoint(intf, dir, ActiveConfig())
    }

    /** populate_hw_ep_intf: writes `intf` only when the token names a family. */
    method PopulateIntf(token: string) returns (ret: int)
      modifies this`intf
      ensures ret == 0 || ret == -EInval
      ensures ret == 0 <==> IntfOf(token).Some?
      ensures intf == if ret == 0 then IntfOf(token).value else old(intf)
    {
      var r := IntfOf(token);
      if r.None? {
        return -EInval;
      }
      intf := r.value;
      return 0;
    }

    /** populate_hw_ep_direction: writes `dir` only when the token is RX or TX. */
    method PopulateDirection(token: string) returns (ret: int)
      modifies this`dir
      ensures ret == 0 || ret == -EInval
      ensures ret == 0 <==> DirectionOf(token).Some?
      ensures dir == if ret == 0 then DirectionOf(token).value else old(dir)
    {
      var r := DirectionOf(token);
      if r.None? {
        return -EInval;
      }
      dir := r.value;
      return 0;
    }

    /** populate_hw_ep_intf_idx: writes intf_idx only when the family's table has the token. */
    method PopulateIntfIdx(token: string) returns (ret: int)
      modifies this`cdcDmaI2sTdmConfig
      ensures ret == 0 || ret == -EInval
      ensures ret == 0 <==> IntfIdxOf(intf, token).Success?
      ensures cdcDmaI2sTdmConfig == if ret == 0
        then old(cdcDmaI2sTdmConfig).(intfIdx := IntfIdxOf(intf, token).value)
        else old(cdcDmaI2sTdmConfig)
    {
      var r := IntfIdxOf(intf, token);
      if r.Failure? {
        return -EInval;
      }
      cdcDmaI2sTdmConfig := cdcDmaI2sTdmConfig.(intfIdx := r.value);
      return 0;
    }

    /**
     * populate_cdc_dma_i2s_tdm_pcm_ep_info: split three fields, then write
     * lpaif_type, dir and intf_idx in that order, stopping at the first
     * field that does not match.
     */
    method PopulateCdcDmaI2sTdm(value: string) returns (ret: int)
      modifies this`cdcDmaI2sTdmConfig, this`dir
      ensures ret == 0 || ret == -EInval
      ensures ret == 0 <==> DecodeCdcDmaI2sTdm(intf, value).Success?
      ensures ret == 0 ==> Endpoint(intf, dir, Some(CdcDmaI2sTdmArm(cdcDmaI2sTdmConfig))) == DecodeCdcDmaI2sTdm(intf, value).value
      ensures var f := SplitCdcDmaI2sTdm(value);
        var lpaif := LpaifTypeOf(f.lpaifType);
        var d := DirectionOf(f.dir);
        var ix := IntfIdxOf(intf, f.intfIdx);
        && cdcDmaI2sTdmConfig.lpaifType == (if lpaif.Some? then lpaif.value else old(cdcDmaI2sTdmConfig.lpaifType))
        && dir == (if lpaif.Some? && d.Some? then d.value else old(dir))
        && cdcDmaI2sTdmConfig.intfIdx
           == (if lpaif.Some? && d.Some? && ix.Success? then ix.value else old(cdcDmaI2sTdmConfig.intfIdx))
    {
      var b := Advance(Buffers("", value));
      var lpaifType := b.arg;
      b := Advance(b);
      var dirToken := b.arg;
      b := Advance(b);
      var intfIdx := b.arg;

      var lpaif := LpaifTypeOf(lpaifType);
      if lpaif.None? {
        return -EInval;
      }
      cdcDmaI2sTdmConfig := cdcDmaI2sTdmConfig.(lpaifType := lpaif.value);

      ret := PopulateDirection(dirToken);
      if ret != 0 {
        return;
      }
      ret := PopulateIntfIdx(intfIdx);
    }

    /**
     * populate_slim_dp_usb_ep_info: SLIMBUS reads and writes its device
     * first; every family then reads and writes the direction.
     */
    method PopulateSlimDpUsb(value: string) returns (ret: int)
      modifies this`slimConfig, this`dir
      ensures ret == 0 || ret == -EInval
      ensures ret == 0 <==> DecodeSlimDpUsb(intf, value).Success?
      ensures ret == 0 ==>
        Endpoint(intf, dir, if intf.Slimbus? then Some(SlimArm(slimConfig)) else None) == DecodeSlimDpUsb(intf, value).value
      ensures var f := SplitSlimDpUsb(intf, value);
        var id := SlimDevIdOf(f.devId);
        var d := DirectionOf(f.dir);
        && slimConfig == (if intf.Slimbus? && id.Some? then SlimbusConfig(id.value) else old(slimConfig))
        && dir == (if (intf.Slimbus? ==> id.Some?) && d.Some? then d.value else old(dir))
    {
      var b := Buffers("", value);
      if intf == Slimbus {
        b := Advance(b);
        var devId := b.arg;
        assert devId == SplitSlimDpUsb(intf, value).devId;
        var id := SlimDevIdOf(devId);
        if id.None? {
          return -EInval;
        }
        slimConfig := slimConfig.(devId := id.value);
      }
      b := Advance(b);
      var dirToken := b.arg;
      assert dirToken == SplitSlimDpUsb(intf, value).dir;
      ret := PopulateDirection(dirToken);
    }

    /**
     * populate_pcm_rt_proxy_ep_info: read and write the direction; only then
     * read the next field and store its atoi value as the device number.
     */
    method PopulatePcmRtProxy(value: string) returns (ret: int)
      modifies this`dir, this`pcmRtProxyConfig
      ensures ret == 0 || ret == -EInval
      ensures ret == 0 <==> DecodePcmRtProxy(value).Success?
      ensures ret == 0 ==> Endpoint(PcmRtProxy, dir, Some(PcmRtProxyArm(pcmRtProxyConfig))) == DecodePcmRtProxy(value).value
      ensures var f := SplitPcmRtProxy(value);
        var d := DirectionOf(f.dir);
        && dir == (if d.Some? then d.value else old(dir))
        && pcmRtProxyConfig == (if d.Some? then PcmRtProxyConfig(AtoI(f.devId)) else old(pcmRtProxyConfig))
    {
      var b := Advance(Buffers("", value));
      var dirToken := b.arg;
      ret := PopulateDirection(dirToken);
      if ret != 0 {
        return;
      }
      b := Advance(b);
      pcmRtProxyConfig := pcmRtProxyConfig.(devId := AtoI(b.arg));
      ghost var f := SplitPcmRtProxy(value);
      assert f == PcmRtProxyFields(dirToken, b.arg);
    }

    /**
     * The switch of populate_device_hw_ep_info once `intf` is set: hand the
     * rest of the name to the sub-parser of the family. Only the family's
     * own union member and `dir` can change.
     */
    method PopulateEpConfig(value: string) returns (ret: int)
      modifies this`dir, this`cdcDmaI2sTdmConfig, this`slimConfig, this`pcmRtProxyConfig
      ensures ret == 0 || ret == -EInval
      ensures ret == 0 <==> Dispatch(intf, value).Success?
      ensures ret == 0 ==> AsEndpoint() == Dispatch(intf, value).value
      ensures !IsCdcDmaI2sTdmFamily(intf) ==> cdcDmaI2sTdmConfig == old(cdcDmaI2sTdmConfig)
      ensures !intf.Slimbus? ==> slimConfig == old(slimConfig)
      ensures !intf.PcmRtProxy? ==> pcmRtProxyConfig == old(pcmRtProxyConfig)
    {
      if IsCdcDmaI2sTdmFamily(intf) {
        assert Dispatch(intf, value) == DecodeCdcDmaI2sTdm(intf, value);
        ret := PopulateCdcDmaI2sTdm(value);
        assert ActiveConfig() == Some(CdcDmaI2sTdmArm(cdcDmaI2sTdmConfig));
      } else if IsSlimDpUsbFamily(intf) {
        assert Dispatch(intf, value) == DecodeSlimDpUsb(intf, value);
        ret := PopulateSlimDpUsb(value);
        assert ActiveConfig() == if intf.Slimbus? then Some(SlimArm(slimConfig)) else None;
      } else {
        assert Dispatch(intf, value) == DecodePcmRtProxy(value);
        ret := PopulatePcmRtProxy(value);
        assert ActiveConfig() == Some(PcmRtProxyArm(pcmRtProxyConfig));
      }
    }
  }

  /** The parts of struct device_obj the decoder touches: the name it reads and the record it fills in. */
  class DeviceObj {
    const name: string
    const hwEpInfo: HwEpInfo

    constructor (name: string, hwEpInfo: HwEpInfo)
      ensures this.name == name && this.hwEpInfo == hwEpInfo
    {
      this.name := name;
      this.hwEpInfo := hwEpInfo;
    }
  }

  /**
   * populate_device_hw_ep_info: a missing device object is refused; the
   * first field of the name picks the family and the one sub-parser that
   * reads the rest. It succeeds exactly when Decoder.Decode does, and then
   * leaves the record holding Decode's endpoint.
   */
  method PopulateDeviceHwEpInfo(devObj: DeviceObj?) returns (ret: int)
    modifies if devObj == null then {} else {devObj.hwEpInfo}
    ensures ret == 0 || ret == -EInval
    ensures devObj == null ==> ret == -EInval
    ensures devObj != null ==> (ret == 0 <==> Decode(devObj.name).Success?)
    ensures devObj != null && ret == 0 ==> devObj.hwEpInfo.AsEndpoint() == Decode(devObj.name).value
    ensures devObj != null && IntfOf(FirstSplit(devObj.name).arg).None? ==> unchanged(devObj.hwEpInfo)
    ensures devObj != null && IntfOf(FirstSplit(devObj.name).arg).Some?
      ==> devObj.hwEpInfo.intf == IntfOf(FirstSplit(devObj.name).arg).value
    ensures devObj != null ==>
      var hw := devObj.hwEpInfo;
      && (!IsCdcDmaI2sTdmFamily(hw.intf) ==> hw.cdcDmaI2sTdmConfig == old(hw.cdcDmaI2sTdmConfig))
      && (!hw.intf.Slimbus? ==> hw.slimConfig == old(hw.slimConfig))
      && (!hw.intf.PcmRtProxy? ==> hw.pcmRtProxyConfig == old(hw.pcmRtProxyConfig))
  {
    if devObj == null {
      return -EInval;
    }
    var hw := devObj.hwEpInfo;
    var b := ScanInto(devObj.name, Buffers("", ""));
    var intf := b.arg;
    ret := hw.PopulateIntf(intf);
    if ret != 0 {
      return;
    }
    assert Decode(devObj.name) == Dispatch(hw.intf, b.value);
    ret := hw.PopulateEpConfig(b.value);
  }
}
