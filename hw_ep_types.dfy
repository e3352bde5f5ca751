/**
 * The entities of a hardware endpoint as device_hw_ep.c fills them in. The
 * enumerations come from a header (hw_intf_cmn_api.h) that is not part of
 * this model; their numeric values are not known here, so each is a set of
 * distinct constructors. The constants that device_hw_ep.c defines itself
 * keep their values.
 */
module HwEpTypes {
  import opened Wrappers

  /** EINVAL on Linux; every failure of the decoder returns -EInval. */
  const EInval: int := 22

  /** The interface families (enum values SLIMBUS ... PCM_RT_PROXY). */
  datatype HwIntf = Slimbus | DisplayPort | UsbAudio | CodecDma | Mi2s | Tdm | Auxpcm | PcmRtProxy

  /** AUDIO_OUTPUT for playback (RX), AUDIO_INPUT for capture (TX). */
  datatype Direction = AudioOutput | AudioInput

  /** The low-power audio interface kinds LPAIF ... LPAIF_AXI. */
  datatype LpaifType = Lpaif | LpaifRxtx | LpaifWsa | LpaifVa | LpaifAxi

  /** PCM_INTF_IDX_PRIMARY ... PCM_INTF_IDX_QUINARY. */
  datatype PcmIntfIdx = Primary | Secondary | Tertiary | Quaternary | Quinary

  /**
   * The value stored in intf_idx: a CODEC_RXn number for CODEC_DMA, a
   * PCM_INTF_IDX_* constant for MI2S, TDM and AUXPCM.
   */
  datatype IntfIdx = CodecIdx(n: int) | PcmIdx(p: PcmIntfIdx)

  /** CODEC_RX0 ... CODEC_RX4: the codec DMA index is the token's digit plus one. */
  const CodecRx0: int := 1
  const CodecRx1: int := 2
  const CodecRx2: int := 3
  const CodecRx3: int := 4
  const CodecRx4: int := 5

  /** SLIMBUS_DEVICE_1 and SLIMBUS_DEVICE_2. */
  const SlimbusDevice1: int := 0
  const SlimbusDevice2: int := 1

  /** The three members of the ep_config union. */
  datatype CdcDmaI2sTdmConfig = CdcDmaI2sTdmConfig(lpaifType: LpaifType, intfIdx: IntfIdx)
  datatype SlimbusConfig = SlimbusConfig(devId: int)
  datatype PcmRtProxyConfig = PcmRtProxyConfig(devId: int)

  /** ep_config as a tagged union: the member that is meant to be read. */
  datatype EpConfig =
    | CdcDmaI2sTdmArm(cdc: CdcDmaI2sTdmConfig)
    | SlimArm(slim: SlimbusConfig)
    | PcmRtProxyArm(proxy: PcmRtProxyConfig)

  /**
   * A decoded endpoint: its family, its direction and the union member that
   * was filled in; DISPLAY_PORT and USB_AUDIO fill in none.
   */
  datatype Endpoint = Endpoint(intf: HwIntf, dir: Direction, config: Option<EpConfig>)

  /** Why a name was refused; the C code reports each as -EINVAL and says which in its log. */
  datatype Error =
    | UnknownInterface
    | UnknownDirection
    | UnknownLpaifType
    | UnknownIndex
    | UnknownSlimDevice
    | UnsupportedFamily

  /** The families the CODEC_DMA/MI2S/TDM/AUXPCM parser serves. */
  predicate IsCdcDmaI2sTdmFamily(intf: HwIntf) {
    intf.CodecDma? || intf.Mi2s? || intf.Tdm? || intf.Auxpcm?
  }

  /** The families the SLIM/DISPLAY_PORT/USB_AUDIO parser serves. */
  predicate IsSlimDpUsbFamily(intf: HwIntf) {
    intf.Slimbus? || intf.DisplayPort? || intf.UsbAudio?
  }

  predicate IsSlimDevId(id: int) {
    id == SlimbusDevice1 || id == SlimbusDevice2
  }

  /** The indexes each family's table can produce. */
  predicate IntfIdxAllowed(intf: HwIntf, ix: IntfIdx) {
    match intf
    case CodecDma => ix.CodecIdx? && CodecRx0 <= ix.n <= CodecRx4
    case Mi2s | Tdm | Auxpcm => ix.PcmIdx?
    case _ => false
  }
}
