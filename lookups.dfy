/**
 * The closed vocabularies of endpoint names. Each family of tokens has a
 * printer (the token a value is written with) and a lookup written as the
 * source's chain of exact, case-sensitive string comparisons; the lookup's
 * contract says it inverts the printer and refuses every other token.
 */
module Lookups {
  import opened Wrappers
  import opened Tokenizer
  import opened CNumber
  import opened HwEpTypes

  function IntfName(intf: HwIntf): (name: string)
    ensures IsToken(name) && |name| <= 12
  {
    match intf
    case Slimbus => "SLIM"
    case DisplayPort => "DISPLAY_PORT"
    case UsbAudio => "USB_AUDIO"
    case CodecDma => "CODEC_DMA"
    case Mi2s => "MI2S"
    case Tdm => "TDM"
    case Auxpcm => "AUXPCM"
    case PcmRtProxy => "PCM_RT_PROXY"
  }

  /** populate_hw_ep_intf: the family a name's first field names. */
  function IntfOf(token: string): (r: Option<HwIntf>)
    ensures forall intf :: r == Some(intf) <==> token == IntfName(intf)
  {
    if token == "SLIM" then Some(Slimbus)
    else if token == "DISPLAY_PORT" then Some(DisplayPort)
    else if token == "USB_AUDIO" then Some(UsbAudio)
    else if token == "CODEC_DMA" then Some(CodecDma)
    else if token == "MI2S" then Some(Mi2s)
    else if token == "TDM" then Some(Tdm)
    else if token == "AUXPCM" then Some(Auxpcm)
    else if token == "PCM_RT_PROXY" then Some(PcmRtProxy)
    else None
  }

  function DirectionName(dir: Direction): (name: string)
    ensures IsToken(name) && |name| == 2
  {
    match dir
    case AudioOutput => "RX"
    case AudioInput => "TX"
  }

  /** populate_hw_ep_direction: RX is output, TX is input. */
  function DirectionOf(token: string): (r: Option<Direction>)
    ensures forall dir :: r == Some(dir) <==> token == DirectionName(dir)
  {
    if token == "RX" then Some(AudioOutput)
    else if token == "TX" then Some(AudioInput)
    else None
  }

  function LpaifTypeName(lpaif: LpaifType): (name: string)
    ensures IsToken(name) && |name| <= 10
  {
    match lpaif
    case Lpaif => "LPAIF"
    case LpaifRxtx => "LPAIF_RXTX"
    case LpaifWsa => "LPAIF_WSA"
    case LpaifVa => "LPAIF_VA"
    case LpaifAxi => "LPAIF_AXI"
  }

  /** The lpaif_type comparisons of populate_cdc_dma_i2s_tdm_pcm_ep_info. */
  function LpaifTypeOf(token: string): (r: Option<LpaifType>)
    ensures forall lpaif :: r == Some(lpaif) <==> token == LpaifTypeName(lpaif)
  {
    if token == "LPAIF" then Some(Lpaif)
    else if token == "LPAIF_RXTX" then Some(LpaifRxtx)
    else if token == "LPAIF_WSA" then Some(LpaifWsa)
    else if token == "LPAIF_VA" then Some(LpaifVa)
    else if token == "LPAIF_AXI" then Some(LpaifAxi)
    else None
  }

  function PcmIntfIdxName(p: PcmIntfIdx): (name: string)
    ensures IsToken(name) && |name| <= 10
  {
    match p
    case Primary => "PRIMARY"
    case Secondary => "SECONDARY"
    case Tertiary => "TERTIARY"
    case Quaternary => "QUATERNARY"
    case Quinary => "QUINARY"
  }

  /** The token of an index: the digit n - CODEC_RX0 for codec DMA, the ordinal's name otherwise. */
  function IntfIdxName(ix: IntfIdx): (name: string)
    requires ix.CodecIdx? ==> CodecRx0 <= ix.n <= CodecRx4
    ensures IsToken(name) && |name| <= 10
  {
    match ix
    case CodecIdx(n) => [DigitChar(n - CodecRx0)]
    case PcmIdx(p) => PcmIntfIdxName(p)
  }

  /**
   * populate_hw_ep_intf_idx: the index token read with the table of the
   * family already classified. Codec DMA tokens "0" to "4" give CODEC_RX0 to
   * CODEC_RX4 (1 to 5, so never 0 and never above 5); MI2S, TDM and AUXPCM
   * take the ordinal names; a family without an index is refused.
   */
  function IntfIdxOf(intf: HwIntf, token: string): (r: Result<IntfIdx, Error>)
    ensures forall ix :: r == Success(ix) <==> IntfIdxAllowed(intf, ix) && IntfIdxName(ix) == token
    ensures r.Failure? ==> r.error == if IsCdcDmaI2sTdmFamily(intf) then UnknownIndex else UnsupportedFamily
  {
    match intf
    case CodecDma =>
      if token == "0" then Success(CodecIdx(CodecRx0))
      else if token == "1" then Success(CodecIdx(CodecRx1))
      else if token == "2" then Success(CodecIdx(CodecRx2))
      else if token == "3" then Success(CodecIdx(CodecRx3))
      else if token == "4" then Success(CodecIdx(CodecRx4))
      else Failure(UnknownIndex)
    case Mi2s | Tdm | Auxpcm =>
      if token == "PRIMARY" then Success(PcmIdx(Primary))
      else if token == "SECONDARY" then Success(PcmIdx(Secondary))
      else if token == "TERTIARY" then Success(PcmIdx(Tertiary))
      else if token == "QUATERNARY" then Success(PcmIdx(Quaternary))
      else if token == "QUINARY" then Success(PcmIdx(Quinary))
      else Failure(UnknownIndex)
    case _ => Failure(UnsupportedFamily)
  }

  function SlimDevName(id: int): (name: string)
    requires IsSlimDevId(id)
    ensures IsToken(name) && |name| == 4
  {
    if id == SlimbusDevice1 then "DEV1" else "DEV2"
  }

  /** The dev_id comparisons of populate_slim_dp_usb_ep_info: DEV1 is device 0, DEV2 device 1. */
  function SlimDevIdOf(token: string): (r: Option<int>)
    ensures forall id :: r == Some(id) <==> IsSlimDevId(id) && token == SlimDevName(id)
  {
    if token == "DEV1" then Some(SlimbusDevice1)
    else if token == "DEV2" then Some(SlimbusDevice2)
    else None
  }
}
