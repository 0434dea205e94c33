/** The pure decisions of the decode callbacks: which texture description
    the pool gets, what is reported back to the decoder, which output plane
    is accepted, and how a texture format maps to the frame's pixel layout. */
module VideoFormats {
  import opened Direct3D

  /** The pixel layouts a video frame handed to the consumer can have. */
  datatype PixelFormat = B8G8R8A8 | R8G8B8A8

  /** ToPixelFormat either succeeds or throws NotImplementedException. */
  datatype Conversion = Converted(layout: PixelFormat) | NotImplemented

  /** The libvlc colour metadata enumerations (only the members the
      negotiation can report, plus neighbours for contrast). */
  datatype ColorSpace = BT709 | BT601 | BT2020
  datatype ColorPrimaries = PrimariesBT601 | PrimariesBT709 | PrimariesBT2020
  datatype TransferFunction = Linear | Srgb | TransferBT709 | PQ | HLG
  datatype VideoOrientation = TopLeft | TopRight | BottomLeft | BottomRight

  /** What UpdateOuput writes into libvlc's output configuration. */
  datatype OutputConfig = OutputConfig(
    dxgiFormat: DxgiFormat,
    fullRange: bool,
    colorSpace: ColorSpace,
    primaries: ColorPrimaries,
    transfer: TransferFunction,
    orientation: VideoOrientation)

  /** The four 8-bit RGBA formats, each in a linear and an sRGB encoding. */
  predicate IsEightBitRgba(format: DxgiFormat)
  {
    format == B8G8R8A8Unorm || format == B8G8R8A8UnormSrgb ||
    format == R8G8B8A8Unorm || format == R8G8B8A8UnormSrgb
  }

  /** Maps a texture format to the frame's pixel layout. The sRGB variant of
      a format has the same layout as its linear variant; any other format is
      a negotiation bug and raises. */
  function ToPixelFormat(format: DxgiFormat): (r: Conversion)
    ensures r.Converted? <==> IsEightBitRgba(format)
    ensures r == Converted(B8G8R8A8) <==> format in {B8G8R8A8Unorm, B8G8R8A8UnormSrgb}
    ensures r == Converted(R8G8B8A8) <==> format in {R8G8B8A8Unorm, R8G8B8A8UnormSrgb}
  {
    if format == B8G8R8A8Unorm || format == B8G8R8A8UnormSrgb then Converted(B8G8R8A8)
    else if format == R8G8B8A8Unorm || format == R8G8B8A8UnormSrgb then Converted(R8G8B8A8)
    else NotImplemented
  }

  /** The format of the pool's textures: the sRGB variant when the consumer
      renders in linear colour space, so that sampling linearises. */
  function PoolFormat(usesLinearColorspace: bool): (f: DxgiFormat)
    ensures ToPixelFormat(f) == Converted(B8G8R8A8)
    ensures usesLinearColorspace <==> f == B8G8R8A8UnormSrgb
  {
    if usesLinearColorspace then B8G8R8A8UnormSrgb else B8G8R8A8Unorm
  }

  /** The description UpdateOuput gives a new pool: the decoder's size, one
      mip level, one array slice, no multisampling, bound as render target
      and shader resource, and shareable with another device. */
  function PoolDescription(width: nat, height: nat, usesLinearColorspace: bool): (d: TextureDesc)
    ensures d.width == width && d.height == height
    ensures d.format == PoolFormat(usesLinearColorspace)
    ensures d.miscFlags & MiscShared != 0
    ensures d.bindFlags & BindRenderTarget != 0 && d.bindFlags & BindShaderResource != 0
  {
    TextureDesc(
      width := width,
      height := height,
      mipLevels := 1,
      arraySize := 1,
      format := PoolFormat(usesLinearColorspace),
      sampleCount := 1,
      usage := UsageDefault,
      bindFlags := BindRenderTarget | BindShaderResource,
      cpuAccessFlags := 0,
      miscFlags := MiscShared)
  }

  /** What UpdateOuput reports to the decoder: it always renders BGRA UNORM,
      full range BT.709, top-left origin, with the transfer function telling
      whether the values are linear or sRGB-encoded. */
  function NegotiatedOutput(usesLinearColorspace: bool): (o: OutputConfig)
    ensures o.dxgiFormat == B8G8R8A8Unorm
    ensures o.transfer == Linear <==> usesLinearColorspace
    ensures o.transfer == Srgb <==> !usesLinearColorspace
    ensures o.fullRange && o.colorSpace == BT709 && o.primaries == PrimariesBT709 && o.orientation == TopLeft
  {
    OutputConfig(
      dxgiFormat := B8G8R8A8Unorm,
      fullRange := true,
      colorSpace := BT709,
      primaries := PrimariesBT709,
      transfer := if usesLinearColorspace then Linear else Srgb,
      orientation := TopLeft)
  }

  /** The format reported to the decoder and the format of the pool's
      textures always have the same pixel layout, whatever the colour space. */
  lemma ReportedLayoutMatchesPool(width: nat, height: nat, usesLinearColorspace: bool)
    ensures ToPixelFormat(NegotiatedOutput(usesLinearColorspace).dxgiFormat)
         == ToPixelFormat(PoolDescription(width, height, usesLinearColorspace).format)
  {
  }

  /** The decoder asks for each output plane in turn; only plane 0 exists
      for a single-plane RGBA format. */
  function SelectPlane(plane: nat): (accepted: bool)
    ensures accepted <==> plane == 0
  {
    plane == 0
  }
}
