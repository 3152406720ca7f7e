/** Texture descriptors of `renderer_backend/texture.rs`: what `from_bytes`,
    `from_image`, `get_texture_bind_group_layout` and `create_depth_texture`
    hand to the device and the queue, derived from the image dimensions or
    the surface configuration. Image decoding is a parameter: the decoder's
    outcome is passed in. */
module Texture {
  import opened Gpu

  /** `Texture::DEPTH_FORMAT`. */
  const DEPTH_FORMAT: TextureFormat := Depth32Float

  datatype AddressMode = ClampToEdge | Repeat | MirrorRepeat | ClampToBorder
  datatype FilterMode = Nearest | Linear
  datatype CompareFunction = Never | Less | Equal | LessEqual | Greater | NotEqual | GreaterEqual | Always

  /** `SamplerDescriptor`; the level-of-detail clamps are whole numbers in
      every sampler of the renderer, so they are kept as integers. */
  datatype SamplerDescriptor = SamplerDescriptor(
    addressModeU: AddressMode,
    addressModeV: AddressMode,
    addressModeW: AddressMode,
    magFilter: FilterMode,
    minFilter: FilterMode,
    mipmapFilter: FilterMode,
    lodMinClamp: int,
    lodMaxClamp: int,
    compare: Option<CompareFunction>)

  /** wgpu's `SamplerDescriptor::default()`. */
  const DEFAULT_SAMPLER := SamplerDescriptor(ClampToEdge, ClampToEdge, ClampToEdge,
                                             Nearest, Nearest, Nearest, 0, 32, None)

  datatype TextureDescriptor = TextureDescriptor(
    debugLabel: Option<string>,
    size: Extent3d,
    mipLevelCount: u32,
    sampleCount: u32,
    dimension: TextureDimension,
    format: TextureFormat,
    usage: set<TextureUsage>,
    viewFormats: seq<TextureFormat>)

  /** `ImageDataLayout` of a `write_texture` call. */
  datatype ImageDataLayout = ImageDataLayout(offset: nat, bytesPerRow: Option<u32>, rowsPerImage: Option<u32>)

  /** The `write_texture` call: destination mip level and origin, source layout, copy size. */
  datatype TextureUpload = TextureUpload(mipLevel: u32, originIsZero: bool, allAspects: bool,
                                         layout: ImageDataLayout, copySize: Extent3d)

  /** A `Texture` as the descriptors its three objects were created from
      (the view always uses `TextureViewDescriptor::default()`). */
  datatype Texture = Texture(texture: TextureDescriptor, sampler: SamplerDescriptor)

  /** A decoded image: its dimensions, as `img.dimensions()` reports them. */
  datatype Image = Image(width: u32, height: u32)

  /** Number of bytes `to_rgba8` produces: four per pixel. */
  function RgbaByteCount(img: Image): int {
    4 * img.width * img.height
  }

  /** The opaque error `image::load_from_memory` reports. */
  datatype DecodeError = DecodeError

  /** `from_image`: the texture created for `img` together with the upload of its pixels. */
  datatype Uploaded = Uploaded(texture: Texture, upload: TextureUpload)

  /** The extent of a texture holding `img`. */
  function ImageExtent(img: Image): (e: Extent3d)
    ensures e.width == img.width && e.height == img.height && e.depthOrArrayLayers == 1
  {
    Extent3d(img.width, img.height, 1)
  }

  /** The sampler `from_image` creates. */
  const COLOR_SAMPLER := DEFAULT_SAMPLER.(magFilter := Linear)

  /** The layout `from_image` gives `write_texture`: rows of `4 * width`
      bytes computed in `u32`, `height` rows per image. */
  function UploadLayout(img: Image): ImageDataLayout {
    ImageDataLayout(0, Some(WrapU32(4 * img.width)), Some(img.height))
  }

  function FromImage(img: Image, debugLabel: Option<string>): (r: Uploaded)
    ensures r.texture.texture.size == ImageExtent(img) && r.upload.copySize == ImageExtent(img)
    ensures r.texture.texture.format == Rgba8UnormSrgb && r.texture.texture.dimension == D2
    ensures r.texture.texture.usage == {TextureBinding, CopyDst}
    ensures r.texture.texture.mipLevelCount == 1 && r.texture.texture.sampleCount == 1
    ensures r.texture.texture.debugLabel == debugLabel && r.texture.texture.viewFormats == []
    ensures r.texture.sampler == SamplerDescriptor(ClampToEdge, ClampToEdge, ClampToEdge,
                                                   Linear, Nearest, Nearest, 0, 32, None)
    ensures r.upload.layout == UploadLayout(img) && r.upload.mipLevel == 0 && r.upload.originIsZero
    ensures r.upload.allAspects
  {
    var size := ImageExtent(img);
    var desc := TextureDescriptor(debugLabel, size, 1, 1, D2, Rgba8UnormSrgb, {TextureBinding, CopyDst}, []);
    Uploaded(Texture(desc, COLOR_SAMPLER), TextureUpload(0, true, true, UploadLayout(img), size))
  }

  /** `from_bytes`: the decoder's outcome is a parameter; a decode failure is
      returned as the error and nothing is created. */
  function FromBytes(decoded: Result<Image, DecodeError>, debugLabel: string): (r: Result<Uploaded, DecodeError>)
    ensures r.Err? <==> decoded.Err?
    ensures r.Ok? ==> r.value == FromImage(decoded.value, Some(debugLabel))
    ensures r.Ok? ==> r.value.texture.texture.size == ImageExtent(decoded.value)
                      && r.value.texture.texture.debugLabel == Some(debugLabel)
  {
    match decoded
    case Err(e) => Err(e)
    case Ok(img) => Ok(FromImage(img, Some(debugLabel)))
  }

  /** The row stride given to `write_texture` is the true `4 * width` exactly
      when the image is narrower than 2^30 pixels; a wider image wraps around. */
  lemma UploadRowStride(img: Image)
    ensures UploadLayout(img).bytesPerRow == Some(4 * img.width as int) <==> img.width < 0x4000_0000
  {
  }

  /** For an image narrower than 2^30 pixels, the upload layout describes
      exactly the bytes `to_rgba8` produces: `rows_per_image` rows of
      `bytes_per_row` bytes. */
  lemma {:induction false} UploadCoversImage(img: Image)
    requires img.width < 0x4000_0000
    ensures var layout := UploadLayout(img);
            layout.offset == 0 && layout.bytesPerRow.Some? && layout.rowsPerImage.Some?
            && layout.bytesPerRow.value * layout.rowsPerImage.value == RgbaByteCount(img)
  {
    UploadRowStride(img);
  }

  // Bind-group layouts

  datatype TextureSampleType = Float(filterable: bool) | Depth | Sint | Uint
  datatype TextureViewDimension = ViewD1 | ViewD2 | ViewD2Array | ViewCube | ViewCubeArray | ViewD3
  datatype SamplerBindingType = Filtering | NonFiltering | Comparison

  datatype BindingType =
    | TextureEntry(multisampled: bool, viewDimension: TextureViewDimension, sampleType: TextureSampleType)
    | SamplerEntry(kind: SamplerBindingType)

  datatype BindGroupLayoutEntry = BindGroupLayoutEntry(binding: nat, visibility: set<ShaderStage>,
                                                       ty: BindingType, count: Option<nat>)

  datatype BindGroupLayoutDescriptor = BindGroupLayoutDescriptor(debugLabel: Option<string>,
                                                                 entries: seq<BindGroupLayoutEntry>)

  /** `get_texture_bind_group_layout`. */
  function TextureBindGroupLayout(): (d: BindGroupLayoutDescriptor)
    ensures |d.entries| == 2
    ensures forall i :: 0 <= i < 2 ==>
              d.entries[i].binding == i && d.entries[i].visibility == {FragmentStage} && d.entries[i].count == None
    ensures d.entries[0].ty == TextureEntry(false, ViewD2, Float(true))
    ensures d.entries[1].ty == SamplerEntry(Filtering)
  {
    BindGroupLayoutDescriptor(Some("Texture Bind Group Layout"), [
      BindGroupLayoutEntry(0, {FragmentStage}, TextureEntry(false, ViewD2, Float(true)), None),
      BindGroupLayoutEntry(1, {FragmentStage}, SamplerEntry(Filtering), None)
    ])
  }

  /** The sample type a shader reads a texture of format `f` as; stated
      only for the formats modelled, none of which is an integer or a
      non-filterable float format. */
  function SampleType(f: TextureFormat): TextureSampleType {
    if f == Depth32Float then Depth else Float(true)
  }

  /** Whether a texture fits a layout's texture binding, and its sampler the
      layout's sampler binding, as WebGPU validates a bind group: a 2D
      texture for a 2D view binding, single-sampled exactly when the binding
      is, whose format samples as the declared type, and a non-comparison
      sampler for a filtering binding. */
  predicate FitsLayout(t: Texture, textureEntry: BindingType, samplerEntry: BindingType) {
    && textureEntry.TextureEntry? && samplerEntry.SamplerEntry?
    && textureEntry.viewDimension == ViewD2
    && t.texture.dimension == D2 && t.texture.size.depthOrArrayLayers == 1
    && (t.texture.sampleCount > 1) == textureEntry.multisampled
    && SampleType(t.texture.format) == textureEntry.sampleType
    && (samplerEntry.kind == Comparison <==> t.sampler.compare.Some?)
    && (samplerEntry.kind == NonFiltering ==>
          t.sampler.magFilter == Nearest && t.sampler.minFilter == Nearest && t.sampler.mipmapFilter == Nearest)
  }

  /** The texture bind group the renderer builds (binding 0 = the view,
      binding 1 = the sampler) is valid for every image `from_image` accepts;
      a depth texture could not be bound through the same layout. */
  lemma ColorTextureFitsLayout(img: Image, debugLabel: Option<string>, config: SurfaceConfiguration)
    ensures var layout := TextureBindGroupLayout();
            FitsLayout(FromImage(img, debugLabel).texture, layout.entries[0].ty, layout.entries[1].ty)
            && !FitsLayout(CreateDepthTexture(config, "depth"), layout.entries[0].ty, layout.entries[1].ty)
  {
  }

  // Depth texture

  /** The sampler `create_depth_texture` creates. */
  const DEPTH_SAMPLER := SamplerDescriptor(ClampToEdge, ClampToEdge, ClampToEdge,
                                           Linear, Linear, Nearest, 0, 100, Some(LessEqual))

  /** `create_depth_texture`: a depth buffer the size of the surface. */
  function CreateDepthTexture(config: SurfaceConfiguration, debugLabel: string): (t: Texture)
    ensures t.texture.size == Extent3d(config.width, config.height, 1)
    ensures t.texture.debugLabel == Some(debugLabel) && t.texture.dimension == D2
    ensures t.texture.mipLevelCount == 1 && t.texture.sampleCount == 1 && t.texture.viewFormats == []
    ensures t.texture.format == DEPTH_FORMAT && t.texture.usage == {RenderAttachment, TextureBinding}
    ensures t.sampler.addressModeU == ClampToEdge && t.sampler.addressModeV == ClampToEdge
            && t.sampler.addressModeW == ClampToEdge
    ensures t.sampler.magFilter == Linear && t.sampler.minFilter == Linear && t.sampler.mipmapFilter == Nearest
    ensures t.sampler.compare == Some(LessEqual) && t.sampler.lodMinClamp == 0 && t.sampler.lodMaxClamp == 100
  {
    var size := Extent3d(config.width, config.height, 1);
    Texture(TextureDescriptor(Some(debugLabel), size, 1, 1, D2, DEPTH_FORMAT, {RenderAttachment, TextureBinding}, []),
            DEPTH_SAMPLER)
  }

  /** `TextureFormat::is_depth_stencil_format` on the formats modelled. */
  predicate IsDepthFormat(f: TextureFormat) {
    f == Depth32Float
  }

  /** Whether `t` can be the depth attachment of a render pass whose colour
      attachment is an image of a surface configured by `config`, as WebGPU
      validates a pass: a depth format, render-attachment usage, one mip
      level, and the same size and sample count (one) as the surface image. */
  predicate FitsDepthAttachment(t: Texture, config: SurfaceConfiguration) {
    && IsDepthFormat(t.texture.format)
    && RenderAttachment in t.texture.usage
    && t.texture.dimension == D2 && t.texture.mipLevelCount == 1 && t.texture.sampleCount == 1
    && t.texture.size == Extent3d(config.width, config.height, 1)
  }

  /** A depth texture created for one surface configuration can serve as the
      depth attachment of passes over exactly those surfaces whose
      configuration has the same width and height. (Nothing in the renderer
      creates one; this is what such a texture would be good for.) */
  lemma DepthTextureFitsSurface(created: SurfaceConfiguration, surface: SurfaceConfiguration, debugLabel: string)
    ensures FitsDepthAttachment(CreateDepthTexture(created, debugLabel), surface)
            <==> created.width == surface.width && created.height == surface.height
  {
  }
}
