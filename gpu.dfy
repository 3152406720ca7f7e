/** Value types of the graphics and windowing libraries that the renderer
    passes around. Every GPU object (device, queue, surface, buffer, texture,
    pipeline) is opaque here: only the descriptors built for them and the
    effects issued on them are modelled. */
module Gpu {

  /** Rust's `u32`. */
  const U32_LIMIT: int := 0x1_0000_0000
  type u32 = x: int | 0 <= x < U32_LIMIT

  /** `x as u32` applied to a non-negative integer: wrap-around modulo 2^32,
      which is what an overflowing `u32` multiplication gives in a release build. */
  function WrapU32(x: nat): (r: u32)
    ensures x < U32_LIMIT <==> r == x
  {
    x % U32_LIMIT
  }

  datatype Option<+T> = None | Some(value: T)
  datatype Result<+T, +E> = Ok(value: T) | Err(error: E)

  /** winit's `PhysicalSize<u32>`. */
  datatype PhysicalSize = PhysicalSize(width: u32, height: u32)

  /** The texture formats that occur in the renderer, plus a few others for
      surface-format negotiation. Only `is_srgb` and the depth test are
      stated for them; wgpu's other formats (integer and non-filterable
      float ones among them) are not modelled. */
  datatype TextureFormat =
    | Rgba8Unorm
    | Rgba8UnormSrgb
    | Bgra8Unorm
    | Bgra8UnormSrgb
    | Rgba16Float
    | Rgb10a2Unorm
    | Depth32Float

  /** `TextureFormat::is_srgb`. */
  predicate IsSrgb(f: TextureFormat) {
    f == Rgba8UnormSrgb || f == Bgra8UnormSrgb
  }

  datatype PresentMode = AutoVsync | AutoNoVsync | Fifo | FifoRelaxed | Immediate | Mailbox
  datatype CompositeAlphaMode = Auto | Opaque | PreMultiplied | PostMultiplied | Inherit

  /** One flag of `TextureUsages`; a flag set is a `set<TextureUsage>`. */
  datatype TextureUsage = CopySrc | CopyDst | TextureBinding | StorageBinding | RenderAttachment

  datatype Extent3d = Extent3d(width: u32, height: u32, depthOrArrayLayers: u32)

  datatype TextureDimension = D1 | D2 | D3

  datatype IndexFormat = Uint16 | Uint32

  /** wgpu's `SurfaceError`, the failures of `get_current_texture`. */
  datatype SurfaceError = Timeout | Outdated | Lost | OutOfMemory

  datatype SurfaceConfiguration = SurfaceConfiguration(
    usage: set<TextureUsage>,
    format: TextureFormat,
    width: u32,
    height: u32,
    presentMode: PresentMode,
    alphaMode: CompositeAlphaMode,
    viewFormats: seq<TextureFormat>,
    desiredMaximumFrameLatency: u32)

  datatype ShaderStage = VertexStage | FragmentStage | ComputeStage

  /** An opaque bind-group layout object, known by the label it was created with. */
  datatype BindGroupLayoutHandle = BindGroupLayoutHandle(debugLabel: string)
}
