/** The render state controller of `state.rs`: the surface configuration it
    negotiates, the static mesh and the instance grid it uploads, and the
    `State` object whose `resize`, `render` and `update` run the frame.
    The surface, encoder, pass and queue calls are recorded, in order, in the
    ghost `log` of the state; what the surface answers to
    `get_current_texture` is a parameter. */
module RenderState {
  import opened Gpu
  import Texture
  import Pipeline

  // ---------------------------------------------------------------------
  // Surface configuration (`get_surface_configuration`)

  /** What `surface.get_capabilities(adapter)` reports, in the adapter's order. */
  datatype SurfaceCapabilities = SurfaceCapabilities(formats: seq<TextureFormat>,
                                                     presentModes: seq<PresentMode>,
                                                     alphaModes: seq<CompositeAlphaMode>)

  /** `formats.iter().filter(is_srgb).next()`: the first sRGB format, if any. */
  function FirstSrgb(formats: seq<TextureFormat>): (r: Option<TextureFormat>)
    ensures r.None? <==> forall i :: 0 <= i < |formats| ==> !IsSrgb(formats[i])
    ensures r.Some? ==> exists k :: 0 <= k < |formats| && formats[k] == r.value && IsSrgb(formats[k])
                                    && forall j :: 0 <= j < k ==> !IsSrgb(formats[j])
  {
    if |formats| == 0 then None
    else if IsSrgb(formats[0]) then Some(formats[0])
    else
      var r := FirstSrgb(formats[1..]);
      assert r.Some? ==> exists k :: 0 < k < |formats| && formats[k] == r.value && IsSrgb(formats[k])
                                     && forall j :: 0 <= j < k ==> !IsSrgb(formats[j]) by {
        if r.Some? {
          var k :| 0 <= k < |formats| - 1 && formats[1..][k] == r.value && IsSrgb(formats[1..][k])
                   && forall j :: 0 <= j < k ==> !IsSrgb(formats[1..][j]);
          assert formats[k + 1] == r.value;
        }
      }
      r
  }

  /** The surface format: the first sRGB format the surface supports, else
      its first format (`formats[0]` panics on an empty list, so the list
      must not be empty). */
  function SelectSurfaceFormat(formats: seq<TextureFormat>): (f: TextureFormat)
    requires |formats| > 0
  {
    match FirstSrgb(formats)
    case Some(srgb) => srgb
    case None => formats[0]
  }

  /** `get_surface_configuration` for a window of size `size`. */
  function SurfaceConfigurationFor(caps: SurfaceCapabilities, size: PhysicalSize): (c: SurfaceConfiguration)
    requires |caps.formats| > 0 && |caps.presentModes| > 0 && |caps.alphaModes| > 0
    ensures c.width == size.width && c.height == size.height
    ensures c.format == SelectSurfaceFormat(caps.formats)
    ensures c.presentMode == caps.presentModes[0] && c.alphaMode == caps.alphaModes[0]
    ensures c.usage == {RenderAttachment} && c.viewFormats == [] && c.desiredMaximumFrameLatency == 2
  {
    SurfaceConfiguration({RenderAttachment}, SelectSurfaceFormat(caps.formats), size.width, size.height,
                         caps.presentModes[0], caps.alphaModes[0], [], 2)
  }

  /** The format negotiation rule: the chosen format is one the surface
      supports; it is sRGB exactly when the surface supports some sRGB
      format, and then no sRGB format precedes it; otherwise it is the first. */
  lemma {:induction false} SurfaceFormatPreference(formats: seq<TextureFormat>)
    requires |formats| > 0
    ensures SelectSurfaceFormat(formats) in formats
    ensures IsSrgb(SelectSurfaceFormat(formats)) <==> exists i :: 0 <= i < |formats| && IsSrgb(formats[i])
    ensures IsSrgb(SelectSurfaceFormat(formats)) ==>
              exists k :: 0 <= k < |formats| && formats[k] == SelectSurfaceFormat(formats)
                          && forall j :: 0 <= j < k ==> !IsSrgb(formats[j])
    ensures !IsSrgb(SelectSurfaceFormat(formats)) ==> SelectSurfaceFormat(formats) == formats[0]
  {
    var r := FirstSrgb(formats);
    if r.Some? {
      var k :| 0 <= k < |formats| && formats[k] == r.value && IsSrgb(formats[k])
               && forall j :: 0 <= j < k ==> !IsSrgb(formats[j]);
      assert formats[k] in formats;
    } else {
      assert !IsSrgb(formats[0]);
    }
  }

  // ---------------------------------------------------------------------
  // Static mesh (`VERTICES`, `INDICES`, `create_buffers`)

  /** A vertex of the pentagon, known by its letter; its position and
      texture coordinates are floating-point data outside this model. */
  datatype Vertex = Vertex(name: char)

  const VERTICES: seq<Vertex> := [Vertex('A'), Vertex('B'), Vertex('C'), Vertex('D'), Vertex('E')]

  /** Three triangles fanning out from vertex E, as `u16` indices. */
  const INDICES: seq<int> := [0, 1, 4,
                              1, 2, 4,
                              2, 3, 4]

  datatype StaticBuffers = StaticBuffers(vertexData: seq<Vertex>, indexData: seq<int>, numIndices: u32)

  /** `create_buffers`: the vertex and index buffer contents and the index count. */
  function CreateBuffers(): (b: StaticBuffers)
    ensures b.vertexData == VERTICES && b.indexData == INDICES
    ensures b.numIndices == |b.indexData| && b.numIndices % 3 == 0
    ensures forall i :: 0 <= i < |b.indexData| ==> 0 <= b.indexData[i] < |b.vertexData| && b.indexData[i] < 0x1_0000
  {
    StaticBuffers(VERTICES, INDICES, |INDICES|)
  }

  // ---------------------------------------------------------------------
  // Instance grid (`State::new`)

  const NUM_INSTANCES_PER_ROW: nat := 10

  /** `INSTANCE_DISPLACEMENT` is `(10 * 0.5, 0, 10 * 0.5)`, which is the
      whole number 5 on both horizontal axes. */
  const INSTANCE_DISPLACEMENT: int := 5

  /** A grid coordinate; every position the grid produces is integral. */
  datatype Vec3 = Vec3(x: int, y: int, z: int)

  /** The rotation an instance gets: `from_axis_angle(unit_z, 0 degrees)`,
      the identity, or a 45-degree turn about the normalised `axis`. */
  datatype Rotation = Identity | AxisAngle45(axis: Vec3)

  datatype Instance = Instance(position: Vec3, rotation: Rotation)

  /** The instance of grid cell (x, z). */
  function GridInstance(x: nat, z: nat): Instance {
    var position := Vec3(x - INSTANCE_DISPLACEMENT, 0, z - INSTANCE_DISPLACEMENT);
    Instance(position, if position == Vec3(0, 0, 0) then Identity else AxisAngle45(position))
  }

  /** `(0..n).map(|x| ...)` for row `z`. */
  function GridRow(z: nat, n: nat): seq<Instance> {
    seq(n, x requires 0 <= x => GridInstance(x, z))
  }

  /** `(0..rows).flat_map(|z| row z)`: the first `rows` rows, row after row. */
  function GridRows(rows: nat, n: nat): seq<Instance> {
    if rows == 0 then [] else GridRows(rows - 1, n) + GridRow(rows - 1, n)
  }

  /** The instance list of the scene. */
  function Instances(): seq<Instance> {
    GridRows(NUM_INSTANCES_PER_ROW, NUM_INSTANCES_PER_ROW)
  }

  /** The grid is laid out z-major: cell (x, z) sits at index `z * n + x`. */
  lemma {:induction false} GridRowsAt(rows: nat, n: nat, z: nat, x: nat)
    requires z < rows && x < n
    ensures |GridRows(rows, n)| == rows * n
    ensures z * n + x < rows * n && GridRows(rows, n)[z * n + x] == GridInstance(x, z)
  {
    GridRowsLength(rows - 1, n);
    assert (rows - 1) * n + n == rows * n;
    if z < rows - 1 {
      GridRowsAt(rows - 1, n, z, x);
    } else {
      assert z * n + x == (rows - 1) * n + x;
    }
  }

  lemma {:induction false} GridRowsLength(rows: nat, n: nat)
    ensures |GridRows(rows, n)| == rows * n
  {
    if rows > 0 {
      GridRowsLength(rows - 1, n);
      assert (rows - 1) * n + n == rows * n;
    }
  }

  /** The scene has 100 instances; entry `z*10 + x` stands at `(x-5, 0, z-5)`. */
  lemma InstanceGridLayout()
    ensures |Instances()| == NUM_INSTANCES_PER_ROW * NUM_INSTANCES_PER_ROW == 100
    ensures forall i :: 0 <= i < 100 ==>
              Instances()[i].position == Vec3(i % 10 - INSTANCE_DISPLACEMENT, 0, i / 10 - INSTANCE_DISPLACEMENT)
  {
    GridRowsLength(10, 10);
    forall i | 0 <= i < 100
      ensures Instances()[i].position == Vec3(i % 10 - INSTANCE_DISPLACEMENT, 0, i / 10 - INSTANCE_DISPLACEMENT)
    {
      GridRowsAt(10, 10, i / 10, i % 10);
    }
  }

  /** An instance keeps the identity rotation exactly when it stands at the
      origin, and that is the single cell x = 5, z = 5 (index 55); every
      other instance turns 45 degrees about its own position. */
  lemma IdentityOnlyAtOrigin()
    ensures forall i :: 0 <= i < |Instances()| ==>
              (Instances()[i].rotation == Identity <==> Instances()[i].position == Vec3(0, 0, 0))
    ensures forall i :: 0 <= i < |Instances()| ==>
              (Instances()[i].rotation == Identity <==> i == 55)
    ensures forall i :: 0 <= i < |Instances()| && Instances()[i].rotation != Identity ==>
              Instances()[i].rotation == AxisAngle45(Instances()[i].position)
  {
    InstanceGridLayout();
    forall i | 0 <= i < 100
      ensures Instances()[i] == GridInstance(i % 10, i / 10)
    {
      GridRowsAt(10, 10, i / 10, i % 10);
    }
  }

  /** The per-instance record `Instance::to_raw` packs for the instance
      buffer; `instance.rs` is not part of this model, so it is opaque. */
  datatype InstanceRaw = InstanceRaw(of: Instance)

  /** `instances.iter().map(Instance::to_raw).collect()`. */
  function RawInstances(instances: seq<Instance>): (raw: seq<InstanceRaw>)
    ensures |raw| == |instances|
    ensures forall i :: 0 <= i < |raw| ==> raw[i].of == instances[i]
  {
    seq(|instances|, i requires 0 <= i < |instances| => InstanceRaw(instances[i]))
  }

  // ---------------------------------------------------------------------
  // Camera

  /** `config.width as f32 / config.height as f32`, kept as the exact ratio. */
  datatype Ratio = Ratio(numerator: int, denominator: int)

  /** The camera; `pose` stands for eye, target, up, field of view and clip
      planes, which `camera.rs` owns and this model does not look into. */
  datatype Camera = Camera(pose: nat, aspect: Ratio)

  /** `CameraUniform` after `update_view_proj(camera)`: a function of the camera. */
  datatype CameraUniform = ViewProjection(of: Camera)

  // ---------------------------------------------------------------------
  // GPU effects

  /** The acquired swap-chain image. */
  datatype SurfaceTexture = SurfaceTexture

  datatype BufferRole = VertexBuffer | IndexBuffer | InstanceBuffer | CameraBuffer
  datatype BindGroupRole = DiffuseBindGroup | CameraBindGroup

  /** One call on the surface, device, queue, encoder or pass. */
  datatype Effect =
    | ConfigureSurface(config: SurfaceConfiguration)
    | CreateView
    | CreateCommandEncoder
    | BeginRenderPass(colorAttachments: nat, clearsColor: bool, depthAttachment: bool)
    | SetPipeline
    | SetBindGroup(index: nat, group: BindGroupRole)
    | SetVertexBuffer(slot: nat, buffer: BufferRole)
    | SetIndexBuffer(buffer: BufferRole, format: IndexFormat)
    | DrawIndexed(indexStart: nat, indexEnd: nat, baseVertex: int, instanceStart: nat, instanceEnd: nat)
    | EndRenderPass
    | Submit(commandBuffers: nat)
    | Present
    | WriteBuffer(buffer: BufferRole, offset: nat, data: CameraUniform)
    | WriteTexture(upload: Texture.TextureUpload)

  /** The kinds of effect the frame and recovery properties count. */
  datatype EffectKind = Configure | PassBegin | PassEnd | Draw | Submission | Presentation | OtherEffect

  function KindOf(e: Effect): EffectKind {
    match e
    case ConfigureSurface(_) => Configure
    case BeginRenderPass(_, _, _) => PassBegin
    case EndRenderPass => PassEnd
    case DrawIndexed(_, _, _, _, _) => Draw
    case Submit(_) => Submission
    case Present => Presentation
    case _ => OtherEffect
  }

  /** Number of effects of kind `k` in `log`. */
  function CountOf(log: seq<Effect>, k: EffectKind): nat {
    if log == [] then 0 else CountOf(log[..|log| - 1], k) + (if KindOf(log[|log| - 1]) == k then 1 else 0)
  }

  lemma {:induction false} CountOfAppend(a: seq<Effect>, b: seq<Effect>, k: EffectKind)
    ensures CountOf(a + b, k) == CountOf(a, k) + CountOf(b, k)
  {
    if b == [] {
      assert a + b == a;
    } else {
      assert (a + b)[..|a + b| - 1] == a + b[..|b| - 1];
      CountOfAppend(a, b[..|b| - 1], k);
    }
  }

  lemma {:induction false} CountOfNone(log: seq<Effect>, k: EffectKind)
    requires forall i :: 0 <= i < |log| ==> KindOf(log[i]) != k
    ensures CountOf(log, k) == 0
  {
    if log != [] {
      CountOfNone(log[..|log| - 1], k);
    }
  }

  lemma CountOfSingleton(e: Effect)
    ensures forall k :: CountOf([e], k) == if KindOf(e) == k then 1 else 0
  {
    assert [e][..0] == [];
  }

  /** A log in which exactly one position holds an effect of kind `k` counts it once. */
  lemma {:induction false} CountOfExactlyOne(log: seq<Effect>, i: nat, k: EffectKind)
    requires i < |log| && KindOf(log[i]) == k
    requires forall j :: 0 <= j < |log| && j != i ==> KindOf(log[j]) != k
    ensures CountOf(log, k) == 1
  {
    assert log == log[..i] + [log[i]] + log[i + 1..];
    CountOfNone(log[..i], k);
    CountOfNone(log[i + 1..], k);
    CountOfAppend(log[..i] + [log[i]], log[i + 1..], k);
    CountOfAppend(log[..i], [log[i]], k);
    assert CountOf([log[i]], k) == 1 by {
      assert [log[i]][..0] == [];
    }
  }

  /** What `resize` asks of the surface: nothing when both dimensions are
      below 1, otherwise one reconfiguration at the new size. */
  function ResizeEffects(newSize: PhysicalSize, config: SurfaceConfiguration): seq<Effect> {
    if IsResizeIgnored(newSize) then []
    else [ConfigureSurface(config.(width := newSize.width, height := newSize.height))]
  }

  /** The guard of `resize` as written: `width < 1 && height < 1`. */
  predicate IsResizeIgnored(newSize: PhysicalSize) {
    newSize.width < 1 && newSize.height < 1
  }

  /** The calls `render` records before submitting: a view of the image, an
      encoder, and one pass with a single colour attachment that is cleared
      on load (`LoadOp::Clear`) and no depth attachment, which binds the pipeline,
      the two bind groups, the two vertex buffers and the 16-bit index buffer
      and draws every index for every instance. */
  function PassEffects(numIndices: nat, instanceCount: nat): seq<Effect> {
    [CreateView, CreateCommandEncoder,
     BeginRenderPass(1, true, false),
     SetPipeline,
     SetBindGroup(0, DiffuseBindGroup), SetBindGroup(1, CameraBindGroup),
     SetVertexBuffer(0, VertexBuffer), SetVertexBuffer(1, InstanceBuffer),
     SetIndexBuffer(IndexBuffer, Uint16),
     DrawIndexed(0, numIndices, 0, 0, instanceCount),
     EndRenderPass]
  }

  /** The calls `render` makes for one frame: none when the surface does not
      hand out an image, otherwise the pass, one submission and one present. */
  function FrameEffects(acquired: Result<SurfaceTexture, SurfaceError>, numIndices: nat, instanceCount: nat)
    : seq<Effect>
  {
    if acquired.Err? then [] else PassEffects(numIndices, instanceCount) + [Submit(1), Present]
  }

  /** A failed acquisition records nothing: no encoder, pass, submission,
      present or reconfiguration. */
  lemma FailedAcquireIssuesNothing(e: SurfaceError, numIndices: nat, instanceCount: nat, k: EffectKind)
    ensures CountOf(FrameEffects(Err(e), numIndices, instanceCount), k) == 0
  {
  }

  /** A successful frame is exactly one pass, which clears its single colour
      attachment, has no depth attachment and binds the pipeline, bind
      groups 0 and 1, vertex slots 0 and 1 and the 16-bit index buffer and
      then makes one indexed draw over every index and every instance;
      then exactly one submission of one command buffer, then exactly one
      present, which comes last. */
  lemma {:induction false} SuccessfulFrameProtocol(numIndices: nat, instanceCount: nat)
    ensures var fx := FrameEffects(Ok(SurfaceTexture), numIndices, instanceCount);
            && CountOf(fx, PassBegin) == 1
            && CountOf(fx, PassEnd) == 1
            && CountOf(fx, Draw) == 1
            && CountOf(fx, Submission) == 1
            && CountOf(fx, Presentation) == 1
            && CountOf(fx, Configure) == 0
            && fx[0] == CreateView && fx[1] == CreateCommandEncoder
            && fx[2] == BeginRenderPass(1, true, false) && fx[3] == SetPipeline
            && fx[4] == SetBindGroup(0, DiffuseBindGroup) && fx[5] == SetBindGroup(1, CameraBindGroup)
            && fx[6] == SetVertexBuffer(0, VertexBuffer) && fx[7] == SetVertexBuffer(1, InstanceBuffer)
            && fx[8] == SetIndexBuffer(IndexBuffer, Uint16)
            && fx[9] == DrawIndexed(0, numIndices, 0, 0, instanceCount)
            && fx[10].EndRenderPass? && fx[11] == Submit(1) && fx[12] == Present && |fx| == 13
  {
    var fx := FrameEffects(Ok(SurfaceTexture), numIndices, instanceCount);
    assert fx == [CreateView, CreateCommandEncoder, BeginRenderPass(1, true, false), SetPipeline,
                  SetBindGroup(0, DiffuseBindGroup), SetBindGroup(1, CameraBindGroup),
                  SetVertexBuffer(0, VertexBuffer), SetVertexBuffer(1, InstanceBuffer),
                  SetIndexBuffer(IndexBuffer, Uint16), DrawIndexed(0, numIndices, 0, 0, instanceCount),
                  EndRenderPass, Submit(1), Present];
    CountOfExactlyOne(fx, 2, PassBegin);
    CountOfExactlyOne(fx, 10, PassEnd);
    CountOfExactlyOne(fx, 9, Draw);
    CountOfExactlyOne(fx, 11, Submission);
    CountOfExactlyOne(fx, 12, Presentation);
    CountOfNone(fx, Configure);
  }

  // ---------------------------------------------------------------------
  // The state object

  /** The labels of the two bind-group layouts the pipeline is built against. */
  const TEXTURE_LAYOUT := BindGroupLayoutHandle("Texture Bind Group Layout")
  const CAMERA_LAYOUT := BindGroupLayoutHandle("Camera Bind Group Layout")

  /** The shader file the native build of `State::new` names. */
  const SHADER_NAME := "vertex.wgsl"

  class State {
    var size: PhysicalSize
    var config: SurfaceConfiguration
    const renderPipeline: Pipeline.RenderPipelineDescriptor
    const numIndices: u32
    const diffuseTexture: Texture.Texture
    const instances: seq<Instance>
    const instanceData: seq<InstanceRaw>
    var camera: Camera
    var cameraUniform: CameraUniform
    /** The calls made on the surface, the command encoder, the render pass
        and the queue since the surface was first configured, in order; the
        first after that configuration is the upload of the diffuse texture. */
    ghost var log: seq<Effect>

    /** The surface configuration mirrors the stored size, the pipeline
        renders into the surface's format, and the uploaded data is the
        static mesh and the instance grid. */
    ghost predicate Valid()
      reads this
    {
      && config.width == size.width && config.height == size.height
      && renderPipeline.fragment.Some?
      && |renderPipeline.fragment.value.targets| == 1
      && renderPipeline.fragment.value.targets[0].Some?
      && renderPipeline.fragment.value.targets[0].value.format == config.format
      && numIndices == |INDICES|
      && instances == Instances() && instanceData == RawInstances(instances)
      && cameraUniform == ViewProjection(camera)
    }

    /** `State::new` once the window, the adapter, the texture decoder and
        the shader file have answered: every `unwrap` and `expect` on that
        path must succeed, so the surface reports at least one format,
        present mode and alpha mode, the image decodes and the shader file
        reads. */
    constructor (windowSize: PhysicalSize, caps: SurfaceCapabilities,
                 diffuseImage: Result<Texture.Image, Texture.DecodeError>,
                 cwd: seq<string>, readFile: seq<string> -> Option<string>)
      requires |caps.formats| > 0 && |caps.presentModes| > 0 && |caps.alphaModes| > 0
      requires diffuseImage.Ok?
      requires readFile(Pipeline.ShaderPath(cwd, SHADER_NAME)).Some?
      ensures Valid()
      ensures size == windowSize && config == SurfaceConfigurationFor(caps, windowSize)
      ensures log == [ConfigureSurface(config),
                      WriteTexture(Texture.FromImage(diffuseImage.value, Some("Cry Cat")).upload)]
      ensures renderPipeline.vertex.entryPoint == "vs_main"
      ensures renderPipeline.fragment.value.entryPoint == "fs_main"
      ensures renderPipeline.layout.Some?
      ensures renderPipeline.layout.value.bindGroupLayouts == [TEXTURE_LAYOUT, CAMERA_LAYOUT]
      ensures renderPipeline.vertex.shader.wgsl == readFile(Pipeline.ShaderPath(cwd, SHADER_NAME)).value
      ensures Pipeline.FixedPipelineState(renderPipeline) && |renderPipeline.vertex.buffers| == 1
      ensures diffuseTexture == Texture.FromImage(diffuseImage.value, Some("Cry Cat")).texture
      ensures diffuseTexture.texture.size == Texture.ImageExtent(diffuseImage.value)
      ensures camera.aspect == Ratio(windowSize.width, windowSize.height)
    {
      var surfaceConfig := SurfaceConfigurationFor(caps, windowSize);
      var uploaded := Texture.FromBytes(diffuseImage, "Cry Cat");
      var builder := new Pipeline.PipelineBuilder.Builder();
      var chained := builder.SetShaderModule(SHADER_NAME, "vs_main", "fs_main");
      chained := chained.SetPixelFormat(surfaceConfig.format);
      var built := chained.Build(cwd, readFile, [TEXTURE_LAYOUT, CAMERA_LAYOUT]);
      var buffers := CreateBuffers();
      var grid := Instances();
      var initialCamera := Camera(0, Ratio(surfaceConfig.width, surfaceConfig.height));

      size := windowSize;
      config := surfaceConfig;
      log := [ConfigureSurface(surfaceConfig), WriteTexture(uploaded.value.upload)];
      diffuseTexture := uploaded.value.texture;
      camera := initialCamera;
      cameraUniform := ViewProjection(initialCamera);
      renderPipeline := built.value;
      numIndices := buffers.numIndices;
      instances := grid;
      instanceData := RawInstances(grid);
    }

    /** `resize`: ignored when both dimensions are below 1; otherwise the
        new size is stored, mirrored into the configuration and the surface
        is reconfigured once. Nothing else changes: not the camera (whose
        aspect ratio stays the one computed at construction), not the
        instances, not the surface format. */
    method Resize(newSize: PhysicalSize)
      requires Valid()
      modifies this`size, this`config, this`log
      ensures Valid()
      ensures IsResizeIgnored(newSize) ==> size == old(size) && config == old(config)
      ensures !IsResizeIgnored(newSize) ==>
                size == newSize && config == old(config).(width := newSize.width, height := newSize.height)
      ensures log == old(log) + ResizeEffects(newSize, old(config))
      ensures camera == old(camera) && cameraUniform == old(cameraUniform)
    {
      if newSize.width < 1 && newSize.height < 1 {
        return;
      }
      size := newSize;
      config := config.(width := newSize.width);
      config := config.(height := newSize.height);
      log := log + [ConfigureSurface(config)];
    }

    /** `render`: `acquired` is what `get_current_texture` returns. A failure
        is returned at once; otherwise the frame's calls are made in order. */
    method Render(acquired: Result<SurfaceTexture, SurfaceError>) returns (r: Result<(), SurfaceError>)
      requires Valid()
      modifies this`log
      ensures r.Err? <==> acquired.Err?
      ensures r.Err? ==> r.error == acquired.error
      ensures Valid()
      ensures log == old(log) + FrameEffects(acquired, numIndices, |instances|)
    {
      if acquired.Err? {
        return Err(acquired.error);
      }
      log := log + PassEffects(numIndices, |instances|);
      log := log + [Submit(1)];
      log := log + [Present];
      r := Ok(());
    }

    /** `update`: `moved` is the camera after the camera controller (not part
        of this model) has advanced it; the uniform is recomputed from it and
        written at offset 0 of the camera buffer. */
    method Update(moved: Camera)
      requires Valid()
      modifies this`camera, this`cameraUniform, this`log
      ensures Valid()
      ensures camera == moved && cameraUniform == ViewProjection(moved)
      ensures log == old(log) + [WriteBuffer(CameraBuffer, 0, ViewProjection(moved))]
    {
      camera := moved;
      cameraUniform := ViewProjection(camera);
      log := log + [WriteBuffer(CameraBuffer, 0, cameraUniform)];
    }
  }

  /** Resizing to the stored size changes neither the size nor the
      configuration, and reconfigures the surface once unless that size is 0x0. */
  lemma ResizeToCurrentSize(size: PhysicalSize, config: SurfaceConfiguration)
    requires config.width == size.width && config.height == size.height
    ensures ResizeEffects(size, config) == if size == PhysicalSize(0, 0) then [] else [ConfigureSurface(config)]
  {
  }

  /** The guard as written lets a size with one zero dimension through:
      such a resize stores the zero dimension and configures the surface with it. */
  lemma OneZeroDimensionIsAccepted(extent: u32, config: SurfaceConfiguration)
    requires extent > 0
    ensures !IsResizeIgnored(PhysicalSize(0, extent)) && !IsResizeIgnored(PhysicalSize(extent, 0))
    ensures ResizeEffects(PhysicalSize(0, extent), config) == [ConfigureSurface(config.(width := 0, height := extent))]
    ensures ResizeEffects(PhysicalSize(extent, 0), config) == [ConfigureSurface(config.(width := extent, height := 0))]
  {
  }

  /** The draw of every successful frame stays inside what `State::new`
      uploaded: it reads indices `0..num_indices` of the index buffer, each
      of which names an existing vertex, and instances `0..instances.len()`
      of the instance buffer. */
  lemma {:induction false} FrameDrawsWithinBuffers(s: State)
    requires s.Valid()
    ensures var d := FrameEffects(Ok(SurfaceTexture), s.numIndices, |s.instances|)[9];
            && d.DrawIndexed? && d.baseVertex == 0
            && d.indexStart == 0 && d.indexEnd == |CreateBuffers().indexData|
            && (forall i :: d.indexStart <= i < d.indexEnd ==> 0 <= CreateBuffers().indexData[i] < |CreateBuffers().vertexData|)
            && d.instanceStart == 0 && d.instanceEnd == |s.instanceData|
  {
    SuccessfulFrameProtocol(s.numIndices, |s.instances|);
    var b := CreateBuffers();
    assert s.numIndices == |b.indexData|;
  }
}
