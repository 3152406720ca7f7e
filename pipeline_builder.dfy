/** `renderer_backend/pipeline_builder.rs`: a mutable builder holding the
    shader file name, the two entry-point names and the pixel format, whose
    setters overwrite fields in place and return the builder itself, and
    whose `build` assembles a render-pipeline descriptor from the current
    fields. The native target is modelled: the shader text is read from
    `<cwd>/src/shaders/<shader_filename>`, and that read is a parameter. */
module Pipeline {
  import opened Gpu

  datatype PrimitiveTopology = PointList | LineList | LineStrip | TriangleList | TriangleStrip
  datatype FrontFace = Ccw | Cw
  datatype Face = Front | Back
  datatype PolygonMode = Fill | Line | Point

  datatype PrimitiveState = PrimitiveState(
    topology: PrimitiveTopology,
    stripIndexFormat: Option<IndexFormat>,
    frontFace: FrontFace,
    cullMode: Option<Face>,
    polygonMode: PolygonMode,
    unclippedDepth: bool,
    conservative: bool)

  datatype BlendState = Replace | AlphaBlending | PremultipliedAlphaBlending
  datatype ColorWrite = Red | Green | Blue | Alpha

  /** `ColorWrites::ALL`. */
  const ALL_COLOR_WRITES: set<ColorWrite> := {Red, Green, Blue, Alpha}

  datatype ColorTargetState = ColorTargetState(format: TextureFormat, blend: Option<BlendState>,
                                               writeMask: set<ColorWrite>)

  /** `MultisampleState`; the mask is a `u64`. */
  datatype MultisampleState = MultisampleState(count: u32, mask: nat, alphaToCoverageEnabled: bool)

  /** `!0` as a `u64`: every sample enabled. */
  const ALL_SAMPLES_MASK: nat := 0xFFFF_FFFF_FFFF_FFFF

  datatype DepthStencilState = DepthStencilState(format: TextureFormat)

  /** A WGSL shader module, as the source text it was compiled from. */
  datatype ShaderModule = ShaderModule(debugLabel: string, wgsl: string)

  /** The per-vertex buffer layout `Vertex::get_vertex_buffer_layout` returns;
      `vertex.rs` is not part of this model, so the layout is opaque. */
  datatype VertexBufferLayout = VertexLayout

  datatype VertexState = VertexState(shader: ShaderModule, entryPoint: string, buffers: seq<VertexBufferLayout>)
  datatype FragmentState = FragmentState(shader: ShaderModule, entryPoint: string,
                                         targets: seq<Option<ColorTargetState>>)

  /** The pipeline layout: bind-group layouts in group order and no push constants. */
  datatype PipelineLayout = PipelineLayout(debugLabel: string, bindGroupLayouts: seq<BindGroupLayoutHandle>,
                                           pushConstantRanges: nat)

  datatype RenderPipelineDescriptor = RenderPipelineDescriptor(
    debugLabel: string,
    layout: Option<PipelineLayout>,
    vertex: VertexState,
    primitive: PrimitiveState,
    fragment: Option<FragmentState>,
    depthStencil: Option<DepthStencilState>,
    multisample: MultisampleState,
    multiview: Option<nat>)

  /** The state every pipeline built by the builder shares, whatever its fields:
      triangle lists without strip index format, counter-clockwise front faces,
      back faces culled, filled polygons, no depth or stencil test, one sample
      with every sample enabled and no alpha-to-coverage, and a single colour
      target that replaces and writes all channels. */
  ghost predicate FixedPipelineState(d: RenderPipelineDescriptor) {
    && d.primitive == PrimitiveState(TriangleList, None, Ccw, Some(Back), Fill, false, false)
    && d.depthStencil == None
    && d.multisample == MultisampleState(1, ALL_SAMPLES_MASK, false)
    && d.multiview == None
    && d.fragment.Some?
    && |d.fragment.value.targets| == 1
    && d.fragment.value.targets[0].Some?
    && d.fragment.value.targets[0].value.blend == Some(Replace)
    && d.fragment.value.targets[0].value.writeMask == ALL_COLOR_WRITES
  }

  /** `current_dir().join("src").join("shaders").join(name)` as path components. */
  function ShaderPath(cwd: seq<string>, name: string): (path: seq<string>)
    ensures |path| == |cwd| + 3 && path[..|cwd|] == cwd
    ensures path[|cwd|] == "src" && path[|cwd| + 1] == "shaders" && path[|cwd| + 2] == name
  {
    cwd + ["src", "shaders", name]
  }

  /** The message `build` panics with when the shader file cannot be read. */
  const SHADER_READ_PANIC := "Can't read the shader source file."

  class PipelineBuilder {
    var shaderFilename: string
    var vertexEntry: string
    var fragmentEntry: string
    var pixelFormat: TextureFormat

    /** `PipelineBuilder::builder`: the documented defaults. */
    constructor Builder()
      ensures shaderFilename == "shader.wgsl"
      ensures vertexEntry == "vs_main" && fragmentEntry == "fs_main"
      ensures pixelFormat == Rgba8Unorm
    {
      shaderFilename := "shader.wgsl";
      vertexEntry := "vs_main";
      fragmentEntry := "fs_main";
      pixelFormat := Rgba8Unorm;
    }

    /** Overwrites the three names, keeps the pixel format, and returns the
        builder itself so that calls chain. */
    method SetShaderModule(shaderFilename: string, vertexEntry: string, fragmentEntry: string)
      returns (self: PipelineBuilder)
      modifies this`shaderFilename, this`vertexEntry, this`fragmentEntry
      ensures self == this
      ensures this.shaderFilename == shaderFilename
      ensures this.vertexEntry == vertexEntry && this.fragmentEntry == fragmentEntry
      ensures pixelFormat == old(pixelFormat)
    {
      this.shaderFilename := shaderFilename;
      this.vertexEntry := vertexEntry;
      this.fragmentEntry := fragmentEntry;
      self := this;
    }

    /** Overwrites only the pixel format and returns the builder itself. */
    method SetPixelFormat(pixelFormat: TextureFormat) returns (self: PipelineBuilder)
      modifies this`pixelFormat
      ensures self == this && this.pixelFormat == pixelFormat
      ensures shaderFilename == old(shaderFilename)
      ensures vertexEntry == old(vertexEntry) && fragmentEntry == old(fragmentEntry)
    {
      this.pixelFormat := pixelFormat;
      self := this;
    }

    /** `get_render_targets`: one colour target in the current pixel format. */
    function RenderTargets(): (targets: seq<Option<ColorTargetState>>)
      reads this
      ensures |targets| == 1 && targets[0].Some? && targets[0].value.format == pixelFormat
    {
      [Some(ColorTargetState(pixelFormat, Some(Replace), ALL_COLOR_WRITES))]
    }

    /** The descriptor `build` hands to `create_render_pipeline` once the
        shader text is known. */
    function Descriptor(source: string, layouts: seq<BindGroupLayoutHandle>): (d: RenderPipelineDescriptor)
      reads this
      ensures FixedPipelineState(d)
      ensures d.vertex.entryPoint == vertexEntry && d.fragment.value.entryPoint == fragmentEntry
      ensures d.vertex.shader.wgsl == source && d.fragment.value.shader == d.vertex.shader
      ensures d.fragment.value.targets == RenderTargets()
      ensures d.layout == Some(PipelineLayout("Render Pipeline Layout", layouts, 0))
      ensures |d.vertex.buffers| == 1
    {
      var shader := ShaderModule("Shader", source);
      RenderPipelineDescriptor(
        "Render Pipeline",
        Some(PipelineLayout("Render Pipeline Layout", layouts, 0)),
        VertexState(shader, vertexEntry, [VertexLayout]),
        PrimitiveState(TriangleList, None, Ccw, Some(Back), Fill, false, false),
        Some(FragmentState(shader, fragmentEntry, RenderTargets())),
        None,
        MultisampleState(1, ALL_SAMPLES_MASK, false),
        None)
    }

    /** `build` on the native target: reads `<cwd>/src/shaders/<shader_filename>`
        through `readFile` and panics (the `Err` outcome) when that fails;
        otherwise yields the pipeline described by the current fields, the
        file's text and the given bind-group layouts in order. Nothing of the
        builder changes. */
    method Build(cwd: seq<string>, readFile: seq<string> -> Option<string>,
                 layouts: seq<BindGroupLayoutHandle>)
      returns (r: Result<RenderPipelineDescriptor, string>)
      ensures r.Err? <==> readFile(ShaderPath(cwd, shaderFilename)).None?
      ensures r.Err? ==> r.error == SHADER_READ_PANIC
      ensures r.Ok? ==> r.value == Descriptor(readFile(ShaderPath(cwd, shaderFilename)).value, layouts)
    {
      var source := readFile(ShaderPath(cwd, shaderFilename));
      if source.None? {
        return Err(SHADER_READ_PANIC);
      }
      r := Ok(Descriptor(source.value, layouts));
    }
  }
}
