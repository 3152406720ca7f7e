# learn_wgpu render core in Dafny

A model of the bookkeeping and decision rules around the wgpu and winit calls
of the `learn_wgpu` renderer: the render state controller (`State` in
`src/state.rs`), the event-loop closure that drives it (`src/lib.rs`), the
mutable `PipelineBuilder` and the texture descriptors of `src/renderer_backend/`.
GPU objects are opaque. What the renderer hands to wgpu is modelled as
descriptor values. The surface, encoder, pass and queue calls go into a
ghost log of `Effect`s on the `State`. The answers of code outside the
model come in as parameters: the surface's `get_current_texture`, the image
decoder, the shader file read and the camera controller.

Files, one module each:

- `gpu.dfy` (`Gpu`): shared wgpu/winit value types. These are `u32` with
  explicit wrap-around, `PhysicalSize`, texture formats and `is_srgb`,
  `SurfaceConfiguration`, `SurfaceError`, `Option` and `Result`.
- `texture.dfy` (`Texture`): `from_bytes`, `from_image`,
  `get_texture_bind_group_layout` and `create_depth_texture` as pure functions.
- `pipeline_builder.dfy` (`Pipeline`): the class `PipelineBuilder`. Its
  setters overwrite fields in place and return the builder itself. Its
  `Build` yields the render-pipeline descriptor.
- `state.dfy` (`RenderState`): surface-format negotiation, the static mesh,
  the 10×10 instance grid and the per-frame effect sequence. It also holds
  the class `State` with `Resize`, `Render` and `Update`.
- `event_loop.dfy` (`EventLoop`): the event → action dispatch, the recovery
  rule for `render` errors, and the class `App` whose `HandleEvent` is one
  call of the closure.

Behaviour of the code that the model reproduces as written, although a
reader might expect otherwise:

- `resize` ignores a size only when *both* dimensions are below 1
  (`&&`, `src/state.rs:231`), not when *either* is zero. A 0×h or w×0 size
  is therefore stored and configured
  (`RenderState.OneZeroDimensionIsAccepted`).
- The camera's aspect ratio is computed once, in `State::new`.
  `resize` never touches the camera (`RenderState.State.Resize`), so the
  aspect does not follow the window.
- `RedrawRequested` calls only `render`. `update` is never called from the
  closure. The timer event only requests a redraw.
- `create_depth_texture` exists but nothing calls it: `resize` creates no
  depth texture and the render pass has no depth attachment.
- Only `Lost` reconfigures the surface. `Outdated` is printed like every
  other error (`EventLoop.Recover`).

The pipeline declares one vertex buffer layout (`Vertex`), while `render` also
binds the instance buffer at vertex slot 1. Whether the shader reads it
depends on files that are not part of this model.

## Model

| member | source | states |
|---|---|---|
| `RenderState.FirstSrgb` | src/state.rs:338-341 | the result is absent exactly when no format is sRGB; otherwise it is an sRGB format with no sRGB format before it |
| `RenderState.SurfaceFormatPreference` | src/state.rs:338-342 | the chosen format is one the surface lists. It is sRGB iff the surface lists an sRGB format, and then it is the first such. Otherwise it is `formats[0]` |
| `RenderState.SurfaceConfigurationFor` | src/state.rs:331-354 | the configuration has the window's width and height, the negotiated format, the first present mode and alpha mode, render-attachment usage, no view formats and frame latency 2 |
| `RenderState.CreateBuffers` | src/state.rs:356-375 | the index count equals the number of indices and is a multiple of 3; every index is below the vertex count (5) and fits `u16` |
| `RenderState.GridRowsAt` | src/state.rs:180-195 | the `flat_map` over rows yields `rows*n` instances in z-major order: cell (x, z) is at index `z*n + x` |
| `RenderState.GridRowsLength` | src/state.rs:180-181 | `rows` rows of `n` instances give `rows*n` instances |
| `RenderState.InstanceGridLayout` | src/state.rs:180-182 | there are 100 instances, and entry `i` stands at `(i%10 - 5, 0, i/10 - 5)` |
| `RenderState.IdentityOnlyAtOrigin` | src/state.rs:184-188 | an instance has the identity rotation iff it stands at the origin, which is only index 55. Every other instance turns 45° about its own position |
| `RenderState.RawInstances` | src/state.rs:196 | the instance buffer holds one packed record per instance, in the same order |
| `RenderState.CountOfAppend` | src/state.rs:241-285 | counting effects of one kind is additive over consecutive stretches of the call log |
| `RenderState.FailedAcquireIssuesNothing` | src/state.rs:241 | when acquiring the surface texture fails, `render` records no call of any kind |
| `RenderState.SuccessfulFrameProtocol` | src/state.rs:241-285 | a successful frame first creates the image view and then the command encoder. It has exactly one pass, which clears its single colour attachment and has no depth attachment. It sets the pipeline, bind groups 0 and 1, vertex slots 0 and 1 and the 16-bit index buffer, then makes one indexed draw over all indices and all instances. Then come exactly one submission of one command buffer and one present, in that order and with present last. It does not reconfigure |
| `RenderState.FrameDrawsWithinBuffers` | src/state.rs:278 | for a valid state, the indexed draw of a successful frame reads exactly the indices of the index buffer, each naming an existing vertex, with base vertex 0, and exactly the instances of the instance buffer |
| `RenderState.ResizeToCurrentSize` | src/state.rs:231-236 | resizing to the stored size reconfigures with the unchanged configuration, unless the size is 0×0, when nothing happens |
| `RenderState.OneZeroDimensionIsAccepted` | src/state.rs:231 | a size with exactly one zero dimension, 0×h or w×0, passes the guard, and the surface is configured with that zero dimension |
| `RenderState.State.constructor` | src/state.rs:75-227 | the state starts with the window's size and the negotiated configuration. Its recorded calls are one surface configuration followed by the upload of the decoded diffuse image. The pipeline targets the surface's format with entry points `vs_main`/`fs_main` and the texture and camera layouts in that order. The pipeline carries the builder's fixed primitive, depth, multisample and blend state and one vertex buffer layout. The diffuse texture is exactly what `from_image` makes of the decoded image under the label "Cry Cat", and the camera's aspect is width:height |
| `RenderState.State.Resize` | src/state.rs:229-237 | ignored iff both dimensions are below 1. Otherwise it stores the size, mirrors it into the configuration and reconfigures once. The camera and everything else stay as they were |
| `RenderState.State.Render` | src/state.rs:239-286 | an acquire failure is returned unchanged with no call recorded. Success records exactly the frame sequence and returns `Ok`. The state invariant is kept |
| `RenderState.State.Update` | src/state.rs:293-298 | the camera becomes the controller's result, the uniform is recomputed from it, and it is written once at offset 0 of the camera buffer |
| `EventLoop.Dispatch` | src/lib.rs:38-58 | close-request of the app's window ⇒ exit. Resize ⇒ resize to exactly that size. Redraw ⇒ render. User event ⇒ request a redraw. Other windows' events and other kinds ⇒ nothing |
| `EventLoop.Recover` | src/lib.rs:49-54 | `Ok` ⇒ nothing. `Lost` ⇒ resize to the last size. `OutOfMemory` ⇒ exit. Any other error, `Outdated` and `Timeout` included ⇒ printed only |
| `EventLoop.LostSurfaceRecovery` | src/lib.rs:51 | a lost surface causes no draw, submission or present. It causes at most one reconfiguration, with the configuration unchanged, and none iff the last size is 0×0 |
| `EventLoop.OneSubmissionPerRedraw` | src/lib.rs:49-54 | a redraw submits at most once, exactly once iff the surface handed out an image; only a lost surface reconfigures |
| `EventLoop.App.HandleEvent` | src/lib.rs:38-58 | the recorded calls, the stored size and configuration, the exit flag, the redraw requests and the printed errors after one event are those given by `Dispatch` and `Recover`, and the camera is untouched |
| `Pipeline.PipelineBuilder.Builder` | src/renderer_backend/pipeline_builder.rs:15-23 | defaults are `shader.wgsl`, `vs_main`, `fs_main` and `Rgba8Unorm` |
| `Pipeline.PipelineBuilder.SetShaderModule` | src/renderer_backend/pipeline_builder.rs:25-37 | overwrites exactly the three names, keeps the pixel format, returns the same builder |
| `Pipeline.PipelineBuilder.SetPixelFormat` | src/renderer_backend/pipeline_builder.rs:39-44 | overwrites only the pixel format, returns the same builder |
| `Pipeline.PipelineBuilder.RenderTargets` | src/renderer_backend/pipeline_builder.rs:120-129 | exactly one colour target, in the builder's current pixel format |
| `Pipeline.PipelineBuilder.Descriptor` | src/renderer_backend/pipeline_builder.rs:76-118 | the pipeline uses the current entry names and one shader module from the given text. It passes the bind-group layouts through in order, has one vertex buffer layout, and carries the fixed primitive, depth, multisample and blend state |
| `Pipeline.PipelineBuilder.Build` | src/renderer_backend/pipeline_builder.rs:46-118 | panics with the read-failure message iff `<cwd>/src/shaders/<shader_filename>` cannot be read; otherwise yields the descriptor for that file's text |
| `Pipeline.ShaderPath` | src/renderer_backend/pipeline_builder.rs:56-63 | the shader path is the working directory followed by `src`, `shaders` and the file name |
| `Texture.FromBytes` | src/renderer_backend/texture.rs:14-23 | a decode failure is returned as the error and no texture is made. Otherwise the result is exactly what `from_image` makes of the decoded image under the given label: its extent, format, usage, upload and sampler |
| `Texture.FromImage` | src/renderer_backend/texture.rs:25-87 | a 2D `Rgba8UnormSrgb` texture of extent (width, height, 1) with the given label, one mip level, one sample, no view formats and usage texture-binding and copy-destination. It is uploaded, all aspects, at mip 0 from the origin with the derived layout. Its sampler clamps to edge on u, v and w, magnifies linearly, minifies and mip-maps with nearest, has no comparison and wgpu's default LOD clamps |
| `Texture.UploadRowStride` | src/renderer_backend/texture.rs:63 | the `u32` row stride `4*width` is the true value iff width < 2^30 |
| `Texture.UploadCoversImage` | src/renderer_backend/texture.rs:61-65 | below that bound, the upload layout (offset 0, `bytes_per_row` × `rows_per_image`) covers exactly the 4·w·h bytes of the RGBA image |
| `Texture.TextureBindGroupLayout` | src/renderer_backend/texture.rs:89-116 | two entries, bindings 0 and 1, both visible to the fragment stage only and not arrays. Binding 0 is a single-sampled 2D texture of filterable floats; binding 1 is a filtering sampler |
| `Texture.ColorTextureFitsLayout` | src/renderer_backend/texture.rs:94-112 | the colour texture and sampler fit that layout: a 2D texture for its 2D view binding, single-sampled like the binding, sampled as filterable float, and a non-comparison sampler for its filtering binding. A depth texture does not fit |
| `Texture.CreateDepthTexture` | src/renderer_backend/texture.rs:118-159 | a 2D texture with the given label, extent the surface's width × height × 1, one mip level, one sample, no view formats, format `Depth32Float` and usage render-attachment and texture-binding. The sampler clamps to edge on u, v and w, magnifies and minifies linearly, mip-maps with nearest, compares with less-or-equal and clamps LOD to [0, 100] |
| `Texture.DepthTextureFitsSurface` | src/renderer_backend/texture.rs:118-139 | a depth texture created for a configuration can be the depth attachment of a pass over a surface image (depth format, render-attachment usage, 2D, one mip, one sample, same size) iff that surface has the same width and height |

## Left out

- All wgpu and winit objects and the calls that create them (instance,
  adapter, device, queue, surface, buffers, bind groups, shader module,
  pipeline layout). They are opaque; only their descriptors and the
  frame-time calls are modelled.
- Floating-point data. This covers the vertex positions and texture
  coordinates, the clear colour, the camera's eye/target/up, field of view
  and clip planes, and the quaternion arithmetic of the rotations. The
  grid is modelled on integers, which is exact for a displacement of 5.0.
  A rotation is a tag: identity, or 45° about the unnormalised position.
- `camera.rs`, `instance.rs`, `vertex.rs`, `custom_event.rs` and
  `renderer_backend/mod.rs` are not part of this model. `Instance::to_raw`,
  `Vertex::get_vertex_buffer_layout`, the view-projection computation and
  the camera controller are opaque tags. `State::input` only forwards to
  that controller and is left out.
- `RenderState.State.Update`: the camera controller's step is a parameter,
  so the contract does not say how the camera moves.
- Image decoding and `to_rgba8`, reading the shader file, `include_bytes!`,
  `include_str!` and `bytemuck` casts. Their outcomes are parameters.
- `RenderState.State.constructor`: the panics of `State::new` are
  preconditions. These are an empty capability list, a decode failure of
  the embedded image and an unreadable shader file. The async adapter and
  device requests are assumed to succeed.
- The timer thread, logger set-up, event-loop and window construction in
  `run` (concurrency and windowing plumbing).
- The wasm32 `cfg` branches. The native target is modelled: the shader text
  is read from a file and the device uses default limits.
- Texture formats are a subset of wgpu's list: those the renderer uses and
  a few others for surface-format negotiation. `is_srgb`, the depth test
  and the sample type are stated for that subset only; integer and
  non-filterable float formats are not modelled.
- `Texture.UploadLayout`: `4 * width` is modelled with release-build
  wrap-around. A debug build panics instead.
- `Pipeline.PipelineBuilder.Build`: `cwd` stands for a working directory
  that was obtained and converted to a string successfully. The panics of
  `current_dir().unwrap()` and `into_string().unwrap()`
  (`src/renderer_backend/pipeline_builder.rs:56-63`) are not modelled.
- `Pipeline.ShaderPath`: only a relative shader file name is modelled.
  `Path::join` with an absolute name replaces the working directory, which
  the component-list model does not capture.
- The colour sampler's level-of-detail clamps are wgpu's defaults (0 and 32).
  Only the fields the renderer sets are taken from its code.
