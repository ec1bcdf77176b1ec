# Agent renderer of the ABM visualiser, modelled in Dafny

The visualiser draws a population of point agents as small triangles with
WebGPU. Its only original logic is in `Renderer.cpp`:

- `InitialiseBuffers(scale)` resets the population. It releases the old
  vertex buffer, spawns `scale` random agents and creates a buffer of
  `scale * 3 * 5 * 4` bytes.
- `UpdateAgents(zoom, rotation)` runs once per frame. It moves every agent
  with one Euler step, adds jitter to greedy agents and wraps positions onto
  a torus. It then emits one triangle of three 5-float vertices per agent
  and uploads the whole vertex sequence.
- `Draw` records one frame.
- `Terminate` releases the GPU objects.

The model is imperative where the source is:

- `Render.Renderer` is a class with the fields the source updates in place:
  `agents`, `vertexCount`, `pipeline` and `vertexBuffer`.
- The WebGPU device is a `Gpu.Device` object. It keeps the objects that are
  still live (created and not yet released) with their byte sizes, and an
  ordered log of the calls the model tracks on the device, its queue and the
  render pass.
- The renderer's methods are proved against pure functions in `Agents` and
  `Render`: `Population`, `StepAll`, `Vertices`, `FrameCommands` and
  `TerminateCommands`. The properties the code promises are proved about
  those functions.

Inputs and what stands for them:

- Floats are `real`.
- Each `rand() / RAND_MAX` value is a caller-supplied draw. An agent spends
  seven draws at spawn, in the source's order: x, y, protein, greed, speed,
  dx, dy.
- The two jitter draws of a greedy agent are a `Jitter` pair, one pair per
  agent.
- The cosine and sine of the rotation angle are inputs to `UpdateAgents`.
- The graphics context's "next surface texture view" is an `Option<Handle>`
  input to `Draw`. `None` means the surface had no texture this frame.
- The compile-time switches for presenting and for ticking/polling the
  device are a `Build` input.

A handle in the C++ wrapper is not reset to null when it is released. The
model keeps this: after `Terminate`, `vertexBuffer` still holds the released
handle. A second `Terminate`, or an `InitialiseBuffers` after `Terminate`,
therefore logs a second release of the same buffer. The renderer invariant
`Valid` allows for this. At most one buffer is live, it is the current
handle, and while it is live its size is `vertexCount * 20` bytes.

Two facts about the code shape the model:

- The header declares `UpdateAgents()` without parameters; the definition
  takes `(float zoom, float rotation)`, and that is what is modelled.
- A frame with no target view still ends the UI frame, recorded as
  `EndUiFrame`.

## Model

| member | source | states |
|---|---|---|
| `Agents.SpawnAgent` | Renderer.cpp:106-115 | given seven draws in [0,1], the spawned agent has x, y in [-0.9, 0.9], proteinLevel and greediness in [0,1], speed in [0.05, 1.05] and dx, dy in [-0.005, 0.005] |
| `Agents.Population` | Renderer.cpp:104-116 | the population for size n has exactly n agents, and with draws in [0,1] every one of them is within the spawn ranges |
| `Agents.Wrap` | Renderer.cpp:157-159 | the wrapped coordinate always lies in [-bound, bound]; a value past +bound lands at exactly -bound, one past -bound at exactly +bound, and one in range is kept |
| `Agents.Drift` | Renderer.cpp:148-155 | before wrapping, the agent is exactly at x + dx*speed, y + dy*speed if and only if it is not greedy (greediness <= 0.8) or both jitter draws are 0.5, so a greedy agent is displaced by any other jitter; with jitter draws in [0,1] any agent is within 0.001 of that point on each axis |
| `Agents.Step` | Renderer.cpp:147-159 | after one frame x is in [-1.77, 1.77] and y in [-1, 1]; a coordinate that drifted within the bounds is kept exactly, one that drifted past an edge reappears at exactly the opposite edge; dx, dy, speed, proteinLevel and greediness are unchanged |
| `Agents.StepAll` | Renderer.cpp:147-159 | the stepped population has the same length, agent i is agent i stepped with jitter pair i, every agent is inside the wrap bounds, and each differs from its original only in x and y |
| `Agents.AgentVertices` | Renderer.cpp:161-184 | one agent emits 15 floats: three vertices of five floats |
| `Agents.AgentColors` | Renderer.cpp:180-184 | each of an agent's three vertices carries 0.2, the agent's proteinLevel and its greediness in slots 2, 3 and 4 |
| `Agents.Vertices` | Renderer.cpp:147-185 | the emitted sequence has 15 floats per agent, and block i of 15 floats is exactly agent i's triangle, in population order |
| `Agents.VertexColors` | Renderer.cpp:180-184 | in the whole emitted sequence, vertices 3i, 3i+1 and 3i+2 carry 0.2, then the proteinLevel and greediness of agent i |
| `Agents.TriangleRotates` | Renderer.cpp:165-174 | the triangle's centre is the agent's position turned by the view's angle and zoomed, and the three corner offsets are the fixed corners (-s, -s), (s, -s), (0, s), s = 0.01 * zoom, turned by the same angle |
| `Agents.CornersRotateRigidly` | Renderer.cpp:168-174 | for any angle (cos^2 + sin^2 = 1), the three corners lie at squared distances 2s^2, 2s^2 and s^2 from the triangle's centre, where s = 0.01 * zoom; with `TriangleRotates`, the triangle turns rigidly about its centre |
| `Agents.IdentityView` | Renderer.cpp:165-174 | with rotation 0 (cos 1, sin 0) and zoom 1, the three vertex positions are (x-0.01, y-0.01), (x+0.01, y-0.01) and (x, y+0.01) |
| `Agents.VertexLayout` | Renderer.cpp:39-43 | the pipeline's stride of 20 bytes and colour offset of 8 bytes put vertex n's colour attribute at float 5n + 2, where the emitter writes it |
| `Render.WithinDeviceLimit` | WebGPUContext.cpp:76 | a population of at most 100000 agents needs 60 bytes per agent, within the 6,000,000-byte device limit, and its 32-bit vertex-count arithmetic does not wrap |
| `Render.FrameTail` | Renderer.cpp:223-232 | after the submit, a drawn frame releases the target view and issues no draw and no second submit |
| `Render.PassOpening` | Renderer.cpp:209-212 | the render pass binds exactly vertexCount * 5 * 4 bytes of the vertex buffer before any draw, and the opening holds no draw |
| `Render.RenderPass` | Renderer.cpp:209-218 | the render pass draws vertexCount vertices of one instance and does not submit itself |
| `Render.PassDrawsOnce` | Renderer.cpp:209-218 | the render pass holds exactly one draw call, of vertexCount vertices and 1 instance |
| `Render.FrameCommands` | Renderer.cpp:189-233 | a frame without a target view only ends the UI frame; a frame with one binds exactly vertexCount * 5 * 4 bytes of the vertex buffer and releases the view |
| `Render.MoveAgent` | Renderer.cpp:148-159 | one pass of the update loop moves an agent exactly as `Step` specifies: Euler step, jitter only when greedy, wrap at the window edges |
| `Render.FrameDrawsOnce` | Renderer.cpp:190-221 | a frame issues exactly one draw, of vertexCount vertices and 1 instance, when a target view is available and none otherwise, and it submits exactly when a view is available |
| `Render.TerminateCommands` | Renderer.cpp:235-240 | teardown releases exactly the non-null handles among the pipeline and the vertex buffer, and nothing else |
| `Render.Renderer.constructor` | Renderer.cpp:7-8 | a new renderer has no agents, vertex count 0 and null pipeline and buffer handles |
| `Render.Renderer.InitialisePipeline` | Renderer.cpp:95 | creates one fresh pipeline object and stores its handle; the previous pipeline is not released |
| `Render.Renderer.SpawnAll` | Renderer.cpp:101-116 | the spawning loop leaves agents equal to the population of `scale` agents, agent i taking draws 7i to 7i+6 |
| `Render.Renderer.InitialiseBuffers` | Renderer.cpp:99-127 | releases the previous buffer (if the handle is non-null) before creating the new one; afterwards agents is the spawned population of `scale` agents, vertexCount = 3*scale, and exactly one buffer is live: the new one, of 60*scale bytes |
| `Render.Renderer.MoveAll` | Renderer.cpp:147-185 | the loop moves every agent in place as `StepAll` specifies and returns the vertex sequence of the moved population |
| `Render.Renderer.UpdateAgents` | Renderer.cpp:129-187 | agents becomes the stepped population; the whole vertex sequence of the new agents is written to the current buffer from offset 0, and its byte length equals vertexCount * 5 * 4, the buffer size |
| `Render.Renderer.Draw` | Renderer.cpp:189-233 | the calls recorded are exactly the frame's commands for the given target view |
| `Render.Renderer.EndFrame` | Renderer.cpp:223-232 | after the submit, the calls recorded are exactly the frame tail for the build |
| `Render.Renderer.Terminate` | Renderer.cpp:235-240 | releases exactly the non-null handles, leaves no buffer live and keeps the handles themselves |
| `Scenarios.ResizeTwice` | Renderer.cpp:99-124 | repeating InitialiseBuffers with the same size ends the log with the first buffer's creation at 60*n bytes, its release, then the creation of the current buffer at 60*n bytes; exactly one buffer is live afterwards |
| `Scenarios.FiveAgentsOneFrame` | Renderer.cpp:99-233 | five agents initialised, updated once and drawn once: the upload is a write of 75 floats (15 vertices of 5) at offset 0, followed by the frame, whose only draw call is one of 15 vertices and one instance when a target view is available, and which draws nothing otherwise |

## Left out

- Pipeline construction (Renderer.cpp:10-97) fills WebGPU descriptors: shader module, topology, culling, blending and target format. Only its vertex layout is modelled, as the constants `VertexStride` and `ColorOffset`. `InitialisePipeline` only creates a pipeline handle.
- The shader text and its aspect-ratio correction are not part of this model.
- `WebGPUContext` (adapter and device requests, surface configuration, limits, texture acquisition) is foreign code. Its effects are inputs: the optional target view given to `Draw`, and the buffer limit used by `WithinDeviceLimit`.
- Single-precision rounding is not modelled, nor are `std::cos`/`std::sin` and the `pi = 3.142` approximation. Positions are reals, and the cosine and sine are inputs.
- `rand()` is not modelled. Its values are inputs in [0,1]. For jitter, the model takes one pair of draws per agent and uses it only when the agent is greedy. It does not model the single shared random stream, whose position depends on how many earlier agents were greedy.
- Render.Renderer.InitialiseBuffers: does not model the 32-bit wrap-around of `vertexCount` (a `uint32_t`) or the `int` overflow of `scale * 3`. `vertexCount` itself wraps only through the `int` overflow of `scale * 3`, past 715 million agents. The byte counts wrap earlier, in the buffer size (Renderer.cpp:121) and the bind size (Renderer.cpp:212). With a 64-bit `size_t` (native builds), `vertexCount * 5` is 32-bit unsigned arithmetic and wraps past 286 million agents. On the 32-bit web build the whole product `vertexCount * 5 * sizeof(float)` is 32-bit and wraps past 71.6 million agents. All these bounds are far beyond the 100000-agent device limit that `WithinDeviceLimit` covers. A negative scale is excluded by the precondition. For one, the source would spawn no agent and set vertexCount to 2^32 + 3*scale. With a 64-bit `size_t` it would request 4 * ((15 * scale) mod 2^32) bytes; on the web build it would request (60 * scale) mod 2^32 bytes, 2^32 - 60 for scale = -1.
- The device's own validation is not modelled. The model does not reject a buffer over `maxBufferSize`, a write or bind to a null or released handle, or a second release. The log records them as calls.
- The buffer usage flags (copy destination and vertex) and the pass's clear colour and load/store operations are not modelled.
- The command encoder's creation and `finish` (Renderer.cpp:197, 220), the shader module's creation and release (Renderer.cpp:24, 96) and ImGui's own device objects are not logged.
- ImGui is reduced to two log entries: `EndUiFrame` for the skipped frame and `RenderUi` for the overlay drawn into the pass.
- Surface presentation is reduced to one `Present` entry. Dawn's `tick` and wgpu's `poll` are reduced to one `Poll` entry.
- The `main` loop, the Emscripten callback and the earlier prototype in `main.cpp` are not part of this model.
- `SetWindowSize` is declared in Renderer.h:26 but has no definition, so there is nothing to model.
