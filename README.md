# Ping-pong scheduling of a WebGPU cellular automaton

This project models the host-side orchestration in `main.js`. A compute pass
advances a grid of cells that are each 0 or 1. A render pass then draws one
quad per cell. Two storage buffers alternate between the "read" and "write"
roles, and two immutable bind groups encode the alternation:

- A = {uniform, in = state A, out = state B}
- B = {uniform, in = state B, out = state A}

A frame counter `cycle` picks the group for each pass:

1. Compute binds `groups[cycle % 2]`.
2. The counter is incremented.
3. Render binds `groups[cycle % 2]`.

So render always reads the buffer compute just wrote. `start` builds a
session and resets the counter. The settings panel's workgroup-size control
and its Reset button both call `start` again.

Modules:

- `Gpu` (gpu.dfy) stands in for the WebGPU device. Buffers are integer ids
  handed out in order, each with a byte size, a usage set and the last
  host-side write.
- `Bindings` (bindings.dfy) holds the bind group layout, the two bind groups,
  the quad's vertex data and the pipeline parameters that depend on the
  configuration.
- `Schedule` (schedule.dfy) holds pure functions. `FrameAt` is what one frame
  records. `Trace` is the frames a session records in its first n calls. The
  lemmas cover parity, hand-off between frames, dispatch coverage and
  independence from the workgroup size.
- `Simulation` (simulation.dfy) holds the shared `Options` object, the
  `Session` class and the `App` class:
  - `Session`'s constructor is `start`, and `Advance` is the frame closure.
    A ghost `log` records every submitted frame, and `Valid()` ties it to
    `Trace`.
  - `App` is `main`'s handlers.
  - Two scenario methods state what happens on a 2 x 1 grid and on a
    workgroup-size change from 8 to 4 on a 64 x 64 grid.

Inputs the program gets from outside become parameters:

- The device is passed in.
- `Math.random` becomes `random: nat -> real`, the i-th draw.
- GPU commands become `FrameRecord` values. A record holds the compute bind
  group, the workgroup counts, the render bind group and the draw counts.

Three details of `start`:

- The uniform is a `Float32Array` holding width and height (main.js:61).
- Binding 1, the input state, is visible to the vertex and compute stages
  only (main.js:101).
- Buffers of earlier sessions are never destroyed. A rebuild only allocates
  new ones, and the model keeps the old ones allocated on the device.

The back buffer (state B) is never written from the host. The model shows
that no pass reads it before a compute pass has written it:

- The first compute reads state A (`SessionLog`, `ComputeParity`).
- Every later compute, and every render, reads the buffer the previous
  compute wrote (`HandOff`).

## Model

| member | source | states |
|---|---|---|
| Gpu.Device.CreateBuffer | main.js:70-81 | a created buffer gets an id no earlier buffer has, with the requested size and usage; nothing already written changes |
| Gpu.Device.WriteBuffer | main.js:82 | a queue write records the data for that buffer only; it must fit the buffer, and the buffer needs COPY_DST |
| Bindings.CellLayout | main.js:93-108 | three bindings numbered 0, 1, 2; binding 0 is the uniform, visible to vertex, fragment and compute; binding 1 is read-only storage visible to vertex and compute but not fragment; the only writable storage binding (2) is visible to compute alone, so render never writes state |
| Bindings.MakeGroups | main.js:109-150 | group A is (uniform, front, back); B shares A's uniform and swaps input and output; no group aliases its input and output exactly when the two state buffers differ |
| Bindings.MakePipelines | main.js:152-189 | both pipelines use the same layout, so either group fits either pipeline; the compute pipeline carries the workgroup size; the vertex stride times the vertex count fills the vertex buffer exactly |
| Schedule.CeilDiv | main.js:198-201 | the workgroup count q for n cells is the ceiling: q*wg >= n and (q-1)*wg < n |
| Schedule.CellInDispatchedWorkgroup | main.js:198-201 | every cell index below n falls in a dispatched workgroup, and every dispatched workgroup starts inside the grid |
| Schedule.CeilDivSmall | main.js:198-201 | an edge no longer than the workgroup needs one workgroup; workgroups of size 1 need one per cell |
| Schedule.FrameAt | main.js:193-221 | compute binds group cycle % 2 and render binds group (cycle + 1) % 2; with swapped groups, render reads the buffer compute wrote and uses the other group; the dispatch is the ceiling in x and y; the draw is 6 vertices times width*height instances |
| Schedule.Trace | main.js:191-221 | a session that starts with the counter at 0 has recorded exactly n frames after n calls |
| Schedule.TraceAt | main.js:197-215 | the k-th recorded frame is the frame recorded with the counter at k |
| Schedule.TracePrefix | main.js:193-221 | later frames only extend the record, and earlier frames never change |
| Schedule.ComputeParity | main.js:191-204 | in frame N compute used group (N-1) % 2, and the first frame's compute used group A |
| Schedule.HandOff | main.js:197-215 | in frame k render reads compute's output; frame k+1's compute reads that same buffer; consecutive frames render with different groups |
| Schedule.WorkgroupSizeOnlyAffectsDispatch | main.js:198-217 | two configurations that differ only in workgroup size bind the same groups and issue the same draw in every frame |
| Simulation.InitialState | main.js:69 | width*height values, each 0 or 1, and 1 exactly where that cell's random draw exceeds 0.5 |
| Simulation.CreateGridStore | main.js:61-82 | three new distinct buffers: an 8-byte uniform, and two state buffers of 4*width*height bytes with STORAGE and COPY_DST usage; the uniform gets width and height; only the first state buffer gets the initial state; the second is never written |
| Simulation.Options.constructor | main.js:34-41 | the options start at a 64 x 64 grid, workgroup size 8 and cycle 0 |
| Simulation.Session.constructor | main.js:43-192 | start: four new distinct buffers with their sizes, usages and writes (both state buffers 4*width*height bytes, state A holding the initial state, state B never written); groups built from the uniform and state A, state B without aliasing; both pipelines on one layout; cycle reset to 0 and nothing submitted; every earlier buffer and write on the device stays as it was |
| Simulation.Session.Advance | main.js:193-221 | one frame: the counter grows by exactly one, the submitted frame is FrameAt of the old counter and is appended to the log, and render reads what compute wrote |
| Simulation.SessionLog | main.js:191-217 | in a running session the counter equals the number of frames; frame k computed with group k % 2 and rendered with group (k + 1) % 2; the first compute read state A; each render and the next compute read what the compute wrote; the dispatch covers the grid for the pipeline's workgroup size |
| Simulation.App.constructor | main.js:248 | the page starts a session on the default options: on the device, the vertex buffer holds the quad, the uniform holds 64 and 64, both state buffers are 4*64*64 bytes, state A holds the initial state and state B is unwritten; earlier buffers and writes stay as they were |
| Simulation.App.Tick | main.js:250-255 | one animation tick runs the current session's frame and advances the counter by one |
| Simulation.App.SetWorkgroupSize | main.js:235-237 | a new workgroup size rebuilds the session: same grid, new size, counter 0, empty log, buffers disjoint from the old session's; the new vertex buffer holds the quad and the new uniform holds width and height; both new state buffers are 4*width*height bytes, state A holds a fresh initial state and state B is unwritten; earlier buffers and writes stay as they were |
| Simulation.App.Reset | main.js:242-246 | Reset rebuilds the session with the same configuration, counter 0, and buffers disjoint from the old session's; the new vertex buffer holds the quad and the new uniform holds width and height; both new state buffers are 4*width*height bytes, state A holds a fresh initial state and state B is unwritten; earlier buffers and writes stay as they were |
| Simulation.App.Restart | main.js:245 | calling start again yields a new session on the current options whose buffers do not overlap the previous session's; its vertex buffer holds the quad and its uniform holds width and height; its state buffers are 4*width*height bytes, state A holds the initial state drawn now and state B is unwritten; earlier buffers and writes stay as they were |
| Simulation.StartFresh | main.js:43-192 | a session started on a new device with the given options holds that configuration, counter 0; on the returned device the vertex buffer holds the quad, the uniform holds width and height, both state buffers are 4*width*height bytes, state A holds the initial state and state B is unwritten |
| Simulation.SmallGridDispatch | main.js:198-201 | on a 2 x 1 grid the dispatch is 2 x 1 workgroups for workgroup size 1 and 1 x 1 otherwise |
| Simulation.TwoByOneScenario | main.js:69-217 | on a 2 x 1 grid, after one frame: cycle 1, a dispatch of ceil(2/wg) x 1, draw(6, 2), render reads compute's output; state A on the device holds 2 cells and is 8 bytes long |
| Simulation.WorkgroupChangeScenario | main.js:235-253 | on a 64 x 64 grid, the dispatch is 8 x 8 at workgroup size 8 and 16 x 16 at size 4, with the same 4096 instances; the counter restarts, the new buffers are disjoint from the old ones, and the rebuilt state A holds the initial state of 64*64 cells from the new draw |

## Left out

- Adapter and device negotiation, the canvas and its configuration (main.js:7-32) are one-time browser setup. The device is a parameter.
- The shader modules and the WGSL they compile are external artifacts. The pipelines keep only their layout, the vertex stride and the workgroup-size constant.
- `Math.random` is replaced by an arbitrary draw function. Its distribution is not modelled.
- Floating point is not modelled: the Float32 rounding of the vertex coordinates and of the uniform's width and height, the clear colour, and the presentation `format` field.
- The GPU executes work asynchronously, and within one submission the render pass sees the compute pass's writes. The code relies on this ordering and does not implement it, so it is not modelled. A `FrameRecord` is what gets submitted, not what the GPU computes.
- The cell automaton's rule itself runs in the compute shader and is not part of this model.
- WebGPU validation errors and device loss are not modelled as error paths. The device's preconditions, a write that fits a COPY_DST buffer, are met by every call in `start`.
- The requestAnimationFrame loop and the FPS graph (main.js:250-257) are not modelled, beyond each tick being one `App.Tick`.
- `cycle` is an unbounded natural number. A JavaScript number loses integer precision after 2^53 frames.
- Simulation.Session.constructor: it requires width, height and workgroup size to be at least 1. The source does not check this. A workgroup size of 0 entered in the panel would make `Math.ceil` return Infinity and fail WebGPU validation, and that failure is not modelled.
- Simulation.App.SetWorkgroupSize: it requires an integer of at least 1. The panel's number control also accepts fractions and 0, which the source passes on unchecked; those are not modelled.
- Schedule.CeilDiv: it is the exact integer ceiling. `Math.ceil` of a floating-point quotient agrees with it for every grid size a Float64 represents exactly.
