/** The simulation's host side: the shared options object, a session (what
    `start` builds and the frame closure it returns) and the application
    that rebuilds the session when the workgroup size changes or on reset. */
module Simulation {
  import opened Gpu
  import opened Bindings
  import opened Schedule

  /** The `options` object shared between the simulation and the settings
      panel. The literal names workgroupSize twice with the same value. */
  class Options {
    var width: nat
    var height: nat
    var workgroupSize: nat
    var cycle: nat

    constructor ()
      ensures width == 64 && height == 64 && workgroupSize == 8 && cycle == 0
    {
      width, height, workgroupSize, cycle := 64, 64, 8, 0;
    }

    /** The options that configure a session. */
    function Snapshot(): Config
      reads this
    {
      Config(width, height, workgroupSize)
    }
  }

  /** The initial cell state: one value per cell, alive (1) exactly when the
      cell's draw of Math.random exceeds 0.5; `random(i)` is the i-th draw. */
  function InitialState(cells: nat, random: nat -> real): (state: seq<nat>)
    ensures |state| == cells
    ensures forall i :: 0 <= i < cells ==> state[i] <= 1 && (state[i] == 1 <==> random(i) > 0.5)
  {
    seq(cells, i requires 0 <= i => if random(i) > 0.5 then 1 else 0)
  }

  /** The vertex buffer: the quad's Float32 coordinates. */
  const VertexDesc := BufferDesc(4 * |Vertices|, {VertexUsage, CopyDst})

  /** The uniform buffer: two Float32 values, width and height. */
  const UniformDesc := BufferDesc(8, {UniformUsage, CopyDst})

  /** A state buffer: one Uint32 per cell. */
  function StateDesc(cfg: Config): BufferDesc
  {
    BufferDesc(4 * (cfg.width * cfg.height), {StorageUsage, CopyDst})
  }

  /** The grid state store `start` creates: the uniform buffer holding the
      grid size, and two equally sized state buffers of which only the
      first receives the random initial state. */
  method CreateGridStore(device: Device, cfg: Config, random: nat -> real)
    returns (uniform: BufferId, front: BufferId, back: BufferId)
    requires device.Valid()
    modifies device
    ensures device.Valid()
    ensures uniform != front && uniform != back && front != back
    ensures uniform !in old(device.buffers) && front !in old(device.buffers) && back !in old(device.buffers)
    ensures device.buffers == old(device.buffers)[uniform := UniformDesc][front := StateDesc(cfg)][back := StateDesc(cfg)]
    ensures device.contents == old(device.contents)
              [uniform := Float32([cfg.width as real, cfg.height as real])]
              [front := Uint32(InitialState(cfg.width * cfg.height, random))]
    ensures back !in device.contents
    ensures Extends(old(device.buffers), device.buffers) && Extends(old(device.contents), device.contents)
  {
    var grid := Float32([cfg.width as real, cfg.height as real]);
    uniform := device.CreateBuffer(ByteLength(grid), {UniformUsage, CopyDst});
    device.WriteBuffer(uniform, grid);

    var state := Uint32(InitialState(cfg.width * cfg.height, random));
    front := device.CreateBuffer(ByteLength(state), {StorageUsage, CopyDst});
    back := device.CreateBuffer(ByteLength(state), {StorageUsage, CopyDst});
    device.WriteBuffer(front, state);
  }

  /** One session: the resources `start` creates and the frame closure it
      returns. The closure reads width, height and workgroupSize from the
      shared options on every frame; Valid() says they still hold the values
      the session was built with. */
  class Session {
    const options: Options
    /** The options as they were when the session was built. */
    const config: Config
    const vertexBuffer: BufferId
    const uniformBuffer: BufferId
    /** Cell state A and cell state B. */
    const stateBuffers: seq<BufferId>
    const groups: seq<BindGroup>
    const renderPipeline: RenderPipeline
    const computePipeline: ComputePipeline
    /** The frames submitted so far, oldest first. */
    ghost var log: seq<FrameRecord>

    ghost predicate Valid()
      reads this, options
    {
      ValidConfig(config) &&
      options.Snapshot() == config &&
      computePipeline.workgroupSize == config.workgroupSize &&
      |stateBuffers| == 2 && stateBuffers[0] != stateBuffers[1] &&
      groups == MakeGroups(uniformBuffer, stateBuffers[0], stateBuffers[1]) &&
      log == Trace(config, groups, options.cycle)
    }

    /** Every buffer the session owns. */
    function Buffers(): set<BufferId>
      requires |stateBuffers| == 2
    {
      {vertexBuffer, uniformBuffer, stateBuffers[0], stateBuffers[1]}
    }

    /** `start`: allocate and fill the vertex buffer, create the grid
        state store, build the two bind groups and the pipelines, reset the
        counter. */
    constructor (device: Device, options: Options, random: nat -> real)
      requires device.Valid() && ValidConfig(options.Snapshot())
      modifies device, options
      ensures Valid() && this.options == options && log == []
      ensures config == old(options.Snapshot()) && options.cycle == 0
      ensures device.Valid() && |stateBuffers| == 2
      ensures forall b :: b in Buffers() ==> b !in old(device.buffers) && b in device.buffers
      ensures vertexBuffer != uniformBuffer && vertexBuffer !in stateBuffers && uniformBuffer !in stateBuffers
      ensures device.buffers == old(device.buffers)
                [vertexBuffer := VertexDesc]
                [uniformBuffer := UniformDesc]
                [stateBuffers[0] := StateDesc(config)]
                [stateBuffers[1] := StateDesc(config)]
      ensures device.contents == old(device.contents)
                [vertexBuffer := Float32(Vertices)]
                [uniformBuffer := Float32([config.width as real, config.height as real])]
                [stateBuffers[0] := Uint32(InitialState(config.width * config.height, random))]
      ensures stateBuffers[1] !in device.contents
      ensures groups[0].input == stateBuffers[0] && NoAliasing(groups)
      ensures renderPipeline.layout == computePipeline.layout
      ensures SessionStore(device, this, random)
      ensures Extends(old(device.buffers), device.buffers) && Extends(old(device.contents), device.contents)
    {
      var cfg := options.Snapshot();
      var vertices := Float32(Vertices);
      var vb := device.CreateBuffer(ByteLength(vertices), {VertexUsage, CopyDst});
      device.WriteBuffer(vb, vertices);

      var ub, a, b := CreateGridStore(device, cfg, random);

      var pipelines := MakePipelines(cfg.workgroupSize);

      this.options := options;
      config := cfg;
      vertexBuffer, uniformBuffer, stateBuffers := vb, ub, [a, b];
      groups := MakeGroups(ub, a, b);
      renderPipeline, computePipeline := pipelines.0, pipelines.1;
      log := [];
      new;
      options.cycle := 0;
    }

    /** The frame closure: compute with group cycle % 2 over
        ceil(width / workgroupSize) x ceil(height / workgroupSize)
        workgroups, increment the counter, render with group cycle % 2
        drawing one six-vertex quad per cell; `frame` is what it submits. */
    method Advance() returns (frame: FrameRecord)
      requires Valid()
      modifies this, options
      ensures Valid()
      ensures options.cycle == old(options.cycle) + 1
      ensures frame == FrameAt(config, groups, old(options.cycle))
      ensures log == old(log) + [frame]
      ensures frame.renderGroup.input == frame.computeGroup.output
    {
      var computeGroup := groups[options.cycle % 2];
      var dispatchX := CeilDiv(options.width, options.workgroupSize);
      var dispatchY := CeilDiv(options.height, options.workgroupSize);

      options.cycle := options.cycle + 1;

      var renderGroup := groups[options.cycle % 2];
      frame := FrameRecord(computeGroup, dispatchX, dispatchY,
                           renderGroup, VertexCount, options.width * options.height);
      log := log + [frame];
    }
  }

  /** The device holds what `start` created for session `s`: the vertex
      buffer holding the quad, the uniform holding the grid's width and
      height, both state buffers sized for one Uint32 per cell of the
      session's grid, state A holding the initial state drawn from `random`,
      state B never written from the host. */
  ghost predicate SessionStore(device: Device, s: Session, random: nat -> real)
    reads device
  {
    s.vertexBuffer in device.buffers && device.buffers[s.vertexBuffer] == VertexDesc &&
    s.vertexBuffer in device.contents && device.contents[s.vertexBuffer] == Float32(Vertices) &&
    s.uniformBuffer in device.buffers && device.buffers[s.uniformBuffer] == UniformDesc &&
    s.uniformBuffer in device.contents &&
    device.contents[s.uniformBuffer] == Float32([s.config.width as real, s.config.height as real]) &&
    |s.stateBuffers| == 2 &&
    s.stateBuffers[0] in device.buffers && s.stateBuffers[1] in device.buffers &&
    device.buffers[s.stateBuffers[0]] == StateDesc(s.config) &&
    device.buffers[s.stateBuffers[1]] == StateDesc(s.config) &&
    s.stateBuffers[0] in device.contents &&
    device.contents[s.stateBuffers[0]] == Uint32(InitialState(s.config.width * s.config.height, random)) &&
    s.stateBuffers[1] !in device.contents
  }

  /** What a valid session's log says about every submitted frame: the
      counter equals the number of frames, frame k computed with group
      k % 2, the first compute read the one initialised buffer, render
      reads what compute wrote, the next compute reads it too, and the
      dispatch covers the grid for the workgroup size the pipeline was
      built with. */
  lemma SessionLog(s: Session, k: nat)
    requires s.Valid() && k < |s.log|
    ensures |s.log| == s.options.cycle
    ensures s.log[k].computeGroup == s.groups[k % 2]
    ensures s.log[k].renderGroup == s.groups[(k + 1) % 2]
    ensures s.log[0].computeGroup.input == s.stateBuffers[0]
    ensures s.log[k].renderGroup.input == s.log[k].computeGroup.output
    ensures k + 1 < |s.log| ==>
              s.log[k + 1].computeGroup.input == s.log[k].computeGroup.output &&
              s.log[k + 1].renderGroup != s.log[k].renderGroup
    ensures s.log[k].dispatchX * s.computePipeline.workgroupSize >= s.config.width
    ensures s.log[k].dispatchY * s.computePipeline.workgroupSize >= s.config.height
  {
    TraceAt(s.config, s.groups, s.options.cycle, k);
    TraceAt(s.config, s.groups, s.options.cycle, 0);
    if k + 1 < |s.log| {
      HandOff(s.config, s.groups, s.options.cycle, k);
    }
  }

  /** The page: the shared options, the device and the current session,
      rebuilt by the workgroupSize control and by the Reset button. */
  class App {
    const device: Device
    const options: Options
    var render: Session

    ghost predicate Valid()
      reads this, render, options, device
    {
      render.options == options && render.Valid() && device.Valid() &&
      |render.stateBuffers| == 2 &&
      (forall b :: b in render.Buffers() ==> b in device.buffers)
    }

    constructor (device: Device, random: nat -> real)
      requires device.Valid()
      modifies device
      ensures Valid() && this.device == device && fresh(options) && fresh(render)
      ensures render.config == Config(64, 64, 8) && render.log == []
      ensures SessionStore(device, render, random)
      ensures Extends(old(device.buffers), device.buffers) && Extends(old(device.contents), device.contents)
    {
      var opts := new Options();
      var session := new Session(device, opts, random);
      this.device := device;
      options := opts;
      render := session;
    }

    /** One animation tick: run the current session's frame closure. */
    method Tick() returns (frame: FrameRecord)
      requires Valid()
      modifies render, options
      ensures Valid() && render == old(render)
      ensures frame == FrameAt(render.config, render.groups, old(options.cycle))
      ensures options.cycle == old(options.cycle) + 1
    {
      frame := render.Advance();
    }

    /** The workgroupSize control: store the new size, then start over. */
    method SetWorkgroupSize(workgroupSize: nat, random: nat -> real)
      requires Valid() && workgroupSize >= 1
      modifies this, options, device
      ensures Valid() && fresh(render)
      ensures render.config == Config(old(options.width), old(options.height), workgroupSize)
      ensures options.cycle == 0 && render.log == []
      ensures render.Buffers() !! old(render.Buffers())
      ensures SessionStore(device, render, random)
      ensures Extends(old(device.buffers), device.buffers) && Extends(old(device.contents), device.contents)
    {
      options.workgroupSize := workgroupSize;
      Restart(random);
    }

    /** The Reset button: start over with the same options. */
    method Reset(random: nat -> real)
      requires Valid()
      modifies this, options, device
      ensures Valid() && fresh(render)
      ensures render.config == old(render.config)
      ensures options.cycle == 0 && render.log == []
      ensures render.Buffers() !! old(render.Buffers())
      ensures SessionStore(device, render, random)
      ensures Extends(old(device.buffers), device.buffers) && Extends(old(device.contents), device.contents)
    {
      Restart(random);
    }

    /** `render = start()`: the old session's buffers stay allocated, the
        new session gets buffers of its own. */
    method Restart(random: nat -> real)
      requires device.Valid() && ValidConfig(options.Snapshot())
      requires |render.stateBuffers| == 2
      requires forall b :: b in render.Buffers() ==> b in device.buffers
      modifies this, options, device
      ensures Valid() && fresh(render)
      ensures render.config == old(options.Snapshot())
      ensures options.cycle == 0 && render.log == []
      ensures render.Buffers() !! old(render.Buffers())
      ensures SessionStore(device, render, random)
      ensures Extends(old(device.buffers), device.buffers) && Extends(old(device.contents), device.contents)
    {
      render := new Session(device, options, random);
    }
  }

  lemma SmallGridDispatch(groups: seq<BindGroup>, workgroupSize: nat)
    requires |groups| == 2 && workgroupSize >= 1
    ensures FrameAt(Config(2, 1, workgroupSize), groups, 0).dispatchX == (if workgroupSize == 1 then 2 else 1)
    ensures FrameAt(Config(2, 1, workgroupSize), groups, 0).dispatchY == 1
  {
    CeilDivSmall(2, workgroupSize);
    CeilDivSmall(1, workgroupSize);
  }

  /** A 2 x 1 grid: after one frame the counter is 1, the grid is covered
      by ceil(2 / workgroupSize) x 1 workgroups and one quad is drawn per
      cell; state A holds two cells and is 8 bytes long. */
  method TwoByOneScenario(workgroupSize: nat, random: nat -> real)
    returns (cycle: nat, frame: FrameRecord, initial: Payload, stateBytes: nat)
    requires workgroupSize >= 1
    ensures cycle == 1
    ensures frame.dispatchX == (if workgroupSize == 1 then 2 else 1) && frame.dispatchY == 1
    ensures frame.vertexCount == 6 && frame.instanceCount == 2
    ensures frame.renderGroup.input == frame.computeGroup.output
    ensures initial.Uint32? && |initial.uints| == 2 && stateBytes == 8
  {
    var session, device := StartFresh(Config(2, 1, workgroupSize), random);
    initial := device.contents[session.stateBuffers[0]];
    stateBytes := device.buffers[session.stateBuffers[0]].size;
    frame := session.Advance();
    cycle := session.options.cycle;
    SmallGridDispatch(session.groups, workgroupSize);
  }

  /** A session started on a new device with options set to `cfg`. */
  method StartFresh(cfg: Config, random: nat -> real) returns (session: Session, device: Device)
    requires ValidConfig(cfg)
    ensures fresh(session) && fresh(session.options) && fresh(device)
    ensures session.Valid() && session.config == cfg && session.log == [] && session.options.cycle == 0
    ensures SessionStore(device, session, random)
  {
    device := new Device();
    var options := new Options();
    options.width, options.height, options.workgroupSize := cfg.width, cfg.height, cfg.workgroupSize;
    session := new Session(device, options, random);
  }

  /** A 64 x 64 grid whose workgroup size goes from 8 to 4: the dispatch
      goes from 8 x 8 to 16 x 16 workgroups, the draw stays the same, the
      counter starts again from 0, and the state lives in new buffers, with
      state A holding a fresh draw. */
  method WorkgroupChangeScenario(random: nat -> real, random': nat -> real)
    returns (before: FrameRecord, after: FrameRecord, cycle: nat, disjoint: bool, state: Payload)
    ensures before.dispatchX == before.dispatchY == 8
    ensures after.dispatchX == after.dispatchY == 16
    ensures before.instanceCount == after.instanceCount == 64 * 64
    ensures cycle == 1
    ensures disjoint
    ensures state == Uint32(InitialState(64 * 64, random'))
  {
    var device := new Device();
    var app := new App(device, random);
    before := app.Tick();
    var first := app.render.Buffers();
    app.SetWorkgroupSize(4, random');
    state := device.contents[app.render.stateBuffers[0]];
    after := app.Tick();
    cycle := app.options.cycle;
    disjoint := app.render.Buffers() !! first;
  }
}
