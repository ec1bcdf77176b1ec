/**
 * The agent renderer (Renderer.cpp): it owns the agents, the draw pipeline
 * and the vertex buffer, re-initialises them when the population size
 * changes, steps the agents and re-uploads their geometry every frame, and
 * records one frame's draw commands.
 */
module Render {
  import opened Wrappers
  import opened Agents
  import opened Gpu

  // The device's maximum buffer size: room for 100000 agents
  // (WebGPUContext.cpp:76).
  const MaxScale: nat := 100000
  const MaxBufferSize: nat := MaxScale * VerticesPerAgent * FloatsPerVertex * FloatBytes

  /** Bytes occupied by `vertexCount` interleaved vertices. */
  function BufferBytes(vertexCount: nat): nat
  {
    vertexCount * FloatsPerVertex * FloatBytes
  }

  /** A population within the device limit needs a buffer within the limit,
      and its vertex count times five fits the 32-bit `vertexCount` arithmetic. */
  lemma WithinDeviceLimit(scale: nat)
    requires scale <= MaxScale
    ensures BufferBytes(VerticesPerAgent * scale) == 60 * scale <= MaxBufferSize == 6000000
    ensures VerticesPerAgent * scale * FloatsPerVertex < 0x1_0000_0000
  {
  }

  /** The compile-time switches that decide the tail of a frame: presenting
      the surface (every build but the web one) and ticking or polling the
      device (the Dawn and wgpu back ends). */
  datatype Build = Build(present: bool, poll: bool)

  /** The draw calls among a sequence of calls, in order. */
  function DrawCalls(cmds: seq<Call>): (draws: seq<Call>)
    ensures |draws| <= |cmds|
    ensures forall c :: c in draws ==> c.Draw? && c in cmds
  {
    if cmds == [] then []
    else (if cmds[0].Draw? then [cmds[0]] else []) + DrawCalls(cmds[1..])
  }

  lemma {:induction false} DrawCallsAppend(a: seq<Call>, b: seq<Call>)
    ensures DrawCalls(a + b) == DrawCalls(a) + DrawCalls(b)
  {
    if a == [] {
      assert a + b == b;
    } else {
      assert (a + b)[1..] == a[1..] + b;
      DrawCallsAppend(a[1..], b);
    }
  }

  lemma {:induction false} NoDrawCalls(cmds: seq<Call>)
    requires forall i :: 0 <= i < |cmds| ==> !cmds[i].Draw?
    ensures DrawCalls(cmds) == []
  {
    if cmds != [] {
      NoDrawCalls(cmds[1..]);
    }
  }

  /** The calls that end a frame once its render pass has been submitted:
      release the target view, present, poll. */
  function FrameTail(target: Handle, build: Build): (cmds: seq<Call>)
    ensures ReleaseView(target) in cmds && Submit !in cmds
    ensures forall i :: 0 <= i < |cmds| ==> !cmds[i].Draw?
  {
    [ReleaseView(target)]
    + (if build.present then [Present] else [])
    + (if build.poll then [Poll] else [])
  }

  /** The start of a render pass: begin it on the target view, bind the
      pipeline and exactly `BufferBytes(vertexCount)` bytes of the vertex
      buffer at slot 0. */
  function PassOpening(target: Handle, pipeline: Option<Handle>, buffer: Option<Handle>, vertexCount: nat): (cmds: seq<Call>)
    ensures SetVertexBuffer(0, buffer, 0, BufferBytes(vertexCount)) in cmds
    ensures forall i :: 0 <= i < |cmds| ==> !cmds[i].Draw?
  {
    [BeginPass(target), SetPipeline(pipeline), SetVertexBuffer(0, buffer, 0, BufferBytes(vertexCount))]
  }

  /** The render pass of one frame: opening, one draw of `vertexCount`
      vertices and one instance, the UI's commands, end of pass. */
  function RenderPass(target: Handle, pipeline: Option<Handle>, buffer: Option<Handle>, vertexCount: nat): (cmds: seq<Call>)
    ensures Call.Draw(vertexCount, 1, 0, 0) in cmds && Submit !in cmds
  {
    PassOpening(target, pipeline, buffer, vertexCount) + [Draw(vertexCount, 1, 0, 0)] + [RenderUi, EndPass]
  }

  /** The render pass holds exactly one draw call. */
  lemma PassDrawsOnce(target: Handle, pipeline: Option<Handle>, buffer: Option<Handle>, vertexCount: nat)
    ensures DrawCalls(RenderPass(target, pipeline, buffer, vertexCount)) == [Draw(vertexCount, 1, 0, 0)]
  {
    var opening, draw, closing := PassOpening(target, pipeline, buffer, vertexCount), Call.Draw(vertexCount, 1, 0, 0), [RenderUi, EndPass];
    NoDrawCalls(opening);
    NoDrawCalls(closing);
    assert [draw][1..] == [];
    assert DrawCalls([draw]) == [draw];
    DrawCallsAppend(opening, [draw]);
    DrawCallsAppend(opening + [draw], closing);
  }

  /** The calls one frame makes: a frame with no target view only closes the
      UI frame; otherwise it records the render pass and submits it. */
  function FrameCommands(view: Option<Handle>, pipeline: Option<Handle>, buffer: Option<Handle>,
                         vertexCount: nat, build: Build): (cmds: seq<Call>)
    ensures view.None? ==> cmds == [EndUiFrame]
    ensures view.Some? ==>
      && SetVertexBuffer(0, buffer, 0, BufferBytes(vertexCount)) in cmds
      && ReleaseView(view.value) in cmds
  {
    match view
    case None => [EndUiFrame]
    case Some(target) => RenderPass(target, pipeline, buffer, vertexCount) + [Submit] + FrameTail(target, build)
  }

  /** A frame issues exactly one draw of `vertexCount` vertices and one
      instance, and submits, exactly when a target view is available. */
  lemma FrameDrawsOnce(view: Option<Handle>, pipeline: Option<Handle>, buffer: Option<Handle>,
                       vertexCount: nat, build: Build)
    ensures DrawCalls(FrameCommands(view, pipeline, buffer, vertexCount, build))
            == if view.Some? then [Draw(vertexCount, 1, 0, 0)] else []
    ensures Submit in FrameCommands(view, pipeline, buffer, vertexCount, build) <==> view.Some?
  {
    var cmds := FrameCommands(view, pipeline, buffer, vertexCount, build);
    if view.Some? {
      var pass, tail := RenderPass(view.value, pipeline, buffer, vertexCount), [Submit] + FrameTail(view.value, build);
      assert cmds == pass + tail;
      PassDrawsOnce(view.value, pipeline, buffer, vertexCount);
      NoDrawCalls(tail);
      DrawCallsAppend(pass, tail);
    } else {
      NoDrawCalls(cmds);
    }
  }

  /** The releases at teardown: the pipeline, then the vertex buffer, each
      only if its handle is not null. */
  function TerminateCommands(pipeline: Option<Handle>, buffer: Option<Handle>): (cmds: seq<Call>)
    ensures |cmds| == |Elems(pipeline)| + |Elems(buffer)|
    ensures forall c :: c in cmds ==>
      || (c.ReleasePipeline? && pipeline == Some(c.pipeline))
      || (c.ReleaseBuffer? && buffer == Some(c.buffer))
    ensures pipeline.Some? ==> ReleasePipeline(pipeline.value) in cmds
    ensures buffer.Some? ==> ReleaseBuffer(buffer.value) in cmds
  {
    (if pipeline.Some? then [ReleasePipeline(pipeline.value)] else [])
    + (if buffer.Some? then [ReleaseBuffer(buffer.value)] else [])
  }

  /** One agent's move inside the update loop: Euler step, jitter when the
      agent is greedy, then wrap-around at the window edges. */
  method MoveAgent(a: Agent, j: Jitter) returns (b: Agent)
    ensures b == Step(a, j)
  {
    var x, y := a.x + a.dx * a.speed, a.y + a.dy * a.speed;
    assert x == Euler(a).0 && y == Euler(a).1;
    if a.greediness > GreedyThreshold {
      x := x + (j.rx - 0.5) * JitterScale;
      y := y + (j.ry - 0.5) * JitterScale;
    }
    assert x == Drift(a, j).0 && y == Drift(a, j).1;
    if x > HalfWidth { x := -HalfWidth; } else if x < -HalfWidth { x := HalfWidth; }
    if y > HalfHeight { y := -HalfHeight; } else if y < -HalfHeight { y := HalfHeight; }
    b := a.(x := x, y := y);
  }

  class Renderer {
    const device: Device
    var pipeline: Option<Handle>
    var vertexBuffer: Option<Handle>
    var vertexCount: nat
    var agents: seq<Agent>

    /** The vertex count matches the population, at most one buffer is live
        and it is the current one, sized for the current vertex count. A
        released handle is not reset to null, so the current buffer may be
        a released one. */
    ghost predicate Valid()
      reads this, device
    {
      && device.Valid()
      && vertexCount == VerticesPerAgent * |agents|
      && device.LiveBuffers() <= Elems(vertexBuffer)
      && (vertexBuffer.Some? ==> vertexBuffer.value.id < device.nextId)
      && (pipeline.Some? ==> pipeline.value.id < device.nextId)
      && (vertexBuffer.Some? && vertexBuffer.value in device.live ==>
            device.live[vertexBuffer.value] == BufferResource(BufferBytes(vertexCount)))
    }

    /** Byte size of the current vertex buffer, 0 when there is none live. */
    ghost function BufferSize(): nat
      reads this, device
      requires Valid()
    {
      if vertexBuffer.Some? && vertexBuffer.value in device.live
      then device.live[vertexBuffer.value].size else 0
    }

    constructor (device: Device)
      requires device.Valid() && device.LiveBuffers() == {}
      ensures Valid() && this.device == device
      ensures agents == [] && vertexCount == 0 && pipeline == None && vertexBuffer == None
    {
      this.device := device;
      pipeline := None;
      vertexBuffer := None;
      vertexCount := 0;
      agents := [];
    }

    /** Creates the draw pipeline; the previous one, if any, is not released. */
    method InitialisePipeline()
      requires Valid()
      modifies this`pipeline, device
      ensures Valid() && pipeline.Some? && pipeline.value !in old(device.live)
      ensures device.live == old(device.live)[pipeline.value := PipelineResource]
      ensures device.log == old(device.log) + [CreatePipeline(pipeline.value)]
    {
      var h := device.NewPipeline();
      pipeline := Some(h);
    }

    /** Re-initialises the population with `scale` agents spawned from
        `draws`, releasing the previous vertex buffer before creating one
        sized for the new population. */
    method InitialiseBuffers(scale: int, draws: seq<real>)
      requires Valid()
      requires 0 <= scale && DrawsPerAgent * scale <= |draws|
      modifies this`agents, this`vertexCount, this`vertexBuffer, device
      ensures Valid()
      ensures agents == Population(draws, scale)
      ensures vertexCount == VerticesPerAgent * scale
      ensures vertexBuffer.Some? && vertexBuffer.value !in old(device.live)
      ensures device.LiveBuffers() == {vertexBuffer.value}
      ensures BufferSize() == BufferBytes(vertexCount) == 60 * scale
      ensures device.live == (old(device.live) - Elems(old(vertexBuffer)))[vertexBuffer.value := BufferResource(60 * scale)]
      ensures device.log == old(device.log)
                            + (if old(vertexBuffer).Some? then [ReleaseBuffer(old(vertexBuffer).value)] else [])
                            + [CreateBuffer(vertexBuffer.value, 60 * scale)]
    {
      if vertexBuffer.Some? {
        device.Release(ReleaseBuffer(vertexBuffer.value));
      }
      assert device.LiveBuffers() == {};
      SpawnAll(scale, draws);
      vertexCount := scale * 3;
      var size := vertexCount * FloatsPerVertex * FloatBytes;
      var h := device.NewBuffer(size);
      vertexBuffer := Some(h);
      assert device.LiveBuffers() == {h};
    }

    /** The spawning loop: agent i takes draws 7i to 7i + 6. */
    method SpawnAll(scale: nat, draws: seq<real>)
      requires DrawsPerAgent * scale <= |draws|
      modifies this`agents
      ensures agents == Population(draws, scale)
    {
      agents := [];
      for i := 0 to scale
        invariant agents == Population(draws, i)
      {
        var base := DrawsPerAgent * i;
        var x := draws[base] * 1.8 - 0.9;
        var y := draws[base + 1] * 1.8 - 0.9;
        var protein := draws[base + 2];
        var greed := draws[base + 3];
        var speed := draws[base + 4] + 0.05;
        var dx := (draws[base + 5] - 0.5) * 0.01;
        var dy := (draws[base + 6] - 0.5) * 0.01;
        agents := agents + [Agent(x, y, dx, dy, protein, greed, speed)];
      }
    }

    /** Moves every agent one frame and uploads the whole vertex sequence to
        the vertex buffer from offset 0. */
    method UpdateAgents(zoom: real, cosAngle: real, sinAngle: real, jitter: seq<Jitter>)
      requires Valid()
      requires |jitter| == |agents|
      modifies this`agents, device`log
      ensures Valid()
      ensures agents == StepAll(old(agents), jitter)
      ensures device.log == old(device.log) + [WriteBuffer(vertexBuffer, 0, Vertices(agents, View(zoom, cosAngle, sinAngle)))]
      ensures FloatBytes * |Vertices(agents, View(zoom, cosAngle, sinAngle))| == BufferBytes(vertexCount)
    {
      var data := MoveAll(jitter, View(zoom, cosAngle, sinAngle));
      device.Record(WriteBuffer(vertexBuffer, 0, data));
    }

    /** The loop of the update: each agent is moved in place and its
        triangle appended to the vertex data. */
    method MoveAll(jitter: seq<Jitter>, view: View) returns (data: seq<real>)
      requires |jitter| == |agents|
      modifies this`agents
      ensures agents == StepAll(old(agents), jitter)
      ensures data == Vertices(agents, view)
    {
      data := [];
      var i := 0;
      while i < |agents|
        invariant 0 <= i <= |agents| == |old(agents)|
        invariant forall k :: 0 <= k < i ==> agents[k] == Step(old(agents)[k], jitter[k])
        invariant forall k :: i <= k < |agents| ==> agents[k] == old(agents)[k]
        invariant data == Vertices(agents[..i], view)
      {
        var a := MoveAgent(agents[i], jitter[i]);
        VerticesUpdate(agents, i, a, view);
        agents := agents[i := a];
        data := data + AgentVertices(a, view);
        i := i + 1;
      }
      assert agents[..i] == agents;
    }

    /** Records one frame; `view` is the target view the graphics context
        handed out, `None` when the surface had no texture for this frame. */
    method Draw(view: Option<Handle>, build: Build)
      modifies device`log
      ensures device.log == old(device.log) + FrameCommands(view, pipeline, vertexBuffer, vertexCount, build)
    {
      if view.None? {
        device.Record(EndUiFrame);
        return;
      }
      var target := view.value;
      var pass := [BeginPass(target), SetPipeline(pipeline),
                   SetVertexBuffer(0, vertexBuffer, 0, vertexCount * FloatsPerVertex * FloatBytes),
                   Call.Draw(vertexCount, 1, 0, 0), RenderUi, EndPass];
      assert pass == RenderPass(target, pipeline, vertexBuffer, vertexCount);
      device.Submit(pass);
      EndFrame(target, build);
    }

    /** Releases the target view, then presents and polls as the build
        decides. */
    method EndFrame(target: Handle, build: Build)
      modifies device`log
      ensures device.log == old(device.log) + FrameTail(target, build)
    {
      device.Record(ReleaseView(target));
      if build.present {
        device.Record(Present);
      }
      if build.poll {
        device.Record(Poll);
      }
    }

    method Terminate()
      requires Valid()
      modifies device
      ensures Valid()
      ensures device.log == old(device.log) + TerminateCommands(pipeline, vertexBuffer)
      ensures device.live == old(device.live) - Elems(pipeline) - Elems(vertexBuffer)
      ensures device.LiveBuffers() == {}
      ensures device.nextId == old(device.nextId)
    {
      if pipeline.Some? {
        device.Release(ReleasePipeline(pipeline.value));
      }
      if vertexBuffer.Some? {
        device.Release(ReleaseBuffer(vertexBuffer.value));
      }
    }
  }
}
