/**
 * The renderer driven the way the frame loop drives it: a population resize
 * repeated with the same size, and one frame for five agents.
 */
module Scenarios {
  import opened Wrappers
  import opened Agents
  import opened Gpu
  import opened Render

  /** Re-initialising twice with the same population size releases the first
      buffer before the second is created, leaves exactly one live buffer and
      gives it the same byte size. */
  method ResizeTwice(r: Renderer, n: nat, first: seq<real>, second: seq<real>)
    requires r.Valid()
    requires DrawsPerAgent * n <= |first| && DrawsPerAgent * n <= |second|
    modifies r, r.device
    ensures r.Valid() && r.vertexBuffer.Some? && r.device.LiveBuffers() == {r.vertexBuffer.value}
    ensures r.BufferSize() == 60 * n
    ensures var log := r.device.log;
      && |log| >= 3
      && log[|log| - 3].CreateBuffer? && log[|log| - 3].size == 60 * n
      && log[|log| - 2] == ReleaseBuffer(log[|log| - 3].buffer)
      && log[|log| - 1] == CreateBuffer(r.vertexBuffer.value, 60 * n)
  {
    r.InitialiseBuffers(n, first);
    var old1 := r.vertexBuffer.value;
    ghost var size1 := r.BufferSize();
    ghost var logBefore := r.device.log;
    r.InitialiseBuffers(n, second);
    assert r.device.log == logBefore + [ReleaseBuffer(old1), CreateBuffer(r.vertexBuffer.value, 60 * n)];
    assert old1 !in r.device.live;
    assert r.BufferSize() == size1;
  }

  /** Five agents, one update with rotation 0 and zoom 1, one frame: the
      upload holds 15 vertices of 5 floats and the frame draws those 15
      vertices once, or draws nothing when no target view is available. */
  method FiveAgentsOneFrame(device: Device, draws: seq<real>, jitter: seq<Jitter>,
                            view: Option<Handle>, build: Build)
    returns (upload: Call, frame: seq<Call>)
    requires device.Valid() && device.LiveBuffers() == {}
    requires |draws| >= 35 && |jitter| == 5
    modifies device
    ensures upload.WriteBuffer? && upload.offset == 0 && |upload.data| == 15 * FloatsPerVertex
    ensures DrawCalls(frame) == if view.Some? then [Call.Draw(15, 1, 0, 0)] else []
    ensures |device.log| > |frame| && device.log == device.log[..|device.log| - |frame| - 1] + [upload] + frame
  {
    var r := new Renderer(device);
    r.InitialiseBuffers(5, draws);
    r.UpdateAgents(1.0, 1.0, 0.0, jitter);
    upload := device.log[|device.log| - 1];
    assert |upload.data| == 15 * FloatsPerVertex;
    ghost var before := device.log;
    assert r.vertexCount == 15;
    r.Draw(view, build);
    frame := FrameCommands(view, r.pipeline, r.vertexBuffer, 15, build);
    FrameDrawsOnce(view, r.pipeline, r.vertexBuffer, 15, build);
    assert before == before[..|before| - 1] + [upload];
  }
}
