/**
 * The slice of the WebGPU device the renderer talks to: the objects it has
 * created and not yet released, and the ordered log of the calls the model
 * tracks on the device, its queue and render passes.
 */
module Gpu {
  import opened Wrappers

  /** An opaque handle to a GPU object; a null handle is `None`. */
  datatype Handle = Handle(id: nat)

  /** What a live handle stands for on the device. */
  datatype Resource = BufferResource(size: nat) | PipelineResource

  /** One call on the device, its queue, or a render pass. */
  datatype Call =
    | CreateBuffer(buffer: Handle, size: nat)
    | ReleaseBuffer(buffer: Handle)
    | CreatePipeline(pipeline: Handle)
    | ReleasePipeline(pipeline: Handle)
    | WriteBuffer(target: Option<Handle>, offset: nat, data: seq<real>)
    | EndUiFrame
    | BeginPass(view: Handle)
    | SetPipeline(bound: Option<Handle>)
    | SetVertexBuffer(slot: nat, vertices: Option<Handle>, bindOffset: nat, bindSize: nat)
    | Draw(vertexCount: nat, instanceCount: nat, firstVertex: nat, firstInstance: nat)
    | RenderUi
    | EndPass
    | Submit
    | ReleaseView(view: Handle)
    | Present
    | Poll

  class Device {
    var live: map<Handle, Resource>
    var nextId: nat
    var log: seq<Call>

    ghost predicate Valid()
      reads this
    {
      forall h :: h in live ==> h.id < nextId
    }

    /** The live buffers, whatever their size. */
    ghost function LiveBuffers(): set<Handle>
      reads this
    {
      set h | h in live && live[h].BufferResource?
    }

    constructor ()
      ensures Valid() && live == map[] && log == []
    {
      live := map[];
      nextId := 0;
      log := [];
    }

    method NewBuffer(size: nat) returns (h: Handle)
      requires Valid()
      modifies this
      ensures Valid() && h !in old(live)
      ensures h.id == old(nextId) && nextId == old(nextId) + 1
      ensures live == old(live)[h := BufferResource(size)]
      ensures log == old(log) + [CreateBuffer(h, size)]
    {
      h := Handle(nextId);
      nextId := nextId + 1;
      live := live[h := BufferResource(size)];
      log := log + [CreateBuffer(h, size)];
    }

    method NewPipeline() returns (h: Handle)
      requires Valid()
      modifies this
      ensures Valid() && h !in old(live)
      ensures h.id == old(nextId) && nextId == old(nextId) + 1
      ensures live == old(live)[h := PipelineResource]
      ensures log == old(log) + [CreatePipeline(h)]
    {
      h := Handle(nextId);
      nextId := nextId + 1;
      live := live[h := PipelineResource];
      log := log + [CreatePipeline(h)];
    }

    /** Releasing drops the object if it is still live; a repeated release
        is still recorded in the log. */
    method Release(c: Call)
      requires Valid()
      requires c.ReleaseBuffer? || c.ReleasePipeline?
      modifies this
      ensures Valid() && nextId == old(nextId)
      ensures live == old(live) - {if c.ReleaseBuffer? then c.buffer else c.pipeline}
      ensures log == old(log) + [c]
    {
      var h := if c.ReleaseBuffer? then c.buffer else c.pipeline;
      live := live - {h};
      log := log + [c];
    }

    /** Submits an encoded command buffer: its commands reach the device,
        in order, followed by the submission itself. */
    method Submit(commands: seq<Call>)
      modifies this`log
      ensures log == old(log) + commands + [Call.Submit]
    {
      log := log + commands + [Call.Submit];
    }

    /** Records a call that creates and releases nothing. */
    method Record(c: Call)
      modifies this`log
      ensures log == old(log) + [c]
    {
      log := log + [c];
    }
  }
}
