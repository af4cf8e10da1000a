/** The cell bind group layout, the two bind groups built against it, and the
    pipeline parameters that depend on the configuration. */
module Bindings {
  import opened Gpu

  datatype Stage = VertexStage | FragmentStage | ComputeStage

  datatype BindingType = UniformBinding | ReadOnlyStorage | WritableStorage

  datatype LayoutEntry = LayoutEntry(binding: nat, visibility: set<Stage>, kind: BindingType)

  /** The one layout both pipelines are built against: binding 0 holds the
      grid uniform, binding 1 the state the pass reads, binding 2 the state
      the compute pass writes. Only the compute stage can see a writable
      binding, so a render pass never writes cell state. */
  function CellLayout(): (layout: seq<LayoutEntry>)
    ensures |layout| == 3
    ensures forall i :: 0 <= i < |layout| ==> layout[i].binding == i
    ensures forall i :: 0 <= i < |layout| && layout[i].kind == WritableStorage ==>
              layout[i].visibility == {ComputeStage}
    ensures layout[2].kind == WritableStorage
    ensures layout[1].kind == ReadOnlyStorage
    ensures VertexStage in layout[1].visibility && ComputeStage in layout[1].visibility
    ensures FragmentStage !in layout[1].visibility
    ensures layout[0].kind == UniformBinding
    ensures VertexStage in layout[0].visibility && FragmentStage in layout[0].visibility
    ensures ComputeStage in layout[0].visibility
  {
    [ LayoutEntry(0, {VertexStage, FragmentStage, ComputeStage}, UniformBinding),
      LayoutEntry(1, {VertexStage, ComputeStage}, ReadOnlyStorage),
      LayoutEntry(2, {ComputeStage}, WritableStorage) ]
  }

  /** A bind group over CellLayout: `uniform` at binding 0, `input` at
      binding 1 and `output` at binding 2. Immutable once created. */
  datatype BindGroup = BindGroup(uniform: BufferId, input: BufferId, output: BufferId)

  /** Two groups that share the uniform and swap the roles of the two state buffers. */
  predicate Swapped(groups: seq<BindGroup>)
  {
    |groups| == 2 &&
    groups[0].uniform == groups[1].uniform &&
    groups[0].input == groups[1].output &&
    groups[0].output == groups[1].input
  }

  /** No group reads the buffer it writes. */
  predicate NoAliasing(groups: seq<BindGroup>)
  {
    forall i :: 0 <= i < |groups| ==> groups[i].input != groups[i].output
  }

  /** Groups A and B: A reads `front` and writes `back`, B the other way round. */
  function MakeGroups(uniform: BufferId, front: BufferId, back: BufferId): (groups: seq<BindGroup>)
    ensures Swapped(groups)
    ensures groups[0] == BindGroup(uniform, front, back)
    ensures NoAliasing(groups) <==> front != back
  {
    [BindGroup(uniform, front, back), BindGroup(uniform, back, front)]
  }

  /** The compute pipeline: workgroupSize is a constant overridden when the
      pipeline is built, so a new size needs a new pipeline. */
  datatype ComputePipeline = ComputePipeline(layout: seq<LayoutEntry>, workgroupSize: nat)

  /** The quad every cell is drawn with: two triangles, x and y per vertex. */
  const Vertices: seq<real> :=
    [ -0.8, 0.8,   0.8, 0.8,   -0.8, -0.8,
      -0.8, -0.8,  0.8, 0.8,   0.8, -0.8 ]

  /** vertices.length / 2 */
  const VertexCount: nat := |Vertices| / 2

  /** The render pipeline: one vertex buffer of float32x2 positions. */
  datatype RenderPipeline = RenderPipeline(layout: seq<LayoutEntry>, arrayStride: nat)

  function MakePipelines(workgroupSize: nat): (pipelines: (RenderPipeline, ComputePipeline))
    ensures pipelines.0.layout == pipelines.1.layout == CellLayout()
    ensures pipelines.0.arrayStride * VertexCount == ByteLength(Float32(Vertices))
    ensures pipelines.1.workgroupSize == workgroupSize
  {
    (RenderPipeline(CellLayout(), 8), ComputePipeline(CellLayout(), workgroupSize))
  }
}
