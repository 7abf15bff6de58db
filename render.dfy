/**
 * The parts of the host's render pipeline that a material's `specialize`
 * hook touches: the pipeline descriptor it edits in place, the vertex
 * attributes it asks the mesh layout for, and the error that lookup can
 * return.
 */
module Render {

  import opened Common

  /** The mesh attributes the bar shaders read. */
  datatype MeshAttribute = AttributePosition | AttributeUv0

  /** `attribute.at_shader_location(location)`. */
  datatype VertexAttributeDescriptor = VertexAttributeDescriptor(attribute: MeshAttribute, shaderLocation: nat)

  /** A vertex buffer layout as produced by the host; its contents are opaque here. */
  datatype VertexBufferLayout = VertexBufferLayout(arrayStride: nat, attributes: seq<VertexAttributeDescriptor>)

  /** `SpecializedMeshPipelineError`: raised when the mesh lacks a requested attribute. */
  datatype SpecializedMeshPipelineError = MissingVertexAttribute(attribute: MeshAttribute)

  datatype VertexState = VertexState(entryPoint: string, shaderDefs: seq<string>, buffers: seq<VertexBufferLayout>)

  datatype FragmentState = FragmentState(entryPoint: string, shaderDefs: seq<string>)

  /** How a material's output is blended with what is behind it. */
  datatype AlphaMode = Opaque | Mask(cutoff: real) | Blend | Premultiplied | Add | Multiply

  /**
   * `RenderPipelineDescriptor`: the specialize hooks mutate its
   * `vertex.buffers` and its optional fragment stage's shader defs in place.
   */
  class RenderPipelineDescriptor {
    var vertex: VertexState
    var fragment: Option<FragmentState>

    constructor (vertex: VertexState, fragment: Option<FragmentState>)
      ensures this.vertex == vertex && this.fragment == fragment
    {
      this.vertex := vertex;
      this.fragment := fragment;
    }
  }
}
