/**
 * `BarMaterial` of src/material.rs, the 3D bar's material: the pipeline
 * key derived from it, its blend mode, and the `specialize` hook that
 * picks the shader variant for a key and installs the vertex layout.
 */
module Material {

  import opened Common
  import opened Math
  import opened Render

  datatype BarMaterial = BarMaterial(
    value: real,
    backgroundColor: Color,
    highColor: Color,
    moderateColor: Color,
    lowColor: Color,
    offset: Vec3,
    resolution: Vec2,
    borderWidth: real,
    borderColor: Color,
    vertical: bool)

  /** The bind-group data pipelines are cached by: one pipeline per key. */
  datatype BarMaterialKey = BarMaterialKey(vertical: bool, border: bool)

  /** `MaterialPipelineKey<BarMaterial>`: the host's mesh key plus the material's key. */
  datatype MaterialPipelineKey = MaterialPipelineKey(meshKey: nat, bindGroupData: BarMaterialKey)

  /** `From<&BarMaterial> for BarMaterialKey`. */
  function KeyOf(material: BarMaterial): (key: BarMaterialKey)
    ensures key.vertical == material.vertical
    ensures key.border <==> material.borderWidth > 0.0
  {
    BarMaterialKey(material.vertical, material.borderWidth > 0.0)
  }

  /**
   * Two materials share a pipeline exactly when they agree on orientation
   * and on whether they have a border; colours, value and the border's
   * actual width do not matter.
   */
  lemma KeyOfEqual(a: BarMaterial, b: BarMaterial)
    ensures KeyOf(a) == KeyOf(b) <==> a.vertical == b.vertical && (a.borderWidth > 0.0 <==> b.borderWidth > 0.0)
  {
  }

  /** `Material::alpha_mode`: bars are always alpha-blended. */
  function AlphaModeOf(material: BarMaterial): (mode: AlphaMode)
    ensures mode == Blend
  {
    Blend
  }

  /** The attributes `specialize` asks the mesh layout for: position at 0, UV at 1. */
  const BarAttributes: seq<VertexAttributeDescriptor> :=
    [VertexAttributeDescriptor(AttributePosition, 0), VertexAttributeDescriptor(AttributeUv0, 1)]

  /** The shader defs a key adds to the fragment stage. */
  function ShaderDefsFor(key: BarMaterialKey): (defs: seq<string>)
    ensures "IS_VERTICAL" in defs <==> key.vertical
    ensures "HAS_BORDER" in defs <==> key.border
    ensures |defs| == (if key.vertical then 1 else 0) + (if key.border then 1 else 0)
    ensures key.vertical ==> defs[0] == "IS_VERTICAL"
  {
    (if key.vertical then ["IS_VERTICAL"] else []) + (if key.border then ["HAS_BORDER"] else [])
  }

  /**
   * `Material::specialize`. `getLayout` is the mesh layout's `get_layout`,
   * which fails when the mesh lacks a requested attribute. On failure the
   * error is returned and the descriptor is untouched; on success the
   * key's shader defs are appended to the fragment stage's and the vertex
   * buffers become exactly the obtained layout. The fragment stage must be
   * present once the layout is obtained (the source unwraps it).
   */
  method Specialize(
    descriptor: RenderPipelineDescriptor,
    getLayout: seq<VertexAttributeDescriptor> -> Result<VertexBufferLayout, SpecializedMeshPipelineError>,
    key: MaterialPipelineKey)
    returns (result: Result<(), SpecializedMeshPipelineError>)
    requires getLayout(BarAttributes).Ok? ==> descriptor.fragment.Some?
    modifies descriptor
    ensures getLayout(BarAttributes).Err? ==>
      && result == Err(getLayout(BarAttributes).error)
      && descriptor.vertex == old(descriptor.vertex)
      && descriptor.fragment == old(descriptor.fragment)
    ensures getLayout(BarAttributes).Ok? ==>
      && result == Ok(())
      && descriptor.vertex == old(descriptor.vertex).(buffers := [getLayout(BarAttributes).value])
      && descriptor.fragment == Some(old(descriptor.fragment).value.(
           shaderDefs := old(descriptor.fragment).value.shaderDefs + ShaderDefsFor(key.bindGroupData)))
  {
    var vertexLayout := getLayout(BarAttributes);
    if vertexLayout.Err? {
      return Err(vertexLayout.error);
    }
    var fragment := descriptor.fragment.value;
    ghost var before := fragment.shaderDefs;
    if key.bindGroupData.vertical {
      fragment := fragment.(shaderDefs := fragment.shaderDefs + ["IS_VERTICAL"]);
    }
    if key.bindGroupData.border {
      fragment := fragment.(shaderDefs := fragment.shaderDefs + ["HAS_BORDER"]);
    }
    assert fragment.shaderDefs == before + ShaderDefsFor(key.bindGroupData);
    descriptor.fragment := Some(fragment);
    descriptor.vertex := descriptor.vertex.(buffers := [vertexLayout.value]);
    return Ok(());
  }
}
