/**
 * `BarMaterial2d` of src/material2d.rs, the 2D bar's material: the
 * pipeline key derived from it and the `specialize` hook.
 */
module Material2d {

  import opened Common
  import opened Math
  import opened Render

  /** `valueAndDimensions` packs (value, width, height, border width) as x, y, z, w. */
  datatype BarMaterial2d = BarMaterial2d(
    valueAndDimensions: Vec4,
    backgroundColor: LinearRgba,
    highColor: LinearRgba,
    moderateColor: LinearRgba,
    lowColor: LinearRgba,
    offset: Vec4,
    borderColor: LinearRgba,
    vertical: bool)

  /** The bind-group data 2D pipelines are cached by. */
  datatype BarMaterial2dKey = BarMaterial2dKey(vertical: bool, border: bool)

  /** `Material2dKey<BarMaterial2d>`: the host's mesh key plus the material's key. */
  datatype Material2dKey = Material2dKey(meshKey: nat, bindGroupData: BarMaterial2dKey)

  /** The border width is the `w` component of `valueAndDimensions`. */
  function BorderWidth(material: BarMaterial2d): real
  {
    material.valueAndDimensions.w
  }

  /** `From<&BarMaterial2d> for BarMaterial2dKey`. */
  function KeyOf(material: BarMaterial2d): (key: BarMaterial2dKey)
    ensures key.vertical == material.vertical
    ensures key.border <==> BorderWidth(material) > 0.0
  {
    BarMaterial2dKey(material.vertical, material.valueAndDimensions.w > 0.0)
  }

  /**
   * The key ignores the value, width, height and colours: two materials
   * share a pipeline exactly when they agree on orientation and on
   * whether they have a border.
   */
  lemma KeyOfEqual(a: BarMaterial2d, b: BarMaterial2d)
    ensures KeyOf(a) == KeyOf(b) <==> a.vertical == b.vertical && (BorderWidth(a) > 0.0 <==> BorderWidth(b) > 0.0)
  {
  }

  /** The attributes `specialize` asks the mesh layout for: position at 0, UV at 1. */
  const BarAttributes: seq<VertexAttributeDescriptor> :=
    [VertexAttributeDescriptor(AttributePosition, 0), VertexAttributeDescriptor(AttributeUv0, 1)]

  /** The shader defs a key adds to the fragment stage. */
  function ShaderDefsFor(key: BarMaterial2dKey): (defs: seq<string>)
    ensures "IS_VERTICAL" in defs <==> key.vertical
    ensures "HAS_BORDER" in defs <==> key.border
    ensures |defs| == (if key.vertical then 1 else 0) + (if key.border then 1 else 0)
    ensures key.vertical ==> defs[0] == "IS_VERTICAL"
  {
    (if key.vertical then ["IS_VERTICAL"] else []) + (if key.border then ["HAS_BORDER"] else [])
  }

  /**
   * `Material2d::specialize`. `getLayout` is `layout.0.get_layout`, which
   * fails when the mesh lacks a requested attribute. On failure the error
   * propagates and the descriptor is untouched; on success the key's
   * shader defs follow the existing ones and the vertex buffers become the
   * single obtained layout. The fragment stage must be present once the
   * layout is obtained (the source unwraps it).
   */
  method Specialize(
    descriptor: RenderPipelineDescriptor,
    getLayout: seq<VertexAttributeDescriptor> -> Result<VertexBufferLayout, SpecializedMeshPipelineError>,
    key: Material2dKey)
    returns (result: Result<(), SpecializedMeshPipelineError>)
    requires getLayout(BarAttributes).Ok? ==> descriptor.fragment.Some?
    modifies descriptor
    ensures getLayout(BarAttributes).Err? ==>
      && result == Err(getLayout(BarAttributes).error)
      && descriptor.vertex == old(descriptor.vertex)
      && descriptor.fragment == old(descriptor.fragment)
    ensures getLayout(BarAttributes).Ok? ==>
      && result == Ok(())
      && descriptor.vertex == old(descriptor.vertex).(buffers := [getLayout(BarAttributes).value])
      && descriptor.fragment == Some(old(descriptor.fragment).value.(
           shaderDefs := old(descriptor.fragment).value.shaderDefs + ShaderDefsFor(key.bindGroupData)))
  {
    var vertexLayout := getLayout(BarAttributes);
    if vertexLayout.Err? {
      return Err(vertexLayout.error);
    }
    var fragment := descriptor.fragment.value;
    ghost var before := fragment.shaderDefs;
    if key.bindGroupData.vertical {
      fragment := fragment.(shaderDefs := fragment.shaderDefs + ["IS_VERTICAL"]);
    }
    if key.bindGroupData.border {
      fragment := fragment.(shaderDefs := fragment.shaderDefs + ["HAS_BORDER"]);
    }
    assert fragment.shaderDefs == before + ShaderDefsFor(key.bindGroupData);
    descriptor.fragment := Some(fragment);
    descriptor.vertex := descriptor.vertex.(buffers := [vertexLayout.value]);
    return Ok(());
  }
}
