/**
 * `MeshHandles` of src/mesh.rs: a memo table from a bar's (width, height)
 * to the handle of the quad mesh drawn for it, so that bars of equal size
 * share one mesh. Lookups wrap the handle in the `MeshHandle` component.
 */
module Mesh {

  import opened Common

  /** `Handle<Mesh>`: an opaque id into the host's mesh store. */
  type Handle = nat

  /** The `MeshHandle` component, a wrapper around a mesh handle. */
  datatype MeshHandle = MeshHandle(handle: Handle)

  /** `(OrderedFloat(width), OrderedFloat(height))`, the floats modelled as reals. */
  type Key = (real, real)

  class MeshHandles {
    var entries: map<Key, Handle>

    /** `MeshHandles::default()`: the empty table. */
    constructor ()
      ensures entries == map[]
    {
      entries := map[];
    }

    /** The cached mesh for a size, if any; a lookup only, it changes nothing. */
    function Get(width: real, height: real): (r: Option<MeshHandle>)
      reads this
      ensures r.Some? <==> (width, height) in entries
      ensures r.Some? ==> r.value == MeshHandle(entries[(width, height)])
    {
      if (width, height) in entries then Some(MeshHandle(entries[(width, height)])) else None
    }

    /**
     * Records `handle` for the size, replacing any earlier entry for it,
     * and hands the same handle back wrapped.
     */
    method Insert(width: real, height: real, handle: Handle) returns (r: MeshHandle)
      modifies this
      ensures r == MeshHandle(handle)
      ensures entries == old(entries)[(width, height) := handle]
      ensures Get(width, height) == Some(r)
      ensures forall w, h :: (w, h) != (width, height) ==> Get(w, h) == old(Get(w, h))
    {
      entries := entries[(width, height) := handle];
      r := MeshHandle(handle);
    }
  }
}
