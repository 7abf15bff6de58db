/**
 * src/plugin.rs: the plugin's mesh cache and its two systems. `Spawn`
 * gives every row of its query (an entity whose tracked component was
 * just added) a bar: size and offset from its optional configuration,
 * a quad mesh shared through the cache, a fresh material holding the
 * current percentage and a name from the tracked type; the entity is
 * linked to the bar and becomes its parent. `Update` copies the
 * percentage of every changed entity into its bar's material. A query
 * row carries the value `Percentage::value` returns for the entity;
 * `typeName` stands for `std::any::type_name::<T>()`.
 */
module Plugin {

  import opened Common
  import opened Math
  import opened Ecs
  import TypeNames

  /** `HealthBarMaterial { value }`, the material this version of the plugin creates. */
  datatype HealthBarMaterial = HealthBarMaterial(value: real)

  /** `(OrderedFloat(width), OrderedFloat(height))`, the floats modelled as reals. */
  type Key = (real, real)

  /** The plugin's own `MeshHandles` resource: a memo table from bar size to quad mesh. */
  class MeshHandles {
    var entries: map<Key, Handle>

    constructor ()
      ensures entries == map[]
    {
      entries := map[];
    }

    /** The mesh stored exactly under `(width, height)`, if any. */
    function Get(width: real, height: real): (r: Option<Handle>)
      reads this
      ensures r.Some? <==> (width, height) in entries
      ensures r.Some? ==> r.value == entries[(width, height)]
    {
      if (width, height) in entries then Some(entries[(width, height)]) else None
    }

    /** Stores `handle` under `(width, height)` and hands it back; other sizes keep their entries. */
    method Insert(width: real, height: real, handle: Handle) returns (r: Handle)
      modifies this
      ensures r == handle
      ensures entries == old(entries)[(width, height) := handle]
      ensures Get(width, height) == Some(handle)
      ensures forall w, h :: (w, h) != (width, height) ==> Get(w, h) == old(Get(w, h))
    {
      entries := entries[(width, height) := handle];
      r := handle;
    }
  }

  /** Width 1.2 by default; height a sixth of the width by default. */
  function ResolveSize(width: Option<real>, height: Option<real>): Key
  {
    var w := if width.Some? then width.value else 1.2;
    var h := if height.Some? then height.value else w / 6.0;
    (w, h)
  }

  /** The y-offset, 0 by default. */
  function ResolveOffset(offset: Option<real>): real
  {
    if offset.Some? then offset.value else 0.0
  }

  /** The defaults are the promise here: the configured size when given, else 1.2 wide and a sixth of the width high. */
  lemma ResolveSizeDefaults(width: Option<real>, height: Option<real>)
    ensures ResolveSize(width, height).0 == if width.Some? then width.value else 1.2
    ensures ResolveSize(width, height).1 == if height.Some? then height.value else ResolveSize(width, height).0 / 6.0
    ensures width.None? && height.None? ==> ResolveSize(width, height) == (1.2, 0.2)
  {
  }

  /** The offset defaults to 0, and the bar is moved along the Y axis only. */
  lemma ResolveOffsetDefault(offset: Option<real>)
    ensures ResolveOffset(offset) == if offset.Some? then offset.value else 0.0
    ensures Scale(ResolveOffset(offset), UnitY) == Vec3(0.0, ResolveOffset(offset), 0.0)
  {
  }

  /**
   * One row of `spawn`'s query: an entity whose tracked component was just
   * added, the percentage that component's `value` returns, and the
   * entity's optional offset, width and height configuration.
   */
  datatype AddedRow = AddedRow(entity: Entity, percentage: real, offset: Option<real>, width: Option<real>, height: Option<real>)

  /** The size of the bar for a row, from its optional width and height. */
  function BarSize(row: AddedRow): Key
  {
    ResolveSize(row.width, row.height)
  }

  /** The y-offset of the bar for a row, from its optional offset. */
  function BarOffset(row: AddedRow): real
  {
    ResolveOffset(row.offset)
  }

  /** Every cached mesh is stored, and is a quad of exactly the size it is cached under. */
  ghost predicate Coherent(entries: map<Key, Handle>, meshes: map<Handle, Quad>)
  {
    forall k :: k in entries ==> entries[k] in meshes && meshes[entries[k]] == Quad(k.0, k.1)
  }

  /** `after` keeps every entry of `before`. */
  ghost predicate Extends<K, V>(before: map<K, V>, after: map<K, V>)
  {
    forall k :: k in before ==> k in after && after[k] == before[k]
  }

  /** The world type the plugin's systems run on. */
  type BarWorld = World<HealthBarMaterial>

  /** Asset handles below the counters are the only ones in use, and every cached mesh is a stored quad of its size. */
  ghost predicate Consistent(world: BarWorld, entries: map<Key, Handle>)
  {
    world.meshes.Valid() && world.materials.Valid() && Coherent(entries, world.meshes.stored)
  }

  /**
   * The entity of `row` is linked to `bar`, which is its child, and `bar`
   * carries everything `spawn` gives it: the name of the tracked type, the
   * mesh cached under the row's size, a translation along y by the row's
   * offset, a stored material holding the row's percentage, and both
   * shadow markers.
   */
  ghost predicate Spawned(world: BarWorld, entries: map<Key, Handle>, row: AddedRow, bar: Entity, typeName: string)
  {
    && world.Exists(bar)
    && row.entity in world.link && world.link[row.entity] == bar
    && bar in world.ChildrenOf(row.entity)
    && bar in world.parent && world.parent[bar] == row.entity
    && bar in world.bar
    && var bundle := world.bar[bar];
    && bundle.name == TypeNames.BarName(typeName)
    && BarSize(row) in entries && bundle.mesh == entries[BarSize(row)]
    && bundle.translation == Vec3(0.0, BarOffset(row), 0.0)
    && bundle.material in world.materials.stored
    && world.materials.stored[bundle.material] == HealthBarMaterial(row.percentage)
    && bundle.notShadowCaster && bundle.notShadowReceiver
  }

  /**
   * The mesh for a bar of size `(width, height)`: the one cached under that
   * size, or on a miss a new quad of that size, added to the mesh store and
   * cached. A hit adds no mesh and changes no entry; a miss adds exactly
   * one mesh and one entry. Every stored mesh and entry is kept.
   */
  function CachedMesh(meshes: Assets<Quad>, entries: map<Key, Handle>, width: real, height: real)
    : (r: (Assets<Quad>, map<Key, Handle>, Handle))
    ensures (width, height) in r.1 && r.2 == r.1[(width, height)]
    ensures (width, height) in entries ==> r.1 == entries && r.0 == meshes
    ensures (width, height) !in entries ==>
      r.1 == entries[(width, height) := r.2] && r.0.stored == meshes.stored[r.2 := Quad(width, height)]
  {
    if (width, height) in entries then (meshes, entries, entries[(width, height)])
    else
      var added := meshes.Add(Quad(width, height));
      (added.0, entries[(width, height) := added.1], added.1)
  }

  /**
   * On a store whose handles are below its counter and a cache that agrees
   * with it, `CachedMesh` keeps both properties and every stored mesh and
   * entry, and a miss hands out a handle no stored mesh uses: the store
   * grows by exactly one mesh.
   */
  lemma CachedMeshKeeps(meshes: Assets<Quad>, entries: map<Key, Handle>, width: real, height: real)
    requires meshes.Valid() && Coherent(entries, meshes.stored)
    ensures var r := CachedMesh(meshes, entries, width, height);
      && r.0.Valid() && Coherent(r.1, r.0.stored)
      && Extends(entries, r.1) && Extends(meshes.stored, r.0.stored)
      && ((width, height) !in entries ==> r.2 !in meshes.stored && |r.0.stored| == |meshes.stored| + 1)
  {
  }

  /** `mesh_handles.get(width, height)`, or on a miss `mesh_handles.insert` of a quad added by `meshes.add`. */
  method MeshFor(meshes: Assets<Quad>, cache: MeshHandles, width: real, height: real)
    returns (next: Assets<Quad>, mesh: Handle)
    modifies cache
    ensures var r := CachedMesh(meshes, old(cache.entries), width, height);
      next == r.0 && cache.entries == r.1 && mesh == r.2
  {
    next := meshes;
    var cached := cache.Get(width, height);
    if cached.Some? {
      mesh := cached.value;
    } else {
      var added := meshes.Add(Quad(width, height));
      next := added.0;
      mesh := cache.Insert(width, height, added.1);
    }
  }

  /** `spawn`'s work for one row; `SpawnStepEffect` states what it does. */
  function SpawnStep(world: BarWorld, entries: map<Key, Handle>, row: AddedRow, typeName: string)
    : (BarWorld, map<Key, Handle>, Entity)
  {
    var size := BarSize(row);
    var (meshes, entries', mesh) := CachedMesh(world.meshes, entries, size.0, size.1);
    var material := world.materials.Add(HealthBarMaterial(row.percentage));
    var bundle := BarBundle(TypeNames.BarName(typeName), mesh, material.1, Scale(BarOffset(row), UnitY), true, true);
    var spawned := world.(meshes := meshes, materials := material.0).SpawnChildBar(row.entity, bundle);
    (spawned.0, entries', spawned.1)
  }

  /**
   * What `spawn` does for one row, taking `world` and the cache `entries`
   * to a new world, new cache entries and the new bar: the cached quad for
   * the bar's size is reused (no mesh is added), or on a miss exactly one
   * quad of that size is added to the mesh store and cached; exactly one
   * material, holding the row's percentage, is added under a handle not
   * used before; the next entity id becomes the bar, with those handles,
   * the name of the tracked type and a translation along y by the offset,
   * spawned as the last child of the row's entity, which is linked to it.
   * Nothing else changes.
   */
  lemma SpawnStepEffect(world: BarWorld, entries: map<Key, Handle>, row: AddedRow, typeName: string)
    requires Consistent(world, entries)
    ensures var r := SpawnStep(world, entries, row, typeName);
      var size := BarSize(row);
      && Consistent(r.0, r.1)
      && (size in entries ==> r.1 == entries && r.0.meshes == world.meshes)
      && (size !in entries ==>
            && world.meshes.next !in world.meshes.stored
            && r.0.meshes == Assets(world.meshes.stored[world.meshes.next := Quad(size.0, size.1)], world.meshes.next + 1)
            && r.1 == entries[size := world.meshes.next])
      && size in r.1
      && world.materials.next !in world.materials.stored
      && r.0.materials == Assets(world.materials.stored[world.materials.next := HealthBarMaterial(row.percentage)],
                                 world.materials.next + 1)
      && r.2 == world.nextEntity && r.0.nextEntity == world.nextEntity + 1
      && r.0.link == world.link[row.entity := r.2]
      && r.0.children == world.children[row.entity := world.ChildrenOf(row.entity) + [r.2]]
      && r.0.parent == world.parent[r.2 := row.entity]
      && r.0.bar == world.bar[r.2 := BarBundle(TypeNames.BarName(typeName), r.1[size], world.materials.next,
                                               Vec3(0.0, BarOffset(row), 0.0), true, true)]
  {
  }

  /** The body of `spawn`'s `for_each` for one row. */
  method SpawnBarFor(world: BarWorld, cache: MeshHandles, row: AddedRow, typeName: string)
    returns (next: BarWorld, bar: Entity)
    modifies cache
    ensures var r := SpawnStep(world, old(cache.entries), row, typeName); next == r.0 && cache.entries == r.1 && bar == r.2
  {
    var width := if row.width.Some? then row.width.value else 1.2;
    var height := if row.height.Some? then row.height.value else width / 6.0;
    assert (width, height) == BarSize(row);
    var meshes, mesh := MeshFor(world.meshes, cache, width, height);
    var offset := if row.offset.Some? then row.offset.value else 0.0;
    var transform := Scale(offset, UnitY);
    assert offset == BarOffset(row);
    var material := world.materials.Add(HealthBarMaterial(row.percentage));
    next := world.(meshes := meshes, materials := material.0);
    var spawned := next.SpawnChildBar(row.entity, BarBundle(TypeNames.BarName(typeName), mesh, material.1, transform, true, true));
    next, bar := spawned.0, spawned.1;
  }

  /** The world, the cache entries and the bars spawned so far, `bars[i]` being the bar of the `i`-th row. */
  datatype Spawning = Spawning(world: BarWorld, entries: map<Key, Handle>, bars: seq<Entity>)

  /** `SpawnStep` applied in order to the first `n` rows of `added`. */
  function SpawnAll(world: BarWorld, entries: map<Key, Handle>, added: seq<AddedRow>, n: nat, typeName: string)
    : (r: Spawning)
    requires n <= |added|
    ensures |r.bars| == n
    decreases n, 0
  {
    if n == 0 then Spawning(world, entries, []) else SpawnNext(world, entries, added, n - 1, typeName)
  }

  /**
   * `SpawnStep` applied to row `i` after the rows before it. Kept apart
   * from `SpawnAll` so that each unfolding of the fold exposes a single
   * `Advance`, which keeps the induction lemmas below cheap to verify.
   */
  function SpawnNext(world: BarWorld, entries: map<Key, Handle>, added: seq<AddedRow>, i: nat, typeName: string)
    : (r: Spawning)
    requires i < |added|
    ensures |r.bars| == i + 1
    decreases i, 1
  {
    Advance(SpawnAll(world, entries, added, i, typeName), added[i], typeName)
  }

  /** One more row spawned: its bar is appended to `bars`. */
  function Advance(s: Spawning, row: AddedRow, typeName: string): (r: Spawning)
    ensures |r.bars| == |s.bars| + 1
  {
    var step := SpawnStep(s.world, s.entries, row, typeName);
    Spawning(step.0, step.1, s.bars + [step.2])
  }

  /**
   * `spawn`: gives every row of `added` (the query's entities whose
   * tracked component was just added) a bar, in order. Returns the new
   * world and the spawned bars, `bars[i]` being the bar of `added[i]`.
   */
  method Spawn(world: BarWorld, cache: MeshHandles, added: seq<AddedRow>, typeName: string)
    returns (next: BarWorld, bars: seq<Entity>)
    modifies cache
    ensures var r := SpawnAll(world, old(cache.entries), added, |added|, typeName);
      next == r.world && cache.entries == r.entries && bars == r.bars
  {
    next, bars := world, [];
    ghost var entries := cache.entries;
    var i := 0;
    while i < |added|
      invariant 0 <= i <= |added|
      invariant var r := SpawnAll(world, entries, added, i, typeName); next == r.world && cache.entries == r.entries && bars == r.bars
    {
      var bar;
      next, bar := SpawnBarFor(next, cache, added[i], typeName);
      bars := bars + [bar];
      i := i + 1;
    }
  }

  /** Advancing by a row keeps the asset counters' invariant and the cache's agreement with the mesh store. */
  lemma AdvanceConsistent(s: Spawning, row: AddedRow, typeName: string)
    requires Consistent(s.world, s.entries)
    ensures var r := Advance(s, row, typeName); Consistent(r.world, r.entries)
  {
    var size := BarSize(row);
    CachedMeshKeeps(s.world.meshes, s.entries, size.0, size.1);
  }

  /** `spawn` keeps the asset counters' invariant and the cache's agreement with the mesh store. */
  lemma {:induction false} SpawnAllConsistent(world: BarWorld, entries: map<Key, Handle>, added: seq<AddedRow>, n: nat, typeName: string)
    requires Consistent(world, entries) && n <= |added|
    ensures var r := SpawnAll(world, entries, added, n, typeName); Consistent(r.world, r.entries)
  {
    if n > 0 {
      SpawnAllConsistent(world, entries, added, n - 1, typeName);
      AdvanceConsistent(SpawnAll(world, entries, added, n - 1, typeName), added[n - 1], typeName);
    }
  }

  /** Advancing by a row takes the next entity id for its bar. */
  lemma AdvanceIds(s: Spawning, row: AddedRow, typeName: string, base: nat)
    requires s.world.nextEntity == base + |s.bars|
    requires forall i :: 0 <= i < |s.bars| ==> s.bars[i] == base + i
    ensures var r := Advance(s, row, typeName);
      && r.world.nextEntity == base + |r.bars|
      && (forall i :: 0 <= i < |r.bars| ==> r.bars[i] == base + i)
  {
  }

  /** The bars are the next `n` entity ids, in order: each is new, and no two are the same. */
  lemma {:induction false} SpawnAllIds(world: BarWorld, entries: map<Key, Handle>, added: seq<AddedRow>, n: nat, typeName: string)
    requires n <= |added|
    ensures var r := SpawnAll(world, entries, added, n, typeName);
      && r.world.nextEntity == world.nextEntity + n
      && (forall i :: 0 <= i < n ==> r.bars[i] == world.nextEntity + i)
  {
    if n > 0 {
      SpawnAllIds(world, entries, added, n - 1, typeName);
      AdvanceIds(SpawnAll(world, entries, added, n - 1, typeName), added[n - 1], typeName, world.nextEntity);
    }
  }

  /** The bar a step spawns carries everything `spawn` gives it. */
  lemma SpawnedByStep(world: BarWorld, entries: map<Key, Handle>, row: AddedRow, typeName: string)
    requires Consistent(world, entries)
    ensures var r := SpawnStep(world, entries, row, typeName); Spawned(r.0, r.1, row, r.2, typeName)
  {
    SpawnStepEffect(world, entries, row, typeName);
  }

  /** A step for another entity keeps an earlier bar as it was. */
  lemma SpawnedKept(world: BarWorld, entries: map<Key, Handle>, other: AddedRow, typeName: string, row: AddedRow, bar: Entity)
    requires Consistent(world, entries) && Spawned(world, entries, row, bar, typeName)
    requires other.entity != row.entity
    ensures var r := SpawnStep(world, entries, other, typeName); Spawned(r.0, r.1, row, bar, typeName)
  {
    SpawnStepEffect(world, entries, other, typeName);
  }

  /** No two rows are for the same entity, as in a query. */
  ghost predicate Distinct(added: seq<AddedRow>)
  {
    forall i, j :: 0 <= i < j < |added| ==> added[i].entity != added[j].entity
  }

  /** Advancing by a row whose entity no earlier row names keeps every earlier bar and adds the row's bar. */
  lemma SpawnedAdvance(s: Spawning, added: seq<AddedRow>, n: nat, typeName: string)
    requires Consistent(s.world, s.entries) && Distinct(added) && 0 < n <= |added| && |s.bars| == n - 1
    requires forall i :: 0 <= i < n - 1 ==> Spawned(s.world, s.entries, added[i], s.bars[i], typeName)
    ensures var r := Advance(s, added[n - 1], typeName);
      forall i :: 0 <= i < n ==> Spawned(r.world, r.entries, added[i], r.bars[i], typeName)
  {
    var r := Advance(s, added[n - 1], typeName);
    forall i | 0 <= i < n
      ensures Spawned(r.world, r.entries, added[i], r.bars[i], typeName)
    {
      if i < n - 1 {
        SpawnedKept(s.world, s.entries, added[n - 1], typeName, added[i], s.bars[i]);
      } else {
        SpawnedByStep(s.world, s.entries, added[n - 1], typeName);
      }
    }
  }

  /** When no two rows are for the same entity, every row's entity ends up with a bar carrying everything `spawn` gives it. */
  lemma {:induction false} SpawnAllSpawned(world: BarWorld, entries: map<Key, Handle>, added: seq<AddedRow>, n: nat, typeName: string)
    requires Consistent(world, entries) && Distinct(added) && n <= |added|
    ensures var r := SpawnAll(world, entries, added, n, typeName);
      forall i :: 0 <= i < n ==> Spawned(r.world, r.entries, added[i], r.bars[i], typeName)
  {
    if n > 0 {
      SpawnAllSpawned(world, entries, added, n - 1, typeName);
      SpawnAllConsistent(world, entries, added, n - 1, typeName);
      SpawnedAdvance(SpawnAll(world, entries, added, n - 1, typeName), added, n, typeName);
    }
  }

  /** `a` and `b` agree at `x`: both or neither hold it, with the same value. */
  ghost predicate Agree<V>(a: map<Entity, V>, b: map<Entity, V>, x: Entity)
  {
    (x in a <==> x in b) && (x in a ==> a[x] == b[x])
  }

  /** No row among the first `n` is for `x`. */
  ghost predicate Unlisted(x: Entity, added: seq<AddedRow>, n: nat)
    requires n <= |added|
  {
    n == 0 || (added[n - 1].entity != x && Unlisted(x, added, n - 1))
  }

  /** Advancing by a row changes the link and children of no other entity, and the parent and bundle of no existing one. */
  lemma AdvanceKeeps(s: Spawning, row: AddedRow, typeName: string, x: Entity)
    ensures var r := Advance(s, row, typeName);
      && (x != row.entity ==> Agree(s.world.link, r.world.link, x) && Agree(s.world.children, r.world.children, x))
      && (s.world.Exists(x) ==> Agree(s.world.parent, r.world.parent, x) && Agree(s.world.bar, r.world.bar, x))
      && r.world.nextEntity == s.world.nextEntity + 1
  {
  }

  /** Nothing else changes: an entity without a row keeps its link and children. */
  lemma {:induction false} SpawnAllOthers(world: BarWorld, entries: map<Key, Handle>, added: seq<AddedRow>, n: nat, typeName: string, x: Entity)
    requires n <= |added|
    ensures var r := SpawnAll(world, entries, added, n, typeName);
      Unlisted(x, added, n) ==> Agree(world.link, r.world.link, x) && Agree(world.children, r.world.children, x)
  {
    if n > 0 {
      SpawnAllOthers(world, entries, added, n - 1, typeName, x);
      AdvanceKeeps(SpawnAll(world, entries, added, n - 1, typeName), added[n - 1], typeName, x);
    }
  }

  /** Nothing else changes: an entity that existed before keeps its parent and bundle. */
  lemma {:induction false} SpawnAllExisting(world: BarWorld, entries: map<Key, Handle>, added: seq<AddedRow>, n: nat, typeName: string, x: Entity)
    requires n <= |added|
    ensures var r := SpawnAll(world, entries, added, n, typeName);
      && world.nextEntity <= r.world.nextEntity
      && (world.Exists(x) ==> Agree(world.parent, r.world.parent, x) && Agree(world.bar, r.world.bar, x))
  {
    if n > 0 {
      SpawnAllExisting(world, entries, added, n - 1, typeName, x);
      AdvanceKeeps(SpawnAll(world, entries, added, n - 1, typeName), added[n - 1], typeName, x);
    }
  }

  /** Advancing by a row keeps every cache entry, and the only entry it may add is the one for the row's size. */
  lemma AdvanceEntryAt(s: Spawning, row: AddedRow, typeName: string, k: Key)
    ensures var r := Advance(s, row, typeName);
      && (k in s.entries ==> k in r.entries && r.entries[k] == s.entries[k])
      && (k in r.entries && k !in s.entries ==> k == BarSize(row))
  {
  }

  /** The cache only grows, and each entry it gains is the size of some row. */
  lemma {:induction false} SpawnAllEntryAt(world: BarWorld, entries: map<Key, Handle>, added: seq<AddedRow>, n: nat, typeName: string, k: Key)
    requires n <= |added|
    ensures var r := SpawnAll(world, entries, added, n, typeName);
      && (k in entries ==> k in r.entries && r.entries[k] == entries[k])
      && (k in r.entries && k !in entries ==> exists i :: 0 <= i < n && BarSize(added[i]) == k)
  {
    if n > 0 {
      SpawnAllEntryAt(world, entries, added, n - 1, typeName, k);
      AdvanceEntryAt(SpawnAll(world, entries, added, n - 1, typeName), added[n - 1], typeName, k);
    }
  }

  /** Advancing by a row adds at most one mesh, under the next handle, and keeps every other. */
  lemma AdvanceMeshAt(s: Spawning, row: AddedRow, typeName: string, h: Handle)
    ensures var r := Advance(s, row, typeName);
      var m := s.world.meshes;
      && m.next <= r.world.meshes.next
      && (h in r.world.meshes.stored ==> h in m.stored || m.next <= h < r.world.meshes.next)
      && (h in m.stored && h != m.next ==> h in r.world.meshes.stored && r.world.meshes.stored[h] == m.stored[h])
  {
  }

  /** The mesh store only grows: every mesh stored before is kept, and new ones take handles from the counter. */
  lemma {:induction false} SpawnAllMeshAt(world: BarWorld, entries: map<Key, Handle>, added: seq<AddedRow>, n: nat, typeName: string, h: Handle)
    requires world.meshes.Valid() && n <= |added|
    ensures var r := SpawnAll(world, entries, added, n, typeName);
      var m := world.meshes;
      && m.next <= r.world.meshes.next
      && (h in r.world.meshes.stored ==> h in m.stored || m.next <= h < r.world.meshes.next)
      && (h in m.stored ==> h in r.world.meshes.stored && r.world.meshes.stored[h] == m.stored[h])
  {
    if n > 0 {
      var prev := SpawnAll(world, entries, added, n - 1, typeName);
      SpawnAllMeshAt(world, entries, added, n - 1, typeName, h);
      SpawnAllMeshAt(world, entries, added, n - 1, typeName, prev.world.meshes.next);
      AdvanceMeshAt(prev, added[n - 1], typeName, h);
    }
  }

  /** Advancing by a row adds one material, under the next handle, and keeps every other. */
  lemma AdvanceMaterialAt(s: Spawning, row: AddedRow, typeName: string, h: Handle)
    ensures var r := Advance(s, row, typeName);
      var m := s.world.materials;
      && r.world.materials.next == m.next + 1
      && (h in r.world.materials.stored <==> h in m.stored || h == m.next)
      && (h in m.stored && h != m.next ==> r.world.materials.stored[h] == m.stored[h])
  {
  }

  /** The material under handle `h` after the first `n` rows: kept if stored before, else present exactly when `h` is one of the next `n` handles. */
  lemma {:induction false} SpawnAllMaterialAt(world: BarWorld, entries: map<Key, Handle>, added: seq<AddedRow>, n: nat, typeName: string, h: Handle)
    requires world.materials.Valid() && n <= |added|
    ensures var r := SpawnAll(world, entries, added, n, typeName);
      var m := world.materials;
      && r.world.materials.next == m.next + n
      && (h in r.world.materials.stored <==> h in m.stored || m.next <= h < m.next + n)
      && (h in m.stored ==> r.world.materials.stored[h] == m.stored[h])
  {
    if n > 0 {
      var m := world.materials;
      SpawnAllMaterialAt(world, entries, added, n - 1, typeName, h);
      SpawnAllMaterialAt(world, entries, added, n - 1, typeName, m.next + n - 1);
      AdvanceMaterialAt(SpawnAll(world, entries, added, n - 1, typeName), added[n - 1], typeName, h);
    }
  }

  /** One row of `update`'s query: the `WithHealthBar` link of an entity whose tracked component changed, and the percentage it now reports. */
  datatype ChangedRow = ChangedRow(link: Entity, percentage: real)

  /** `health_bar_query.get(bar)`: the bar's material handle, or nothing when `bar` has no bundle. */
  function MaterialOf(world: BarWorld, bar: Entity): (r: Option<Handle>)
    ensures r.Some? <==> bar in world.bar
    ensures r.Some? ==> r.value == world.bar[bar].material
  {
    if bar in world.bar then Some(world.bar[bar].material) else None
  }

  /** Every linked bar with a material handle has that material in the store, as `materials.get_mut(..).unwrap()` demands. */
  ghost predicate Updatable(world: BarWorld, changed: seq<ChangedRow>)
  {
    forall i :: 0 <= i < |changed| ==> var h := MaterialOf(world, changed[i].link); h.Some? ==> h.value in world.materials.stored
  }

  /**
   * The material store after `update` has handled the first `n` rows in
   * order: each row whose bar has a stored material sets that material's
   * value to the row's percentage; other rows change nothing.
   */
  function Refreshed(world: BarWorld, materials: map<Handle, HealthBarMaterial>, changed: seq<ChangedRow>, n: nat)
    : (r: map<Handle, HealthBarMaterial>)
    requires n <= |changed|
    ensures r.Keys == materials.Keys
  {
    if n == 0 then materials
    else
      var m := Refreshed(world, materials, changed, n - 1);
      var h := MaterialOf(world, changed[n - 1].link);
      if h.Some? && h.value in m then m[h.value := m[h.value].(value := changed[n - 1].percentage)] else m
  }

  /**
   * `update`: for each changed entity in order, looks up the material
   * handle of its bar, skipping the row when the bar has none, and stores
   * the entity's percentage in that material. Only the material store
   * changes.
   */
  method Update(world: BarWorld, changed: seq<ChangedRow>) returns (next: BarWorld)
    requires Updatable(world, changed)
    ensures next == world.(materials := world.materials.(stored := Refreshed(world, world.materials.stored, changed, |changed|)))
  {
    var materials := world.materials.stored;
    var i := 0;
    while i < |changed|
      invariant 0 <= i <= |changed|
      invariant materials == Refreshed(world, world.materials.stored, changed, i)
    {
      var handle := MaterialOf(world, changed[i].link);
      if handle.Some? {
        var material := materials[handle.value];
        materials := materials[handle.value := material.(value := changed[i].percentage)];
      }
      i := i + 1;
    }
    next := world.(materials := world.materials.(stored := materials));
  }

  /** No row among the first `n` reaches the material `h`. */
  ghost predicate Untargeted(world: BarWorld, changed: seq<ChangedRow>, n: nat, h: Handle)
    requires n <= |changed|
  {
    forall i :: 0 <= i < n ==> MaterialOf(world, changed[i].link) != Some(h)
  }

  /** A material no row reaches keeps its value. */
  lemma {:induction false} RefreshedUntouched(world: BarWorld, materials: map<Handle, HealthBarMaterial>, changed: seq<ChangedRow>,
                                              n: nat, h: Handle)
    requires n <= |changed| && h in materials && Untargeted(world, changed, n, h)
    ensures Refreshed(world, materials, changed, n)[h] == materials[h]
  {
    if n > 0 {
      RefreshedUntouched(world, materials, changed, n - 1, h);
    }
  }

  /** A stored material that some row reaches ends with the percentage of the last row that reaches it. */
  lemma {:induction false} RefreshedLastWriter(world: BarWorld, materials: map<Handle, HealthBarMaterial>, changed: seq<ChangedRow>,
                                               n: nat, j: nat)
    requires j < n <= |changed|
    requires MaterialOf(world, changed[j].link).Some? && MaterialOf(world, changed[j].link).value in materials
    requires forall i :: j < i < n ==> MaterialOf(world, changed[i].link) != MaterialOf(world, changed[j].link)
    ensures Refreshed(world, materials, changed, n)[MaterialOf(world, changed[j].link).value].value == changed[j].percentage
  {
    if n - 1 > j {
      RefreshedLastWriter(world, materials, changed, n - 1, j);
    }
  }

  /** A spawned bar can be updated: a row linked to it passes the `unwrap` and sets its material to the row's percentage. */
  lemma SpawnedUpdatable(world: BarWorld, entries: map<Key, Handle>, row: AddedRow, bar: Entity, typeName: string, p: real)
    requires Spawned(world, entries, row, bar, typeName)
    ensures Updatable(world, [ChangedRow(bar, p)])
    ensures var h := world.bar[bar].material;
      Refreshed(world, world.materials.stored, [ChangedRow(bar, p)], 1)[h] == HealthBarMaterial(p)
  {
  }
}
