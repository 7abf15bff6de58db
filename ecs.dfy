/**
 * The host engine's world as far as the bar systems see it. Entities are
 * modelled as ids handed out by a counter, so that each new one is fresh
 * and the entities that exist are exactly the ids below it (the host's
 * ids are fresh too, but not consecutive); each component the systems write is a storage from entity
 * to value, as in an ECS; the mesh and material asset stores map handles
 * to assets, `M` being the material asset type. The world is a value that
 * a system threads through its loop; its member functions are the host
 * calls the systems make (`Assets::add` and the `Commands` a spawn
 * queues), applied immediately.
 */
module Ecs {

  import opened Common
  import opened Math

  type Entity = nat
  type Handle = nat

  /** `Mesh::from(shape::Quad::new(Vec2::new(width, height)))`. */
  datatype Quad = Quad(width: real, height: real)

  /**
   * What is spawned for a bar: its `Name`, the mesh and material handles
   * and the translation of its `MaterialMeshBundle`, and whether it
   * carries the `NotShadowCaster` and `NotShadowReceiver` markers.
   */
  datatype BarBundle = BarBundle(
    name: string, mesh: Handle, material: Handle, translation: Vec3,
    notShadowCaster: bool, notShadowReceiver: bool)

  /** Every id in `ids` is below `bound`. */
  ghost predicate Below(ids: set<nat>, bound: nat)
  {
    forall id :: id in ids ==> id < bound
  }

  /** `Assets<A>`: stored assets by handle, and the next handle to hand out. */
  datatype Assets<A> = Assets(stored: map<Handle, A>, next: Handle)
  {
    /** Handles below the counter are the only ones in use. */
    ghost predicate Valid()
    {
      Below(stored.Keys, next)
    }

    /** `Assets::add`, modelled as storing the asset under a fresh handle taken from the counter and returning that handle. */
    function Add(asset: A): (Assets<A>, Handle)
    {
      (Assets(stored[next := asset], next + 1), next)
    }
  }

  /**
   * The component storages `spawn` writes: the `WithHealthBar` link of a
   * tracked entity, the `Parent` and `Children` of the hierarchy, and the
   * bundle of a bar; `nextEntity` is the model's entity counter.
   */
  datatype World<M> = World(
    link: map<Entity, Entity>,
    parent: map<Entity, Entity>,
    children: map<Entity, seq<Entity>>,
    bar: map<Entity, BarBundle>,
    nextEntity: Entity,
    meshes: Assets<Quad>,
    materials: Assets<M>)
  {
    /** `e` has been spawned. */
    predicate Exists(e: Entity)
    {
      e < nextEntity
    }

    /** The `Children` of `e`, empty when it has none. */
    function ChildrenOf(e: Entity): seq<Entity>
    {
      if e in children then children[e] else []
    }

    /**
     * The commands `spawn` queues for one entity `e`, applied in order:
     * `Commands::spawn` of a new entity with the bar's components,
     * `insert(WithHealthBar(bar))` on `e` (replacing an earlier link), and
     * `add_child(bar)`, which gives the bar the `Parent` `e` and appends
     * it to `e`'s `Children`. Returns the new world and the bar's id.
     */
    function SpawnChildBar(e: Entity, bundle: BarBundle): (World<M>, Entity)
    {
      var bar := nextEntity;
      (this.(bar := this.bar[bar := bundle], nextEntity := bar + 1, link := link[e := bar],
             parent := parent[bar := e], children := children[e := ChildrenOf(e) + [bar]]),
       bar)
    }
  }
}
