# bevy_health_bar3d in Dafny

This is a model of the bookkeeping core of `bevy_health_bar3d`, a Bevy plugin that puts a health bar above every entity carrying a tracked percentage component. The model covers three pieces:

- **The quad-mesh cache.** `MeshHandles` exists twice, in `src/mesh.rs` and in `src/plugin.rs`. Both are a memo table from a bar's `(width, height)` to a mesh handle, so bars of the same size share one quad mesh. Each is a class with a `map` field. `Get` is a function that reads it, and `Insert` is a method that updates it.
- **The two systems of `src/plugin.rs`.**
  - `spawn` gives every newly tracked entity a bar. The bar's size and offset come from optional configuration, with defaults when it is absent. Its mesh is reused from the cache or created on a miss. Its new material holds the current percentage. Its name comes from the tracked type's name. The tracked entity is linked to the bar and becomes its parent.
  - `update` copies the percentage of every changed entity into its bar's material.
  - The host world is a value (`Ecs.World`). It has:
    - entity ids, modelled as taken from a counter so that each new one is fresh;
    - one map per component the systems write (the `WithHealthBar` link, `Parent`, `Children` and the bar's bundle);
    - a mesh store and a material store, each a map from handle to asset, with new handles modelled as taken from a counter so that each is fresh.
  - Both systems are methods with loops. Each is proved against a specification function: `SpawnAll` is a fold of `SpawnStep` over the query rows, and `Refreshed` is a fold over the changed rows. The properties are proved as lemmas about those functions.
- **Pipeline-key derivation and `specialize`** of `src/material.rs` and `src/material2d.rs`:
  - the key `{vertical, border}` derived from a material;
  - the shader defs a key selects, in their fixed order;
  - the in-place edit of the render pipeline descriptor, where a failing layout lookup returns its error before anything is changed.

The modules follow the source files:

| module | file | contents |
|---|---|---|
| `Common` | `common.dfy` | `Option`, `Result` |
| `Math` | `math.dfy` | vectors and colours |
| `Render` | `render.dfy` | the pipeline descriptor `specialize` edits |
| `Ecs` | `ecs.dfy` | the host world |
| `Mesh` | `mesh.dfy` | `src/mesh.rs` |
| `Material` | `material.dfy` | `src/material.rs` |
| `Material2d` | `material2d.dfy` | `src/material2d.rs` |
| `TypeNames` | `type_names.dfy` | how a bar is named from `type_name::<T>()` |
| `Plugin` | `plugin.dfy` | `src/plugin.rs` |

The host calls the code makes, and the values it reads from the host, are modelled as follows:
- `Percentage::value` becomes the `percentage` field of a query row.
- `std::any::type_name::<T>()` becomes the parameter `typeName`.
- `MeshVertexBufferLayout::get_layout` becomes the parameter `getLayout`, a function that may fail.
- `Assets::add` and the spawn commands become member functions of the world.

## Model

| member | source | states |
|---|---|---|
| Mesh.MeshHandles.constructor | src/mesh.rs:5-6 | the `Default` resource starts with no entries |
| Mesh.MeshHandles.Get | src/mesh.rs:12-17 | returns `Some(MeshHandle(h))` exactly when `h` is stored under `(width, height)`, and `None` exactly when that key is absent; it reads the table and cannot change it |
| Mesh.MeshHandles.Insert | src/mesh.rs:19-24 | returns `MeshHandle` of exactly the inserted handle; afterwards `Get(width, height)` returns it, overwriting any earlier entry, and every other key's lookup is what it was |
| Material.KeyOf | src/material.rs:40-47 | the key's `vertical` is the material's; its `border` holds exactly when the border width is greater than 0 |
| Material.KeyOfEqual | src/material.rs:34-46 | two materials have equal keys exactly when they agree on `vertical` and on whether the border width is positive |
| Material.AlphaModeOf | src/material.rs:58-60 | the alpha mode is always `Blend` |
| Material.ShaderDefsFor | src/material.rs:74-80 | `IS_VERTICAL` is selected exactly when the key is vertical, and `HAS_BORDER` exactly when it has a border; nothing else is selected, and `IS_VERTICAL` comes first |
| Material.Specialize | src/material.rs:62-84 | when `get_layout` fails, its error is returned and the descriptor is unchanged; otherwise the result is `Ok`, the key's defs are appended after the existing fragment defs in order, and the vertex buffers become exactly the one obtained layout; a fragment stage is required once the layout is obtained (the `unwrap`) |
| Material2d.KeyOf | src/material2d.rs:37-44 | the key's `vertical` is the material's; its `border` holds exactly when the `w` component of `value_and_dimensions` (the border width) is greater than 0 |
| Material2d.KeyOfEqual | src/material2d.rs:31-44 | two 2D materials have equal keys exactly when they agree on `vertical` and on whether the border width is positive |
| Material2d.ShaderDefsFor | src/material2d.rs:66-72 | `IS_VERTICAL` is selected exactly when the key is vertical, and `HAS_BORDER` exactly when it has a border, in that order and nothing else |
| Material2d.Specialize | src/material2d.rs:55-76 | a failed layout lookup returns its error with the descriptor unchanged; success appends the key's defs after the existing ones and makes the vertex buffers the single obtained layout; a fragment stage is required once the layout is obtained |
| TypeNames.FindSep | src/plugin.rs:81 | finds the first `"::"` at or after a position, and reports none only when no separator starts there or later |
| TypeNames.Split | src/plugin.rs:81 | `split("::")` always yields at least one piece, so `last()` never returns `None` |
| TypeNames.JoinSplit | src/plugin.rs:81 | joining the pieces with `"::"` gives back the type name, so the split loses nothing |
| TypeNames.SplitPiecesHaveNoSep | src/plugin.rs:81 | no piece of the split contains `"::"` |
| TypeNames.LastPieceIsSuffix | src/plugin.rs:81 | the last piece ends the type name; it is the whole name when there is no separator, and otherwise directly follows a `"::"` |
| TypeNames.BarNameShape | src/plugin.rs:81 | the bar's name is the last `"::"`-free segment of the type name followed by `Bar`; the segment ends the name and, unless it is the whole name, directly follows a `"::"`, and the `"Unknown"` fallback is never taken |
| Plugin.MeshHandles.constructor | src/plugin.rs:47-48 | the `Default` resource starts with no entries |
| Plugin.MeshHandles.Get | src/plugin.rs:51-53 | returns the handle stored exactly under `(width, height)`, and `None` exactly when that key is absent |
| Plugin.MeshHandles.Insert | src/plugin.rs:55-58 | stores the handle under `(width, height)`, returns that same handle, and leaves every other key's lookup unchanged |
| Plugin.ResolveSizeDefaults | src/plugin.rs:70-71 | the width is the configured one, or 1.2 when absent; the height is the configured one, or the resolved width divided by 6 when absent; with neither configured the size is (1.2, 0.2) |
| Plugin.ResolveOffsetDefault | src/plugin.rs:76-77 | the offset is the configured one, or 0 when absent; the translation is the offset along the Y axis only |
| Plugin.CachedMesh | src/plugin.rs:72-74 | in both cases the size is cached afterwards and the mesh is the one cached under it; a hit changes neither the cache nor the mesh store; a miss adds exactly one quad of that size, under the handle it uses, and exactly one cache entry |
| Plugin.CachedMeshKeeps | src/plugin.rs:72-74 | the get-or-insert keeps every stored mesh and cache entry, keeps every cached mesh a stored quad of its own size, and on a miss takes a handle no stored mesh uses, so the store grows by exactly one |
| Plugin.MeshFor | src/plugin.rs:72-74 | `get` followed on a miss by `meshes.add` and `insert` on the cache class computes exactly the new store, the new cache entries and the mesh that `CachedMesh` describes |
| Plugin.SpawnStepEffect | src/plugin.rs:69-96 | for one row: the cache and store stay coherent; a hit adds no mesh and a miss adds exactly one quad of the row's size and caches it; exactly one fresh material holding the row's percentage is added; the next entity id becomes the bar, carrying the type's bar name, the cached mesh, that material, a Y-only translation and both shadow markers; the row's entity is linked to the bar, the bar is appended to its children, and the bar's parent is that entity; nothing else changes |
| Plugin.SpawnBarFor | src/plugin.rs:69-96 | the loop body on the cache class and the world computes exactly the world, cache entries and bar that `SpawnStep` describes |
| Plugin.Spawn | src/plugin.rs:62-98 | the `for_each` over the query rows computes exactly the world, cache entries and bars of `SpawnAll`, the rows handled in order |
| Plugin.SpawnAllConsistent | src/plugin.rs:69-78 | over any number of rows, handles stay below the store counters and every cached mesh stays a stored quad of its size |
| Plugin.SpawnAllIds | src/plugin.rs:79-91 | each bar is a new entity and no two rows share a bar; in the model the bars are the next `n` ids of the entity counter, in row order |
| Plugin.SpawnedByStep | src/plugin.rs:78-96 | the bar a step spawns satisfies `Spawned`: the entity is linked to it, it is the entity's child, and it carries the name, the cached mesh of the entity's size, the Y offset, a stored material with the entity's percentage, and both shadow markers |
| Plugin.SpawnedKept | src/plugin.rs:93-96 | a step for another entity keeps an earlier bar `Spawned`, with its link, parent, bundle and material |
| Plugin.SpawnAllSpawned | src/plugin.rs:69-96 | when no two rows name the same entity (as in a query), after the whole run every row's entity is linked to its own bar, and that bar carries everything `spawn` gives it |
| Plugin.SpawnAllOthers | src/plugin.rs:93-96 | an entity without a row keeps its `WithHealthBar` link and its children |
| Plugin.SpawnAllExisting | src/plugin.rs:79-96 | the entity counter only grows, and every entity that existed before keeps its parent and its bundle |
| Plugin.SpawnAllEntryAt | src/plugin.rs:72-74 | every cache entry is kept, and each entry gained is the size of some row |
| Plugin.SpawnAllMeshAt | src/plugin.rs:72-74 | every stored mesh is kept, and every mesh added takes a handle between the old and the new counter |
| Plugin.SpawnAllMaterialAt | src/plugin.rs:78 | every row adds exactly one new material: after `n` rows the model's material counter has grown by exactly `n`, a handle is stored exactly when it was before or is one of the `n` new handles, and every earlier material is kept |
| Plugin.MaterialOf | src/plugin.rs:108 | `health_bar_query.get` yields a handle exactly when the linked entity has a bar bundle, and then it is that bundle's material |
| Plugin.Refreshed | src/plugin.rs:105-111 | applying the changed rows never adds or removes a material: its key set is the store's |
| Plugin.Update | src/plugin.rs:100-112 | given that every reachable material is stored (the `unwrap`), the loop leaves everything unchanged except the material store, which becomes `Refreshed` over all changed rows in order |
| Plugin.RefreshedUntouched | src/plugin.rs:105-111 | a material that no changed row reaches keeps its value; this covers links that reach no material handle, since those rows are skipped |
| Plugin.RefreshedLastWriter | src/plugin.rs:105-111 | a stored material that some changed row reaches ends with the percentage of the last such row |
| Plugin.SpawnedUpdatable | src/plugin.rs:108-110 | a spawned bar passes the `unwrap`, and a changed row linked to it sets its material to the new percentage |

## Left out

- The example apps under `examples/`: scene setup, animation and per-frame float updates, all host I/O.
- Rendering is left out, being calls into the engine:
  - the WGSL shaders;
  - the uniform and bind-group layouts, and the `AsBindGroup` derivation;
  - the vertex and fragment shader paths and handles, including `src/constants.rs`;
  - `Plugin::build`, which registers the material plugin, the resource and the systems.
- `f32` is modelled as `real`, and `width / 6.` as real division. IEEE rounding and the NaN and signed-zero equality of `OrderedFloat` keys are not modelled.
- `Added<T>` and `Changed<T>` change detection is not modelled. Each system run is one sequential pass over given query rows, in the query's order.
- The percentage a row reports is a field of the row. `Percentage::value` itself is not modelled.
- `Commands` are applied immediately rather than at the end of the stage, which is sound because `spawn` reads nothing back from the entities it writes. Commands on an entity that was despawned meanwhile are not modelled.
- Parallel execution of the systems is not modelled.
- A `Transform` is modelled by its translation only. The rest of `MaterialMeshBundle`'s defaults (visibility, global transform) is left out.
- `Name` is modelled as its string.
- `ShaderDefVal` is modelled as a plain string.
- The configuration getters of `src/configuration.rs` are identity accessors, so they are folded into the optional `width`, `height` and `offset` of a query row.
- `src/lib.rs` is module wiring only.
- `src/plugin.rs` creates the older `HealthBarMaterial { value }`, while `src/material.rs` defines `BarMaterial`. Each file is modelled on its own, and `Plugin.HealthBarMaterial` holds just the value.
- Asset handles and entity ids are modelled as counters that always hand out the next, fresh id. Bevy's handles and entity ids are fresh too, but not consecutive: `Assets::add` draws a random handle id, and `Commands::spawn` may reuse a freed entity index under a new generation. So the consecutive ids that `Plugin.SpawnAllIds`, `Plugin.SpawnAllMeshAt` and `Plugin.SpawnAllMaterialAt` state describe the model's allocator; what carries over to the program is that each id is fresh and distinct.
- `Plugin.SpawnAllMeshAt`, `Plugin.SpawnAllMaterialAt`: over a whole run, the growth of the stores is stated through their handle counters and the handle ranges they hand out, not as `|stored|` cardinalities. Cardinality is stated for one step only, in `Plugin.CachedMeshKeeps`.
