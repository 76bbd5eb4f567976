# Material specialization and phase queueing in bevy_pbr

This project is a Dafny model of the per-frame material bookkeeping in
`crates/bevy_pbr/src/material.rs`. The model covers five things:

- pipeline keys: the alpha-mode, tonemapping and transmission key tables, and `MaterialPipelineKey` equality and hashing;
- material preparation: `prepare_asset`, which resolves the render method, picks the phase and draw functions, and allocates a binding id once per material asset; and `unload_asset`, which frees that id;
- extraction and dirty tracking: `extract_mesh_materials`, `check_entities_needing_specialization` and `extract_entities_needs_specialization`;
- `specialize_material_meshes`, which fills the pipeline cache keyed by (view, entity) with `(tick, pipeline)` entries;
- `queue_material_meshes`, which puts each visible mesh into the opaque, alpha-mask, transmissive or transparent phase of its view and then sweeps the binned phases.

A `MeshPipelineKey` is modelled as a set of flag names. Collaborators whose code is outside this file are modelled abstractly:

- `Tick::is_newer_than` and `SpecializedMeshPipelines::specialize` are function parameters (`Specialize.Collaborators`);
- the bind-group allocator is a small class (`BindGroupAllocator`);
- the binned and sorted render phases are stand-in values (`RenderPhases`), whose code is not in this file. A binned phase maps each entity to its bin entry and remembers the entities marked since the last sweep. `validate_cached_entity` marks an entity already binned with the given tick. `add` replaces the entity's entry and marks it. `sweep_old_entities` keeps only marked entities and clears the marks. A sorted phase's `add` appends an item;
- `MeshAllocator::mesh_slabs` is a lookup in a map from mesh asset to slabs; a mesh the allocator does not know has neither slab (`Queue.SlabsOf`);
- the read-only render-world resources are one value (`Specialize.RenderWorld`).

Every imperative system is a method. The methods whose loops build their result are proved equal to a fold over their input (`SpecializeViews`, `QueueViews`, `DirtyEntities`, ...), and the properties are lemmas about those folds. The other methods state their result or new state directly in their postconditions: `ExtractEntitiesNeedsSpecialization`, `PrepareAsset` and `UnloadAsset` state the new maps and allocator, and `BuildMeshKey` returns `MeshKeyFor`.

Modules, one file each: `Wrappers`, `RenderIds`, `PipelineKey`, `BindGroupAllocator`, `PreparedMaterials`, `Extract`, `RenderPhases`, `Specialize`, `Queue`.

Four behaviours of the code worth noting:

- The queueing pass skips a view unless it has all four phases (lines 927-940). The specialization pass needs only one phase (lines 805-811).
- Nothing in this file removes entries from `SpecializedMaterialPipelineCache`. Entries for meshes that disappeared stay; only the bins are swept.
- Queueing checks the bins before it looks up the material (lines 951-956). A mesh still binned with its cached tick is kept in that bin, whatever phase its material now names. So `Queue.QueueViewAppends` promises a sorted item only for a mesh not binned that way.
- The model covers one material type's pass. The opaque and alpha-mask phases are shared by all material types, and each type's `queue_material_meshes` sweeps them at the end (lines 1051-1053). After `Queue.QueueView`, every binned mesh is visible and has an entry in this material type's pipeline cache (`Queue.QueueViewSwept`). So a mesh binned by another material type's pass, which has no entry in this type's cache, is not marked and is dropped by this sweep. Whether the render-phase code outside this file prevents that is not part of this model; nothing here was executed.

## Model

| member | source | states |
|---|---|---|
| PipelineKey.ViewMsaa | crates/bevy_pbr/src/material.rs:849-853 | MSAA read from a view key is Off exactly when the key has no sample-count flag, and 8x exactly when it has the 8-sample flag |
| PipelineKey.AlphaModePipelineKey | crates/bevy_pbr/src/material.rs:578-592 | the alpha key holds at most one blend/discard flag; it is empty exactly for Opaque; it holds MAY_DISCARD exactly for Mask and for AlphaToCoverage without MSAA |
| PipelineKey.AlphaModeKeyTable | crates/bevy_pbr/src/material.rs:578-592 | AlphaToCoverage gives MAY_DISCARD when MSAA is off and BLEND_ALPHA_TO_COVERAGE otherwise; Premultiplied and Add give the same key; Mask gives MAY_DISCARD for every threshold; Opaque gives NONE |
| PipelineKey.AlphaModeKeySharing | crates/bevy_pbr/src/material.rs:578-592 | without AlphaToCoverage the key does not depend on MSAA; two modes share a key exactly when they are equal, both Mask, or both in {Premultiplied, Add} |
| PipelineKey.TonemappingPipelineKey | crates/bevy_pbr/src/material.rs:594-607 | every tonemapping method gives exactly one tonemap flag |
| PipelineKey.TonemappingKeyRoundTrip | crates/bevy_pbr/src/material.rs:594-607 | the method can be read back from its flag, even when the flag is joined with any non-tonemap flags |
| PipelineKey.TonemappingKeyInjective | crates/bevy_pbr/src/material.rs:594-607 | distinct tonemapping methods give distinct keys |
| PipelineKey.TransmissionPipelineKey | crates/bevy_pbr/src/material.rs:609-626 | every transmission quality gives exactly one transmission flag |
| PipelineKey.TransmissionKeyRoundTrip | crates/bevy_pbr/src/material.rs:609-626 | the quality can be read back from its flag, even when the flag is joined with any other non-transmission flags |
| PipelineKey.KeyEq | crates/bevy_pbr/src/material.rs:396-405 | two material pipeline keys are equal exactly when their mesh keys and bind-group data are equal |
| PipelineKey.KeyHashAgreesWithEq | crates/bevy_pbr/src/material.rs:419-427 | hashing feeds the mesh key, then the bind-group data, so two keys feed the same words exactly when they are equal |
| PreparedMaterials.ResolveRenderMethod | crates/bevy_pbr/src/material.rs:1218-1222 | the resolved render method is never Auto; Auto takes the default; Forward and Deferred are kept |
| PreparedMaterials.MaterialKeyBits | crates/bevy_pbr/src/material.rs:1224-1231 | the material bits hold only READS_VIEW_TRANSMISSION_TEXTURE, and hold it exactly when the material reads the transmission texture |
| PreparedMaterials.RenderPhaseTypeFor | crates/bevy_pbr/src/material.rs:1233-1240 | Transparent exactly for the blended modes (even when reading transmission); Transmissive exactly for other modes that read transmission; otherwise Opaque for Opaque/AlphaToCoverage and AlphaMask for Mask |
| PreparedMaterials.MainDrawFunction | crates/bevy_pbr/src/material.rs:1242-1247 | each phase's main-pass draw function is the one registered for that phase |
| PreparedMaterials.PrepassDrawFunction | crates/bevy_pbr/src/material.rs:1248-1252 | transmissive and transparent materials get no prepass draw function |
| PreparedMaterials.DeferredDrawFunction | crates/bevy_pbr/src/material.rs:1253-1257 | transmissive and transparent materials get no deferred draw function |
| PreparedMaterials.PropertiesFor | crates/bevy_pbr/src/material.rs:1218-1257 | the material properties: alpha mode and depth bias copied; the render method is never Auto, Auto takes the default and Forward or Deferred stand; the key bits hold READS_VIEW_TRANSMISSION_TEXTURE exactly when the material reads the transmission texture, and nothing else; phase per the classification table; main draw function of that phase; prepass and deferred ids of the binned phases, none for the sorted ones |
| PreparedMaterials.PrepareResult | crates/bevy_pbr/src/material.rs:1259-1333 | preparation succeeds exactly when the unprepared bind group is built, or when a direct bind group is requested and built; it returns RetryNextUpdate exactly when either step asks to retry; any other failure is passed on as AsBindGroupError with the failing step's own error; a success carries the binding id and properties |
| PreparedMaterials.AttachedSlot | crates/bevy_pbr/src/material.rs:1259-1333 | a slot is attached exactly when preparation succeeds: the unprepared bind group when it is built, otherwise the bind group and data that the material builds directly |
| PreparedMaterials.PrepareAsset | crates/bevy_pbr/src/material.rs:1176-1333 | the material always ends with a binding; an existing binding is reused with no allocation, also after a retry; otherwise exactly one fresh id is allocated and recorded; result and slot follow PrepareResult and AttachedSlot; bindings stay live and injective |
| PreparedMaterials.UnloadAsset | crates/bevy_pbr/src/material.rs:1336-1352 | with no binding nothing changes; otherwise the binding is removed and exactly that id is freed |
| BindGroupAllocator.MaterialBindGroupAllocator.Allocate | crates/bevy_pbr/src/material.rs:1197-1199 | an allocated id was not live before and is the only id added |
| BindGroupAllocator.MaterialBindGroupAllocator.Init | crates/bevy_pbr/src/material.rs:1266 | attaches the unprepared bind group to a live id and changes nothing else |
| BindGroupAllocator.MaterialBindGroupAllocator.InitCustom | crates/bevy_pbr/src/material.rs:1301-1305 | attaches a material-built bind group to a live id and changes nothing else |
| BindGroupAllocator.MaterialBindGroupAllocator.Free | crates/bevy_pbr/src/material.rs:1351 | the freed id is no longer live and its slot is gone |
| Extract.LastChangeFound | crates/bevy_pbr/src/material.rs:667-687 | the changed-mesh query holds an entity exactly when some row names it, and the row used is the last one naming it |
| Extract.InstanceUpdateTouches | crates/bevy_pbr/src/material.rs:654-688 | extraction leaves an entity alone exactly when no changed row and no removal names it |
| Extract.ExtractMeshMaterials | crates/bevy_pbr/src/material.rs:654-688 | both maps end up per entity as the last changed row says (insert if visible, remove if not); a removal counts only for entities the changed query does not hold; every touched entity has the same material in both maps |
| Extract.DirtyEntitiesMembers | crates/bevy_pbr/src/material.rs:752-770 | an entity is listed exactly when one of its rows reports a mesh or material change (handle or asset); the list is no longer than the query |
| Extract.EntitiesNeedingSpecialization.CheckEntitiesNeedingSpecialization | crates/bevy_pbr/src/material.rs:752-770 | the list is cleared, then holds exactly the dirty entities, in query order |
| Extract.EntitySpecializationTicks.ExtractEntitiesNeedsSpecialization | crates/bevy_pbr/src/material.rs:690-701 | every listed entity is stamped with this run's tick; every other entity keeps its tick; no other entity is added |
| Specialize.MeshKeyFor | crates/bevy_pbr/src/material.rs:849-884 | the mesh key holds the view key, the mesh bits, the material bits and the alpha bits; it adds only lightmap, bicubic, dither and previous-skin/morph flags; LIGHTMAPPED iff lightmapped; bicubic only together with LIGHTMAPPED; dither iff crossfading; previous-skin/morph only with a motion-vector prepass and the instance flag |
| Specialize.NeedsSpecialization | crates/bevy_pbr/src/material.rs:818-826 | a pair without a cache entry always needs specializing; one with an entry needs it exactly when the view tick or the entity tick is newer than the entry's tick |
| Specialize.BuildMeshKey | crates/bevy_pbr/src/material.rs:849-884 | building the key step by step gives MeshKeyFor |
| Specialize.StepPairOutcomes | crates/bevy_pbr/src/material.rs:818-904 | a pair keeps its entry when not dirty, when an input is missing, or when specialization fails; otherwise the entry becomes exactly (this run, pipeline for its key) |
| Specialize.StepPairIdempotent | crates/bevy_pbr/src/material.rs:818-904 | visiting a pair a second time in one pass changes nothing more |
| Specialize.SpecializeEntityAt | crates/bevy_pbr/src/material.rs:818-904 | the inner loop body changes only its own (view, entity) pair |
| Specialize.SpecializeEntitiesAt | crates/bevy_pbr/src/material.rs:816-905 | after a view's inner loop, each pair of that view whose entity is visible holds its one-visit result, and every other pair is untouched |
| Specialize.SpecializeViewsAt | crates/bevy_pbr/src/material.rs:804-907 | after the pass, a pair holds its one-visit result exactly when its view has a phase and a view key and its entity is visible there; every other pair keeps its entry |
| Specialize.SpecializedMaterialPipelineCache.VisitPair | crates/bevy_pbr/src/material.rs:818-904 | one visit of the inner loop updates the cache as SpecializeEntity says |
| Specialize.SpecializedMaterialPipelineCache.SpecializeMaterialMeshes | crates/bevy_pbr/src/material.rs:772-907 | reading the four phase maps to skip views with none of them, the nested loops leave the cache equal to the SpecializeViews fold over the views, given the unwrapped ticks exist |
| Queue.QueueEntitySkips | crates/bevy_pbr/src/material.rs:944-989 | a mesh is added to no phase when it has no cache entry, when it is binned with its cached tick in the opaque or alpha-mask phase (then it is only marked), or when it is opaque and deferred |
| Queue.QueueEntity | crates/bevy_pbr/src/material.rs:944-1049 | one visit touches only its own mesh: no other entity's bin entry changes, no entity leaves a bin, only this mesh can be marked for the sweep, and each sorted phase gains at most one item, for this mesh |
| Queue.QueueEntityDispatch | crates/bevy_pbr/src/material.rs:972-1049 | otherwise the mesh lands exactly in its material's phase, and all other phases are unchanged. A bin entry carries the cached pipeline and tick, the draw function, the bind-group index, the vertex slab (the default when there is none), the index slab, for opaque also the lightmap slab, the mesh bin, the batching flag and the render entity. A sorted item carries its distance plus depth bias and is indexed exactly when the mesh has an index slab |
| Queue.QueueEntityOwnBins | crates/bevy_pbr/src/material.rs:944-1034 | after one visit, the mesh keeps the bin entry it had or has one built for its material's phase, and it is marked only when binned with its cached tick |
| Queue.QueueEntityOwnItems | crates/bevy_pbr/src/material.rs:972-1049 | an item appended by one visit is one for the mesh's material phase with its cached pipeline |
| Queue.QueueEntityLands | crates/bevy_pbr/src/material.rs:944-1034 | a visit to a cached mesh whose material is alpha-masked, or opaque and forward, leaves it binned and marked |
| Queue.QueueEntitySorts | crates/bevy_pbr/src/material.rs:944-1049 | a visit to a cached mesh of a sorted phase that is not binned with its cached tick appends exactly one item for it and leaves the bins alone |
| Queue.QueueEntityQueued | crates/bevy_pbr/src/material.rs:944-1049 | one step of the loop keeps every added entry and item tied to a listed mesh, its material's phase and its cached pipeline |
| Queue.QueueEntitiesQueued | crates/bevy_pbr/src/material.rs:943-1050 | the loop over visible meshes only validates or adds listed meshes; every added bin entry or sorted item carries its pair's cached pipeline and matches its material's phase; sorted phases are only appended to |
| Queue.QueueEntitiesLand | crates/bevy_pbr/src/material.rs:943-1050 | after the loop, every listed cached mesh drawn from a binned phase is binned and marked |
| Queue.QueueEntitiesKeepBinsOf | crates/bevy_pbr/src/material.rs:943-1050 | the loop never changes the bin entries of a mesh of a sorted phase that is not binned with its cached tick |
| Queue.QueueEntitiesAppend | crates/bevy_pbr/src/material.rs:943-1050 | the loop only appends to a sorted phase, and appends an item for every listed cached mesh of that phase not binned with its cached tick |
| Queue.QueueViewSwept | crates/bevy_pbr/src/material.rs:942-1053 | starting from swept bins, a view ends swept; every binned mesh is visible this pass and binned with its cached tick, whether it kept its entry or got a new one; a mesh no longer visible is dropped (the converse is QueueViewLands and QueueViewAppends) |
| Queue.QueueViewLands | crates/bevy_pbr/src/material.rs:942-1053 | every visible mesh with a cache entry and its inputs, whose material is alpha-masked or opaque and forward, is in the opaque or alpha-mask phase after the view is queued and swept |
| Queue.QueueViewAppends | crates/bevy_pbr/src/material.rs:942-1053 | every visible mesh with a cache entry and its inputs, of a sorted phase and not binned with its cached tick, gets an item with its cached pipeline appended to that phase, after the items already there |
| Queue.QueueViewsKeepsViews | crates/bevy_pbr/src/material.rs:926-1054 | the pass never adds or removes a view's phases |
| Queue.QueueViewsAt | crates/bevy_pbr/src/material.rs:926-1054 | given views with distinct retained view entities, each queried view with all four phases ends with what queueing that view alone gives |
| Queue.QueueViewsUntouched | crates/bevy_pbr/src/material.rs:926-940 | a view that no query row names keeps its phases |
| Queue.QueueViewsKeepsSwept | crates/bevy_pbr/src/material.rs:1051-1053 | swept bins stay swept across the whole pass |
| Queue.QueueVisibleEntity | crates/bevy_pbr/src/material.rs:944-1049 | one visit of a visible mesh updates the view's phases as QueueEntity says |
| Queue.QueueOneView | crates/bevy_pbr/src/material.rs:942-1053 | the loop over a view's visible meshes and the two sweeps give QueueView |
| Queue.QueueMaterialMeshes | crates/bevy_pbr/src/material.rs:911-1055 | the nested loops leave the phase maps equal to the QueueViews fold over the views, and keep them swept |

## Left out

- Plugin build and finish, system sets and scheduling (lines 268-388): wiring, not logic.
- `Material` trait defaults, `MaterialPipeline::specialize` and `FromWorld` (lines 120-242, 461-513): shader and descriptor construction.
- `SetMaterialBindGroup::render` and `prepare_material_bind_groups` (lines 524-568, 1372-1381): GPU command recording and resource creation.
- `mark_meshes_as_changed_if_their_materials_changed` (lines 642-650): it only sets an ECS change flag.
- Meshlet paths and shadow systems: they are not defined in this file.
- ECS parallelism: the passes are modelled as sequential loops in query order.
- The internals of `SpecializedMeshPipelines`, `Tick::is_newer_than` (including tick wrap-around), `MaterialBindGroupAllocator` and the phase types are not part of this model. They are abstract parameters or stand-ins. The allocator hands out fresh ids from a counter. Bins are a map from entity to entry, so an `add` replaces an entity's earlier bin.
- Queue.QueueEntity: the batchable flag is the instance's `should_batch`. `BinnedRenderPhaseType::mesh` also depends on GPU preprocessing support, which is not modelled.
- Queue.DistanceOf: the f32 rangefinder distance and depth bias are modelled with exact `real` arithmetic on an abstract rangefinder.
- Sorting of the sorted phases happens in a later pass and is not modelled. The sorted items' constant batch range and extra index are not stored.
- PipelineKey.ViewMsaa: packed multi-bit key fields (MSAA samples, blend mode, tonemapping method, transmission quality) are modelled as separate flag names. When several sample-count flags are present, the largest wins.
- PreparedMaterials.PrepareResult: the material handed back inside `PrepareAssetError::RetryNextUpdate` is not carried in the error value.
- `DefaultOpaqueRendererMethod` is a subset type that excludes Auto. Its constructors and setters `forward`, `deferred`, `set_to_forward` and `set_to_deferred` store Forward or Deferred (lines 1062-1078), and so does the derived default (lines 1058 and 1098-1104). A value written through reflection (the `Reflect` derive, lines 1058-1059) could hold Auto; the model's subset type excludes that value, which queueing would then treat as forward, since it skips only Deferred (line 987).
- Specialize.SpecializeMaterialMeshes: specialization errors are logged by the source; the model skips the pair without logging.
