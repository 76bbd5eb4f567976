/**
 * `specialize_material_meshes`: for every view that has a render phase and a
 * cached view key, and every mesh visible from it, decide whether the
 * (view, entity) pair needs a new pipeline, build its pipeline key, ask the
 * pipeline-variant cache for a pipeline and record it with this run's tick.
 */
module Specialize {
  import opened Wrappers
  import opened RenderIds
  import opened PipelineKey
  import opened PreparedMaterials
  import opened RenderPhases

  /** `RenderMesh`: the key bits the mesh itself needs and its vertex layout. */
  datatype RenderMesh = RenderMesh(keyBits: MeshPipelineKey, layout: VertexLayout)

  datatype Translation = Translation(x: real, y: real, z: real)

  /** `RenderMeshQueueData`: what the passes read about one mesh instance. */
  datatype MeshInstance = MeshInstance(
    meshAssetId: MeshAssetId,
    translation: Translation,
    hasPreviousSkin: bool,
    hasPreviousMorph: bool,
    shouldBatch: bool,
    lightmapSlabIndex: Option<nat>)

  /** `RenderLightmap`: only its sampling mode matters here. */
  datatype RenderLightmap = RenderLightmap(bicubicSampling: bool)

  /** A realised bind group of the allocator, with `get_extra_data` per slot. */
  datatype MaterialBindGroup<D> = MaterialBindGroup(extraData: nat -> D)

  /** `MeshAllocator::mesh_slabs`: the vertex and index slab of a mesh, if allocated. */
  datatype MeshSlabs = MeshSlabs(vertexSlab: Option<SlabId>, indexSlab: Option<SlabId>)

  /** The render-world resources the two passes read and never change. */
  datatype RenderWorld<D> = RenderWorld(
    renderMeshes: map<MeshAssetId, RenderMesh>,
    renderMaterials: map<AssetId, PreparedMaterial>,
    meshInstances: map<Entity, MeshInstance>,
    materialInstances: map<Entity, AssetId>,
    lightmaps: map<Entity, RenderLightmap>,
    crossfading: set<Entity>,
    bindGroups: map<nat, MaterialBindGroup<D>>,
    meshSlabs: map<MeshAssetId, MeshSlabs>,
    viewKeys: map<Entity, MeshPipelineKey>,
    viewTicks: map<Entity, Tick>,
    entityTicks: map<Entity, Tick>)

  /** One entry of `RenderVisibleEntities` for meshes. */
  datatype VisibleEntity = VisibleEntity(renderEntity: RenderEntity, mainEntity: Entity)

  /**
   * A row of the view query: the view's main entity, its `ExtractedView`'s
   * retained entity, its visible meshes in order, and its rangefinder.
   */
  datatype View = View(
    mainEntity: Entity,
    retainedViewEntity: RetainedViewEntity,
    visible: seq<VisibleEntity>,
    rangefinder: Translation -> real)

  datatype SpecializeError = SpecializeError(reason: nat)

  /**
   * The collaborators whose code is not part of this model:
   * `Tick::is_newer_than(tick, last_run, this_run)` and
   * `SpecializedMeshPipelines::specialize`.
   */
  datatype Collaborators<!D> = Collaborators(
    isNewerThan: (Tick, Tick, Tick) -> bool,
    specialize: (MaterialPipelineKey<D>, VertexLayout) -> Result<PipelineId, SpecializeError>)

  /** The tick a pair was last specialized at, and the pipeline it got. */
  datatype CacheEntry = CacheEntry(tick: Tick, pipeline: PipelineId)

  type Cache = map<(Entity, Entity), CacheEntry>

  // ---------------------------------------------------------------------
  // The mesh key
  // ---------------------------------------------------------------------

  /** The flags the mesh key may gain beyond view, mesh, material and alpha bits. */
  const MeshKeyExtras: set<Flag> :=
    {Lightmapped, LightmapBicubicSampling, VisibilityRangeDither, HasPreviousSkin, HasPreviousMorph}

  /** The view key, the mesh's bits, the material's bits and its alpha-mode bits. */
  function BaseMeshKey(viewKey: MeshPipelineKey, mesh: RenderMesh, props: MaterialProperties): MeshPipelineKey {
    viewKey + mesh.keyBits + (props.meshPipelineKeyBits + AlphaModePipelineKey(props.alphaMode, ViewMsaa(viewKey)))
  }

  /**
   * The mesh key of one visible mesh: the base key, plus LIGHTMAPPED for a
   * lightmapped mesh (and bicubic sampling when its lightmap asks for it),
   * the dither flag for a crossfading mesh, and the previous-skin and
   * previous-morph flags only when the view has a motion-vector prepass.
   */
  function MeshKeyFor(
    viewKey: MeshPipelineKey,
    mesh: RenderMesh,
    props: MaterialProperties,
    instance: MeshInstance,
    lightmap: Option<RenderLightmap>,
    crossfading: bool): (k: MeshPipelineKey)
    ensures var base := BaseMeshKey(viewKey, mesh, props);
      && base <= k && k - base <= MeshKeyExtras
      && (Lightmapped in k <==> Lightmapped in base || lightmap.Some?)
      && (LightmapBicubicSampling in k <==>
            LightmapBicubicSampling in base || (lightmap.Some? && lightmap.value.bicubicSampling))
      && (LightmapBicubicSampling in k - base ==> Lightmapped in k)
      && (VisibilityRangeDither in k <==> VisibilityRangeDither in base || crossfading)
      && (HasPreviousSkin in k <==>
            HasPreviousSkin in base || (MotionVectorPrepass in viewKey && instance.hasPreviousSkin))
      && (HasPreviousMorph in k <==>
            HasPreviousMorph in base || (MotionVectorPrepass in viewKey && instance.hasPreviousMorph))
  {
    var k0 := BaseMeshKey(viewKey, mesh, props);
    var k1 :=
      if lightmap.Some? then
        var l := k0 + {Lightmapped};
        if lightmap.value.bicubicSampling then l + {LightmapBicubicSampling} else l
      else k0;
    var k2 := if crossfading then k1 + {VisibilityRangeDither} else k1;
    if MotionVectorPrepass in viewKey then
      var s := if instance.hasPreviousSkin then k2 + {HasPreviousSkin} else k2;
      if instance.hasPreviousMorph then s + {HasPreviousMorph} else s
    else k2
  }

  // ---------------------------------------------------------------------
  // One (view, entity) pair
  // ---------------------------------------------------------------------

  /** Whether everything the pass looks up for `e` is there. */
  predicate HasSpecializationInputs<D>(w: RenderWorld<D>, e: Entity) {
    && e in w.materialInstances
    && e in w.meshInstances
    && w.meshInstances[e].meshAssetId in w.renderMeshes
    && w.materialInstances[e] in w.renderMaterials
    && w.renderMaterials[w.materialInstances[e]].binding.group in w.bindGroups
  }

  /** The pipeline key of `e` in a view with key `viewKey`. */
  function PipelineKeyFor<D>(w: RenderWorld<D>, viewKey: MeshPipelineKey, e: Entity): MaterialPipelineKey<D>
    requires HasSpecializationInputs(w, e)
  {
    var instance := w.meshInstances[e];
    var mesh := w.renderMeshes[instance.meshAssetId];
    var material := w.renderMaterials[w.materialInstances[e]];
    var bindGroup := w.bindGroups[material.binding.group];
    MaterialPipelineKey(
      MeshKeyFor(viewKey, mesh, material.properties, instance, Get(w.lightmaps, e), e in w.crossfading),
      bindGroup.extraData(material.binding.slot))
  }

  /** The vertex layout `e`'s mesh is drawn with. */
  function LayoutFor<D>(w: RenderWorld<D>, e: Entity): VertexLayout
    requires HasSpecializationInputs(w, e)
  {
    w.renderMeshes[w.meshInstances[e].meshAssetId].layout
  }

  /** The cache entry a specialization of `e` would record, if it succeeds. */
  function SpecializedEntry<D>(w: RenderWorld<D>, viewKey: MeshPipelineKey, e: Entity, thisRun: Tick, c: Collaborators<D>): Option<CacheEntry> {
    if !HasSpecializationInputs(w, e) then Option.None
    else
      match c.specialize(PipelineKeyFor(w, viewKey, e), LayoutFor(w, e))
      case Ok(id) => Some(CacheEntry(thisRun, id))
      case Err(_) => Option.None
  }

  /** A pair needs specializing when it has no entry or either tick is newer than its entry's. */
  predicate NeedsSpecialization<D>(prev: Option<CacheEntry>, viewTick: Tick, entityTick: Tick, thisRun: Tick, c: Collaborators<D>): (b: bool)
    ensures prev.None? ==> b
    ensures prev.Some? ==>
              (b <==> c.isNewerThan(viewTick, prev.value.tick, thisRun) || c.isNewerThan(entityTick, prev.value.tick, thisRun))
  {
    prev.None? || c.isNewerThan(viewTick, prev.value.tick, thisRun) || c.isNewerThan(entityTick, prev.value.tick, thisRun)
  }

  /** What one visit of the pair (`viewEntity`, `e`) leaves as its entry. */
  function StepPair<D>(
    prev: Option<CacheEntry>, w: RenderWorld<D>, viewEntity: Entity, viewKey: MeshPipelineKey,
    e: Entity, thisRun: Tick, c: Collaborators<D>): Option<CacheEntry>
    requires viewEntity in w.viewTicks && e in w.entityTicks
  {
    if !NeedsSpecialization(prev, w.viewTicks[viewEntity], w.entityTicks[e], thisRun, c) then prev
    else
      match SpecializedEntry(w, viewKey, e, thisRun, c)
      case None => prev
      case Some(entry) => Some(entry)
  }

  /**
   * The outcomes of one visit: nothing changes for a pair that is not dirty,
   * for missing inputs or for a failed specialization; otherwise the entry
   * becomes exactly this run's tick and the pipeline for the pair's key.
   */
  lemma StepPairOutcomes<D>(
    prev: Option<CacheEntry>, w: RenderWorld<D>, viewEntity: Entity, viewKey: MeshPipelineKey,
    e: Entity, thisRun: Tick, c: Collaborators<D>)
    requires viewEntity in w.viewTicks && e in w.entityTicks
    ensures var next := StepPair(prev, w, viewEntity, viewKey, e, thisRun, c);
      && (!NeedsSpecialization(prev, w.viewTicks[viewEntity], w.entityTicks[e], thisRun, c) ==> next == prev)
      && (!HasSpecializationInputs(w, e) ==> next == prev)
      && (HasSpecializationInputs(w, e) && c.specialize(PipelineKeyFor(w, viewKey, e), LayoutFor(w, e)).Err? ==> next == prev)
      && (NeedsSpecialization(prev, w.viewTicks[viewEntity], w.entityTicks[e], thisRun, c) &&
          HasSpecializationInputs(w, e) && c.specialize(PipelineKeyFor(w, viewKey, e), LayoutFor(w, e)).Ok? ==>
            next == Some(CacheEntry(thisRun, c.specialize(PipelineKeyFor(w, viewKey, e), LayoutFor(w, e)).value)))
  {
  }

  /** Visiting a pair twice in one pass leaves what visiting it once does. */
  lemma StepPairIdempotent<D>(
    prev: Option<CacheEntry>, w: RenderWorld<D>, viewEntity: Entity, viewKey: MeshPipelineKey,
    e: Entity, thisRun: Tick, c: Collaborators<D>)
    requires viewEntity in w.viewTicks && e in w.entityTicks
    ensures var once := StepPair(prev, w, viewEntity, viewKey, e, thisRun, c);
      StepPair(once, w, viewEntity, viewKey, e, thisRun, c) == once
  {
  }

  /** The inner loop body for visible entity `e` of view `viewEntity`. */
  function SpecializeEntity<D>(
    cache: Cache, w: RenderWorld<D>, viewEntity: Entity, viewKey: MeshPipelineKey,
    e: Entity, thisRun: Tick, c: Collaborators<D>): Cache
    requires viewEntity in w.viewTicks && e in w.entityTicks
  {
    var pair := (viewEntity, e);
    match StepPair(Get(cache, pair), w, viewEntity, viewKey, e, thisRun, c)
    case None => cache
    case Some(entry) => cache[pair := entry]
  }

  /** The inner loop body changes at most its own pair, as `StepPair` says. */
  lemma SpecializeEntityAt<D>(
    cache: Cache, w: RenderWorld<D>, viewEntity: Entity, viewKey: MeshPipelineKey,
    e: Entity, thisRun: Tick, c: Collaborators<D>, p: (Entity, Entity))
    requires viewEntity in w.viewTicks && e in w.entityTicks
    ensures Get(SpecializeEntity(cache, w, viewEntity, viewKey, e, thisRun, c), p) ==
              if p == (viewEntity, e) then StepPair(Get(cache, p), w, viewEntity, viewKey, e, thisRun, c)
              else Get(cache, p)
  {
  }

  // ---------------------------------------------------------------------
  // The two loops
  // ---------------------------------------------------------------------

  /** Whether `e` is among the visible meshes. */
  predicate Lists(visible: seq<VisibleEntity>, e: Entity) {
    exists j :: 0 <= j < |visible| && visible[j].mainEntity == e
  }

  /** The ticks the inner loop unwraps for these visible meshes are there. */
  predicate TicksPresentFor<D>(w: RenderWorld<D>, viewEntity: Entity, visible: seq<VisibleEntity>) {
    && (visible != [] ==> viewEntity in w.viewTicks)
    && forall j :: 0 <= j < |visible| ==> visible[j].mainEntity in w.entityTicks
  }

  /** The inner loop over a view's visible meshes. */
  function SpecializeEntities<D>(
    cache: Cache, w: RenderWorld<D>, viewEntity: Entity, viewKey: MeshPipelineKey,
    visible: seq<VisibleEntity>, thisRun: Tick, c: Collaborators<D>): Cache
    requires TicksPresentFor(w, viewEntity, visible)
    decreases |visible|
  {
    if visible == [] then cache
    else
      var n := |visible| - 1;
      SpecializeEntity(SpecializeEntities(cache, w, viewEntity, viewKey, visible[..n], thisRun, c),
                       w, viewEntity, viewKey, visible[n].mainEntity, thisRun, c)
  }

  /**
   * After the inner loop, a pair of this view whose entity is visible holds
   * what one visit leaves, however often the entity is listed; every other
   * pair is untouched.
   */
  lemma {:induction false} SpecializeEntitiesAt<D>(
    cache: Cache, w: RenderWorld<D>, viewEntity: Entity, viewKey: MeshPipelineKey,
    visible: seq<VisibleEntity>, thisRun: Tick, c: Collaborators<D>, p: (Entity, Entity))
    requires TicksPresentFor(w, viewEntity, visible)
    ensures p.0 == viewEntity && Lists(visible, p.1) ==>
              Get(SpecializeEntities(cache, w, viewEntity, viewKey, visible, thisRun, c), p) ==
              StepPair(Get(cache, p), w, viewEntity, viewKey, p.1, thisRun, c)
    ensures !(p.0 == viewEntity && Lists(visible, p.1)) ==>
              Get(SpecializeEntities(cache, w, viewEntity, viewKey, visible, thisRun, c), p) == Get(cache, p)
    decreases |visible|
  {
    if visible != [] {
      var n := |visible| - 1;
      var init := visible[..n];
      var e := visible[n].mainEntity;
      var mid := SpecializeEntities(cache, w, viewEntity, viewKey, init, thisRun, c);
      SpecializeEntitiesAt(cache, w, viewEntity, viewKey, init, thisRun, c, p);
      SpecializeEntityAt(mid, w, viewEntity, viewKey, e, thisRun, c, p);
      assert Lists(visible, p.1) <==> Lists(init, p.1) || e == p.1 by {
        if Lists(visible, p.1) {
          var j :| 0 <= j < |visible| && visible[j].mainEntity == p.1;
          if j < n { assert init[j] == visible[j]; }
        }
        if Lists(init, p.1) {
          var j :| 0 <= j < |init| && init[j].mainEntity == p.1;
          assert visible[j] == init[j];
        }
      }
      if p == (viewEntity, e) && Lists(init, p.1) {
        StepPairIdempotent(Get(cache, p), w, viewEntity, viewKey, e, thisRun, c);
      }
    }
  }

  /** A view is processed when it has some render phase and a cached view key. */
  predicate ViewProcessed<D>(w: RenderWorld<D>, phaseViews: set<RetainedViewEntity>, view: View) {
    view.retainedViewEntity in phaseViews && view.mainEntity in w.viewKeys
  }

  /** Every tick a processed view's inner loop unwraps is there. */
  predicate TicksPresent<D>(w: RenderWorld<D>, phaseViews: set<RetainedViewEntity>, views: seq<View>) {
    forall i :: 0 <= i < |views| && ViewProcessed(w, phaseViews, views[i]) ==>
      TicksPresentFor(w, views[i].mainEntity, views[i].visible)
  }

  /** The outer loop body for one view. */
  function SpecializeView<D>(
    cache: Cache, w: RenderWorld<D>, phaseViews: set<RetainedViewEntity>, view: View,
    thisRun: Tick, c: Collaborators<D>): Cache
    requires ViewProcessed(w, phaseViews, view) ==> TicksPresentFor(w, view.mainEntity, view.visible)
  {
    if !ViewProcessed(w, phaseViews, view) then cache
    else SpecializeEntities(cache, w, view.mainEntity, w.viewKeys[view.mainEntity], view.visible, thisRun, c)
  }

  /** The outer loop over the views, in query order. */
  function SpecializeViews<D>(
    cache: Cache, w: RenderWorld<D>, phaseViews: set<RetainedViewEntity>, views: seq<View>,
    thisRun: Tick, c: Collaborators<D>): Cache
    requires TicksPresent(w, phaseViews, views)
    decreases |views|
  {
    if views == [] then cache
    else
      var n := |views| - 1;
      SpecializeView(SpecializeViews(cache, w, phaseViews, views[..n], thisRun, c), w, phaseViews, views[n], thisRun, c)
  }

  /** Whether pair `p` is visited: `p.0` is a processed view from which `p.1` is visible. */
  predicate Visited<D>(w: RenderWorld<D>, phaseViews: set<RetainedViewEntity>, views: seq<View>, p: (Entity, Entity)) {
    exists i :: 0 <= i < |views| && views[i].mainEntity == p.0 && ViewProcessed(w, phaseViews, views[i]) &&
                Lists(views[i].visible, p.1)
  }

  /** The ticks and view key `StepPair` needs for a visited pair are there. */
  lemma VisitedHasTicks<D>(w: RenderWorld<D>, phaseViews: set<RetainedViewEntity>, views: seq<View>, p: (Entity, Entity))
    requires TicksPresent(w, phaseViews, views) && Visited(w, phaseViews, views, p)
    ensures p.0 in w.viewKeys && p.0 in w.viewTicks && p.1 in w.entityTicks
  {
    var i :| 0 <= i < |views| && views[i].mainEntity == p.0 && ViewProcessed(w, phaseViews, views[i]) &&
             Lists(views[i].visible, p.1);
    var j :| 0 <= j < |views[i].visible| && views[i].visible[j].mainEntity == p.1;
  }

  /** What the whole pass leaves as the entry of pair `p`. */
  function PassEntry<D>(
    cache: Cache, w: RenderWorld<D>, phaseViews: set<RetainedViewEntity>, views: seq<View>,
    thisRun: Tick, c: Collaborators<D>, p: (Entity, Entity)): Option<CacheEntry>
    requires TicksPresent(w, phaseViews, views)
  {
    if Visited(w, phaseViews, views, p) then
      VisitedHasTicks(w, phaseViews, views, p);
      StepPair(Get(cache, p), w, p.0, w.viewKeys[p.0], p.1, thisRun, c)
    else Get(cache, p)
  }

  /**
   * What the cache holds after `specialize_material_meshes`: every visited
   * pair holds what one visit leaves (re-specialized exactly when it is dirty
   * and its inputs are there and specialization succeeds, see
   * `StepPairOutcomes`), and every other pair keeps its entry.
   */
  lemma {:induction false} SpecializeViewsAt<D>(
    cache: Cache, w: RenderWorld<D>, phaseViews: set<RetainedViewEntity>, views: seq<View>,
    thisRun: Tick, c: Collaborators<D>, p: (Entity, Entity))
    requires TicksPresent(w, phaseViews, views)
    ensures Get(SpecializeViews(cache, w, phaseViews, views, thisRun, c), p) ==
              PassEntry(cache, w, phaseViews, views, thisRun, c, p)
    decreases |views|
  {
    if views != [] {
      var n := |views| - 1;
      var init := views[..n];
      var view := views[n];
      assert TicksPresent(w, phaseViews, init) by {
        forall i | 0 <= i < |init| && ViewProcessed(w, phaseViews, init[i])
          ensures TicksPresentFor(w, init[i].mainEntity, init[i].visible)
        {
          assert init[i] == views[i];
        }
      }
      var mid := SpecializeViews(cache, w, phaseViews, init, thisRun, c);
      SpecializeViewsAt(cache, w, phaseViews, init, thisRun, c, p);
      assert Visited(w, phaseViews, views, p) <==>
             Visited(w, phaseViews, init, p) ||
             (view.mainEntity == p.0 && ViewProcessed(w, phaseViews, view) && Lists(view.visible, p.1)) by {
        if Visited(w, phaseViews, views, p) {
          var i :| 0 <= i < |views| && views[i].mainEntity == p.0 && ViewProcessed(w, phaseViews, views[i]) &&
                   Lists(views[i].visible, p.1);
          if i < n { assert init[i] == views[i]; }
        }
        if Visited(w, phaseViews, init, p) {
          var i :| 0 <= i < |init| && init[i].mainEntity == p.0 && ViewProcessed(w, phaseViews, init[i]) &&
                   Lists(init[i].visible, p.1);
          assert views[i] == init[i];
        }
      }
      if ViewProcessed(w, phaseViews, view) {
        var vk := w.viewKeys[view.mainEntity];
        SpecializeEntitiesAt(mid, w, view.mainEntity, vk, view.visible, thisRun, c, p);
        if view.mainEntity == p.0 && Lists(view.visible, p.1) && Visited(w, phaseViews, init, p) {
          VisitedHasTicks(w, phaseViews, init, p);
          StepPairIdempotent(Get(cache, p), w, p.0, vk, p.1, thisRun, c);
        }
      }
    }
  }

  /**
   * Builds a mesh's key step by step, the way the pass does: the material's
   * bits gain the alpha-mode bits, are joined with the view key and the mesh's
   * bits, and then gain the lightmap, dither and previous-frame flags.
   */
  method BuildMeshKey(
    viewKey: MeshPipelineKey, mesh: RenderMesh, props: MaterialProperties, instance: MeshInstance,
    lightmap: Option<RenderLightmap>, crossfading: bool) returns (meshKey: MeshPipelineKey)
    ensures meshKey == MeshKeyFor(viewKey, mesh, props, instance, lightmap, crossfading)
  {
    var bits := props.meshPipelineKeyBits;
    bits := bits + AlphaModePipelineKey(props.alphaMode, ViewMsaa(viewKey));
    meshKey := viewKey + mesh.keyBits + bits;
    if lightmap.Some? {
      meshKey := meshKey + {Lightmapped};
      if lightmap.value.bicubicSampling {
        meshKey := meshKey + {LightmapBicubicSampling};
      }
    }
    if crossfading {
      meshKey := meshKey + {VisibilityRangeDither};
    }
    if MotionVectorPrepass in viewKey {
      if instance.hasPreviousSkin {
        meshKey := meshKey + {HasPreviousSkin};
      }
      if instance.hasPreviousMorph {
        meshKey := meshKey + {HasPreviousMorph};
      }
    }
  }

  /** `SpecializedMaterialPipelineCache<M>`. */
  class SpecializedMaterialPipelineCache {
    var entries: Cache

    constructor ()
      ensures entries == map[]
    {
      entries := map[];
    }

    /** The inner loop body of `specialize_material_meshes` for visible entity `e`. */
    method VisitPair<D>(
      w: RenderWorld<D>, viewEntity: Entity, viewKey: MeshPipelineKey, e: Entity,
      thisRun: Tick, c: Collaborators<D>)
      requires viewEntity in w.viewTicks && e in w.entityTicks
      modifies this
      ensures entries == SpecializeEntity(old(entries), w, viewEntity, viewKey, e, thisRun, c)
    {
      var viewTick := w.viewTicks[viewEntity];
      var entityTick := w.entityTicks[e];
      var pair := (viewEntity, e);
      var needs := pair !in entries || c.isNewerThan(viewTick, entries[pair].tick, thisRun) ||
                   c.isNewerThan(entityTick, entries[pair].tick, thisRun);
      if !needs {
        return;
      }
      if e !in w.materialInstances {
        return;
      }
      var materialAssetId := w.materialInstances[e];
      if e !in w.meshInstances {
        return;
      }
      var meshInstance := w.meshInstances[e];
      if meshInstance.meshAssetId !in w.renderMeshes {
        return;
      }
      var mesh := w.renderMeshes[meshInstance.meshAssetId];
      if materialAssetId !in w.renderMaterials {
        return;
      }
      var material := w.renderMaterials[materialAssetId];
      if material.binding.group !in w.bindGroups {
        return;
      }
      var bindGroup := w.bindGroups[material.binding.group];
      var meshKey := BuildMeshKey(viewKey, mesh, material.properties, meshInstance,
                                  Get(w.lightmaps, e), e in w.crossfading);
      var key := MaterialPipelineKey(meshKey, bindGroup.extraData(material.binding.slot));
      var pipelineId := c.specialize(key, mesh.layout);
      if pipelineId.Err? {
        return;
      }
      entries := entries[pair := CacheEntry(thisRun, pipelineId.value)];
    }

    /**
     * `specialize_material_meshes`: a view is skipped unless it has at least
     * one of the four render phases and a cached view key.
     */
    method SpecializeMaterialMeshes<D>(
      w: RenderWorld<D>, phases: ViewRenderPhases, views: seq<View>,
      thisRun: Tick, c: Collaborators<D>)
      requires TicksPresent(w, phases.ViewsWithAnyPhase(), views)
      modifies this
      ensures entries == SpecializeViews(old(entries), w, phases.ViewsWithAnyPhase(), views, thisRun, c)
    {
      ghost var phaseViews := phases.ViewsWithAnyPhase();
      var i := 0;
      while i < |views|
        invariant 0 <= i <= |views|
        invariant entries == SpecializeViews(old(entries), w, phaseViews, views[..i], thisRun, c)
      {
        var view := views[i];
        assert views[..i + 1][..i] == views[..i];
        i := i + 1;
        var r := view.retainedViewEntity;
        if r !in phases.transparentPhases && r !in phases.opaquePhases &&
           r !in phases.alphaMaskPhases && r !in phases.transmissivePhases {
          continue;
        }
        if view.mainEntity !in w.viewKeys {
          continue;
        }
        var viewKey := w.viewKeys[view.mainEntity];
        ghost var start := entries;
        var j := 0;
        while j < |view.visible|
          invariant 0 <= j <= |view.visible|
          invariant entries == SpecializeEntities(start, w, view.mainEntity, viewKey, view.visible[..j], thisRun, c)
        {
          assert view.visible[..j + 1][..j] == view.visible[..j];
          VisitPair(w, view.mainEntity, viewKey, view.visible[j].mainEntity, thisRun, c);
          j := j + 1;
        }
        assert view.visible[..j] == view.visible;
      }
      assert views[..i] == views;
    }
  }
}
