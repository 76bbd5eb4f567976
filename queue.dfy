/**
 * `queue_material_meshes`: for every view that has all four render phases,
 * put each visible mesh that has a specialized pipeline into the phase its
 * material belongs to, keep meshes already binned with an up-to-date tick
 * where they are, and finally sweep both binned phases so that only the
 * meshes seen this pass stay binned.
 */
module Queue {
  import opened Wrappers
  import opened RenderIds
  import opened PreparedMaterials
  import opened RenderPhases
  import opened Specialize

  /** `SlabId::default()`, used when a mesh has no vertex slab. */
  const DefaultSlab: SlabId := 0

  /** `mesh_slabs`: a mesh the allocator does not know has neither slab. */
  function SlabsOf<D>(w: RenderWorld<D>, mesh: MeshAssetId): (s: MeshSlabs)
    ensures mesh !in w.meshSlabs ==> s == MeshSlabs(Option.None, Option.None)
    ensures mesh in w.meshSlabs ==> s == w.meshSlabs[mesh]
  {
    if mesh in w.meshSlabs then w.meshSlabs[mesh] else MeshSlabs(Option.None, Option.None)
  }

  function SlabOrDefault(slab: Option<SlabId>): SlabId {
    match slab
    case Some(s) => s
    case None => DefaultSlab
  }

  /** Whether everything queueing looks up for `e` is there. */
  predicate HasQueueInputs<D>(w: RenderWorld<D>, e: Entity) {
    e in w.materialInstances && e in w.meshInstances && w.materialInstances[e] in w.renderMaterials
  }

  function MaterialOf<D>(w: RenderWorld<D>, e: Entity): PreparedMaterial
    requires HasQueueInputs(w, e)
  {
    w.renderMaterials[w.materialInstances[e]]
  }

  /** The distance a sorted item of `e` is sorted by. */
  function DistanceOf<D>(w: RenderWorld<D>, view: View, e: Entity): real
    requires HasQueueInputs(w, e)
  {
    view.rangefinder(w.meshInstances[e].translation) + MaterialOf(w, e).properties.depthBias
  }

  /** The sorted phase `q` is `p`, or `p` with one item of entity `e` appended. */
  predicate AppendsAtMostOne(p: SortedPhase, q: SortedPhase, e: Entity) {
    q == p ||
    (|q.items| == |p.items| + 1 && q.items[..|p.items|] == p.items && q.items[|p.items|].mainEntity == e)
  }

  /**
   * The loop body for one visible mesh. It touches only that mesh: no other
   * entity's bin entry changes, only the mesh itself can be marked for the
   * sweep, no entity leaves a bin, and each sorted phase gains at most one
   * item, for this mesh.
   */
  function QueueEntity<D>(vp: ViewPhases, w: RenderWorld<D>, cache: Cache, view: View, v: VisibleEntity): (r: ViewPhases)
    ensures forall x :: x != v.mainEntity ==> Get(r.opaquePhase.entries, x) == Get(vp.opaquePhase.entries, x)
    ensures forall x :: x != v.mainEntity ==> Get(r.alphaMaskPhase.entries, x) == Get(vp.alphaMaskPhase.entries, x)
    ensures vp.opaquePhase.entries.Keys <= r.opaquePhase.entries.Keys
    ensures vp.alphaMaskPhase.entries.Keys <= r.alphaMaskPhase.entries.Keys
    ensures vp.opaquePhase.valid <= r.opaquePhase.valid <= vp.opaquePhase.valid + {v.mainEntity}
    ensures vp.alphaMaskPhase.valid <= r.alphaMaskPhase.valid <= vp.alphaMaskPhase.valid + {v.mainEntity}
    ensures AppendsAtMostOne(vp.transmissivePhase, r.transmissivePhase, v.mainEntity)
    ensures AppendsAtMostOne(vp.transparentPhase, r.transparentPhase, v.mainEntity)
  {
    var e := v.mainEntity;
    var pair := (view.mainEntity, e);
    if pair !in cache then vp
    else
      var entry := cache[pair];
      var opaqueCheck := ValidateCachedEntity(vp.opaquePhase, e, entry.tick);
      if opaqueCheck.0 then vp.(opaquePhase := opaqueCheck.1)
      else
        var alphaMaskCheck := ValidateCachedEntity(vp.alphaMaskPhase, e, entry.tick);
        if alphaMaskCheck.0 then vp.(alphaMaskPhase := alphaMaskCheck.1)
        else if !HasQueueInputs(w, e) then vp
        else
          var instance := w.meshInstances[e];
          var material := MaterialOf(w, e);
          var props := material.properties;
          var slabs := SlabsOf(w, instance.meshAssetId);
          match props.renderPhaseType
          case Transmissive =>
            vp.(transmissivePhase := AddSorted(vp.transmissivePhase,
              SortedItem(v.renderEntity, e, props.drawFunctionId, entry.pipeline,
                         DistanceOf(w, view, e), slabs.indexSlab.Some?)))
          case Opaque =>
            if props.renderMethod == Deferred then vp
            else
              vp.(opaquePhase := AddBinned(vp.opaquePhase, e,
                BinnedEntry(
                  Opaque3dBatchSetKey(entry.pipeline, props.drawFunctionId, Some(material.binding.group),
                                      SlabOrDefault(slabs.vertexSlab), slabs.indexSlab, instance.lightmapSlabIndex),
                  BinKey(instance.meshAssetId), v.renderEntity, instance.shouldBatch, entry.tick)))
          case AlphaMask =>
            vp.(alphaMaskPhase := AddBinned(vp.alphaMaskPhase, e,
              BinnedEntry(
                OpaqueNoLightmap3dBatchSetKey(props.drawFunctionId, entry.pipeline, Some(material.binding.group),
                                              SlabOrDefault(slabs.vertexSlab), slabs.indexSlab),
                BinKey(instance.meshAssetId), v.renderEntity, instance.shouldBatch, entry.tick)))
          case Transparent =>
            vp.(transparentPhase := AddSorted(vp.transparentPhase,
              SortedItem(v.renderEntity, e, props.drawFunctionId, entry.pipeline,
                         DistanceOf(w, view, e), slabs.indexSlab.Some?)))
  }

  /**
   * The three ways a visible mesh is added to no phase: it has no cache
   * entry for this view; it is binned with its cached tick in the opaque or
   * alpha-mask phase (it is only kept for the sweep); or its material is
   * opaque and drawn deferred.
   */
  lemma QueueEntitySkips<D>(vp: ViewPhases, w: RenderWorld<D>, cache: Cache, view: View, v: VisibleEntity)
    ensures (view.mainEntity, v.mainEntity) !in cache ==> QueueEntity(vp, w, cache, view, v) == vp
    ensures (view.mainEntity, v.mainEntity) in cache &&
            IsCachedInBin(vp.opaquePhase, v.mainEntity, cache[(view.mainEntity, v.mainEntity)].tick) ==>
              QueueEntity(vp, w, cache, view, v) ==
              vp.(opaquePhase := vp.opaquePhase.(valid := vp.opaquePhase.valid + {v.mainEntity}))
    ensures (view.mainEntity, v.mainEntity) in cache &&
            !IsCachedInBin(vp.opaquePhase, v.mainEntity, cache[(view.mainEntity, v.mainEntity)].tick) &&
            IsCachedInBin(vp.alphaMaskPhase, v.mainEntity, cache[(view.mainEntity, v.mainEntity)].tick) ==>
              QueueEntity(vp, w, cache, view, v) ==
              vp.(alphaMaskPhase := vp.alphaMaskPhase.(valid := vp.alphaMaskPhase.valid + {v.mainEntity}))
    ensures HasQueueInputs(w, v.mainEntity) &&
            MaterialOf(w, v.mainEntity).properties.renderPhaseType == RenderPhaseType.Opaque &&
            MaterialOf(w, v.mainEntity).properties.renderMethod == Deferred ==>
              QueueEntity(vp, w, cache, view, v).opaquePhase.entries == vp.opaquePhase.entries &&
              QueueEntity(vp, w, cache, view, v).alphaMaskPhase.entries == vp.alphaMaskPhase.entries &&
              QueueEntity(vp, w, cache, view, v).transmissivePhase == vp.transmissivePhase &&
              QueueEntity(vp, w, cache, view, v).transparentPhase == vp.transparentPhase
  {
  }

  /**
   * Which phase a visible mesh lands in once it has a cache entry, is not
   * binned with that entry's tick, and its inputs are there: its material's
   * phase (opaque only when drawn forward), with every other phase untouched.
   */
  lemma QueueEntityDispatch<D>(vp: ViewPhases, w: RenderWorld<D>, cache: Cache, view: View, v: VisibleEntity)
    requires (view.mainEntity, v.mainEntity) in cache
    requires !IsCachedInBin(vp.opaquePhase, v.mainEntity, cache[(view.mainEntity, v.mainEntity)].tick)
    requires !IsCachedInBin(vp.alphaMaskPhase, v.mainEntity, cache[(view.mainEntity, v.mainEntity)].tick)
    requires HasQueueInputs(w, v.mainEntity)
    ensures var r := QueueEntity(vp, w, cache, view, v);
      var e := v.mainEntity;
      var props := MaterialOf(w, e).properties;
      && (props.renderPhaseType == RenderPhaseType.Opaque && props.renderMethod != Deferred ==>
            && r.opaquePhase.entries.Keys == vp.opaquePhase.entries.Keys + {e}
            && OpaqueEntryFor(w, cache, view, e, r.opaquePhase.entries[e])
            && r.opaquePhase.entries[e].renderEntity == v.renderEntity
            && r.opaquePhase.valid == vp.opaquePhase.valid + {e}
            && r.(opaquePhase := vp.opaquePhase) == vp)
      && (props.renderPhaseType == RenderPhaseType.AlphaMask ==>
            && r.alphaMaskPhase.entries.Keys == vp.alphaMaskPhase.entries.Keys + {e}
            && AlphaMaskEntryFor(w, cache, view, e, r.alphaMaskPhase.entries[e])
            && r.alphaMaskPhase.entries[e].renderEntity == v.renderEntity
            && r.alphaMaskPhase.valid == vp.alphaMaskPhase.valid + {e}
            && r.(alphaMaskPhase := vp.alphaMaskPhase) == vp)
      && (props.renderPhaseType == RenderPhaseType.Transmissive ==>
            && |r.transmissivePhase.items| == |vp.transmissivePhase.items| + 1
            && r.transmissivePhase.items[..|vp.transmissivePhase.items|] == vp.transmissivePhase.items
            && r.(transmissivePhase := vp.transmissivePhase) == vp
            && (var item := r.transmissivePhase.items[|vp.transmissivePhase.items|];
                SortedEntryFor(w, cache, view, item, RenderPhaseType.Transmissive) &&
                item.mainEntity == e && item.renderEntity == v.renderEntity))
      && (props.renderPhaseType == RenderPhaseType.Transparent ==>
            && |r.transparentPhase.items| == |vp.transparentPhase.items| + 1
            && r.transparentPhase.items[..|vp.transparentPhase.items|] == vp.transparentPhase.items
            && r.(transparentPhase := vp.transparentPhase) == vp
            && (var item := r.transparentPhase.items[|vp.transparentPhase.items|];
                SortedEntryFor(w, cache, view, item, RenderPhaseType.Transparent) &&
                item.mainEntity == e && item.renderEntity == v.renderEntity))
  {
  }

  // ---------------------------------------------------------------------
  // What the pass may put into a phase
  // ---------------------------------------------------------------------

  /** `e` has a cache entry for this view and is binned in `p` with its tick. */
  predicate BinnedWithCachedTick<K>(p: BinnedPhase<K>, cache: Cache, view: View, e: Entity) {
    (view.mainEntity, e) in cache && e in p.entries && p.entries[e].changeTick == cache[(view.mainEntity, e)].tick
  }

  /**
   * An opaque bin entry for `e`: an opaque forward material, with the cached
   * pipeline and tick, the mesh's slabs (the default vertex slab when it has
   * none), its lightmap slab and its batching flag.
   */
  predicate OpaqueEntryFor<D>(w: RenderWorld<D>, cache: Cache, view: View, e: Entity, entry: BinnedEntry<Opaque3dBatchSetKey>) {
    (view.mainEntity, e) in cache && HasQueueInputs(w, e) &&
    var props := MaterialOf(w, e).properties;
    var cached := cache[(view.mainEntity, e)];
    && props.renderPhaseType == RenderPhaseType.Opaque && props.renderMethod != Deferred
    && entry.batchSetKey.pipeline == cached.pipeline && entry.changeTick == cached.tick
    && entry.batchSetKey.drawFunction == props.drawFunctionId
    && entry.batchSetKey.materialBindGroupIndex == Some(MaterialOf(w, e).binding.group)
    && entry.batchSetKey.vertexSlab == SlabOrDefault(SlabsOf(w, w.meshInstances[e].meshAssetId).vertexSlab)
    && entry.batchSetKey.indexSlab == SlabsOf(w, w.meshInstances[e].meshAssetId).indexSlab
    && entry.batchSetKey.lightmapSlab == w.meshInstances[e].lightmapSlabIndex
    && entry.binKey == BinKey(w.meshInstances[e].meshAssetId)
    && entry.batchable == w.meshInstances[e].shouldBatch
  }

  /** An alpha-mask bin entry for `e`: an alpha-masked material, with the cached pipeline and tick, the mesh's slabs and its batching flag. */
  predicate AlphaMaskEntryFor<D>(w: RenderWorld<D>, cache: Cache, view: View, e: Entity, entry: BinnedEntry<OpaqueNoLightmap3dBatchSetKey>) {
    (view.mainEntity, e) in cache && HasQueueInputs(w, e) &&
    var props := MaterialOf(w, e).properties;
    var cached := cache[(view.mainEntity, e)];
    && props.renderPhaseType == RenderPhaseType.AlphaMask
    && entry.batchSetKey.pipeline == cached.pipeline && entry.changeTick == cached.tick
    && entry.batchSetKey.drawFunction == props.drawFunctionId
    && entry.batchSetKey.materialBindGroupIndex == Some(MaterialOf(w, e).binding.group)
    && entry.batchSetKey.vertexSlab == SlabOrDefault(SlabsOf(w, w.meshInstances[e].meshAssetId).vertexSlab)
    && entry.batchSetKey.indexSlab == SlabsOf(w, w.meshInstances[e].meshAssetId).indexSlab
    && entry.binKey == BinKey(w.meshInstances[e].meshAssetId)
    && entry.batchable == w.meshInstances[e].shouldBatch
  }

  /**
   * A sorted item of `phase`: the material's phase, the cached pipeline, the
   * view distance plus depth bias, and indexed exactly when the mesh has an
   * index slab.
   */
  predicate SortedEntryFor<D>(w: RenderWorld<D>, cache: Cache, view: View, item: SortedItem, phase: RenderPhaseType) {
    (view.mainEntity, item.mainEntity) in cache && HasQueueInputs(w, item.mainEntity) &&
    var props := MaterialOf(w, item.mainEntity).properties;
    && props.renderPhaseType == phase
    && item.pipeline == cache[(view.mainEntity, item.mainEntity)].pipeline
    && item.drawFunction == props.drawFunctionId
    && item.distance == DistanceOf(w, view, item.mainEntity)
    && item.indexed == SlabsOf(w, w.meshInstances[item.mainEntity].meshAssetId).indexSlab.Some?
  }

  /** Starting from `p0`, the opaque phase `p` only gained entries and marks the pass may set. */
  predicate OpaqueQueued<D>(
    p0: BinnedPhase<Opaque3dBatchSetKey>, p: BinnedPhase<Opaque3dBatchSetKey>,
    w: RenderWorld<D>, cache: Cache, view: View, visible: seq<VisibleEntity>) {
    && (forall x :: x in p.entries ==>
          (x in p0.entries && p.entries[x] == p0.entries[x]) ||
          (Lists(visible, x) && OpaqueEntryFor(w, cache, view, x, p.entries[x])))
    && (forall x :: x in p.valid ==> x in p0.valid || (Lists(visible, x) && BinnedWithCachedTick(p, cache, view, x)))
  }

  /** Starting from `p0`, the alpha-mask phase `p` only gained entries and marks the pass may set. */
  predicate AlphaMaskQueued<D>(
    p0: BinnedPhase<OpaqueNoLightmap3dBatchSetKey>, p: BinnedPhase<OpaqueNoLightmap3dBatchSetKey>,
    w: RenderWorld<D>, cache: Cache, view: View, visible: seq<VisibleEntity>) {
    && (forall x :: x in p.entries ==>
          (x in p0.entries && p.entries[x] == p0.entries[x]) ||
          (Lists(visible, x) && AlphaMaskEntryFor(w, cache, view, x, p.entries[x])))
    && (forall x :: x in p.valid ==> x in p0.valid || (Lists(visible, x) && BinnedWithCachedTick(p, cache, view, x)))
  }

  /** Starting from `p0`, the sorted phase `p` only had items of `phase` appended. */
  predicate SortedQueued<D>(
    p0: SortedPhase, p: SortedPhase, w: RenderWorld<D>, cache: Cache, view: View,
    visible: seq<VisibleEntity>, phase: RenderPhaseType) {
    && |p0.items| <= |p.items| && p.items[..|p0.items|] == p0.items
    && forall k :: |p0.items| <= k < |p.items| ==>
         Lists(visible, p.items[k].mainEntity) && SortedEntryFor(w, cache, view, p.items[k], phase)
  }

  predicate Queued<D>(vp0: ViewPhases, vp: ViewPhases, w: RenderWorld<D>, cache: Cache, view: View, visible: seq<VisibleEntity>) {
    && OpaqueQueued(vp0.opaquePhase, vp.opaquePhase, w, cache, view, visible)
    && AlphaMaskQueued(vp0.alphaMaskPhase, vp.alphaMaskPhase, w, cache, view, visible)
    && SortedQueued(vp0.transmissivePhase, vp.transmissivePhase, w, cache, view, visible, RenderPhaseType.Transmissive)
    && SortedQueued(vp0.transparentPhase, vp.transparentPhase, w, cache, view, visible, RenderPhaseType.Transparent)
  }

  /** The loop over a view's visible meshes. */
  function QueueEntities<D>(vp: ViewPhases, w: RenderWorld<D>, cache: Cache, view: View, visible: seq<VisibleEntity>): ViewPhases
    decreases |visible|
  {
    if visible == [] then vp
    else
      var n := |visible| - 1;
      QueueEntity(QueueEntities(vp, w, cache, view, visible[..n]), w, cache, view, visible[n])
  }

  /**
   * One step's own bin entries: the mesh either keeps the entry it had or
   * gets one for its material's phase, and it is marked for the sweep only
   * when it ends up binned with its cached tick.
   */
  lemma QueueEntityOwnBins<D>(vp: ViewPhases, w: RenderWorld<D>, cache: Cache, view: View, v: VisibleEntity)
    ensures var r := QueueEntity(vp, w, cache, view, v);
      var e := v.mainEntity;
      && (e in r.opaquePhase.entries ==>
            (e in vp.opaquePhase.entries && r.opaquePhase.entries[e] == vp.opaquePhase.entries[e]) ||
            OpaqueEntryFor(w, cache, view, e, r.opaquePhase.entries[e]))
      && (e in r.opaquePhase.valid ==> e in vp.opaquePhase.valid || BinnedWithCachedTick(r.opaquePhase, cache, view, e))
      && (e in r.alphaMaskPhase.entries ==>
            (e in vp.alphaMaskPhase.entries && r.alphaMaskPhase.entries[e] == vp.alphaMaskPhase.entries[e]) ||
            AlphaMaskEntryFor(w, cache, view, e, r.alphaMaskPhase.entries[e]))
      && (e in r.alphaMaskPhase.valid ==> e in vp.alphaMaskPhase.valid || BinnedWithCachedTick(r.alphaMaskPhase, cache, view, e))
  {
  }

  /** One step's own sorted items: an appended item is one for the mesh's material phase. */
  lemma QueueEntityOwnItems<D>(vp: ViewPhases, w: RenderWorld<D>, cache: Cache, view: View, v: VisibleEntity)
    ensures var r := QueueEntity(vp, w, cache, view, v);
      && (r.transmissivePhase != vp.transmissivePhase ==>
            SortedEntryFor(w, cache, view, r.transmissivePhase.items[|vp.transmissivePhase.items|], RenderPhaseType.Transmissive))
      && (r.transparentPhase != vp.transparentPhase ==>
            SortedEntryFor(w, cache, view, r.transparentPhase.items[|vp.transparentPhase.items|], RenderPhaseType.Transparent))
  {
  }

  /** Every mesh listed in a prefix of the visible meshes is listed in the whole. */
  lemma ListsPrefix(visible: seq<VisibleEntity>, n: nat, x: Entity)
    requires n <= |visible| && Lists(visible[..n], x)
    ensures Lists(visible, x)
  {
    var j :| 0 <= j < n && visible[..n][j].mainEntity == x;
    assert visible[j] == visible[..n][j];
  }

  /** A mesh listed among the visible meshes is listed before the last one or is the last one. */
  lemma ListsSplit(visible: seq<VisibleEntity>, x: Entity)
    requires visible != []
    ensures Lists(visible, x) ==> Lists(visible[..|visible| - 1], x) || visible[|visible| - 1].mainEntity == x
  {
    if Lists(visible, x) {
      var j :| 0 <= j < |visible| && visible[j].mainEntity == x;
      if j < |visible| - 1 { assert visible[..|visible| - 1][j] == visible[j]; }
    }
  }

  /** A step that touches only `e`'s opaque entry keeps `OpaqueQueued`, with `e` now listed. */
  lemma OpaqueStepQueued<D>(
    p0: BinnedPhase<Opaque3dBatchSetKey>, p: BinnedPhase<Opaque3dBatchSetKey>, q: BinnedPhase<Opaque3dBatchSetKey>,
    w: RenderWorld<D>, cache: Cache, view: View, visible: seq<VisibleEntity>)
    requires visible != [] && OpaqueQueued(p0, p, w, cache, view, visible[..|visible| - 1])
    requires var e := visible[|visible| - 1].mainEntity;
      && (forall x :: x != e ==> Get(q.entries, x) == Get(p.entries, x))
      && p.entries.Keys <= q.entries.Keys && q.valid <= p.valid + {e}
      && (e in q.entries ==> (e in p.entries && q.entries[e] == p.entries[e]) || OpaqueEntryFor(w, cache, view, e, q.entries[e]))
      && (e in q.valid ==> e in p.valid || BinnedWithCachedTick(q, cache, view, e))
    ensures OpaqueQueued(p0, q, w, cache, view, visible)
  {
    var n := |visible| - 1;
    var e := visible[n].mainEntity;
    assert Lists(visible, e);
    forall x | x in q.entries
      ensures (x in p0.entries && q.entries[x] == p0.entries[x]) || (Lists(visible, x) && OpaqueEntryFor(w, cache, view, x, q.entries[x]))
    {
      if x != e {
        assert Get(q.entries, x) == Get(p.entries, x);
        if Lists(visible[..n], x) { ListsPrefix(visible, n, x); }
      } else if x in p.entries && q.entries[x] == p.entries[x] {
        if Lists(visible[..n], x) { ListsPrefix(visible, n, x); }
      }
    }
    forall x | x in q.valid
      ensures x in p0.valid || (Lists(visible, x) && BinnedWithCachedTick(q, cache, view, x))
    {
      if x != e {
        assert Get(q.entries, x) == Get(p.entries, x);
        if Lists(visible[..n], x) { ListsPrefix(visible, n, x); }
      } else if x in p.valid && !(x in p0.valid) {
        assert BinnedWithCachedTick(p, cache, view, x);
        ListsPrefix(visible, n, x);
        assert x in q.entries;
        if q.entries[x] == p.entries[x] {
          assert BinnedWithCachedTick(q, cache, view, x);
        }
      }
    }
  }

  /** A step that touches only `e`'s alpha-mask entry keeps `AlphaMaskQueued`, with `e` now listed. */
  lemma AlphaMaskStepQueued<D>(
    p0: BinnedPhase<OpaqueNoLightmap3dBatchSetKey>, p: BinnedPhase<OpaqueNoLightmap3dBatchSetKey>,
    q: BinnedPhase<OpaqueNoLightmap3dBatchSetKey>,
    w: RenderWorld<D>, cache: Cache, view: View, visible: seq<VisibleEntity>)
    requires visible != [] && AlphaMaskQueued(p0, p, w, cache, view, visible[..|visible| - 1])
    requires var e := visible[|visible| - 1].mainEntity;
      && (forall x :: x != e ==> Get(q.entries, x) == Get(p.entries, x))
      && p.entries.Keys <= q.entries.Keys && q.valid <= p.valid + {e}
      && (e in q.entries ==> (e in p.entries && q.entries[e] == p.entries[e]) || AlphaMaskEntryFor(w, cache, view, e, q.entries[e]))
      && (e in q.valid ==> e in p.valid || BinnedWithCachedTick(q, cache, view, e))
    ensures AlphaMaskQueued(p0, q, w, cache, view, visible)
  {
    var n := |visible| - 1;
    var e := visible[n].mainEntity;
    assert Lists(visible, e);
    forall x | x in q.entries
      ensures (x in p0.entries && q.entries[x] == p0.entries[x]) || (Lists(visible, x) && AlphaMaskEntryFor(w, cache, view, x, q.entries[x]))
    {
      if x != e {
        assert Get(q.entries, x) == Get(p.entries, x);
        if Lists(visible[..n], x) { ListsPrefix(visible, n, x); }
      } else if x in p.entries && q.entries[x] == p.entries[x] {
        if Lists(visible[..n], x) { ListsPrefix(visible, n, x); }
      }
    }
    forall x | x in q.valid
      ensures x in p0.valid || (Lists(visible, x) && BinnedWithCachedTick(q, cache, view, x))
    {
      if x != e {
        assert Get(q.entries, x) == Get(p.entries, x);
        if Lists(visible[..n], x) { ListsPrefix(visible, n, x); }
      } else if x in p.valid && !(x in p0.valid) {
        assert BinnedWithCachedTick(p, cache, view, x);
        ListsPrefix(visible, n, x);
        assert x in q.entries;
        if q.entries[x] == p.entries[x] {
          assert BinnedWithCachedTick(q, cache, view, x);
        }
      }
    }
  }

  /** A step that appends at most one item, for `e` and of `phase`, keeps `SortedQueued`. */
  lemma SortedStepQueued<D>(
    p0: SortedPhase, p: SortedPhase, q: SortedPhase,
    w: RenderWorld<D>, cache: Cache, view: View, visible: seq<VisibleEntity>, phase: RenderPhaseType)
    requires visible != [] && SortedQueued(p0, p, w, cache, view, visible[..|visible| - 1], phase)
    requires AppendsAtMostOne(p, q, visible[|visible| - 1].mainEntity)
    requires q != p ==> SortedEntryFor(w, cache, view, q.items[|p.items|], phase)
    ensures SortedQueued(p0, q, w, cache, view, visible, phase)
  {
    var n := |visible| - 1;
    assert Lists(visible, visible[n].mainEntity);
    if q != p {
      assert q.items[..|p0.items|] == q.items[..|p.items|][..|p0.items|];
      forall k | |p0.items| <= k < |q.items|
        ensures Lists(visible, q.items[k].mainEntity) && SortedEntryFor(w, cache, view, q.items[k], phase)
      {
        if k < |p.items| {
          assert q.items[k] == q.items[..|p.items|][k];
          ListsPrefix(visible, n, q.items[k].mainEntity);
        }
      }
    } else {
      forall k | |p0.items| <= k < |q.items|
        ensures Lists(visible, q.items[k].mainEntity)
      {
        ListsPrefix(visible, n, q.items[k].mainEntity);
      }
    }
  }

  /** One step keeps `Queued` with the stepped entity added to the visible list. */
  lemma QueueEntityQueued<D>(
    vp0: ViewPhases, vp: ViewPhases, w: RenderWorld<D>, cache: Cache, view: View, visible: seq<VisibleEntity>)
    requires visible != [] && Queued(vp0, vp, w, cache, view, visible[..|visible| - 1])
    ensures Queued(vp0, QueueEntity(vp, w, cache, view, visible[|visible| - 1]), w, cache, view, visible)
  {
    var v := visible[|visible| - 1];
    var r := QueueEntity(vp, w, cache, view, v);
    QueueEntityOwnBins(vp, w, cache, view, v);
    QueueEntityOwnItems(vp, w, cache, view, v);
    OpaqueStepQueued(vp0.opaquePhase, vp.opaquePhase, r.opaquePhase, w, cache, view, visible);
    AlphaMaskStepQueued(vp0.alphaMaskPhase, vp.alphaMaskPhase, r.alphaMaskPhase, w, cache, view, visible);
    SortedStepQueued(vp0.transmissivePhase, vp.transmissivePhase, r.transmissivePhase, w, cache, view, visible,
                     RenderPhaseType.Transmissive);
    SortedStepQueued(vp0.transparentPhase, vp.transparentPhase, r.transparentPhase, w, cache, view, visible,
                     RenderPhaseType.Transparent);
  }

  /**
   * The loop over a view's visible meshes only validates or adds meshes
   * listed in it, each bin entry and sorted item it adds carries the cached
   * pipeline of its (view, entity) pair and matches its material's phase,
   * and the sorted phases are only appended to.
   */
  lemma {:induction false} QueueEntitiesQueued<D>(vp: ViewPhases, w: RenderWorld<D>, cache: Cache, view: View, visible: seq<VisibleEntity>)
    ensures Queued(vp, QueueEntities(vp, w, cache, view, visible), w, cache, view, visible)
    decreases |visible|
  {
    if visible != [] {
      var n := |visible| - 1;
      QueueEntitiesQueued(vp, w, cache, view, visible[..n]);
      QueueEntityQueued(vp, QueueEntities(vp, w, cache, view, visible[..n]), w, cache, view, visible);
    }
  }

  /** One view: the loop over its visible meshes, then a sweep of both binned phases. */
  function QueueView<D>(vp: ViewPhases, w: RenderWorld<D>, cache: Cache, view: View): ViewPhases {
    var r := QueueEntities(vp, w, cache, view, view.visible);
    r.(opaquePhase := Sweep(r.opaquePhase), alphaMaskPhase := Sweep(r.alphaMaskPhase))
  }

  /**
   * Starting from swept phases, a view ends with swept phases whose binned
   * meshes are all visible from it this pass and binned with their cached
   * tick: a mesh no longer visible, or without a cache entry, is dropped.
   * Each binned mesh either kept its old entry or got a new one for its
   * material's phase and cached pipeline; sorted phases only gained items.
   */
  lemma QueueViewSwept<D>(vp: ViewPhases, w: RenderWorld<D>, cache: Cache, view: View)
    requires vp.opaquePhase.valid == {} && vp.alphaMaskPhase.valid == {}
    ensures var r := QueueView(vp, w, cache, view);
      && r.opaquePhase.valid == {} && r.alphaMaskPhase.valid == {}
      && (forall x :: x in r.opaquePhase.entries ==>
            Lists(view.visible, x) && BinnedWithCachedTick(r.opaquePhase, cache, view, x) &&
            ((x in vp.opaquePhase.entries && r.opaquePhase.entries[x] == vp.opaquePhase.entries[x]) ||
             OpaqueEntryFor(w, cache, view, x, r.opaquePhase.entries[x])))
      && (forall x :: x in r.alphaMaskPhase.entries ==>
            Lists(view.visible, x) && BinnedWithCachedTick(r.alphaMaskPhase, cache, view, x) &&
            ((x in vp.alphaMaskPhase.entries && r.alphaMaskPhase.entries[x] == vp.alphaMaskPhase.entries[x]) ||
             AlphaMaskEntryFor(w, cache, view, x, r.alphaMaskPhase.entries[x])))
      && SortedQueued(vp.transmissivePhase, r.transmissivePhase, w, cache, view, view.visible, RenderPhaseType.Transmissive)
      && SortedQueued(vp.transparentPhase, r.transparentPhase, w, cache, view, view.visible, RenderPhaseType.Transparent)
  {
    QueueEntitiesQueued(vp, w, cache, view, view.visible);
  }

  // ---------------------------------------------------------------------
  // What the pass must put into a phase
  // ---------------------------------------------------------------------

  /** Whether `x` has a bin entry marked for keeping in the opaque or the alpha-mask phase. */
  predicate Landed(vp: ViewPhases, x: Entity) {
    || (x in vp.opaquePhase.entries && x in vp.opaquePhase.valid)
    || (x in vp.alphaMaskPhase.entries && x in vp.alphaMaskPhase.valid)
  }

  /**
   * `x` is drawn from one of the binned phases: it has a cache entry for the
   * view, its inputs are there, and its material is alpha-masked or opaque
   * and drawn forward.
   */
  predicate BinsFor<D>(w: RenderWorld<D>, cache: Cache, view: View, x: Entity) {
    (view.mainEntity, x) in cache && HasQueueInputs(w, x) &&
    var props := MaterialOf(w, x).properties;
    props.renderPhaseType == RenderPhaseType.AlphaMask ||
    (props.renderPhaseType == RenderPhaseType.Opaque && props.renderMethod != Deferred)
  }

  /** Visiting a mesh drawn from a binned phase leaves it binned and marked. */
  lemma QueueEntityLands<D>(vp: ViewPhases, w: RenderWorld<D>, cache: Cache, view: View, v: VisibleEntity)
    requires BinsFor(w, cache, view, v.mainEntity)
    ensures Landed(QueueEntity(vp, w, cache, view, v), v.mainEntity)
  {
  }

  /** After the loop, every listed mesh drawn from a binned phase is binned and marked. */
  lemma {:induction false} QueueEntitiesLand<D>(
    vp: ViewPhases, w: RenderWorld<D>, cache: Cache, view: View, visible: seq<VisibleEntity>, x: Entity)
    requires Lists(visible, x) && BinsFor(w, cache, view, x)
    ensures Landed(QueueEntities(vp, w, cache, view, visible), x)
    decreases |visible|
  {
    var n := |visible| - 1;
    var v := visible[n];
    var mid := QueueEntities(vp, w, cache, view, visible[..n]);
    if v.mainEntity == x {
      QueueEntityLands(mid, w, cache, view, v);
    } else {
      var j :| 0 <= j < |visible| && visible[j].mainEntity == x;
      assert visible[..n][j] == visible[j];
      QueueEntitiesLand(vp, w, cache, view, visible[..n], x);
    }
  }

  /**
   * Every mesh visible from the view and drawn from a binned phase is in the
   * opaque or the alpha-mask phase once the view is queued and swept.
   */
  lemma QueueViewLands<D>(vp: ViewPhases, w: RenderWorld<D>, cache: Cache, view: View, x: Entity)
    requires Lists(view.visible, x) && BinsFor(w, cache, view, x)
    ensures var r := QueueView(vp, w, cache, view);
      x in r.opaquePhase.entries || x in r.alphaMaskPhase.entries
  {
    QueueEntitiesLand(vp, w, cache, view, view.visible, x);
  }

  /** The sorted phase `phase` of a view. */
  function SortedOf(vp: ViewPhases, phase: RenderPhaseType): SortedPhase
    requires phase.Transmissive? || phase.Transparent?
  {
    if phase.Transmissive? then vp.transmissivePhase else vp.transparentPhase
  }

  /**
   * `x` is drawn from the sorted phase `phase` and is not binned with its
   * cached tick, so a visit does not keep it in a bin instead.
   */
  predicate SortsFor<D>(vp: ViewPhases, w: RenderWorld<D>, cache: Cache, view: View, x: Entity, phase: RenderPhaseType) {
    (view.mainEntity, x) in cache && HasQueueInputs(w, x) &&
    MaterialOf(w, x).properties.renderPhaseType == phase &&
    !IsCachedInBin(vp.opaquePhase, x, cache[(view.mainEntity, x)].tick) &&
    !IsCachedInBin(vp.alphaMaskPhase, x, cache[(view.mainEntity, x)].tick)
  }

  /** Visiting a mesh drawn from a sorted phase appends one item for it there and leaves the bins alone. */
  lemma QueueEntitySorts<D>(vp: ViewPhases, w: RenderWorld<D>, cache: Cache, view: View, v: VisibleEntity, phase: RenderPhaseType)
    requires phase.Transmissive? || phase.Transparent?
    requires SortsFor(vp, w, cache, view, v.mainEntity, phase)
    ensures var r := QueueEntity(vp, w, cache, view, v);
      && r.opaquePhase.entries == vp.opaquePhase.entries && r.alphaMaskPhase.entries == vp.alphaMaskPhase.entries
      && |SortedOf(r, phase).items| == |SortedOf(vp, phase).items| + 1
      && SortedOf(r, phase).items[|SortedOf(vp, phase).items|].mainEntity == v.mainEntity
  {
  }

  lemma PrefixOfPrefix(a: seq<SortedItem>, b: seq<SortedItem>, c: seq<SortedItem>)
    requires |a| <= |b| <= |c| && c[..|b|] == b && b[..|a|] == a
    ensures c[..|a|] == a
  {
    assert c[..|a|] == c[..|b|][..|a|];
  }

  /**
   * The loop over the visible meshes leaves the bin entries of a mesh drawn
   * from a sorted phase alone, only appends to that phase, and appends an
   * item for the mesh if it is listed.
   */
  lemma {:induction false} QueueEntitiesAppend<D>(
    vp: ViewPhases, w: RenderWorld<D>, cache: Cache, view: View, visible: seq<VisibleEntity>, x: Entity,
    phase: RenderPhaseType)
    requires phase.Transmissive? || phase.Transparent?
    requires SortsFor(vp, w, cache, view, x, phase)
    ensures var r := QueueEntities(vp, w, cache, view, visible);
      && |SortedOf(vp, phase).items| <= |SortedOf(r, phase).items|
      && SortedOf(r, phase).items[..|SortedOf(vp, phase).items|] == SortedOf(vp, phase).items
      && (Lists(visible, x) ==>
            exists k :: |SortedOf(vp, phase).items| <= k < |SortedOf(r, phase).items| &&
                        SortedOf(r, phase).items[k].mainEntity == x)
    decreases |visible|
  {
    if visible != [] {
      var n := |visible| - 1;
      var v := visible[n];
      var mid := QueueEntities(vp, w, cache, view, visible[..n]);
      var r := QueueEntity(mid, w, cache, view, v);
      QueueEntitiesAppend(vp, w, cache, view, visible[..n], x, phase);
      if v.mainEntity == x {
        QueueEntitiesKeepBinsOf(vp, w, cache, view, visible[..n], x, phase);
        assert SortsFor(mid, w, cache, view, x, phase);
        QueueEntitySorts(mid, w, cache, view, v, phase);
      }
      ListsSplit(visible, x);
      SortedAppendStep(SortedOf(vp, phase), SortedOf(mid, phase), SortedOf(r, phase), x, v.mainEntity,
                       Lists(visible[..n], x));
    }
  }

  /** The loop over the visible meshes leaves the bin entries of a mesh drawn from a sorted phase alone. */
  lemma {:induction false} QueueEntitiesKeepBinsOf<D>(
    vp: ViewPhases, w: RenderWorld<D>, cache: Cache, view: View, visible: seq<VisibleEntity>, x: Entity,
    phase: RenderPhaseType)
    requires phase.Transmissive? || phase.Transparent?
    requires SortsFor(vp, w, cache, view, x, phase)
    ensures var r := QueueEntities(vp, w, cache, view, visible);
      && Get(r.opaquePhase.entries, x) == Get(vp.opaquePhase.entries, x)
      && Get(r.alphaMaskPhase.entries, x) == Get(vp.alphaMaskPhase.entries, x)
    decreases |visible|
  {
    if visible != [] {
      var n := |visible| - 1;
      var v := visible[n];
      var mid := QueueEntities(vp, w, cache, view, visible[..n]);
      QueueEntitiesKeepBinsOf(vp, w, cache, view, visible[..n], x, phase);
      if v.mainEntity == x {
        assert SortsFor(mid, w, cache, view, x, phase);
        QueueEntitySorts(mid, w, cache, view, v, phase);
      }
    }
  }

  /**
   * A sorted phase that extends `s0` and holds an item of `x` past it (when
   * `listed`) still does so after a step that appends at most one item,
   * for `e`, and does append when `e` is `x`.
   */
  lemma SortedAppendStep(s0: SortedPhase, s1: SortedPhase, s2: SortedPhase, x: Entity, e: Entity, listed: bool)
    requires |s0.items| <= |s1.items| && s1.items[..|s0.items|] == s0.items
    requires listed ==> exists k :: |s0.items| <= k < |s1.items| && s1.items[k].mainEntity == x
    requires AppendsAtMostOne(s1, s2, e) && (e == x ==> s2 != s1)
    ensures |s0.items| <= |s2.items| && s2.items[..|s0.items|] == s0.items
    ensures listed || e == x ==> exists k :: |s0.items| <= k < |s2.items| && s2.items[k].mainEntity == x
  {
    if s2 != s1 {
      PrefixOfPrefix(s0.items, s1.items, s2.items);
      if listed && e != x {
        var k :| |s0.items| <= k < |s1.items| && s1.items[k].mainEntity == x;
        assert s2.items[k] == s2.items[..|s1.items|][k];
      }
    }
  }

  /**
   * Every mesh visible from the view, drawn from a sorted phase and not
   * binned with its cached tick gets an item appended to that phase, with
   * its cached pipeline, and the items already there stay first.
   */
  lemma QueueViewAppends<D>(vp: ViewPhases, w: RenderWorld<D>, cache: Cache, view: View, x: Entity, phase: RenderPhaseType)
    requires phase.Transmissive? || phase.Transparent?
    requires Lists(view.visible, x) && SortsFor(vp, w, cache, view, x, phase)
    ensures var r := QueueView(vp, w, cache, view);
      && |SortedOf(vp, phase).items| <= |SortedOf(r, phase).items|
      && SortedOf(r, phase).items[..|SortedOf(vp, phase).items|] == SortedOf(vp, phase).items
      && exists k :: |SortedOf(vp, phase).items| <= k < |SortedOf(r, phase).items| &&
                     SortedOf(r, phase).items[k].mainEntity == x &&
                     SortedOf(r, phase).items[k].pipeline == cache[(view.mainEntity, x)].pipeline
  {
    QueueEntitiesAppend(vp, w, cache, view, view.visible, x, phase);
    QueueEntitiesQueued(vp, w, cache, view, view.visible);
  }

  // ---------------------------------------------------------------------
  // The loop over views
  // ---------------------------------------------------------------------

  /** The loop over views: a view without all four phases is skipped. */
  function QueueViews<D>(pm: PhaseMaps, w: RenderWorld<D>, cache: Cache, views: seq<View>): PhaseMaps
    decreases |views|
  {
    if views == [] then pm
    else
      var n := |views| - 1;
      var prev := QueueViews(pm, w, cache, views[..n]);
      var r := views[n].retainedViewEntity;
      if !HasAllPhases(prev, r) then prev
      else WithPhases(prev, r, QueueView(PhasesOf(prev, r), w, cache, views[n]))
  }

  /** Distinct views have distinct retained view entities. */
  predicate DistinctViews(views: seq<View>) {
    forall i, j :: 0 <= i < j < |views| ==> views[i].retainedViewEntity != views[j].retainedViewEntity
  }

  /** The pass never adds or removes a view's phases. */
  lemma {:induction false} QueueViewsKeepsViews<D>(pm: PhaseMaps, w: RenderWorld<D>, cache: Cache, views: seq<View>)
    ensures var out := QueueViews(pm, w, cache, views);
      && out.opaquePhases.Keys == pm.opaquePhases.Keys && out.alphaMaskPhases.Keys == pm.alphaMaskPhases.Keys
      && out.transmissivePhases.Keys == pm.transmissivePhases.Keys && out.transparentPhases.Keys == pm.transparentPhases.Keys
    decreases |views|
  {
    if views != [] {
      QueueViewsKeepsViews(pm, w, cache, views[..|views| - 1]);
    }
  }

  /**
   * After the pass, a view with all four phases holds what queueing that
   * view alone produces; the phases of every view not in the query are
   * unchanged.
   */
  lemma {:induction false} QueueViewsAt<D>(pm: PhaseMaps, w: RenderWorld<D>, cache: Cache, views: seq<View>, i: nat)
    requires DistinctViews(views) && i < |views| && HasAllPhases(pm, views[i].retainedViewEntity)
    ensures HasAllPhases(QueueViews(pm, w, cache, views), views[i].retainedViewEntity)
    ensures PhasesOf(QueueViews(pm, w, cache, views), views[i].retainedViewEntity) ==
              QueueView(PhasesOf(pm, views[i].retainedViewEntity), w, cache, views[i])
    decreases |views|
  {
    QueueViewsKeepsViews(pm, w, cache, views);
    var n := |views| - 1;
    var init := views[..n];
    QueueViewsKeepsViews(pm, w, cache, init);
    var r := views[i].retainedViewEntity;
    if i < n {
      assert init[i] == views[i];
      assert DistinctViews(init) by {
        forall a, b | 0 <= a < b < |init| ensures init[a].retainedViewEntity != init[b].retainedViewEntity {
          assert init[a] == views[a] && init[b] == views[b];
        }
      }
      QueueViewsAt(pm, w, cache, init, i);
      assert views[n].retainedViewEntity != r;
    } else {
      QueueViewsUntouched(pm, w, cache, init, r);
    }
  }

  /** A view none of the queried views names keeps its phases. */
  lemma {:induction false} QueueViewsUntouched<D>(pm: PhaseMaps, w: RenderWorld<D>, cache: Cache, views: seq<View>, r: RetainedViewEntity)
    requires forall i :: 0 <= i < |views| ==> views[i].retainedViewEntity != r
    ensures Get(QueueViews(pm, w, cache, views).opaquePhases, r) == Get(pm.opaquePhases, r)
    ensures Get(QueueViews(pm, w, cache, views).alphaMaskPhases, r) == Get(pm.alphaMaskPhases, r)
    ensures Get(QueueViews(pm, w, cache, views).transmissivePhases, r) == Get(pm.transmissivePhases, r)
    ensures Get(QueueViews(pm, w, cache, views).transparentPhases, r) == Get(pm.transparentPhases, r)
    decreases |views|
  {
    if views != [] {
      var n := |views| - 1;
      assert forall i :: 0 <= i < n ==> views[..n][i] == views[i];
      QueueViewsUntouched(pm, w, cache, views[..n], r);
      var prev := QueueViews(pm, w, cache, views[..n]);
      var r' := views[n].retainedViewEntity;
      if HasAllPhases(prev, r') {
        WithPhasesElsewhere(prev, r', QueueView(PhasesOf(prev, r'), w, cache, views[n]), r);
      }
    }
  }

  /** Replacing the phases of one view leaves every other view's phases alone. */
  lemma WithPhasesElsewhere(pm: PhaseMaps, r: RetainedViewEntity, vp: ViewPhases, other: RetainedViewEntity)
    requires other != r
    ensures Get(WithPhases(pm, r, vp).opaquePhases, other) == Get(pm.opaquePhases, other)
    ensures Get(WithPhases(pm, r, vp).alphaMaskPhases, other) == Get(pm.alphaMaskPhases, other)
    ensures Get(WithPhases(pm, r, vp).transmissivePhases, other) == Get(pm.transmissivePhases, other)
    ensures Get(WithPhases(pm, r, vp).transparentPhases, other) == Get(pm.transparentPhases, other)
  {
  }

  /** Swept phases stay swept across a whole pass. */
  lemma {:induction false} QueueViewsKeepsSwept<D>(pm: PhaseMaps, w: RenderWorld<D>, cache: Cache, views: seq<View>)
    requires AllSwept(pm)
    ensures AllSwept(QueueViews(pm, w, cache, views))
    decreases |views|
  {
    if views != [] {
      var n := |views| - 1;
      var prev := QueueViews(pm, w, cache, views[..n]);
      QueueViewsKeepsSwept(pm, w, cache, views[..n]);
      var r := views[n].retainedViewEntity;
      if HasAllPhases(prev, r) {
        QueueViewSwept(PhasesOf(prev, r), w, cache, views[n]);
      }
    }
  }

  // ---------------------------------------------------------------------
  // The pass
  // ---------------------------------------------------------------------

  /** The loop body of `queue_material_meshes` for one visible mesh, on the view's four phases. */
  method QueueVisibleEntity<D>(vp: ViewPhases, w: RenderWorld<D>, cache: Cache, view: View, v: VisibleEntity)
    returns (out: ViewPhases)
    ensures out == QueueEntity(vp, w, cache, view, v)
  {
    out := vp;
    var e := v.mainEntity;
    var pair := (view.mainEntity, e);
    if pair !in cache {
      return;
    }
    var entry := cache[pair];
    var opaqueCheck := ValidateCachedEntity(out.opaquePhase, e, entry.tick);
    out := out.(opaquePhase := opaqueCheck.1);
    if opaqueCheck.0 {
      return;
    }
    var alphaMaskCheck := ValidateCachedEntity(out.alphaMaskPhase, e, entry.tick);
    out := out.(alphaMaskPhase := alphaMaskCheck.1);
    if alphaMaskCheck.0 {
      return;
    }
    if e !in w.materialInstances {
      return;
    }
    var materialAssetId := w.materialInstances[e];
    if e !in w.meshInstances {
      return;
    }
    var instance := w.meshInstances[e];
    if materialAssetId !in w.renderMaterials {
      return;
    }
    var material := w.renderMaterials[materialAssetId];
    var props := material.properties;
    var slabs := SlabsOf(w, instance.meshAssetId);
    match props.renderPhaseType {
      case Transmissive =>
        var distance := view.rangefinder(instance.translation) + props.depthBias;
        out := out.(transmissivePhase := AddSorted(out.transmissivePhase,
          SortedItem(v.renderEntity, e, props.drawFunctionId, entry.pipeline, distance, slabs.indexSlab.Some?)));
      case Opaque =>
        if props.renderMethod == Deferred {
          return;
        }
        var batchSetKey := Opaque3dBatchSetKey(entry.pipeline, props.drawFunctionId, Some(material.binding.group),
                                               SlabOrDefault(slabs.vertexSlab), slabs.indexSlab,
                                               instance.lightmapSlabIndex);
        out := out.(opaquePhase := AddBinned(out.opaquePhase, e,
          BinnedEntry(batchSetKey, BinKey(instance.meshAssetId), v.renderEntity, instance.shouldBatch, entry.tick)));
      case AlphaMask =>
        var batchSetKey := OpaqueNoLightmap3dBatchSetKey(props.drawFunctionId, entry.pipeline,
                                                         Some(material.binding.group),
                                                         SlabOrDefault(slabs.vertexSlab), slabs.indexSlab);
        out := out.(alphaMaskPhase := AddBinned(out.alphaMaskPhase, e,
          BinnedEntry(batchSetKey, BinKey(instance.meshAssetId), v.renderEntity, instance.shouldBatch, entry.tick)));
      case Transparent =>
        var distance := view.rangefinder(instance.translation) + props.depthBias;
        out := out.(transparentPhase := AddSorted(out.transparentPhase,
          SortedItem(v.renderEntity, e, props.drawFunctionId, entry.pipeline, distance, slabs.indexSlab.Some?)));
    }
  }

  /** The body of `queue_material_meshes` for one view: its loop over visible meshes, then both sweeps. */
  method QueueOneView<D>(vp: ViewPhases, w: RenderWorld<D>, cache: Cache, view: View) returns (out: ViewPhases)
    ensures out == QueueView(vp, w, cache, view)
  {
    out := vp;
    var j := 0;
    while j < |view.visible|
      invariant 0 <= j <= |view.visible|
      invariant out == QueueEntities(vp, w, cache, view, view.visible[..j])
    {
      assert view.visible[..j + 1][..j] == view.visible[..j];
      out := QueueVisibleEntity(out, w, cache, view, view.visible[j]);
      j := j + 1;
    }
    assert view.visible[..j] == view.visible;
    // Sweep both binned phases: only meshes marked in this pass stay.
    out := out.(opaquePhase := Sweep(out.opaquePhase), alphaMaskPhase := Sweep(out.alphaMaskPhase));
  }

  /**
   * `queue_material_meshes`, reading the specialized pipelines in `cache`.
   * Phases that were swept before the pass are swept after it.
   */
  method QueueMaterialMeshes<D>(phases: ViewRenderPhases, w: RenderWorld<D>, cache: Cache, views: seq<View>)
    modifies phases
    ensures phases.Maps() == QueueViews(old(phases.Maps()), w, cache, views)
    ensures old(AllSwept(phases.Maps())) ==> AllSwept(phases.Maps())
  {
    var i := 0;
    while i < |views|
      invariant 0 <= i <= |views|
      invariant phases.Maps() == QueueViews(old(phases.Maps()), w, cache, views[..i])
    {
      var view := views[i];
      assert views[..i + 1][..i] == views[..i];
      i := i + 1;
      var r := view.retainedViewEntity;
      if r !in phases.opaquePhases || r !in phases.alphaMaskPhases ||
         r !in phases.transmissivePhases || r !in phases.transparentPhases {
        continue;
      }
      var vp := ViewPhases(phases.opaquePhases[r], phases.alphaMaskPhases[r],
                           phases.transmissivePhases[r], phases.transparentPhases[r]);
      ghost var prevMaps := phases.Maps();
      assert vp == PhasesOf(prevMaps, r);
      var queued := QueueOneView(vp, w, cache, view);
      phases.opaquePhases := phases.opaquePhases[r := queued.opaquePhase];
      phases.alphaMaskPhases := phases.alphaMaskPhases[r := queued.alphaMaskPhase];
      phases.transmissivePhases := phases.transmissivePhases[r := queued.transmissivePhase];
      phases.transparentPhases := phases.transparentPhases[r := queued.transparentPhase];
      assert phases.Maps() == WithPhases(prevMaps, r, queued);
    }
    assert views[..i] == views;
    if old(AllSwept(phases.Maps())) {
      QueueViewsKeepsSwept(old(phases.Maps()), w, cache, views);
    }
  }
}
