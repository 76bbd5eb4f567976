/**
 * An abstract stand-in for the render phases the core fills in
 * (`BinnedRenderPhase` for opaque and alpha-masked items, `SortedRenderPhase`
 * for transmissive and transparent ones), whose code lives outside the
 * material core. A binned phase remembers, per entity, the bin it was put in
 * and the change tick it was put there with, plus the entities validated or
 * added since the last sweep; a sweep drops every other entity.
 */
module RenderPhases {
  import opened Wrappers
  import opened RenderIds

  /** `Opaque3dBatchSetKey`. */
  datatype Opaque3dBatchSetKey = Opaque3dBatchSetKey(
    pipeline: PipelineId,
    drawFunction: DrawFunctionId,
    materialBindGroupIndex: Option<nat>,
    vertexSlab: SlabId,
    indexSlab: Option<SlabId>,
    lightmapSlab: Option<nat>)

  /** `OpaqueNoLightmap3dBatchSetKey`, used by the alpha-mask phase. */
  datatype OpaqueNoLightmap3dBatchSetKey = OpaqueNoLightmap3dBatchSetKey(
    drawFunction: DrawFunctionId,
    pipeline: PipelineId,
    materialBindGroupIndex: Option<nat>,
    vertexSlab: SlabId,
    indexSlab: Option<SlabId>)

  /** `Opaque3dBinKey` and `OpaqueNoLightmap3dBinKey`: the mesh asset. */
  datatype BinKey = BinKey(assetId: MeshAssetId)

  /** One binned entity: its bin, its render entity, whether it batches, and its tick. */
  datatype BinnedEntry<K> = BinnedEntry(
    batchSetKey: K,
    binKey: BinKey,
    renderEntity: RenderEntity,
    batchable: bool,
    changeTick: Tick)

  datatype BinnedPhase<K> = BinnedPhase(entries: map<Entity, BinnedEntry<K>>, valid: set<Entity>)

  /** Whether `e` sits in a bin with exactly this change tick. */
  predicate IsCachedInBin<K>(p: BinnedPhase<K>, e: Entity, tick: Tick) {
    e in p.entries && p.entries[e].changeTick == tick
  }

  /**
   * `validate_cached_entity`: true when the entity is binned with this tick,
   * in which case it is kept by the next sweep.
   */
  function ValidateCachedEntity<K>(p: BinnedPhase<K>, e: Entity, tick: Tick): (r: (bool, BinnedPhase<K>))
    ensures r.0 <==> IsCachedInBin(p, e, tick)
    ensures r.1.entries == p.entries
    ensures r.1.valid == if r.0 then p.valid + {e} else p.valid
  {
    if IsCachedInBin(p, e, tick) then (true, p.(valid := p.valid + {e})) else (false, p)
  }

  /** `add`: puts the entity in a bin (replacing where it was) and keeps it for the sweep. */
  function AddBinned<K>(p: BinnedPhase<K>, e: Entity, entry: BinnedEntry<K>): (r: BinnedPhase<K>)
    ensures r.entries == p.entries[e := entry] && r.valid == p.valid + {e}
  {
    BinnedPhase(p.entries[e := entry], p.valid + {e})
  }

  /** `sweep_old_entities`: drops every entity not validated or added since the last sweep. */
  function Sweep<K>(p: BinnedPhase<K>): (r: BinnedPhase<K>)
    ensures r.valid == {}
    ensures r.entries.Keys == p.entries.Keys * p.valid
    ensures forall e :: e in r.entries ==> r.entries[e] == p.entries[e]
  {
    BinnedPhase(map e | e in p.entries && e in p.valid :: p.entries[e], {})
  }

  /** `Transmissive3d` and `Transparent3d` items (the batch range and extra index are constant). */
  datatype SortedItem = SortedItem(
    renderEntity: RenderEntity,
    mainEntity: Entity,
    drawFunction: DrawFunctionId,
    pipeline: PipelineId,
    distance: real,
    indexed: bool)

  datatype SortedPhase = SortedPhase(items: seq<SortedItem>)

  /** `add` on a sorted phase: appends; sorting happens in a later pass. */
  function AddSorted(p: SortedPhase, item: SortedItem): (r: SortedPhase)
    ensures r.items == p.items + [item]
  {
    SortedPhase(p.items + [item])
  }

  /** The four phases of one view. */
  datatype ViewPhases = ViewPhases(
    opaquePhase: BinnedPhase<Opaque3dBatchSetKey>,
    alphaMaskPhase: BinnedPhase<OpaqueNoLightmap3dBatchSetKey>,
    transmissivePhase: SortedPhase,
    transparentPhase: SortedPhase)

  /** The four per-view phase maps, as one value. */
  datatype PhaseMaps = PhaseMaps(
    opaquePhases: map<RetainedViewEntity, BinnedPhase<Opaque3dBatchSetKey>>,
    alphaMaskPhases: map<RetainedViewEntity, BinnedPhase<OpaqueNoLightmap3dBatchSetKey>>,
    transmissivePhases: map<RetainedViewEntity, SortedPhase>,
    transparentPhases: map<RetainedViewEntity, SortedPhase>)

  /** Whether view `r` has all four phases. */
  predicate HasAllPhases(pm: PhaseMaps, r: RetainedViewEntity) {
    && r in pm.opaquePhases && r in pm.alphaMaskPhases
    && r in pm.transmissivePhases && r in pm.transparentPhases
  }

  /** The four phases of view `r`. */
  function PhasesOf(pm: PhaseMaps, r: RetainedViewEntity): ViewPhases
    requires HasAllPhases(pm, r)
  {
    ViewPhases(pm.opaquePhases[r], pm.alphaMaskPhases[r], pm.transmissivePhases[r], pm.transparentPhases[r])
  }

  /** Replaces the four phases of view `r`. */
  function WithPhases(pm: PhaseMaps, r: RetainedViewEntity, vp: ViewPhases): PhaseMaps {
    PhaseMaps(
      pm.opaquePhases[r := vp.opaquePhase],
      pm.alphaMaskPhases[r := vp.alphaMaskPhase],
      pm.transmissivePhases[r := vp.transmissivePhase],
      pm.transparentPhases[r := vp.transparentPhase])
  }

  /** No binned phase has entities marked valid: the state between two queueing passes. */
  predicate AllSwept(pm: PhaseMaps) {
    && (forall r :: r in pm.opaquePhases ==> pm.opaquePhases[r].valid == {})
    && (forall r :: r in pm.alphaMaskPhases ==> pm.alphaMaskPhases[r].valid == {})
  }

  /**
   * `ViewBinnedRenderPhases<Opaque3d>`, `ViewBinnedRenderPhases<AlphaMask3d>`,
   * `ViewSortedRenderPhases<Transmissive3d>` and
   * `ViewSortedRenderPhases<Transparent3d>`, keyed by retained view entity.
   */
  class ViewRenderPhases {
    var opaquePhases: map<RetainedViewEntity, BinnedPhase<Opaque3dBatchSetKey>>
    var alphaMaskPhases: map<RetainedViewEntity, BinnedPhase<OpaqueNoLightmap3dBatchSetKey>>
    var transmissivePhases: map<RetainedViewEntity, SortedPhase>
    var transparentPhases: map<RetainedViewEntity, SortedPhase>

    constructor ()
      ensures opaquePhases == map[] && alphaMaskPhases == map[]
      ensures transmissivePhases == map[] && transparentPhases == map[]
    {
      opaquePhases := map[];
      alphaMaskPhases := map[];
      transmissivePhases := map[];
      transparentPhases := map[];
    }

    /** The four maps, as one value. */
    function Maps(): PhaseMaps
      reads this
    {
      PhaseMaps(opaquePhases, alphaMaskPhases, transmissivePhases, transparentPhases)
    }

    /** The views that have at least one of the four phases. */
    function ViewsWithAnyPhase(): set<RetainedViewEntity>
      reads this
    {
      opaquePhases.Keys + alphaMaskPhases.Keys + transmissivePhases.Keys + transparentPhases.Keys
    }
  }
}
