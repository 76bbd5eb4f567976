/**
 * The extraction and dirty-tracking passes: which material each render-world
 * entity uses (`extract_mesh_materials`), which entities changed this frame
 * (`check_entities_needing_specialization`) and the tick at which each
 * entity last changed (`extract_entities_needs_specialization`).
 */
module Extract {
  import opened Wrappers
  import opened RenderIds

  // ---------------------------------------------------------------------
  // extract_mesh_materials
  // ---------------------------------------------------------------------

  /**
   * One row of the query over meshes whose visibility or material changed:
   * the entity, whether it is visible, and its material asset.
   */
  datatype ChangedMesh = ChangedMesh(entity: Entity, visible: bool, material: AssetId)

  /** `RenderMaterialInstances<M>`: the material asset of each extracted entity. */
  class RenderMaterialInstances {
    const materialType: MaterialTypeId
    var instances: map<Entity, AssetId>

    constructor (materialType: MaterialTypeId)
      ensures this.materialType == materialType && instances == map[]
    {
      this.materialType := materialType;
      instances := map[];
    }
  }

  /** `RenderMeshMaterialIds`: the untyped material id of each extracted entity. */
  class RenderMeshMaterialIds {
    var ids: map<Entity, UntypedAssetId>

    constructor ()
      ensures ids == map[]
    {
      ids := map[];
    }
  }

  /** The last row of the changed-mesh query that is about `e`, if any. */
  function LastChange(changed: seq<ChangedMesh>, e: Entity): Option<ChangedMesh>
    decreases |changed|
  {
    if changed == [] then None
    else if changed[|changed| - 1].entity == e then Some(changed[|changed| - 1])
    else LastChange(changed[..|changed| - 1], e)
  }

  /**
   * The changed-mesh query holds `e` exactly when some row is about it, and
   * the row `LastChange` finds is the last such row.
   */
  lemma {:induction false} LastChangeFound(changed: seq<ChangedMesh>, e: Entity)
    ensures LastChange(changed, e).Some? <==> exists j :: 0 <= j < |changed| && changed[j].entity == e
    ensures LastChange(changed, e).Some? ==>
              exists j :: 0 <= j < |changed| && changed[j] == LastChange(changed, e).value && changed[j].entity == e &&
                          forall j' :: j < j' < |changed| ==> changed[j'].entity != e
    decreases |changed|
  {
    if changed != [] {
      var n := |changed| - 1;
      var init := changed[..n];
      if changed[n].entity != e {
        LastChangeFound(init, e);
        if LastChange(changed, e).Some? {
          var j :| 0 <= j < |init| && init[j] == LastChange(init, e).value && init[j].entity == e &&
                   forall j' :: j < j' < |init| ==> init[j'].entity != e;
          assert changed[j] == init[j];
        } else {
          forall j | 0 <= j < |changed| ensures changed[j].entity != e {
            if j < n { assert changed[j] == init[j]; }
          }
        }
      }
    }
  }

  /** `changed_meshes_query.contains(entity)`. */
  predicate QueryContains(changed: seq<ChangedMesh>, e: Entity) {
    LastChange(changed, e).Some?
  }

  /** What extraction does to one entity's entry in the two maps. */
  datatype InstanceUpdate = Keep | Insert(material: AssetId) | Remove

  /**
   * The net effect of `extract_mesh_materials` on entity `e`: a changed,
   * visible mesh gets its material inserted, a changed invisible one is
   * removed, and a mesh whose visibility or material component was removed
   * is removed only if the changed-mesh query does not hold it.
   */
  function InstanceUpdateFor(changed: seq<ChangedMesh>, removed: seq<Entity>, e: Entity): InstanceUpdate {
    match LastChange(changed, e)
    case Some(c) => if c.visible then Insert(c.material) else Remove
    case None => if e in removed then Remove else Keep
  }

  /** An entity is touched by extraction exactly when the query or a removal names it. */
  lemma InstanceUpdateTouches(changed: seq<ChangedMesh>, removed: seq<Entity>, e: Entity)
    ensures InstanceUpdateFor(changed, removed, e).Keep? <==>
              (forall j :: 0 <= j < |changed| ==> changed[j].entity != e) && e !in removed
  {
    LastChangeFound(changed, e);
  }

  function ApplyToInstance(prev: Option<AssetId>, u: InstanceUpdate): Option<AssetId> {
    match u
    case Keep => prev
    case Insert(m) => Some(m)
    case Remove => None
  }

  function ApplyToId(prev: Option<UntypedAssetId>, u: InstanceUpdate, materialType: MaterialTypeId): Option<UntypedAssetId> {
    match u
    case Keep => prev
    case Insert(m) => Some(UntypedAssetId(materialType, m))
    case Remove => None
  }

  /** The untyped id the two maps agree on for an entity's typed entry. */
  function AsUntyped(m: Option<AssetId>, materialType: MaterialTypeId): Option<UntypedAssetId> {
    match m
    case Some(id) => Some(UntypedAssetId(materialType, id))
    case None => None
  }

  /** One more changed row decides the update of its own entity and of no other. */
  lemma ChangedRowStep(changed: seq<ChangedMesh>, i: nat)
    requires i < |changed|
    ensures forall e :: InstanceUpdateFor(changed[..i + 1], [], e) ==
                        (if e != changed[i].entity then InstanceUpdateFor(changed[..i], [], e)
                         else if changed[i].visible then Insert(changed[i].material)
                         else Remove)
  {
    var prefix := changed[..i + 1];
    assert prefix[..|prefix| - 1] == changed[..i] && prefix[|prefix| - 1] == changed[i];
    forall e
      ensures InstanceUpdateFor(prefix, [], e) ==
                (if e != changed[i].entity then InstanceUpdateFor(changed[..i], [], e)
                 else if changed[i].visible then Insert(changed[i].material)
                 else Remove)
    {
      assert LastChange(prefix, e) ==
             if changed[i].entity == e then Some(changed[i]) else LastChange(changed[..i], e);
    }
  }

  /** One more removal removes its entity, unless the changed-mesh query holds it. */
  lemma RemovalStep(changed: seq<ChangedMesh>, removed: seq<Entity>, k: nat)
    requires k < |removed|
    ensures forall e :: InstanceUpdateFor(changed, removed[..k + 1], e) ==
                        (if e == removed[k] && !QueryContains(changed, e) then Remove
                         else InstanceUpdateFor(changed, removed[..k], e))
  {
    assert removed[..k + 1] == removed[..k] + [removed[k]];
  }

  /** A touched entity ends with the same material in both maps, whatever it had before. */
  lemma ApplyKeepsMapsAgreeing(prevInstance: Option<AssetId>, prevId: Option<UntypedAssetId>, u: InstanceUpdate, materialType: MaterialTypeId)
    requires !u.Keep?
    ensures ApplyToId(prevId, u, materialType) == AsUntyped(ApplyToInstance(prevInstance, u), materialType)
  {
  }

  /**
   * `extract_mesh_materials`. Every entity's entries in both maps end up as
   * `InstanceUpdateFor` says, so every entity the pass touches ends with the
   * same material in both maps.
   */
  method ExtractMeshMaterials(
    materialInstances: RenderMaterialInstances,
    materialIds: RenderMeshMaterialIds,
    changed: seq<ChangedMesh>,
    removed: seq<Entity>)
    modifies materialInstances, materialIds
    ensures forall e :: Get(materialInstances.instances, e) ==
                     ApplyToInstance(old(Get(materialInstances.instances, e)), InstanceUpdateFor(changed, removed, e))
    ensures forall e :: Get(materialIds.ids, e) ==
                     ApplyToId(old(Get(materialIds.ids, e)), InstanceUpdateFor(changed, removed, e), materialInstances.materialType)
    ensures forall e :: !InstanceUpdateFor(changed, removed, e).Keep? ==>
      Get(materialIds.ids, e) == AsUntyped(Get(materialInstances.instances, e), materialInstances.materialType)
  {
    var tag := materialInstances.materialType;
    var i := 0;
    while i < |changed|
      invariant 0 <= i <= |changed|
      invariant forall e :: Get(materialInstances.instances, e) ==
                         ApplyToInstance(old(Get(materialInstances.instances, e)), InstanceUpdateFor(changed[..i], [], e))
      invariant forall e :: Get(materialIds.ids, e) ==
                         ApplyToId(old(Get(materialIds.ids, e)), InstanceUpdateFor(changed[..i], [], e), tag)
    {
      var c := changed[i];
      ChangedRowStep(changed, i);
      if c.visible {
        materialInstances.instances := materialInstances.instances[c.entity := c.material];
        materialIds.ids := materialIds.ids[c.entity := UntypedAssetId(tag, c.material)];
      } else {
        materialInstances.instances := materialInstances.instances - {c.entity};
        materialIds.ids := materialIds.ids - {c.entity};
      }
      i := i + 1;
    }
    assert changed[..i] == changed;
    var k := 0;
    while k < |removed|
      invariant 0 <= k <= |removed|
      invariant forall e :: Get(materialInstances.instances, e) ==
                         ApplyToInstance(old(Get(materialInstances.instances, e)), InstanceUpdateFor(changed, removed[..k], e))
      invariant forall e :: Get(materialIds.ids, e) ==
                         ApplyToId(old(Get(materialIds.ids, e)), InstanceUpdateFor(changed, removed[..k], e), tag)
    {
      var e := removed[k];
      RemovalStep(changed, removed, k);
      // A mesh that is also in `changed` keeps the row written above.
      if !QueryContains(changed, e) {
        materialInstances.instances := materialInstances.instances - {e};
        materialIds.ids := materialIds.ids - {e};
      }
      k := k + 1;
    }
    assert removed[..k] == removed;
    forall e | !InstanceUpdateFor(changed, removed, e).Keep?
      ensures Get(materialIds.ids, e) == AsUntyped(Get(materialInstances.instances, e), tag)
    {
      ApplyKeepsMapsAgreeing(old(Get(materialInstances.instances, e)), old(Get(materialIds.ids, e)),
                             InstanceUpdateFor(changed, removed, e), tag);
    }
  }

  // ---------------------------------------------------------------------
  // check_entities_needing_specialization
  // ---------------------------------------------------------------------

  /**
   * One entity seen by the dirty query: whether its mesh handle or mesh
   * asset changed, and whether its material handle or material asset changed.
   */
  datatype EntityChanges = EntityChanges(
    entity: Entity,
    meshChanged: bool,
    meshAssetChanged: bool,
    materialChanged: bool,
    materialAssetChanged: bool)

  /** The dirty query's filter: any of the four changes. */
  predicate IsDirty(c: EntityChanges) {
    c.meshChanged || c.meshAssetChanged || c.materialChanged || c.materialAssetChanged
  }

  /** The entities the dirty query yields, in query order. */
  function DirtyEntities(candidates: seq<EntityChanges>): seq<Entity>
    decreases |candidates|
  {
    if candidates == [] then []
    else
      var last := candidates[|candidates| - 1];
      DirtyEntities(candidates[..|candidates| - 1]) + (if IsDirty(last) then [last.entity] else [])
  }

  /** An entity is listed exactly when one of its rows reports a change. */
  lemma {:induction false} DirtyEntitiesMembers(candidates: seq<EntityChanges>, e: Entity)
    ensures e in DirtyEntities(candidates) <==>
              exists j :: 0 <= j < |candidates| && candidates[j].entity == e && IsDirty(candidates[j])
    ensures |DirtyEntities(candidates)| <= |candidates|
    decreases |candidates|
  {
    if candidates != [] {
      var n := |candidates| - 1;
      var init := candidates[..n];
      DirtyEntitiesMembers(init, e);
      if exists j :: 0 <= j < |candidates| && candidates[j].entity == e && IsDirty(candidates[j]) {
        var j :| 0 <= j < |candidates| && candidates[j].entity == e && IsDirty(candidates[j]);
        if j < n { assert init[j] == candidates[j]; }
      }
      if exists j :: 0 <= j < |init| && init[j].entity == e && IsDirty(init[j]) {
        var j :| 0 <= j < |init| && init[j].entity == e && IsDirty(init[j]);
        assert candidates[j] == init[j];
      }
    }
  }

  /** `EntitiesNeedingSpecialization<M>`: a list rebuilt every frame. */
  class EntitiesNeedingSpecialization {
    var entities: seq<Entity>

    constructor ()
      ensures entities == []
    {
      entities := [];
    }

    /** `check_entities_needing_specialization`: clear, then push every dirty entity. */
    method CheckEntitiesNeedingSpecialization(candidates: seq<EntityChanges>)
      modifies this
      ensures entities == DirtyEntities(candidates)
    {
      entities := [];
      var i := 0;
      while i < |candidates|
        invariant 0 <= i <= |candidates|
        invariant entities == DirtyEntities(candidates[..i])
      {
        if IsDirty(candidates[i]) {
          entities := entities + [candidates[i].entity];
        }
        assert candidates[..i + 1][..i] == candidates[..i];
        i := i + 1;
      }
      assert candidates[..i] == candidates;
    }
  }

  // ---------------------------------------------------------------------
  // extract_entities_needs_specialization
  // ---------------------------------------------------------------------

  /** `EntitySpecializationTicks<M>`: the tick at which each entity last needed specializing. */
  class EntitySpecializationTicks {
    var ticks: map<Entity, Tick>

    constructor ()
      ensures ticks == map[]
    {
      ticks := map[];
    }

    /**
     * `extract_entities_needs_specialization`: every listed entity is stamped
     * with this run's tick; every other entity keeps its tick.
     */
    method ExtractEntitiesNeedsSpecialization(needing: seq<Entity>, thisRun: Tick)
      modifies this
      ensures ticks.Keys == old(ticks).Keys + set e | e in needing
      ensures forall e :: e in needing ==> ticks[e] == thisRun
      ensures forall e :: e in old(ticks) && e !in needing ==> ticks[e] == old(ticks)[e]
    {
      var i := 0;
      while i < |needing|
        invariant 0 <= i <= |needing|
        invariant ticks.Keys == old(ticks).Keys + set e | e in needing[..i]
        invariant forall e :: e in needing[..i] ==> ticks[e] == thisRun
        invariant forall e :: e in old(ticks) && e !in needing[..i] ==> ticks[e] == old(ticks)[e]
      {
        ticks := ticks[needing[i] := thisRun];
        assert needing[..i + 1] == needing[..i] + [needing[i]];
        i := i + 1;
      }
      assert needing[..i] == needing;
    }
  }
}
