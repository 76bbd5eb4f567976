/**
 * An abstract stand-in for `MaterialBindGroupAllocator<M>`, whose code lives
 * outside the material core. It records which binding ids are live, what was
 * attached to each, and every id it was asked to free; the bind groups it
 * realises on the GPU are not modelled.
 */
module BindGroupAllocator {
  import opened RenderIds

  /** What `init` or `init_custom` attached to a binding id. */
  datatype SlotData<D> =
    | Unprepared(data: D)
    | Custom(bindGroup: nat, data: D)

  class MaterialBindGroupAllocator<D> {
    /** The material type this allocator serves (one allocator per type). */
    const materialType: MaterialTypeId
    /** Binding ids handed out by `Allocate` and not freed since. */
    var live: set<MaterialBindingId>
    /** The data attached to live binding ids. */
    var slots: map<MaterialBindingId, SlotData<D>>
    /** Every id passed to `Free`, in order. */
    var freed: seq<MaterialBindingId>
    /** The next bind-group index to hand out. */
    var nextGroup: nat

    ghost predicate Valid()
      reads this
    {
      && (forall b :: b in live ==> b.group < nextGroup)
      && slots.Keys <= live
    }

    constructor (materialType: MaterialTypeId)
      ensures Valid()
      ensures this.materialType == materialType
      ensures live == {} && slots == map[] && freed == []
    {
      this.materialType := materialType;
      live := {};
      slots := map[];
      freed := [];
      nextGroup := 0;
    }

    /** `allocate`: reserves a binding id that is not live, without GPU resources. */
    method Allocate() returns (id: MaterialBindingId)
      requires Valid()
      modifies this
      ensures Valid()
      ensures id !in old(live) && live == old(live) + {id}
      ensures slots == old(slots) && freed == old(freed)
    {
      id := MaterialBindingId(nextGroup, 0);
      live := live + {id};
      nextGroup := nextGroup + 1;
    }

    /** `init`: attaches a material's unprepared bind group to its binding id. */
    method Init(id: MaterialBindingId, data: D)
      requires Valid() && id in live
      modifies this
      ensures Valid()
      ensures slots == old(slots)[id := Unprepared(data)]
      ensures live == old(live) && freed == old(freed)
    {
      slots := slots[id := Unprepared(data)];
    }

    /** `init_custom`: attaches a bind group the material created itself. */
    method InitCustom(id: MaterialBindingId, bindGroup: nat, data: D)
      requires Valid() && id in live
      modifies this
      ensures Valid()
      ensures slots == old(slots)[id := Custom(bindGroup, data)]
      ensures live == old(live) && freed == old(freed)
    {
      slots := slots[id := Custom(bindGroup, data)];
    }

    /** `free`: releases a binding id and whatever was attached to it. */
    method Free(id: MaterialBindingId)
      requires Valid()
      modifies this
      ensures Valid()
      ensures live == old(live) - {id} && slots == old(slots) - {id}
      ensures freed == old(freed) + [id]
    {
      live := live - {id};
      slots := slots - {id};
      freed := freed + [id];
    }
  }
}
