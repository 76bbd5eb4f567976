/**
 * Identities the material core passes around. They are opaque handles in the
 * renderer; only their equality matters here, so each is a natural number.
 */
module RenderIds {

  /** A main-world entity as the render world names it (`MainEntity`). */
  type Entity = nat

  /** The render-world entity that mirrors a main-world entity. */
  type RenderEntity = nat

  /** The key under which a view's render phases are retained across frames. */
  type RetainedViewEntity = nat

  /** A typed asset id of the material type being rendered (`AssetId<M>`). */
  type AssetId = nat

  /** An asset id of a mesh (`AssetId<Mesh>`). */
  type MeshAssetId = nat

  /** A change tick (`Tick`); how two ticks compare is left to the caller. */
  type Tick = nat

  /** A cached render pipeline id (`CachedRenderPipelineId`). */
  type PipelineId = nat

  /** A draw function id (`DrawFunctionId`). */
  type DrawFunctionId = nat

  /** A mesh-allocator slab id. */
  type SlabId = nat

  /** A mesh vertex-buffer layout, only ever handed to the pipeline cache. */
  type VertexLayout = nat

  /** Distinguishes material types inside untyped asset ids. */
  type MaterialTypeId = nat

  /** `UntypedAssetId`: an asset id that remembers its asset type. */
  datatype UntypedAssetId = UntypedAssetId(assetType: MaterialTypeId, id: AssetId)

  /** `MaterialBindingId`: a bind-group index and a slot inside that group. */
  datatype MaterialBindingId = MaterialBindingId(group: nat, slot: nat)
}
