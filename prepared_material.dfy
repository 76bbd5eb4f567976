/**
 * Material preparation (`PreparedMaterial::prepare_asset` and `unload_asset`):
 * resolving the opaque render method, classifying a material into a render
 * phase, choosing its draw functions, and giving each material asset one
 * binding id for as long as it is loaded.
 */
module PreparedMaterials {
  import opened Wrappers
  import opened RenderIds
  import opened PipelineKey
  import opened BindGroupAllocator

  datatype OpaqueRendererMethod = Forward | Deferred | Auto

  /**
   * The value held by the `DefaultOpaqueRendererMethod` resource. Its
   * constructors, its setters and its default store Forward or Deferred;
   * the model leaves out a value written through reflection, which could
   * be Auto.
   */
  type DefaultOpaqueRendererMethod = m: OpaqueRendererMethod | !m.Auto? witness Forward

  datatype RenderPhaseType = Opaque | AlphaMask | Transmissive | Transparent

  /** The draw-function ids registered for this material type, one per phase. */
  datatype DrawFunctions = DrawFunctions(
    opaquePass: DrawFunctionId,
    alphaMaskPass: DrawFunctionId,
    transmissivePass: DrawFunctionId,
    transparentPass: DrawFunctionId,
    opaquePrepass: Option<DrawFunctionId>,
    alphaMaskPrepass: Option<DrawFunctionId>,
    opaqueDeferred: Option<DrawFunctionId>,
    alphaMaskDeferred: Option<DrawFunctionId>)

  datatype AsBindGroupError =
    | RetryNextUpdate
    | CreateBindGroupDirectly
    | InvalidBindGroup(reason: nat)

  datatype PrepareAssetError =
    | RetryNextUpdate
    | AsBindGroupError(error: AsBindGroupError)

  /** What `as_bind_group` returns: a bind group and the material's pipeline data. */
  datatype PreparedBindGroup<D> = PreparedBindGroup(bindGroup: nat, data: D)

  /**
   * A material asset as preparation sees it: the answers of the `Material`
   * methods it calls, and the outcomes of `unprepared_bind_group` and
   * `as_bind_group`, which build GPU resources outside this core.
   */
  datatype MaterialAsset<D> = MaterialAsset(
    alphaMode: AlphaMode,
    opaqueRenderMethod: OpaqueRendererMethod,
    depthBias: real,
    readsViewTransmissionTexture: bool,
    unpreparedBindGroup: Result<D, AsBindGroupError>,
    asBindGroup: Result<PreparedBindGroup<D>, AsBindGroupError>)

  /** `MaterialProperties`. */
  datatype MaterialProperties = MaterialProperties(
    renderMethod: OpaqueRendererMethod,
    alphaMode: AlphaMode,
    meshPipelineKeyBits: MeshPipelineKey,
    depthBias: real,
    readsViewTransmissionTexture: bool,
    renderPhaseType: RenderPhaseType,
    drawFunctionId: DrawFunctionId,
    prepassDrawFunctionId: Option<DrawFunctionId>,
    deferredDrawFunctionId: Option<DrawFunctionId>)

  /** `PreparedMaterial`. */
  datatype PreparedMaterial = PreparedMaterial(binding: MaterialBindingId, properties: MaterialProperties)

  /** The render method a material is drawn with: Auto defers to the default. */
  function ResolveRenderMethod(requested: OpaqueRendererMethod, default: DefaultOpaqueRendererMethod): (m: OpaqueRendererMethod)
    ensures !m.Auto?
    ensures requested.Auto? ==> m == default
    ensures !requested.Auto? ==> m == requested
  {
    match requested
    case Forward => Forward
    case Deferred => Deferred
    case Auto => default
  }

  /** The alpha modes that blend with what is behind them. */
  predicate IsBlended(alphaMode: AlphaMode) {
    alphaMode.Blend? || alphaMode.Premultiplied? || alphaMode.Add? || alphaMode.Multiply?
  }

  /**
   * The phase a material is drawn in. Blending modes are always transparent,
   * even when they read the transmission texture; any other mode that reads
   * it is transmissive; otherwise opaque and alpha-to-coverage are opaque and
   * masks are alpha-masked.
   */
  function RenderPhaseTypeFor(alphaMode: AlphaMode, readsTransmission: bool): (p: RenderPhaseType)
    ensures p.Transparent? <==> IsBlended(alphaMode)
    ensures p.Transmissive? <==> !IsBlended(alphaMode) && readsTransmission
    ensures p.Opaque? <==> (alphaMode.Opaque? || alphaMode.AlphaToCoverage?) && !readsTransmission
    ensures p.AlphaMask? <==> alphaMode.Mask? && !readsTransmission
  {
    match alphaMode
    case Blend | Premultiplied | Add | Multiply => Transparent
    case _ =>
      if readsTransmission then Transmissive
      else if alphaMode.Mask? then AlphaMask
      else RenderPhaseType.Opaque
  }

  /** The main-pass draw function of a phase: the one registered for that phase. */
  function MainDrawFunction(phase: RenderPhaseType, draws: DrawFunctions): (d: DrawFunctionId)
    ensures phase.Opaque? ==> d == draws.opaquePass
    ensures phase.AlphaMask? ==> d == draws.alphaMaskPass
    ensures phase.Transmissive? ==> d == draws.transmissivePass
    ensures phase.Transparent? ==> d == draws.transparentPass
  {
    match phase
    case Opaque => draws.opaquePass
    case AlphaMask => draws.alphaMaskPass
    case Transmissive => draws.transmissivePass
    case Transparent => draws.transparentPass
  }

  /** Only the two binned phases have a prepass draw function. */
  function PrepassDrawFunction(phase: RenderPhaseType, draws: DrawFunctions): (d: Option<DrawFunctionId>)
    ensures phase.Transmissive? || phase.Transparent? ==> d.None?
  {
    match phase
    case Opaque => draws.opaquePrepass
    case AlphaMask => draws.alphaMaskPrepass
    case _ => Option.None
  }

  /** Only the two binned phases have a deferred draw function. */
  function DeferredDrawFunction(phase: RenderPhaseType, draws: DrawFunctions): (d: Option<DrawFunctionId>)
    ensures phase.Transmissive? || phase.Transparent? ==> d.None?
  {
    match phase
    case Opaque => draws.opaqueDeferred
    case AlphaMask => draws.alphaMaskDeferred
    case _ => Option.None
  }

  /** The material bits precomputed once per material. */
  function MaterialKeyBits(readsTransmission: bool): (k: MeshPipelineKey)
    ensures ReadsViewTransmissionTexture in k <==> readsTransmission
    ensures k <= {ReadsViewTransmissionTexture}
  {
    if readsTransmission then {ReadsViewTransmissionTexture} else NONE
  }

  /** The `MaterialProperties` that `prepare_asset` computes for a material. */
  function PropertiesFor<D>(material: MaterialAsset<D>, default: DefaultOpaqueRendererMethod, draws: DrawFunctions): (p: MaterialProperties)
    ensures p.alphaMode == material.alphaMode && p.depthBias == material.depthBias
    ensures !p.renderMethod.Auto?
    ensures material.opaqueRenderMethod.Auto? ==> p.renderMethod == default
    ensures !material.opaqueRenderMethod.Auto? ==> p.renderMethod == material.opaqueRenderMethod
    ensures p.readsViewTransmissionTexture == material.readsViewTransmissionTexture
    ensures p.readsViewTransmissionTexture <==> ReadsViewTransmissionTexture in p.meshPipelineKeyBits
    ensures p.meshPipelineKeyBits <= {ReadsViewTransmissionTexture}
    ensures p.renderPhaseType == RenderPhaseTypeFor(material.alphaMode, material.readsViewTransmissionTexture)
    ensures p.drawFunctionId == MainDrawFunction(p.renderPhaseType, draws)
    ensures p.renderPhaseType.Transmissive? || p.renderPhaseType.Transparent? ==>
              p.prepassDrawFunctionId.None? && p.deferredDrawFunctionId.None?
    ensures p.renderPhaseType.Opaque? ==>
              p.prepassDrawFunctionId == draws.opaquePrepass && p.deferredDrawFunctionId == draws.opaqueDeferred
    ensures p.renderPhaseType.AlphaMask? ==>
              p.prepassDrawFunctionId == draws.alphaMaskPrepass && p.deferredDrawFunctionId == draws.alphaMaskDeferred
  {
    var bits := MaterialKeyBits(material.readsViewTransmissionTexture);
    var readsTransmission := ReadsViewTransmissionTexture in bits;
    var phase := RenderPhaseTypeFor(material.alphaMode, readsTransmission);
    MaterialProperties(
      ResolveRenderMethod(material.opaqueRenderMethod, default),
      material.alphaMode,
      bits,
      material.depthBias,
      readsTransmission,
      phase,
      MainDrawFunction(phase, draws),
      PrepassDrawFunction(phase, draws),
      DeferredDrawFunction(phase, draws))
  }

  /**
   * What `prepare_asset` returns once the binding id is known. It succeeds
   * when the unprepared bind group is built, or when the material asks to
   * build its bind group directly and that succeeds; a retry request from
   * either step becomes RetryNextUpdate, and any other error is passed on.
   */
  function PrepareResult<D>(material: MaterialAsset<D>, binding: MaterialBindingId, properties: MaterialProperties)
    : (r: Result<PreparedMaterial, PrepareAssetError>)
    ensures r.Ok? <==>
              material.unpreparedBindGroup.Ok? ||
              (material.unpreparedBindGroup.error.CreateBindGroupDirectly? && material.asBindGroup.Ok?)
    ensures r.Ok? ==> r.value.binding == binding && r.value.properties == properties
    ensures r == Err(PrepareAssetError.RetryNextUpdate) <==>
              material.unpreparedBindGroup == Err(AsBindGroupError.RetryNextUpdate) ||
              (material.unpreparedBindGroup == Err(CreateBindGroupDirectly) &&
               material.asBindGroup == Err(AsBindGroupError.RetryNextUpdate))
    ensures material.unpreparedBindGroup.Err? && !material.unpreparedBindGroup.error.RetryNextUpdate? &&
            !material.unpreparedBindGroup.error.CreateBindGroupDirectly? ==>
              r == Err(AsBindGroupError(material.unpreparedBindGroup.error))
    ensures material.unpreparedBindGroup == Err(CreateBindGroupDirectly) &&
            material.asBindGroup.Err? && !material.asBindGroup.error.RetryNextUpdate? ==>
              r == Err(AsBindGroupError(material.asBindGroup.error))
  {
    var unprepared := material.unpreparedBindGroup;
    if unprepared.Ok? then Ok(PreparedMaterial(binding, properties))
    else if unprepared.error.RetryNextUpdate? then Err(PrepareAssetError.RetryNextUpdate)
    else if unprepared.error.CreateBindGroupDirectly? then
      var direct := material.asBindGroup;
      if direct.Ok? then Ok(PreparedMaterial(binding, properties))
      else if direct.error.RetryNextUpdate? then Err(PrepareAssetError.RetryNextUpdate)
      else Err(AsBindGroupError(direct.error))
    else Err(AsBindGroupError(unprepared.error))
  }

  /** What preparation attaches to the binding id in the allocator, if anything. */
  function AttachedSlot<D>(material: MaterialAsset<D>): (s: Option<SlotData<D>>)
    ensures s.Some? <==>
              material.unpreparedBindGroup.Ok? ||
              (material.unpreparedBindGroup.error.CreateBindGroupDirectly? && material.asBindGroup.Ok?)
    ensures material.unpreparedBindGroup.Ok? ==> s == Some(Unprepared(material.unpreparedBindGroup.value))
    ensures material.unpreparedBindGroup == Err(CreateBindGroupDirectly) && material.asBindGroup.Ok? ==>
              s == Some(Custom(material.asBindGroup.value.bindGroup, material.asBindGroup.value.data))
  {
    var unprepared := material.unpreparedBindGroup;
    if unprepared.Ok? then Some(Unprepared(unprepared.value))
    else if unprepared.error.CreateBindGroupDirectly? && material.asBindGroup.Ok? then
      Some(Custom(material.asBindGroup.value.bindGroup, material.asBindGroup.value.data))
    else Option.None
  }

  /** `RenderMaterialBindings`: the binding id of every prepared material, by untyped id. */
  class RenderMaterialBindings {
    var bindings: map<UntypedAssetId, MaterialBindingId>

    constructor ()
      ensures bindings == map[]
    {
      bindings := map[];
    }
  }

  /**
   * The bindings of this material type are live in its allocator and no two
   * material assets share a binding id.
   */
  ghost predicate BindingsConsistent<D>(b: RenderMaterialBindings, allocator: MaterialBindGroupAllocator<D>)
    reads b, allocator
  {
    && (forall k :: k in b.bindings && k.assetType == allocator.materialType ==> b.bindings[k] in allocator.live)
    && (forall k, k' ::
          k in b.bindings && k' in b.bindings && k != k' &&
          k.assetType == allocator.materialType && k'.assetType == allocator.materialType
          ==> b.bindings[k] != b.bindings[k'])
  }

  /**
   * `prepare_asset`. The binding id is looked up first and allocated only if
   * the material has none, so it is allocated once and then reused, also
   * after a RetryNextUpdate.
   */
  method PrepareAsset<D>(
    material: MaterialAsset<D>,
    materialId: AssetId,
    default: DefaultOpaqueRendererMethod,
    draws: DrawFunctions,
    b: RenderMaterialBindings,
    allocator: MaterialBindGroupAllocator<D>)
    returns (r: Result<PreparedMaterial, PrepareAssetError>)
    requires allocator.Valid() && BindingsConsistent(b, allocator)
    modifies b, allocator
    ensures allocator.Valid() && BindingsConsistent(b, allocator)
    ensures var key := UntypedAssetId(allocator.materialType, materialId);
      && key in b.bindings
      && (key in old(b.bindings) ==>
            b.bindings == old(b.bindings) && allocator.live == old(allocator.live))
      && (key !in old(b.bindings) ==>
            && b.bindings == old(b.bindings)[key := b.bindings[key]]
            && b.bindings[key] !in old(allocator.live)
            && allocator.live == old(allocator.live) + {b.bindings[key]})
      && r == PrepareResult(material, b.bindings[key], PropertiesFor(material, default, draws))
      && allocator.slots == (match AttachedSlot(material)
                             case Some(s) => old(allocator.slots)[b.bindings[key] := s]
                             case None => old(allocator.slots))
    ensures allocator.freed == old(allocator.freed)
  {
    var key := UntypedAssetId(allocator.materialType, materialId);
    var binding: MaterialBindingId;
    if key in b.bindings {
      binding := b.bindings[key];
    } else {
      binding := allocator.Allocate();
      b.bindings := b.bindings[key := binding];
    }
    var properties := PropertiesFor(material, default, draws);
    var unprepared := material.unpreparedBindGroup;
    if unprepared.Ok? {
      allocator.Init(binding, unprepared.value);
      r := Ok(PreparedMaterial(binding, properties));
    } else if unprepared.error.RetryNextUpdate? {
      r := Err(PrepareAssetError.RetryNextUpdate);
    } else if unprepared.error.CreateBindGroupDirectly? {
      var direct := material.asBindGroup;
      if direct.Ok? {
        allocator.InitCustom(binding, direct.value.bindGroup, direct.value.data);
        r := Ok(PreparedMaterial(binding, properties));
      } else if direct.error.RetryNextUpdate? {
        r := Err(PrepareAssetError.RetryNextUpdate);
      } else {
        r := Err(AsBindGroupError(direct.error));
      }
    } else {
      r := Err(AsBindGroupError(unprepared.error));
    }
  }

  /**
   * `unload_asset`: removes the material's binding id and frees exactly that
   * id; a material that was never given one is left alone.
   */
  method UnloadAsset<D>(materialId: AssetId, b: RenderMaterialBindings, allocator: MaterialBindGroupAllocator<D>)
    requires allocator.Valid() && BindingsConsistent(b, allocator)
    modifies b, allocator
    ensures allocator.Valid() && BindingsConsistent(b, allocator)
    ensures var key := UntypedAssetId(allocator.materialType, materialId);
      && (key !in old(b.bindings) ==>
            && b.bindings == old(b.bindings)
            && allocator.live == old(allocator.live) && allocator.slots == old(allocator.slots)
            && allocator.freed == old(allocator.freed))
      && (key in old(b.bindings) ==>
            && b.bindings == old(b.bindings) - {key}
            && allocator.freed == old(allocator.freed) + [old(b.bindings)[key]]
            && allocator.live == old(allocator.live) - {old(b.bindings)[key]}
            && allocator.slots == old(allocator.slots) - {old(b.bindings)[key]})
  {
    var key := UntypedAssetId(allocator.materialType, materialId);
    if key !in b.bindings {
      return;
    }
    var binding := b.bindings[key];
    b.bindings := b.bindings - {key};
    allocator.Free(binding);
  }
}
