/**
 * The key model: mesh-pipeline feature flags, the per-setting key tables
 * (alpha mode, tonemapping, screen-space transmission quality) and the
 * material pipeline key with its structural equality and hash.
 */
module PipelineKey {
  import Wrappers

  /**
   * The names of the `MeshPipelineKey` flags this core reads or sets.
   * `Other` stands for every flag the core only passes through (primitive
   * topology, prepass flags other than motion vectors, and so on).
   */
  datatype Flag =
    | MsaaSamples2 | MsaaSamples4 | MsaaSamples8
    | MotionVectorPrepass
    | BlendPremultipliedAlpha | BlendAlpha | BlendMultiply | BlendAlphaToCoverage | MayDiscard
    | TonemapMethodNone | TonemapMethodReinhard | TonemapMethodReinhardLuminance
    | TonemapMethodAcesFitted | TonemapMethodAgx | TonemapMethodSomewhatBoringDisplayTransform
    | TonemapMethodTonyMcMapface | TonemapMethodBlenderFilmic
    | ScreenSpaceSpecularTransmissionLow | ScreenSpaceSpecularTransmissionMedium
    | ScreenSpaceSpecularTransmissionHigh | ScreenSpaceSpecularTransmissionUltra
    | ReadsViewTransmissionTexture
    | Lightmapped | LightmapBicubicSampling | VisibilityRangeDither
    | HasPreviousSkin | HasPreviousMorph
    | Other(name: string)

  /** A `MeshPipelineKey`: the set of flags that are on. `|` is union. */
  type MeshPipelineKey = set<Flag>

  /** `MeshPipelineKey::NONE`. */
  const NONE: MeshPipelineKey := {}

  const AlphaFlags: set<Flag> :=
    {BlendPremultipliedAlpha, BlendAlpha, BlendMultiply, BlendAlphaToCoverage, MayDiscard}

  const TonemapFlags: set<Flag> :=
    {TonemapMethodNone, TonemapMethodReinhard, TonemapMethodReinhardLuminance,
     TonemapMethodAcesFitted, TonemapMethodAgx, TonemapMethodSomewhatBoringDisplayTransform,
     TonemapMethodTonyMcMapface, TonemapMethodBlenderFilmic}

  const TransmissionFlags: set<Flag> :=
    {ScreenSpaceSpecularTransmissionLow, ScreenSpaceSpecularTransmissionMedium,
     ScreenSpaceSpecularTransmissionHigh, ScreenSpaceSpecularTransmissionUltra}

  /** `AlphaMode`; the mask threshold is carried but never inspected. */
  datatype AlphaMode =
    | Opaque | Mask(threshold: real) | Blend | Premultiplied | AlphaToCoverage | Add | Multiply

  datatype Msaa = Off | Sample2 | Sample4 | Sample8

  datatype Tonemapping =
    | None | Reinhard | ReinhardLuminance | AcesFitted | AgX
    | SomewhatBoringDisplayTransform | TonyMcMapface | BlenderFilmic

  datatype ScreenSpaceTransmissionQuality = Low | Medium | High | Ultra

  /**
   * `Msaa::from_samples(view_key.msaa_samples())`: the multisampling setting
   * recorded in a view key; a key without a sample-count flag means one
   * sample, that is, MSAA off.
   */
  function ViewMsaa(viewKey: MeshPipelineKey): (m: Msaa)
    ensures m.Off? <==> MsaaSamples2 !in viewKey && MsaaSamples4 !in viewKey && MsaaSamples8 !in viewKey
    ensures m.Sample8? <==> MsaaSamples8 in viewKey
  {
    if MsaaSamples8 in viewKey then Sample8
    else if MsaaSamples4 in viewKey then Sample4
    else if MsaaSamples2 in viewKey then Sample2
    else Off
  }

  /** `alpha_mode_pipeline_key`: the blend or discard flag an alpha mode needs. */
  function AlphaModePipelineKey(alphaMode: AlphaMode, msaa: Msaa): (k: MeshPipelineKey)
    ensures k <= AlphaFlags && |k| <= 1
    ensures k == NONE <==> alphaMode.Opaque?
    ensures MayDiscard in k <==> alphaMode.Mask? || (alphaMode.AlphaToCoverage? && msaa.Off?)
  {
    match alphaMode
    // Premultiplied and Add share one key; the shader tells them apart.
    case Premultiplied | Add => {BlendPremultipliedAlpha}
    case Blend => {BlendAlpha}
    case Multiply => {BlendMultiply}
    case Mask(_) => {MayDiscard}
    case AlphaToCoverage => if msaa.Off? then {MayDiscard} else {BlendAlphaToCoverage}
    case Opaque => NONE
  }

  /** The alpha-key table, entry by entry. */
  lemma AlphaModeKeyTable(msaa: Msaa, threshold: real)
    ensures AlphaModePipelineKey(AlphaToCoverage, msaa) ==
              (if msaa.Off? then {MayDiscard} else {BlendAlphaToCoverage})
    ensures AlphaModePipelineKey(Premultiplied, msaa) == AlphaModePipelineKey(Add, msaa) == {BlendPremultipliedAlpha}
    ensures AlphaModePipelineKey(Mask(threshold), msaa) == {MayDiscard}
    ensures AlphaModePipelineKey(Blend, msaa) == {BlendAlpha}
    ensures AlphaModePipelineKey(Multiply, msaa) == {BlendMultiply}
    ensures AlphaModePipelineKey(Opaque, msaa) == NONE
  {
  }

  /**
   * Only alpha-to-coverage depends on multisampling, and among the other
   * modes only Premultiplied and Add, and Mask with different thresholds,
   * share a key.
   */
  lemma AlphaModeKeySharing(a: AlphaMode, b: AlphaMode, msaa: Msaa, msaa': Msaa)
    requires !a.AlphaToCoverage? && !b.AlphaToCoverage?
    ensures AlphaModePipelineKey(a, msaa) == AlphaModePipelineKey(a, msaa')
    ensures AlphaModePipelineKey(a, msaa) == AlphaModePipelineKey(b, msaa) <==>
              a == b || (a.Mask? && b.Mask?) ||
              ((a.Premultiplied? || a.Add?) && (b.Premultiplied? || b.Add?))
  {
    assert BlendPremultipliedAlpha != BlendAlpha;
  }

  /** `tonemapping_pipeline_key`: one tonemapping flag per method. */
  function TonemappingPipelineKey(tonemapping: Tonemapping): (k: MeshPipelineKey)
    ensures |k| == 1 && k <= TonemapFlags
  {
    match tonemapping
    case None => {TonemapMethodNone}
    case Reinhard => {TonemapMethodReinhard}
    case ReinhardLuminance => {TonemapMethodReinhardLuminance}
    case AcesFitted => {TonemapMethodAcesFitted}
    case AgX => {TonemapMethodAgx}
    case SomewhatBoringDisplayTransform => {TonemapMethodSomewhatBoringDisplayTransform}
    case TonyMcMapface => {TonemapMethodTonyMcMapface}
    case BlenderFilmic => {TonemapMethodBlenderFilmic}
  }

  /** Reads the tonemapping method back out of a key holding one tonemap flag. */
  function TonemappingOfKey(k: MeshPipelineKey): Wrappers.Option<Tonemapping> {
    if TonemapMethodNone in k then Wrappers.Some(Tonemapping.None)
    else if TonemapMethodReinhard in k then Wrappers.Some(Reinhard)
    else if TonemapMethodReinhardLuminance in k then Wrappers.Some(ReinhardLuminance)
    else if TonemapMethodAcesFitted in k then Wrappers.Some(AcesFitted)
    else if TonemapMethodAgx in k then Wrappers.Some(AgX)
    else if TonemapMethodSomewhatBoringDisplayTransform in k then Wrappers.Some(SomewhatBoringDisplayTransform)
    else if TonemapMethodTonyMcMapface in k then Wrappers.Some(TonyMcMapface)
    else if TonemapMethodBlenderFilmic in k then Wrappers.Some(BlenderFilmic)
    else Wrappers.None
  }

  /**
   * The tonemapping table is total and loses nothing: the method can be read
   * back from its key, even after flags from other families are or-ed in, so
   * distinct methods give distinct keys.
   */
  lemma TonemappingKeyRoundTrip(t: Tonemapping, other: MeshPipelineKey)
    requires other !! TonemapFlags
    ensures TonemappingOfKey(TonemappingPipelineKey(t) + other) == Wrappers.Some(t)
  {
  }

  lemma TonemappingKeyInjective(a: Tonemapping, b: Tonemapping)
    ensures TonemappingPipelineKey(a) == TonemappingPipelineKey(b) ==> a == b
  {
    TonemappingKeyRoundTrip(a, {});
    TonemappingKeyRoundTrip(b, {});
    assert TonemappingPipelineKey(a) + {} == TonemappingPipelineKey(a);
    assert TonemappingPipelineKey(b) + {} == TonemappingPipelineKey(b);
  }

  /** `screen_space_specular_transmission_pipeline_key`: one flag per quality. */
  function TransmissionPipelineKey(quality: ScreenSpaceTransmissionQuality): (k: MeshPipelineKey)
    ensures |k| == 1 && k <= TransmissionFlags
  {
    match quality
    case Low => {ScreenSpaceSpecularTransmissionLow}
    case Medium => {ScreenSpaceSpecularTransmissionMedium}
    case High => {ScreenSpaceSpecularTransmissionHigh}
    case Ultra => {ScreenSpaceSpecularTransmissionUltra}
  }

  /** Reads the transmission quality back out of a key. */
  function TransmissionQualityOfKey(k: MeshPipelineKey): Wrappers.Option<ScreenSpaceTransmissionQuality> {
    if ScreenSpaceSpecularTransmissionLow in k then Wrappers.Some(Low)
    else if ScreenSpaceSpecularTransmissionMedium in k then Wrappers.Some(Medium)
    else if ScreenSpaceSpecularTransmissionHigh in k then Wrappers.Some(High)
    else if ScreenSpaceSpecularTransmissionUltra in k then Wrappers.Some(Ultra)
    else Wrappers.None
  }

  lemma TransmissionKeyRoundTrip(q: ScreenSpaceTransmissionQuality, other: MeshPipelineKey)
    requires other !! TransmissionFlags
    ensures TransmissionQualityOfKey(TransmissionPipelineKey(q) + other) == Wrappers.Some(q)
  {
  }

  /**
   * `MaterialPipelineKey`: the mesh key together with the material's
   * bind-group data (`M::Data`), compared by value.
   */
  datatype MaterialPipelineKey<D> = MaterialPipelineKey(meshKey: MeshPipelineKey, bindGroupData: D)

  /** `PartialEq for MaterialPipelineKey`: both parts compared structurally. */
  predicate KeyEq<D(==)>(a: MaterialPipelineKey<D>, b: MaterialPipelineKey<D>)
    ensures KeyEq(a, b) <==> a == b
  {
    a.meshKey == b.meshKey && a.bindGroupData == b.bindGroupData
  }

  /** What a hasher is fed: first the mesh key, then the bind-group data. */
  datatype HashWord<D> = MeshKeyWord(meshKey: MeshPipelineKey) | DataWord(data: D)

  /** `Hash for MaterialPipelineKey`: the hasher state after feeding the key. */
  function KeyHash<D>(k: MaterialPipelineKey<D>, state: seq<HashWord<D>>): seq<HashWord<D>> {
    state + [MeshKeyWord(k.meshKey), DataWord(k.bindGroupData)]
  }

  /**
   * Hash and equality agree: from any hasher state, two keys feed the same
   * words exactly when they are equal, so equal keys hash alike and the hash
   * covers both parts of the key.
   */
  lemma KeyHashAgreesWithEq<D>(a: MaterialPipelineKey<D>, b: MaterialPipelineKey<D>, state: seq<HashWord<D>>)
    ensures KeyHash(a, state) == KeyHash(b, state) <==> KeyEq(a, b)
  {
    if KeyHash(a, state) == KeyHash(b, state) {
      assert KeyHash(a, state)[|state|] == MeshKeyWord(a.meshKey);
      assert KeyHash(b, state)[|state|] == MeshKeyWord(b.meshKey);
      assert KeyHash(a, state)[|state| + 1] == DataWord(a.bindGroupData);
      assert KeyHash(b, state)[|state| + 1] == DataWord(b.bindGroupData);
    }
  }
}
