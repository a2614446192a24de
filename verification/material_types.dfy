/**
 * The state of a `gltfMaterial` object: the parsed material descriptor and
 * the baked render data (defines, uniform properties, texture list and
 * capability flags) that `initGl` fills in.
 */
module MaterialTypes {
  import opened Wrappers
  import opened GltfJson
  import opened UvTransform

  /**
   * A `gltfTextureInfo` after parsing: the JSON fields verbatim, plus whether
   * the image is sampled as linear data (false for sRGB colour textures) and
   * the sampler uniform it is bound to (empty until baking names it).
   */
  datatype TextureInfo = TextureInfo(
    index: Option<int>,
    texCoord: Option<int>,
    scale: Option<real>,
    strength: Option<real>,
    extensions: Option<JsonTextureInfoExtensions>,
    linear: bool,
    samplerName: string)

  /** The material's `type` field: "unlit", "MR" or "SG". */
  datatype ShadingType = Unlit | MetallicRoughness | SpecularGlossiness

  /** Names for the texture fields of a material, used where the baking code treats them alike. */
  datatype TextureSlot =
    | NormalSlot | OcclusionSlot | EmissiveSlot
    | BaseColorSlot | MetallicRoughnessSlot
    | DiffuseSlot | SpecularGlossinessSlot
    | ClearcoatSlot | ClearcoatRoughnessSlot | ClearcoatNormalSlot
    | PbrSpecularSlot | PbrSpecularColorSlot
    | SheenRoughnessSlot | SheenColorSlot
    | TransmissionSlot | ThicknessSlot

  /** The texture fields of a `gltfMaterial`; `None` is a field left `undefined`. */
  datatype TextureSlots = TextureSlots(
    normalTexture: Option<TextureInfo>,
    occlusionTexture: Option<TextureInfo>,
    emissiveTexture: Option<TextureInfo>,
    baseColorTexture: Option<TextureInfo>,
    metallicRoughnessTexture: Option<TextureInfo>,
    diffuseTexture: Option<TextureInfo>,
    specularGlossinessTexture: Option<TextureInfo>,
    clearcoatTexture: Option<TextureInfo>,
    clearcoatRoughnessTexture: Option<TextureInfo>,
    clearcoatNormalTexture: Option<TextureInfo>,
    pbrSpecularTexture: Option<TextureInfo>,
    pbrSpecularColorTexture: Option<TextureInfo>,
    sheenRoughnessTexture: Option<TextureInfo>,
    sheenColorTexture: Option<TextureInfo>,
    transmissionTexture: Option<TextureInfo>,
    thicknessTexture: Option<TextureInfo>)
  {
    /** The field `slot` names. */
    function Get(slot: TextureSlot): Option<TextureInfo> {
      match slot
      case NormalSlot => normalTexture
      case OcclusionSlot => occlusionTexture
      case EmissiveSlot => emissiveTexture
      case BaseColorSlot => baseColorTexture
      case MetallicRoughnessSlot => metallicRoughnessTexture
      case DiffuseSlot => diffuseTexture
      case SpecularGlossinessSlot => specularGlossinessTexture
      case ClearcoatSlot => clearcoatTexture
      case ClearcoatRoughnessSlot => clearcoatRoughnessTexture
      case ClearcoatNormalSlot => clearcoatNormalTexture
      case PbrSpecularSlot => pbrSpecularTexture
      case PbrSpecularColorSlot => pbrSpecularColorTexture
      case SheenRoughnessSlot => sheenRoughnessTexture
      case SheenColorSlot => sheenColorTexture
      case TransmissionSlot => transmissionTexture
      case ThicknessSlot => thicknessTexture
    }
  }

  /** A freshly constructed material has every texture field `undefined`. */
  const NoTextures := TextureSlots(None, None, None, None, None, None, None, None,
                                   None, None, None, None, None, None, None, None)

  /**
   * The descriptor fields of a `gltfMaterial`. `pbrMetallicRoughness` and
   * `extensions` are the JSON objects themselves.
   */
  datatype Material = Material(
    name: Option<string>,
    shadingType: ShadingType,
    pbrMetallicRoughness: Option<JsonMetallicRoughness>,
    extensions: Option<JsonMaterialExtensions>,
    emissiveFactor: seq<real>,
    alphaMode: string,
    alphaCutoff: real,
    doubleSided: bool,
    slots: TextureSlots)

  /** A uniform value in the `properties` map; `Undefined` is JavaScript's `undefined`. */
  datatype Value = Undefined | Number(x: real) | Vector(xs: seq<real>) | Matrix(m: Mat3)

  function OptNumber(o: Option<real>): Value {
    if o.Some? then Number(o.value) else Undefined
  }

  /** A texture coordinate set index as a uniform value. */
  function TexCoordValue(o: Option<int>): Value {
    if o.Some? then Number(o.value as real) else Undefined
  }

  /** The five capability flags, set when the matching extension is present. */
  datatype Flags = Flags(
    hasClearcoat: bool,
    hasPBRSpecular: bool,
    hasSheen: bool,
    hasTransmission: bool,
    hasVolume: bool)
  {
    /** Flags set by either side: baking only ever sets a flag, never clears one. */
    function Or(other: Flags): Flags {
      Flags(hasClearcoat || other.hasClearcoat,
            hasPBRSpecular || other.hasPBRSpecular,
            hasSheen || other.hasSheen,
            hasTransmission || other.hasTransmission,
            hasVolume || other.hasVolume)
    }
  }

  const NoFlags := Flags(false, false, false, false, false)

  /**
   * The baked render data: the ordered `defines` list, the `properties` map
   * of uniforms, the ordered `textures` list and the capability flags.
   * `getProperties` and `getTextures` return the second and third fields.
   */
  datatype Baked = Baked(
    defines: seq<string>,
    properties: map<string, Value>,
    textures: seq<TextureInfo>,
    flags: Flags)

  /** The state of a freshly constructed material: nothing baked yet. */
  const Empty := Baked([], map[], [], NoFlags)

  /**
   * `b` followed by the contribution `c`: defines and textures are appended,
   * properties are `set` in order so that a later write to a name wins, and
   * flags accumulate.
   */
  function Then(b: Baked, c: Baked): Baked {
    Baked(b.defines + c.defines, b.properties + c.properties, b.textures + c.textures, b.flags.Or(c.flags))
  }

  /**
   * Applying two contributions one after the other is applying their
   * combination: this is why a sequence of in-place pushes and sets can be
   * described as one contribution appended to the current state.
   */
  lemma ThenAssociative(a: Baked, b: Baked, c: Baked)
    ensures Then(Then(a, b), c) == Then(a, Then(b, c))
  {
    assert (a.properties + b.properties) + c.properties == a.properties + (b.properties + c.properties);
  }

  /** A `gltfMaterial` object: its descriptor and its baked state. */
  datatype GltfMaterial = GltfMaterial(material: Material, baked: Baked)

  /**
   * The four material switches of `renderingParameters` that `getDefines`
   * reads; the other rendering parameters do not reach the material code.
   */
  datatype Toggles = Toggles(clearcoat: bool, pbrSpecular: bool, sheen: bool, transmission: bool)

  /** All four switches default to on. */
  const DefaultToggles := Toggles(true, true, true, true)
}
