/**
 * The JSON side of a glTF 2.0 material (section 3.9, "Materials") as the
 * material compiler reads it: every field is optional, no field is validated.
 * Extension objects are recognised by name; any other extension is kept only
 * by its name.
 */
module GltfJson {
  import opened Wrappers

  /** A two-component array such as `offset` or `scale` of KHR_texture_transform. */
  datatype Vec2 = Vec2(x: real, y: real)

  /** The KHR_texture_transform extension object of a texture-info. */
  datatype JsonTextureTransform = JsonTextureTransform(
    offset: Option<Vec2>,
    rotation: Option<real>,
    scale: Option<Vec2>,
    texCoord: Option<int>)

  /** The `extensions` object of a texture-info; only KHR_texture_transform is read. */
  datatype JsonTextureInfoExtensions = JsonTextureInfoExtensions(
    textureTransform: Option<JsonTextureTransform>)

  /** A texture-info (also a normal- or occlusion-texture-info, which add `scale` and `strength`). */
  datatype JsonTextureInfo = JsonTextureInfo(
    index: Option<int>,
    texCoord: Option<int>,
    scale: Option<real>,
    strength: Option<real>,
    extensions: Option<JsonTextureInfoExtensions>)

  datatype JsonMetallicRoughness = JsonMetallicRoughness(
    baseColorFactor: Option<seq<real>>,
    metallicFactor: Option<real>,
    roughnessFactor: Option<real>,
    baseColorTexture: Option<JsonTextureInfo>,
    metallicRoughnessTexture: Option<JsonTextureInfo>)

  /** KHR_materials_pbrSpecularGlossiness */
  datatype JsonSpecularGlossiness = JsonSpecularGlossiness(
    diffuseFactor: Option<seq<real>>,
    specularFactor: Option<seq<real>>,
    glossinessFactor: Option<real>,
    diffuseTexture: Option<JsonTextureInfo>,
    specularGlossinessTexture: Option<JsonTextureInfo>)

  /** KHR_materials_clearcoat */
  datatype JsonClearcoat = JsonClearcoat(
    clearcoatFactor: Option<real>,
    clearcoatRoughnessFactor: Option<real>,
    clearcoatTexture: Option<JsonTextureInfo>,
    clearcoatRoughnessTexture: Option<JsonTextureInfo>,
    clearcoatNormalTexture: Option<JsonTextureInfo>)

  /** KHR_materials_specular */
  datatype JsonSpecular = JsonSpecular(
    specularFactor: Option<real>,
    specularColorFactor: Option<seq<real>>,
    specularTexture: Option<JsonTextureInfo>,
    specularColorTexture: Option<JsonTextureInfo>)

  /** KHR_materials_sheen */
  datatype JsonSheen = JsonSheen(
    sheenRoughnessFactor: Option<real>,
    sheenColorFactor: Option<seq<real>>,
    sheenColorTexture: Option<JsonTextureInfo>,
    sheenRoughnessTexture: Option<JsonTextureInfo>)

  /** KHR_materials_transmission */
  datatype JsonTransmission = JsonTransmission(
    transmissionFactor: Option<real>,
    transmissionTexture: Option<JsonTextureInfo>)

  /** KHR_materials_volume */
  datatype JsonVolume = JsonVolume(
    attenuationColor: Option<seq<real>>,
    attenuationDistance: Option<real>,
    thicknessFactor: Option<real>,
    thicknessTexture: Option<JsonTextureInfo>)

  /**
   * The `extensions` object of a material. KHR_materials_unlit carries no
   * fields, so only its presence is recorded. `unrecognized` holds the names
   * of every other extension present.
   */
  datatype JsonMaterialExtensions = JsonMaterialExtensions(
    unlit: bool,
    pbrSpecularGlossiness: Option<JsonSpecularGlossiness>,
    clearcoat: Option<JsonClearcoat>,
    specular: Option<JsonSpecular>,
    sheen: Option<JsonSheen>,
    transmission: Option<JsonTransmission>,
    volume: Option<JsonVolume>,
    unrecognized: set<string>)

  datatype JsonMaterial = JsonMaterial(
    name: Option<string>,
    pbrMetallicRoughness: Option<JsonMetallicRoughness>,
    normalTexture: Option<JsonTextureInfo>,
    occlusionTexture: Option<JsonTextureInfo>,
    emissiveTexture: Option<JsonTextureInfo>,
    emissiveFactor: Option<seq<real>>,
    alphaMode: Option<string>,
    alphaCutoff: Option<real>,
    doubleSided: Option<bool>,
    extensions: Option<JsonMaterialExtensions>)

  /** An `extensions` object naming no extension: what a material without one behaves like. */
  const NoExtensions := JsonMaterialExtensions(false, None, None, None, None, None, None, {})
}
