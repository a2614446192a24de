/**
 * `gltfMaterial.fromJson` and its helpers: the parse stage that decides the
 * shading type and attaches the texture-infos the JSON names.
 */
module MaterialParse {
  import opened Wrappers
  import opened GltfJson
  import opened MaterialTypes

  /**
   * The constructor call a texture-info starts from: colour textures are
   * built with `new gltfTextureInfo(undefined, 0, false)`, texture
   * coordinate set 0 and sRGB; data textures with `new gltfTextureInfo()`,
   * linear, and no texture coordinate set of their own.
   */
  datatype Construction = Construction(texCoord: Option<int>, linear: bool)

  const Srgb := Construction(Some(0), false)
  const Linear := Construction(None, true)

  /**
   * The constructor call followed by `fromJson`: the JSON fields are copied
   * over the constructed ones, no sampler is named yet.
   */
  function TextureFromJson(j: JsonTextureInfo, c: Construction): (r: TextureInfo)
    ensures r.texCoord == (if j.texCoord.Some? then j.texCoord else c.texCoord)
    ensures r.index == j.index && r.scale == j.scale && r.strength == j.strength && r.extensions == j.extensions
    ensures r.linear == c.linear && r.samplerName == ""
  {
    var constructed := TextureInfo(None, c.texCoord, None, None, None, c.linear, "");
    constructed.(index := j.index,
                 texCoord := if j.texCoord.Some? then j.texCoord else constructed.texCoord,
                 scale := j.scale, strength := j.strength, extensions := j.extensions)
  }

  /**
   * The guarded assignment every helper makes, `if (json.x !== undefined)
   * this.x = <new texture-info>`: `after` is a fresh texture-info built from
   * the JSON when the JSON names one, and `before` otherwise.
   */
  predicate Wrote(after: Option<TextureInfo>, before: Option<TextureInfo>, j: Option<JsonTextureInfo>, c: Construction) {
    && (j.Some? ==> after == Some(TextureFromJson(j.value, c)))
    && (j.None? ==> after == before)
  }

  /** The value of a texture field after the guarded assignment from `j`. */
  function Assign(before: Option<TextureInfo>, j: Option<JsonTextureInfo>, c: Construction): (r: Option<TextureInfo>)
    ensures Wrote(r, before, j, c)
  {
    if j.Some? then Some(TextureFromJson(j.value, c)) else before
  }

  /** The descriptor the constructor builds: glTF's defaults, type "unlit", no textures. */
  const Fresh: Material := Material(None, Unlit, None, None, [0.0, 0.0, 0.0], "OPAQUE", 0.5, false, NoTextures)

  /** `fromJsonMetallicRoughness`: the base-colour texture (sRGB) and the metallic-roughness texture. */
  function FromJsonMetallicRoughness(s: TextureSlots, j: JsonMetallicRoughness): (r: TextureSlots)
    ensures Wrote(r.baseColorTexture, s.baseColorTexture, j.baseColorTexture, Srgb)
    ensures Wrote(r.metallicRoughnessTexture, s.metallicRoughnessTexture, j.metallicRoughnessTexture, Linear)
    ensures r.(baseColorTexture := s.baseColorTexture, metallicRoughnessTexture := s.metallicRoughnessTexture) == s
  {
    s.(baseColorTexture := Assign(s.baseColorTexture, j.baseColorTexture, Srgb),
       metallicRoughnessTexture := Assign(s.metallicRoughnessTexture, j.metallicRoughnessTexture, Linear))
  }

  /** `fromJsonSpecularGlossiness`: the diffuse and specular-glossiness textures, both sRGB. */
  function FromJsonSpecularGlossiness(s: TextureSlots, j: JsonSpecularGlossiness): (r: TextureSlots)
    ensures Wrote(r.diffuseTexture, s.diffuseTexture, j.diffuseTexture, Srgb)
    ensures Wrote(r.specularGlossinessTexture, s.specularGlossinessTexture, j.specularGlossinessTexture, Srgb)
    ensures r.(diffuseTexture := s.diffuseTexture, specularGlossinessTexture := s.specularGlossinessTexture) == s
  {
    s.(diffuseTexture := Assign(s.diffuseTexture, j.diffuseTexture, Srgb),
       specularGlossinessTexture := Assign(s.specularGlossinessTexture, j.specularGlossinessTexture, Srgb))
  }

  /** `fromJsonClearcoat`: the three clearcoat textures, all linear. */
  function FromJsonClearcoat(s: TextureSlots, j: JsonClearcoat): (r: TextureSlots)
    ensures Wrote(r.clearcoatTexture, s.clearcoatTexture, j.clearcoatTexture, Linear)
    ensures Wrote(r.clearcoatRoughnessTexture, s.clearcoatRoughnessTexture, j.clearcoatRoughnessTexture, Linear)
    ensures Wrote(r.clearcoatNormalTexture, s.clearcoatNormalTexture, j.clearcoatNormalTexture, Linear)
    ensures r.(clearcoatTexture := s.clearcoatTexture, clearcoatRoughnessTexture := s.clearcoatRoughnessTexture,
               clearcoatNormalTexture := s.clearcoatNormalTexture) == s
  {
    s.(clearcoatTexture := Assign(s.clearcoatTexture, j.clearcoatTexture, Linear),
       clearcoatRoughnessTexture := Assign(s.clearcoatRoughnessTexture, j.clearcoatRoughnessTexture, Linear),
       clearcoatNormalTexture := Assign(s.clearcoatNormalTexture, j.clearcoatNormalTexture, Linear))
  }

  /** `fromJsonPBRSpecular`: the specular and specular-colour textures, both linear. */
  function FromJsonPBRSpecular(s: TextureSlots, j: JsonSpecular): (r: TextureSlots)
    ensures Wrote(r.pbrSpecularTexture, s.pbrSpecularTexture, j.specularTexture, Linear)
    ensures Wrote(r.pbrSpecularColorTexture, s.pbrSpecularColorTexture, j.specularColorTexture, Linear)
    ensures r.(pbrSpecularTexture := s.pbrSpecularTexture, pbrSpecularColorTexture := s.pbrSpecularColorTexture) == s
  {
    s.(pbrSpecularTexture := Assign(s.pbrSpecularTexture, j.specularTexture, Linear),
       pbrSpecularColorTexture := Assign(s.pbrSpecularColorTexture, j.specularColorTexture, Linear))
  }

  /** `fromJsonSheen`: the sheen colour texture (sRGB) and the sheen roughness texture. */
  function FromJsonSheen(s: TextureSlots, j: JsonSheen): (r: TextureSlots)
    ensures Wrote(r.sheenColorTexture, s.sheenColorTexture, j.sheenColorTexture, Srgb)
    ensures Wrote(r.sheenRoughnessTexture, s.sheenRoughnessTexture, j.sheenRoughnessTexture, Linear)
    ensures r.(sheenColorTexture := s.sheenColorTexture, sheenRoughnessTexture := s.sheenRoughnessTexture) == s
  {
    s.(sheenColorTexture := Assign(s.sheenColorTexture, j.sheenColorTexture, Srgb),
       sheenRoughnessTexture := Assign(s.sheenRoughnessTexture, j.sheenRoughnessTexture, Linear))
  }

  /** `fromJsonTransmission`: the transmission texture. */
  function FromJsonTransmission(s: TextureSlots, j: JsonTransmission): (r: TextureSlots)
    ensures Wrote(r.transmissionTexture, s.transmissionTexture, j.transmissionTexture, Linear)
    ensures r.(transmissionTexture := s.transmissionTexture) == s
  {
    s.(transmissionTexture := Assign(s.transmissionTexture, j.transmissionTexture, Linear))
  }

  /** `fromJsonVolume`: the thickness texture. */
  function FromJsonVolume(s: TextureSlots, j: JsonVolume): (r: TextureSlots)
    ensures Wrote(r.thicknessTexture, s.thicknessTexture, j.thicknessTexture, Linear)
    ensures r.(thicknessTexture := s.thicknessTexture) == s
  {
    s.(thicknessTexture := Assign(s.thicknessTexture, j.thicknessTexture, Linear))
  }

  /** The texture-info a recognised extension names, if that extension is present at all. */
  function SgDiffuse(e: JsonMaterialExtensions): Option<JsonTextureInfo> {
    if e.pbrSpecularGlossiness.Some? then e.pbrSpecularGlossiness.value.diffuseTexture else None
  }
  function SgSpecularGlossiness(e: JsonMaterialExtensions): Option<JsonTextureInfo> {
    if e.pbrSpecularGlossiness.Some? then e.pbrSpecularGlossiness.value.specularGlossinessTexture else None
  }
  function ClearcoatTex(e: JsonMaterialExtensions): Option<JsonTextureInfo> {
    if e.clearcoat.Some? then e.clearcoat.value.clearcoatTexture else None
  }
  function ClearcoatRoughnessTex(e: JsonMaterialExtensions): Option<JsonTextureInfo> {
    if e.clearcoat.Some? then e.clearcoat.value.clearcoatRoughnessTexture else None
  }
  function ClearcoatNormalTex(e: JsonMaterialExtensions): Option<JsonTextureInfo> {
    if e.clearcoat.Some? then e.clearcoat.value.clearcoatNormalTexture else None
  }
  function SpecularTex(e: JsonMaterialExtensions): Option<JsonTextureInfo> {
    if e.specular.Some? then e.specular.value.specularTexture else None
  }
  function SpecularColorTex(e: JsonMaterialExtensions): Option<JsonTextureInfo> {
    if e.specular.Some? then e.specular.value.specularColorTexture else None
  }
  function SheenColorTex(e: JsonMaterialExtensions): Option<JsonTextureInfo> {
    if e.sheen.Some? then e.sheen.value.sheenColorTexture else None
  }
  function SheenRoughnessTex(e: JsonMaterialExtensions): Option<JsonTextureInfo> {
    if e.sheen.Some? then e.sheen.value.sheenRoughnessTexture else None
  }
  function TransmissionTex(e: JsonMaterialExtensions): Option<JsonTextureInfo> {
    if e.transmission.Some? then e.transmission.value.transmissionTexture else None
  }
  function ThicknessTex(e: JsonMaterialExtensions): Option<JsonTextureInfo> {
    if e.volume.Some? then e.volume.value.thicknessTexture else None
  }

  /**
   * Every extension texture field of `r` is what the guarded assignment from
   * its own extension leaves over `before`, in the right colour space.
   */
  predicate ExtensionsWrote(r: TextureSlots, before: TextureSlots, e: JsonMaterialExtensions) {
    && Wrote(r.diffuseTexture, before.diffuseTexture, SgDiffuse(e), Srgb)
    && Wrote(r.specularGlossinessTexture, before.specularGlossinessTexture, SgSpecularGlossiness(e), Srgb)
    && Wrote(r.clearcoatTexture, before.clearcoatTexture, ClearcoatTex(e), Linear)
    && Wrote(r.clearcoatRoughnessTexture, before.clearcoatRoughnessTexture, ClearcoatRoughnessTex(e), Linear)
    && Wrote(r.clearcoatNormalTexture, before.clearcoatNormalTexture, ClearcoatNormalTex(e), Linear)
    && Wrote(r.pbrSpecularTexture, before.pbrSpecularTexture, SpecularTex(e), Linear)
    && Wrote(r.pbrSpecularColorTexture, before.pbrSpecularColorTexture, SpecularColorTex(e), Linear)
    && Wrote(r.sheenColorTexture, before.sheenColorTexture, SheenColorTex(e), Srgb)
    && Wrote(r.sheenRoughnessTexture, before.sheenRoughnessTexture, SheenRoughnessTex(e), Linear)
    && Wrote(r.transmissionTexture, before.transmissionTexture, TransmissionTex(e), Linear)
    && Wrote(r.thicknessTexture, before.thicknessTexture, ThicknessTex(e), Linear)
  }

  /** The base and metallic-roughness texture fields of `r` and `s` agree. */
  predicate CoreSlotsKept(r: TextureSlots, s: TextureSlots) {
    && r.normalTexture == s.normalTexture
    && r.occlusionTexture == s.occlusionTexture
    && r.emissiveTexture == s.emissiveTexture
    && r.baseColorTexture == s.baseColorTexture
    && r.metallicRoughnessTexture == s.metallicRoughnessTexture
  }

  /** `a` and `b` agree on every field other than the type and the texture fields. */
  predicate SameFields(a: Material, b: Material) {
    && a.name == b.name
    && a.pbrMetallicRoughness == b.pbrMetallicRoughness
    && a.extensions == b.extensions
    && a.emissiveFactor == b.emissiveFactor
    && a.alphaMode == b.alphaMode
    && a.alphaCutoff == b.alphaCutoff
    && a.doubleSided == b.doubleSided
  }

  /**
   * The type `fromJsonMaterialExtensions` leaves: specular-glossiness sets
   * "SG", then unlit overwrites it with "unlit".
   */
  function ExtensionShadingType(t: ShadingType, e: JsonMaterialExtensions): (r: ShadingType)
    ensures e.unlit ==> r == Unlit
    ensures !e.unlit && e.pbrSpecularGlossiness.Some? ==> r == SpecularGlossiness
    ensures !e.unlit && e.pbrSpecularGlossiness.None? ==> r == t
  {
    var t1 := if e.pbrSpecularGlossiness.Some? then SpecularGlossiness else t;
    if e.unlit then Unlit else t1
  }

  /**
   * The texture fields once every recognised extension has written its own:
   * each extension field is assigned from its extension's texture-info.
   */
  function ExtensionTextures(s: TextureSlots, e: JsonMaterialExtensions): (r: TextureSlots)
    ensures ExtensionsWrote(r, s, e)
    ensures CoreSlotsKept(r, s)
  {
    s.(diffuseTexture := Assign(s.diffuseTexture, SgDiffuse(e), Srgb),
       specularGlossinessTexture := Assign(s.specularGlossinessTexture, SgSpecularGlossiness(e), Srgb),
       clearcoatTexture := Assign(s.clearcoatTexture, ClearcoatTex(e), Linear),
       clearcoatRoughnessTexture := Assign(s.clearcoatRoughnessTexture, ClearcoatRoughnessTex(e), Linear),
       clearcoatNormalTexture := Assign(s.clearcoatNormalTexture, ClearcoatNormalTex(e), Linear),
       pbrSpecularTexture := Assign(s.pbrSpecularTexture, SpecularTex(e), Linear),
       pbrSpecularColorTexture := Assign(s.pbrSpecularColorTexture, SpecularColorTex(e), Linear),
       sheenColorTexture := Assign(s.sheenColorTexture, SheenColorTex(e), Srgb),
       sheenRoughnessTexture := Assign(s.sheenRoughnessTexture, SheenRoughnessTex(e), Linear),
       transmissionTexture := Assign(s.transmissionTexture, TransmissionTex(e), Linear),
       thicknessTexture := Assign(s.thicknessTexture, ThicknessTex(e), Linear))
  }

  /**
   * The helpers `fromJsonMaterialExtensions` calls, in its order, each only
   * when its extension is present.
   */
  function ExtensionHelpers(s: TextureSlots, e: JsonMaterialExtensions): TextureSlots {
    var s1 := if e.pbrSpecularGlossiness.Some? then FromJsonSpecularGlossiness(s, e.pbrSpecularGlossiness.value) else s;
    var s2 := if e.clearcoat.Some? then FromJsonClearcoat(s1, e.clearcoat.value) else s1;
    var s3 := if e.specular.Some? then FromJsonPBRSpecular(s2, e.specular.value) else s2;
    var s4 := if e.sheen.Some? then FromJsonSheen(s3, e.sheen.value) else s3;
    var s5 := if e.transmission.Some? then FromJsonTransmission(s4, e.transmission.value) else s4;
    if e.volume.Some? then FromJsonVolume(s5, e.volume.value) else s5
  }

  /**
   * Calling the helpers one after the other writes exactly the extension
   * fields: the helpers touch disjoint fields, so their order does not matter.
   */
  lemma ExtensionHelpersWriteExtensionTextures(s: TextureSlots, e: JsonMaterialExtensions)
    ensures ExtensionHelpers(s, e) == ExtensionTextures(s, e)
  {
    var s1 := if e.pbrSpecularGlossiness.Some? then FromJsonSpecularGlossiness(s, e.pbrSpecularGlossiness.value) else s;
    var s2 := if e.clearcoat.Some? then FromJsonClearcoat(s1, e.clearcoat.value) else s1;
    var s3 := if e.specular.Some? then FromJsonPBRSpecular(s2, e.specular.value) else s2;
    var s4 := if e.sheen.Some? then FromJsonSheen(s3, e.sheen.value) else s3;
    var s5 := if e.transmission.Some? then FromJsonTransmission(s4, e.transmission.value) else s4;
    var s6 := if e.volume.Some? then FromJsonVolume(s5, e.volume.value) else s5;
    assert s2.(clearcoatTexture := s.clearcoatTexture, clearcoatRoughnessTexture := s.clearcoatRoughnessTexture,
               clearcoatNormalTexture := s.clearcoatNormalTexture,
               diffuseTexture := s.diffuseTexture, specularGlossinessTexture := s.specularGlossinessTexture) == s;
    assert s4.(pbrSpecularTexture := s2.pbrSpecularTexture, pbrSpecularColorTexture := s2.pbrSpecularColorTexture,
               sheenColorTexture := s2.sheenColorTexture, sheenRoughnessTexture := s2.sheenRoughnessTexture) == s2;
    assert s6.(transmissionTexture := s4.transmissionTexture, thicknessTexture := s4.thicknessTexture) == s4;
  }

  /**
   * `fromJsonMaterialExtensions`: the type as the SG and unlit extensions
   * leave it, and the texture fields of the recognised extensions written.
   * No other field changes.
   */
  function FromJsonMaterialExtensions(m: Material, e: JsonMaterialExtensions): (r: Material)
    ensures r.shadingType == ExtensionShadingType(m.shadingType, e)
    ensures SameFields(r, m)
    ensures ExtensionsWrote(r.slots, m.slots, e)
    ensures CoreSlotsKept(r.slots, m.slots)
  {
    var m1 := if e.pbrSpecularGlossiness.Some? then m.(shadingType := SpecularGlossiness) else m;
    var m2 := if e.unlit then m1.(shadingType := Unlit) else m1;
    ExtensionHelpersWriteExtensionTextures(m.slots, e);
    m2.(slots := ExtensionHelpers(m.slots, e))
  }

  /** The texture fields `fromJson` itself writes: normal and occlusion (linear), emissive (sRGB). */
  function BaseTextures(s: TextureSlots, j: JsonMaterial): (r: TextureSlots)
    ensures Wrote(r.normalTexture, s.normalTexture, j.normalTexture, Linear)
    ensures Wrote(r.occlusionTexture, s.occlusionTexture, j.occlusionTexture, Linear)
    ensures Wrote(r.emissiveTexture, s.emissiveTexture, j.emissiveTexture, Srgb)
    ensures r.(normalTexture := s.normalTexture, occlusionTexture := s.occlusionTexture,
               emissiveTexture := s.emissiveTexture) == s
  {
    s.(normalTexture := Assign(s.normalTexture, j.normalTexture, Linear),
       occlusionTexture := Assign(s.occlusionTexture, j.occlusionTexture, Linear),
       emissiveTexture := Assign(s.emissiveTexture, j.emissiveTexture, Srgb))
  }

  /**
   * The first part of `fromJson`: the glTF fields copied, absent ones keeping
   * the defaults of glTF 2.0 section 3.9, and the base texture-infos attached.
   */
  function CopyFields(j: JsonMaterial): (r: Material)
    ensures r.shadingType == Unlit
    ensures r.name == j.name
    ensures r.pbrMetallicRoughness == j.pbrMetallicRoughness && r.extensions == j.extensions
    ensures r.emissiveFactor == j.emissiveFactor.GetOr([0.0, 0.0, 0.0])
    ensures r.alphaMode == j.alphaMode.GetOr("OPAQUE")
    ensures r.alphaCutoff == j.alphaCutoff.GetOr(0.5)
    ensures r.doubleSided == j.doubleSided.GetOr(false)
    ensures r.slots == BaseTextures(NoTextures, j)
  {
    Fresh.(
      name := j.name,
      pbrMetallicRoughness := j.pbrMetallicRoughness,
      extensions := j.extensions,
      emissiveFactor := j.emissiveFactor.GetOr(Fresh.emissiveFactor),
      alphaMode := j.alphaMode.GetOr(Fresh.alphaMode),
      alphaCutoff := j.alphaCutoff.GetOr(Fresh.alphaCutoff),
      doubleSided := j.doubleSided.GetOr(Fresh.doubleSided),
      slots := BaseTextures(Fresh.slots, j))
  }

  /** Whether the JSON names the specular-glossiness extension and not the unlit one. */
  predicate SgWins(j: JsonMaterial) {
    j.extensions.Some? && j.extensions.value.pbrSpecularGlossiness.Some? && !j.extensions.value.unlit
  }

  /**
   * `fromJson`: the fields are copied, the extension helpers run, and a
   * `pbrMetallicRoughness` object then makes the type "MR" and attaches its
   * textures unless the extensions left the type "SG".
   */
  function Parse(j: JsonMaterial): (r: Material)
    ensures r.shadingType == SpecularGlossiness <==> SgWins(j)
    ensures r.shadingType == MetallicRoughness <==> j.pbrMetallicRoughness.Some? && !SgWins(j)
    ensures r.shadingType == Unlit <==> j.pbrMetallicRoughness.None? && !SgWins(j)
    ensures SameFields(r, CopyFields(j))
  {
    var m0 := CopyFields(j);
    var m1 := if j.extensions.Some? then FromJsonMaterialExtensions(m0, j.extensions.value) else m0;
    if j.pbrMetallicRoughness.Some? && m1.shadingType != SpecularGlossiness then
      m1.(shadingType := MetallicRoughness, slots := FromJsonMetallicRoughness(m1.slots, j.pbrMetallicRoughness.value))
    else
      m1
  }

  /**
   * The texture fields after `fromJson`: the base ones and the extension ones
   * as the JSON names them, the metallic-roughness ones only when the type
   * ended "MR".
   */
  lemma ParseTextures(j: JsonMaterial)
    ensures Wrote(Parse(j).slots.normalTexture, None, j.normalTexture, Linear)
    ensures Wrote(Parse(j).slots.occlusionTexture, None, j.occlusionTexture, Linear)
    ensures Wrote(Parse(j).slots.emissiveTexture, None, j.emissiveTexture, Srgb)
    ensures ExtensionsWrote(Parse(j).slots, NoTextures, j.extensions.GetOr(NoExtensions))
    ensures Parse(j).shadingType == MetallicRoughness ==>
              && Wrote(Parse(j).slots.baseColorTexture, None, j.pbrMetallicRoughness.value.baseColorTexture, Srgb)
              && Wrote(Parse(j).slots.metallicRoughnessTexture, None, j.pbrMetallicRoughness.value.metallicRoughnessTexture, Linear)
    ensures Parse(j).shadingType != MetallicRoughness ==>
              Parse(j).slots.baseColorTexture.None? && Parse(j).slots.metallicRoughnessTexture.None?
  {
    var m0 := CopyFields(j);
    var e := j.extensions.GetOr(NoExtensions);
    var m1 := if j.extensions.Some? then FromJsonMaterialExtensions(m0, j.extensions.value) else m0;
    assert ExtensionsWrote(m1.slots, m0.slots, e) && CoreSlotsKept(m1.slots, m0.slots);
    var r := Parse(j);
    if j.pbrMetallicRoughness.Some? && m1.shadingType != SpecularGlossiness {
      assert r.slots == FromJsonMetallicRoughness(m1.slots, j.pbrMetallicRoughness.value);
    } else {
      assert r.slots == m1.slots;
    }
  }

  /**
   * A colour texture whose JSON gives no texture coordinate set uses set 0,
   * the one its constructor call passes.
   */
  lemma ColourTextureStartsAtSetZero(j: JsonMaterial)
    requires j.emissiveTexture.Some? && j.emissiveTexture.value.texCoord.None?
    ensures Parse(j).slots.emissiveTexture.Some?
    ensures Parse(j).slots.emissiveTexture.value.texCoord == Some(0)
  {
    ParseTextures(j);
  }

  /**
   * Extensions the material code does not know leave the parsed type and
   * texture fields as they are; only the verbatim `extensions` copy differs.
   */
  lemma UnrecognizedExtensionsIgnored(j: JsonMaterial, e: JsonMaterialExtensions)
    requires j.extensions == Some(e)
    ensures Parse(j.(extensions := Some(e.(unrecognized := {})))).shadingType == Parse(j).shadingType
    ensures Parse(j.(extensions := Some(e.(unrecognized := {})))).slots == Parse(j).slots
  {
    var j' := j.(extensions := Some(e.(unrecognized := {})));
    assert CopyFields(j').slots == CopyFields(j).slots;
    ExtensionHelpersIgnoreUnrecognized(CopyFields(j'), CopyFields(j), e);
  }

  /** The extension helpers read the type, the texture fields and the named extensions only. */
  lemma ExtensionHelpersIgnoreUnrecognized(a: Material, b: Material, e: JsonMaterialExtensions)
    requires a.shadingType == b.shadingType && a.slots == b.slots
    ensures FromJsonMaterialExtensions(a, e.(unrecognized := {})).shadingType == FromJsonMaterialExtensions(b, e).shadingType
    ensures FromJsonMaterialExtensions(a, e.(unrecognized := {})).slots == FromJsonMaterialExtensions(b, e).slots
  {
    var e' := e.(unrecognized := {});
    ExtensionHelpersWriteExtensionTextures(a.slots, e');
    ExtensionHelpersWriteExtensionTextures(b.slots, e);
    assert ExtensionTextures(a.slots, e') == ExtensionTextures(b.slots, e);
  }
}
