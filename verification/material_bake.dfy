/**
 * `gltfMaterial.initGl` (up to `initGlForMembers`) and
 * `parseTextureInfoExtensions`: the bake stage that turns a parsed material
 * into defines, uniform properties, a texture list and capability flags.
 *
 * Every step of `initGl` only appends defines and textures, sets properties
 * and raises flags, so each step is written as a contribution and the steps
 * are chained with `Then`.
 */
module MaterialBake {
  import opened Wrappers
  import opened GltfJson
  import opened UvTransform
  import opened Strings
  import opened MaterialTypes

  /** The KHR_texture_transform object of a texture-info, if it has one. */
  function TransformOf(t: TextureInfo): Option<JsonTextureTransform> {
    if t.extensions.Some? then t.extensions.value.textureTransform else None
  }

  /** The texture coordinate set in force after the transform's override, if any. */
  function EffectiveTexCoord(t: TextureInfo): Option<int> {
    if TransformOf(t).Some? && TransformOf(t).value.texCoord.Some? then TransformOf(t).value.texCoord else t.texCoord
  }

  /** The define announcing a UV transform for the texture called `key`. */
  function UvTransformDefine(key: string): string {
    "HAS_" + Upper(key) + "_UV_TRANSFORM 1"
  }

  /** The uniform holding the UV matrix of the texture called `key`. */
  function UvTransformKey(key: string): string {
    "u_" + key + "UVTransform"
  }

  /** A texture-info as `parseTextureInfoExtensions` leaves it, with what it pushed and set. */
  datatype Transformed = Transformed(texture: TextureInfo, contribution: Baked)

  /**
   * `parseTextureInfoExtensions(t, key)`. Without a KHR_texture_transform
   * nothing changes. With one, a given `texCoord` replaces the texture's,
   * exactly one define is pushed and exactly one uniform is set, to the UV
   * matrix rotation · scale · translation in closed form.
   */
  function ParseTextureInfoExtensions(t: TextureInfo, key: string, trig: Trig): (r: Transformed)
    ensures TransformOf(t).None? ==> r.texture == t && r.contribution == Empty
    ensures TransformOf(t).Some? && TransformOf(t).value.texCoord.Some? ==>
              r.texture.texCoord == TransformOf(t).value.texCoord
    ensures TransformOf(t).Some? && TransformOf(t).value.texCoord.None? ==> r.texture.texCoord == t.texCoord
    ensures r.texture.(texCoord := t.texCoord) == t
    ensures TransformOf(t).Some? ==>
              && r.contribution.defines == [UvTransformDefine(key)]
              && r.contribution.properties == map[UvTransformKey(key) := Matrix(UvAffine(TransformOf(t).value, trig))]
              && r.contribution.textures == []
              && r.contribution.flags == NoFlags
  {
    match TransformOf(t)
    case None => Transformed(t, Empty)
    case Some(tr) =>
      var t1 := if tr.texCoord.Some? then t.(texCoord := tr.texCoord) else t;
      UvMatrixClosedForm(tr, trig);
      Transformed(t1, Baked([UvTransformDefine(key)], map[UvTransformKey(key) := Matrix(UvMatrix(tr, trig))], [], NoFlags))
  }

  /** A uniform a texture sets besides its UV set: the normal scale or the occlusion strength. */
  datatype ExtraUniform = NoExtra | ScaleUniform(name: string) | StrengthUniform(name: string)

  /**
   * How `initGl` binds one texture field: the key passed to
   * `parseTextureInfoExtensions`, the sampler name, the map define, the
   * property the texture coordinate set goes to, and any extra uniform.
   */
  datatype Binding = Binding(key: string, sampler: string, mapDefine: string, uvSetKey: string, extra: ExtraUniform)

  /**
   * A binding spelled the way the shader names things: the sampler
   * `u_<samplerStem>Sampler`, the map define `HAS_<defineStem>_MAP 1`, and the
   * texture coordinate set under `u_<key>UVSet`, or `u_<key>UVTransform`
   * when `setInTransform` holds.
   */
  function Named(key: string, samplerStem: string, defineStem: string, setInTransform: bool, extra: ExtraUniform): (b: Binding)
    ensures |b.sampler| >= 9 && b.sampler[..2] == "u_" && b.sampler[|b.sampler| - 7..] == "Sampler"
    ensures |b.mapDefine| >= 10 && b.mapDefine[..4] == "HAS_" && b.mapDefine[|b.mapDefine| - 6..] == "_MAP 1"
    ensures b.key == key && b.extra == extra
    ensures b.uvSetKey == "u_" + key + (if setInTransform then "UVTransform" else "UVSet")
  {
    Binding(key, "u_" + samplerStem + "Sampler", "HAS_" + defineStem + "_MAP 1",
            "u_" + key + (if setInTransform then "UVTransform" else "UVSet"), extra)
  }

  /** The key, sampler stem, map-define stem and extra uniform `initGl` writes for one texture field. */
  datatype Names = Names(key: string, samplerStem: string, defineStem: string, extra: ExtraUniform)

  /** The names of each texture field, as written in the blocks of `initGl`. */
  function NamesOf(slot: TextureSlot): Names {
    match slot
    case NormalSlot => Names("Normal", "Normal", "NORMAL", ScaleUniform("u_NormalScale"))
    case OcclusionSlot => Names("Occlusion", "Occlusion", "OCCLUSION", StrengthUniform("u_OcclusionStrength"))
    case EmissiveSlot => Names("Emissive", "Emissive", "EMISSIVE", NoExtra)
    case BaseColorSlot => Names("BaseColor", "BaseColor", "BASE_COLOR", NoExtra)
    case MetallicRoughnessSlot => Names("MetallicRoughness", "MetallicRoughness", "METALLIC_ROUGHNESS", NoExtra)
    case DiffuseSlot => Names("Diffuse", "Diffuse", "DIFFUSE", NoExtra)
    case SpecularGlossinessSlot => Names("SpecularGlossiness", "SpecularGlossiness", "SPECULAR_GLOSSINESS", NoExtra)
    case ClearcoatSlot => Names("Clearcoat", "Clearcoat", "CLEARCOAT_TEXTURE", NoExtra)
    case ClearcoatRoughnessSlot => Names("ClearcoatRoughness", "ClearcoatRoughness", "CLEARCOAT_ROUGHNESS", NoExtra)
    case ClearcoatNormalSlot => Names("ClearcoatNormal", "ClearcoatNormal", "CLEARCOAT_NORMAL", ScaleUniform("u_ClearcoatNormalScale"))
    case PbrSpecularSlot => Names("pbrNextSpecular", "pbrNextSpecular", "PBRNEXTSPECULAR", NoExtra)
    case PbrSpecularColorSlot => Names("pbrNextSpecularColor", "pbrNextSpecularColor", "PBRNEXTSPECULARCOLOR", NoExtra)
    case SheenRoughnessSlot => Names("SheenRoughness", "sheenRoughness", "SHEEN_ROUGHNESS", NoExtra)
    case SheenColorSlot => Names("SheenColor", "SheenColor", "SHEEN_COLOR", NoExtra)
    case TransmissionSlot => Names("Transmission", "Transmission", "TRANSMISSION", NoExtra)
    case ThicknessSlot => Names("Thickness", "Thickness", "THICKNESS", NoExtra)
  }

  /**
   * How `initGl` binds each texture field. Samplers start with `u_` and end
   * in `Sampler`, map defines read `HAS_..._MAP 1`; the texture coordinate
   * set goes to `u_<key>UVSet`, except for the two specular textures, whose
   * set goes to `u_<key>UVTransform`.
   */
  function BindingOf(slot: TextureSlot): (b: Binding)
    ensures |b.sampler| >= 9 && b.sampler[..2] == "u_" && b.sampler[|b.sampler| - 7..] == "Sampler"
    ensures |b.mapDefine| >= 10 && b.mapDefine[..4] == "HAS_" && b.mapDefine[|b.mapDefine| - 6..] == "_MAP 1"
    ensures b.uvSetKey == "u_" + b.key + (if slot == PbrSpecularSlot || slot == PbrSpecularColorSlot then "UVTransform" else "UVSet")
  {
    var n := NamesOf(slot);
    Named(n.key, n.samplerStem, n.defineStem, slot == PbrSpecularSlot || slot == PbrSpecularColorSlot, n.extra)
  }

  /** The texture-info as it is pushed to `textures`: sampler named, texture coordinate set overridden. */
  function BoundTexture(t: TextureInfo, slot: TextureSlot): TextureInfo {
    t.(samplerName := BindingOf(slot).sampler, texCoord := EffectiveTexCoord(t))
  }

  /** What the texture field `slot` adds to `textures`: its bound texture-info if it is set. */
  function Bound(s: TextureSlots, slot: TextureSlot): seq<TextureInfo> {
    if s.Get(slot).Some? then [BoundTexture(s.Get(slot).value, slot)] else []
  }

  /** The defines a set texture field pushes: its UV-transform define, if any, then its map define. */
  function SlotDefines(t: TextureInfo, slot: TextureSlot): seq<string> {
    (if TransformOf(t).Some? then [UvTransformDefine(BindingOf(slot).key)] else []) + [BindingOf(slot).mapDefine]
  }

  /** The extra uniform of a binding, read from the bound texture-info. */
  function ExtraProperties(extra: ExtraUniform, t: TextureInfo): map<string, Value> {
    match extra
    case NoExtra => map[]
    case ScaleUniform(name) => map[name := OptNumber(t.scale)]
    case StrengthUniform(name) => map[name := OptNumber(t.strength)]
  }

  /**
   * One `if (this.xTexture !== undefined) { ... }` block of `initGl`: name the
   * sampler, parse the texture-info's extensions, push the texture and its
   * map define, and set its UV set (and scale or strength). The UV set is set
   * after the UV matrix, so when both use one name the UV set wins.
   */
  function SlotContribution(s: TextureSlots, slot: TextureSlot, trig: Trig): (r: Baked)
    ensures s.Get(slot).None? ==> r == Empty
    ensures s.Get(slot).Some? ==>
              && r.textures == [BoundTexture(s.Get(slot).value, slot)]
              && r.textures[0].samplerName == BindingOf(slot).sampler
              && r.defines == SlotDefines(s.Get(slot).value, slot)
              && BindingOf(slot).uvSetKey in r.properties
              && r.properties[BindingOf(slot).uvSetKey] == TexCoordValue(EffectiveTexCoord(s.Get(slot).value))
              && r.flags == NoFlags
  {
    match s.Get(slot)
    case None => Empty
    case Some(t) =>
      var b := BindingOf(slot);
      var x := ParseTextureInfoExtensions(t.(samplerName := b.sampler), b.key, trig);
      var u := x.texture;
      Then(x.contribution, Baked([b.mapDefine], ExtraProperties(b.extra, u) + map[b.uvSetKey := TexCoordValue(u.texCoord)], [u], NoFlags))
  }

  /** The contribution of the texture fields `order` names, one block after the other. */
  function SlotsContribution(s: TextureSlots, order: seq<TextureSlot>, trig: Trig): (r: Baked)
    ensures r.flags == NoFlags
    decreases |order|
  {
    if order == [] then Empty else Then(SlotContribution(s, order[0], trig), SlotsContribution(s, order[1..], trig))
  }

  /** What the texture fields `order` names add to `textures`, in that order. */
  function BoundAll(s: TextureSlots, order: seq<TextureSlot>): seq<TextureInfo>
    decreases |order|
  {
    if order == [] then [] else Bound(s, order[0]) + BoundAll(s, order[1..])
  }

  /** The texture list of a run of blocks is the bound texture-infos of the set fields, in order. */
  lemma {:induction false} SlotsContributionTextures(s: TextureSlots, order: seq<TextureSlot>, trig: Trig)
    ensures SlotsContribution(s, order, trig).textures == BoundAll(s, order)
    decreases |order|
  {
    if order != [] {
      SlotsContributionTextures(s, order[1..], trig);
    }
  }

  /** The defines the set fields among `order` push, field after field. */
  function DefinesAll(s: TextureSlots, order: seq<TextureSlot>): seq<string>
    decreases |order|
  {
    if order == [] then []
    else (if s.Get(order[0]).Some? then SlotDefines(s.Get(order[0]).value, order[0]) else []) + DefinesAll(s, order[1..])
  }

  /** A run of texture blocks pushes the defines of its set fields, in order. */
  lemma {:induction false} SlotsContributionDefines(s: TextureSlots, order: seq<TextureSlot>, trig: Trig)
    ensures SlotsContribution(s, order, trig).defines == DefinesAll(s, order)
    decreases |order|
  {
    if order != [] {
      SlotsContributionDefines(s, order[1..], trig);
    }
  }

  /** The base texture blocks of `initGl` in their fixed order, before and after the emissive factor. */
  const LeadingSlots: seq<TextureSlot> := [NormalSlot, OcclusionSlot]
  const TrailingSlots: seq<TextureSlot> :=
    [EmissiveSlot, BaseColorSlot, MetallicRoughnessSlot, DiffuseSlot, SpecularGlossinessSlot]

  /**
   * The base texture blocks of `initGl`: the normal and occlusion blocks, the emissive
   * factor (always set), then the emissive, base colour, metallic-roughness,
   * diffuse and specular-glossiness blocks.
   */
  function BaseTextureStage(m: Material, trig: Trig): (r: Baked)
    ensures r.flags == NoFlags
    ensures "u_EmissiveFactor" in r.properties
  {
    Then(SlotsContribution(m.slots, LeadingSlots, trig),
         Then(Baked([], map["u_EmissiveFactor" := Vector(m.emissiveFactor)], [], NoFlags),
              SlotsContribution(m.slots, TrailingSlots, trig)))
  }

  /**
   * The alpha block: MASK pushes its define and sets the cutoff, OPAQUE
   * pushes its define, any other mode (BLEND) adds nothing.
   */
  function AlphaStage(m: Material): (r: Baked)
    ensures r.textures == [] && r.flags == NoFlags
    ensures r.defines == (if m.alphaMode == "MASK" then ["ALPHAMODE_MASK 1"]
                          else if m.alphaMode == "OPAQUE" then ["ALPHAMODE_OPAQUE 1"] else [])
    ensures "u_AlphaCutoff" in r.properties <==> m.alphaMode == "MASK"
    ensures m.alphaMode == "MASK" ==> r.properties["u_AlphaCutoff"] == Number(m.alphaCutoff)
    ensures m.alphaMode != "MASK" ==> r.properties == map[]
  {
    if m.alphaMode == "MASK" then Baked(["ALPHAMODE_MASK 1"], map["u_AlphaCutoff" := Number(m.alphaCutoff)], [], NoFlags)
    else if m.alphaMode == "OPAQUE" then Baked(["ALPHAMODE_OPAQUE 1"], map[], [], NoFlags)
    else Empty
  }

  /** Whether `initGl` emits the metallic-roughness block: `pbrMetallicRoughness` present and type not "SG". */
  predicate UsesMetallicRoughness(m: Material) {
    m.pbrMetallicRoughness.Some? && m.shadingType != SpecularGlossiness
  }

  /**
   * The metallic-roughness block: its define and three factors, each
   * defaulting to [1, 1, 1, 1], 1 and 1.
   */
  function MetallicRoughnessStage(m: Material): (r: Baked)
    ensures r.textures == [] && r.flags == NoFlags
    ensures !UsesMetallicRoughness(m) ==> r == Empty
    ensures UsesMetallicRoughness(m) ==>
              var j := m.pbrMetallicRoughness.value;
              && r.defines == ["MATERIAL_METALLICROUGHNESS 1"]
              && r.properties.Keys == {"u_BaseColorFactor", "u_MetallicFactor", "u_RoughnessFactor"}
              && r.properties["u_BaseColorFactor"] == Vector(j.baseColorFactor.GetOr([1.0, 1.0, 1.0, 1.0]))
              && r.properties["u_MetallicFactor"] == Number(j.metallicFactor.GetOr(1.0))
              && r.properties["u_RoughnessFactor"] == Number(j.roughnessFactor.GetOr(1.0))
  {
    if UsesMetallicRoughness(m) then
      var j := m.pbrMetallicRoughness.value;
      var baseColorFactor := if j.baseColorFactor.Some? then j.baseColorFactor.value else [1.0, 1.0, 1.0, 1.0];
      var metallicFactor := if j.metallicFactor.Some? then j.metallicFactor.value else 1.0;
      var roughnessFactor := if j.roughnessFactor.Some? then j.roughnessFactor.value else 1.0;
      Baked(["MATERIAL_METALLICROUGHNESS 1"],
            map["u_BaseColorFactor" := Vector(baseColorFactor),
                "u_MetallicFactor" := Number(metallicFactor),
                "u_RoughnessFactor" := Number(roughnessFactor)],
            [], NoFlags)
    else
      Empty
  }

  /** A contribution that only raises flags, as `this.hasX = true` does. */
  function Raise(f: Flags): Baked {
    Baked([], map[], [], f)
  }

  /** The unlit block: its define, whenever the extension is present, whatever the type. */
  function UnlitStage(e: JsonMaterialExtensions): (r: Baked)
    ensures r.defines == (if e.unlit then ["MATERIAL_UNLIT 1"] else [])
    ensures r.properties == map[] && r.textures == [] && r.flags == NoFlags
  {
    if e.unlit then Baked(["MATERIAL_UNLIT 1"], map[], [], NoFlags) else Empty
  }

  /**
   * The specular-glossiness block: its define and three factors, defaulting
   * to diffuse [1, 1, 1, 1], specular [1, 1, 1] and glossiness 1, whenever
   * the extension is present, whatever the type.
   */
  function SpecularGlossinessStage(e: JsonMaterialExtensions): (r: Baked)
    ensures r.textures == [] && r.flags == NoFlags
    ensures e.pbrSpecularGlossiness.None? ==> r == Empty
    ensures e.pbrSpecularGlossiness.Some? ==>
              var j := e.pbrSpecularGlossiness.value;
              && r.defines == ["MATERIAL_SPECULARGLOSSINESS 1"]
              && r.properties.Keys == {"u_DiffuseFactor", "u_SpecularFactor", "u_GlossinessFactor"}
              && r.properties["u_DiffuseFactor"] == Vector(j.diffuseFactor.GetOr([1.0, 1.0, 1.0, 1.0]))
              && r.properties["u_SpecularFactor"] == Vector(j.specularFactor.GetOr([1.0, 1.0, 1.0]))
              && r.properties["u_GlossinessFactor"] == Number(j.glossinessFactor.GetOr(1.0))
  {
    match e.pbrSpecularGlossiness
    case None => Empty
    case Some(j) =>
      var diffuseFactor := if j.diffuseFactor.Some? then j.diffuseFactor.value else [1.0, 1.0, 1.0, 1.0];
      var specularFactor := if j.specularFactor.Some? then j.specularFactor.value else [1.0, 1.0, 1.0];
      var glossinessFactor := if j.glossinessFactor.Some? then j.glossinessFactor.value else 1.0;
      Baked(["MATERIAL_SPECULARGLOSSINESS 1"],
            map["u_DiffuseFactor" := Vector(diffuseFactor),
                "u_SpecularFactor" := Vector(specularFactor),
                "u_GlossinessFactor" := Number(glossinessFactor)],
            [], NoFlags)
  }

  const ClearcoatSlots: seq<TextureSlot> := [ClearcoatSlot, ClearcoatRoughnessSlot, ClearcoatNormalSlot]
  const SpecularSlots: seq<TextureSlot> := [PbrSpecularSlot, PbrSpecularColorSlot]
  const SheenSlots: seq<TextureSlot> := [SheenRoughnessSlot, SheenColorSlot]
  const TransmissionSlots: seq<TextureSlot> := [TransmissionSlot]
  const VolumeSlots: seq<TextureSlot> := [ThicknessSlot]

  /** Names set last keep the values set last. */
  lemma LastWritesWin(a: map<string, Value>, b: map<string, Value>, last: map<string, Value>)
    ensures forall k :: k in last ==> k in a + (b + last) && (a + (b + last))[k] == last[k]
  {
  }

  /** Raising a flag before a flagless run and setting factors after it. */
  lemma RaiseAround(flag: Flags, run: Baked, factors: map<string, Value>)
    requires run.flags == NoFlags
    ensures Then(Raise(flag), Then(run, Baked([], factors, [], NoFlags))).flags == flag
    ensures Then(Raise(flag), Then(run, Baked([], factors, [], NoFlags))).textures == run.textures
    ensures Then(Raise(flag), Then(run, Baked([], factors, [], NoFlags))).defines == run.defines
    ensures forall k :: k in factors ==>
              && k in Then(Raise(flag), Then(run, Baked([], factors, [], NoFlags))).properties
              && Then(Raise(flag), Then(run, Baked([], factors, [], NoFlags))).properties[k] == factors[k]
  {
    var r := Then(Raise(flag), Then(run, Baked([], factors, [], NoFlags)));
    assert r.properties == map[] + (run.properties + factors);
    assert r.textures == [] + (run.textures + []);
    assert r.defines == [] + (run.defines + []);
    LastWritesWin(map[], run.properties, factors);
  }

  /**
   * An optional extension block: when the extension is present, raise its
   * flag, run its texture blocks, then set its factors last.
   */
  function FeatureBlock(present: bool, flag: Flags, m: Material, order: seq<TextureSlot>,
                        factors: map<string, Value>, trig: Trig): (r: Baked)
    ensures !present ==> r == Empty
    ensures present ==> r.flags == flag && r.textures == BoundAll(m.slots, order)
    ensures present ==> r.defines == DefinesAll(m.slots, order)
    ensures present ==> forall k :: k in factors ==> k in r.properties && r.properties[k] == factors[k]
  {
    if present then
      var run := SlotsContribution(m.slots, order, trig);
      SlotsContributionTextures(m.slots, order, trig);
      SlotsContributionDefines(m.slots, order, trig);
      RaiseAround(flag, run, factors);
      Then(Raise(flag), Then(run, Baked([], factors, [], NoFlags)))
    else
      Empty
  }

  /** The clearcoat block: flag, three textures, factors defaulting to 0 and 0. */
  function ClearcoatStage(m: Material, e: JsonMaterialExtensions, trig: Trig): (r: Baked)
    ensures e.clearcoat.None? ==> r == Empty
    ensures e.clearcoat.Some? ==>
              && r.flags == NoFlags.(hasClearcoat := true)
              && r.textures == BoundAll(m.slots, ClearcoatSlots)
              && r.defines == DefinesAll(m.slots, ClearcoatSlots)
              && "u_ClearcoatFactor" in r.properties && "u_ClearcoatRoughnessFactor" in r.properties
              && r.properties["u_ClearcoatFactor"] == Number(e.clearcoat.value.clearcoatFactor.GetOr(0.0))
              && r.properties["u_ClearcoatRoughnessFactor"] == Number(e.clearcoat.value.clearcoatRoughnessFactor.GetOr(0.0))
  {
    var j := e.clearcoat.GetOr(JsonClearcoat(None, None, None, None, None));
    FeatureBlock(e.clearcoat.Some?, NoFlags.(hasClearcoat := true), m, ClearcoatSlots,
                 map["u_ClearcoatFactor" := Number(j.clearcoatFactor.GetOr(0.0)),
                     "u_ClearcoatRoughnessFactor" := Number(j.clearcoatRoughnessFactor.GetOr(0.0))], trig)
  }

  /** The specular block: flag, two textures, factors defaulting to 0 and [1, 1, 1]. */
  function SpecularStage(m: Material, e: JsonMaterialExtensions, trig: Trig): (r: Baked)
    ensures e.specular.None? ==> r == Empty
    ensures e.specular.Some? ==>
              && r.flags == NoFlags.(hasPBRSpecular := true)
              && r.textures == BoundAll(m.slots, SpecularSlots)
              && r.defines == DefinesAll(m.slots, SpecularSlots)
              && "u_pbrNextSpecularFactor" in r.properties && "u_pbrNextSpecularColorFactor" in r.properties
              && r.properties["u_pbrNextSpecularFactor"] == Number(e.specular.value.specularFactor.GetOr(0.0))
              && r.properties["u_pbrNextSpecularColorFactor"] == Vector(e.specular.value.specularColorFactor.GetOr([1.0, 1.0, 1.0]))
  {
    var j := e.specular.GetOr(JsonSpecular(None, None, None, None));
    FeatureBlock(e.specular.Some?, NoFlags.(hasPBRSpecular := true), m, SpecularSlots,
                 map["u_pbrNextSpecularFactor" := Number(j.specularFactor.GetOr(0.0)),
                     "u_pbrNextSpecularColorFactor" := Vector(j.specularColorFactor.GetOr([1.0, 1.0, 1.0]))], trig)
  }

  /** The sheen block: flag, roughness then colour texture, factors defaulting to 0 and [1, 1, 1]. */
  function SheenStage(m: Material, e: JsonMaterialExtensions, trig: Trig): (r: Baked)
    ensures e.sheen.None? ==> r == Empty
    ensures e.sheen.Some? ==>
              && r.flags == NoFlags.(hasSheen := true)
              && r.textures == BoundAll(m.slots, SheenSlots)
              && r.defines == DefinesAll(m.slots, SheenSlots)
              && "u_SheenRoughnessFactor" in r.properties && "u_SheenColorFactor" in r.properties
              && r.properties["u_SheenRoughnessFactor"] == Number(e.sheen.value.sheenRoughnessFactor.GetOr(0.0))
              && r.properties["u_SheenColorFactor"] == Vector(e.sheen.value.sheenColorFactor.GetOr([1.0, 1.0, 1.0]))
  {
    var j := e.sheen.GetOr(JsonSheen(None, None, None, None));
    FeatureBlock(e.sheen.Some?, NoFlags.(hasSheen := true), m, SheenSlots,
                 map["u_SheenRoughnessFactor" := Number(j.sheenRoughnessFactor.GetOr(0.0)),
                     "u_SheenColorFactor" := Vector(j.sheenColorFactor.GetOr([1.0, 1.0, 1.0]))], trig)
  }

  /**
   * The factor the transmission block stores. Its guard tests the local
   * variable, which is 0 and never undefined, so the JSON value is copied
   * as it is, `undefined` included.
   */
  function TransmissionFactor(j: JsonTransmission): (r: Value)
    ensures j.transmissionFactor.Some? ==> r == Number(j.transmissionFactor.value)
    ensures j.transmissionFactor.None? ==> r == Undefined
  {
    var transmissionFactor := Number(0.0);
    if transmissionFactor != Undefined then OptNumber(j.transmissionFactor) else transmissionFactor
  }

  /** The transmission block: flag, one texture, the factor as `TransmissionFactor` gives it. */
  function TransmissionStage(m: Material, e: JsonMaterialExtensions, trig: Trig): (r: Baked)
    ensures e.transmission.None? ==> r == Empty
    ensures e.transmission.Some? ==>
              && r.flags == NoFlags.(hasTransmission := true)
              && r.textures == BoundAll(m.slots, TransmissionSlots)
              && r.defines == DefinesAll(m.slots, TransmissionSlots)
              && "u_TransmissionFactor" in r.properties
              && r.properties["u_TransmissionFactor"] == OptNumber(e.transmission.value.transmissionFactor)
  {
    var j := e.transmission.GetOr(JsonTransmission(None, None));
    FeatureBlock(e.transmission.Some?, NoFlags.(hasTransmission := true), m, TransmissionSlots,
                 map["u_TransmissionFactor" := TransmissionFactor(j)], trig)
  }

  /** The volume block: flag, one texture, factors defaulting to [1, 1, 1], 0 and 0. */
  function VolumeStage(m: Material, e: JsonMaterialExtensions, trig: Trig): (r: Baked)
    ensures e.volume.None? ==> r == Empty
    ensures e.volume.Some? ==>
              && r.flags == NoFlags.(hasVolume := true)
              && r.textures == BoundAll(m.slots, VolumeSlots)
              && r.defines == DefinesAll(m.slots, VolumeSlots)
              && "u_AttenuationColor" in r.properties && "u_AttenuationDistance" in r.properties
              && "u_ThicknessFactor" in r.properties
              && r.properties["u_AttenuationColor"] == Vector(e.volume.value.attenuationColor.GetOr([1.0, 1.0, 1.0]))
              && r.properties["u_AttenuationDistance"] == Number(e.volume.value.attenuationDistance.GetOr(0.0))
              && r.properties["u_ThicknessFactor"] == Number(e.volume.value.thicknessFactor.GetOr(0.0))
  {
    var j := e.volume.GetOr(JsonVolume(None, None, None, None));
    FeatureBlock(e.volume.Some?, NoFlags.(hasVolume := true), m, VolumeSlots,
                 map["u_AttenuationColor" := Vector(j.attenuationColor.GetOr([1.0, 1.0, 1.0])),
                     "u_AttenuationDistance" := Number(j.attenuationDistance.GetOr(0.0)),
                     "u_ThicknessFactor" := Number(j.thicknessFactor.GetOr(0.0))], trig)
  }

  /** The flags the extension blocks raise: one per present extension object. */
  function ExtensionFlags(m: Material): Flags {
    match m.extensions
    case None => NoFlags
    case Some(e) => Flags(e.clearcoat.Some?, e.specular.Some?, e.sheen.Some?, e.transmission.Some?, e.volume.Some?)
  }

  /** The blocks of the optional extensions, in the order `initGl` runs them. */
  function FeatureStages(m: Material, e: JsonMaterialExtensions, trig: Trig): (r: Baked)
    ensures r.flags == Flags(e.clearcoat.Some?, e.specular.Some?, e.sheen.Some?, e.transmission.Some?, e.volume.Some?)
  {
    Then(ClearcoatStage(m, e, trig),
      Then(SpecularStage(m, e, trig),
        Then(SheenStage(m, e, trig),
          Then(TransmissionStage(m, e, trig), VolumeStage(m, e, trig)))))
  }

  /**
   * The extension blocks of `initGl`: nothing without an `extensions` object;
   * otherwise unlit, specular-glossiness, then the optional extensions.
   */
  function ExtensionStage(m: Material, trig: Trig): (r: Baked)
    ensures r.flags == ExtensionFlags(m)
  {
    match m.extensions
    case None => Empty
    case Some(e) => Then(UnlitStage(e), Then(SpecularGlossinessStage(e), FeatureStages(m, e, trig)))
  }

  /** Everything `initGl` adds before `initGlForMembers`, in its order. */
  function Contribution(m: Material, trig: Trig): (r: Baked)
    ensures r.flags == ExtensionFlags(m)
  {
    Then(BaseTextureStage(m, trig), Then(AlphaStage(m), Then(MetallicRoughnessStage(m), ExtensionStage(m, trig))))
  }

  /**
   * Whether `initGl` runs the block of the texture field `slot`: the base
   * blocks always, an extension's blocks only inside that extension's block.
   */
  predicate Visits(m: Material, slot: TextureSlot) {
    var e := m.extensions.GetOr(NoExtensions);
    match slot
    case ClearcoatSlot => e.clearcoat.Some?
    case ClearcoatRoughnessSlot => e.clearcoat.Some?
    case ClearcoatNormalSlot => e.clearcoat.Some?
    case PbrSpecularSlot => e.specular.Some?
    case PbrSpecularColorSlot => e.specular.Some?
    case SheenRoughnessSlot => e.sheen.Some?
    case SheenColorSlot => e.sheen.Some?
    case TransmissionSlot => e.transmission.Some?
    case ThicknessSlot => e.volume.Some?
    case _ => true
  }

  /**
   * A texture field once its block has run: the block names the sampler and
   * `parseTextureInfoExtensions` overrides the texture coordinate set on the
   * stored object itself.
   */
  function BindField(m: Material, slot: TextureSlot): Option<TextureInfo> {
    var o := m.slots.Get(slot);
    if Visits(m, slot) && o.Some? then Some(BoundTexture(o.value, slot)) else o
  }

  /**
   * The texture fields as `initGl` leaves them: every field whose block ran
   * is bound in place, every other field is kept.
   */
  function BoundSlots(m: Material): (r: TextureSlots)
    ensures forall slot :: r.Get(slot) == BindField(m, slot)
  {
    var r := BindFields(m);
    assert forall slot :: r.Get(slot) == BindField(m, slot) by {
      forall slot ensures r.Get(slot) == BindField(m, slot) {
        BindFieldsGet(m, slot);
      }
    }
    r
  }

  /** Field by field, the texture fields with each visited one bound. */
  function BindFields(m: Material): TextureSlots {
    TextureSlots(
      BindField(m, NormalSlot), BindField(m, OcclusionSlot), BindField(m, EmissiveSlot),
      BindField(m, BaseColorSlot), BindField(m, MetallicRoughnessSlot),
      BindField(m, DiffuseSlot), BindField(m, SpecularGlossinessSlot),
      BindField(m, ClearcoatSlot), BindField(m, ClearcoatRoughnessSlot), BindField(m, ClearcoatNormalSlot),
      BindField(m, PbrSpecularSlot), BindField(m, PbrSpecularColorSlot),
      BindField(m, SheenRoughnessSlot), BindField(m, SheenColorSlot),
      BindField(m, TransmissionSlot), BindField(m, ThicknessSlot))
  }

  lemma BindFieldsGet(m: Material, slot: TextureSlot)
    ensures BindFields(m).Get(slot) == BindField(m, slot)
  {
    match slot
    case NormalSlot =>
    case OcclusionSlot =>
    case EmissiveSlot =>
    case BaseColorSlot =>
    case MetallicRoughnessSlot =>
    case DiffuseSlot =>
    case SpecularGlossinessSlot =>
    case ClearcoatSlot =>
    case ClearcoatRoughnessSlot =>
    case ClearcoatNormalSlot =>
    case PbrSpecularSlot =>
    case PbrSpecularColorSlot =>
    case SheenRoughnessSlot =>
    case SheenColorSlot =>
    case TransmissionSlot =>
    case ThicknessSlot =>
  }

  /**
   * `initGl` up to `initGlForMembers`: the material's contribution appended
   * to whatever the object already holds, and the visited texture fields
   * bound in place; no other descriptor field changes.
   * `trig` stands for `Math.sin` and `Math.cos`.
   */
  function InitGl(g: GltfMaterial, trig: Trig): (r: GltfMaterial)
    ensures r.material.(slots := g.material.slots) == g.material
    ensures forall slot :: r.material.slots.Get(slot) == BindField(g.material, slot)
    ensures |r.baked.defines| >= |g.baked.defines| && r.baked.defines[..|g.baked.defines|] == g.baked.defines
    ensures |r.baked.textures| >= |g.baked.textures| && r.baked.textures[..|g.baked.textures|] == g.baked.textures
    ensures r.baked.flags == g.baked.flags.Or(ExtensionFlags(g.material))
  {
    GltfMaterial(g.material.(slots := BoundSlots(g.material)), Then(g.baked, Contribution(g.material, trig)))
  }
}
