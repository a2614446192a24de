/**
 * Properties of the whole bake that span several blocks of `initGl`: the
 * order of the texture list and of the texture defines, the emissive
 * factor, and the places where one uniform name is written twice.
 */
module MaterialProperties {
  import opened Wrappers
  import opened GltfJson
  import opened UvTransform
  import opened Strings
  import opened MaterialTypes
  import opened MaterialBake

  /** The base texture fields in the fixed order `initGl` binds them. */
  const BaseSlots: seq<TextureSlot> :=
    [NormalSlot, OcclusionSlot, EmissiveSlot, BaseColorSlot, MetallicRoughnessSlot, DiffuseSlot, SpecularGlossinessSlot]

  /** The texture fields of an optional block when its extension is present, none otherwise. */
  function When(present: bool, order: seq<TextureSlot>): seq<TextureSlot> {
    if present then order else []
  }

  /** The texture fields of the optional extension blocks, for the extensions present. */
  function ExtensionSlots(m: Material): seq<TextureSlot> {
    match m.extensions
    case None => []
    case Some(e) =>
      When(e.clearcoat.Some?, ClearcoatSlots)
      + (When(e.specular.Some?, SpecularSlots)
         + (When(e.sheen.Some?, SheenSlots)
            + (When(e.transmission.Some?, TransmissionSlots) + When(e.volume.Some?, VolumeSlots))))
  }

  /** Every texture field `initGl` visits for `m`, in the order it visits them. */
  function TextureOrder(m: Material): seq<TextureSlot> {
    BaseSlots + ExtensionSlots(m)
  }

  /** Binding two runs of fields one after the other binds their concatenation. */
  lemma {:induction false} BoundAllAppend(s: TextureSlots, a: seq<TextureSlot>, b: seq<TextureSlot>)
    ensures BoundAll(s, a + b) == BoundAll(s, a) + BoundAll(s, b)
    decreases |a|
  {
    if a != [] {
      assert (a + b)[1..] == a[1..] + b;
      assert (a + b)[0] == a[0];
      BoundAllAppend(s, a[1..], b);
    } else {
      assert a + b == b;
    }
  }

  /** Collecting the defines of two runs one after the other collects those of their concatenation. */
  lemma {:induction false} DefinesAllAppend(s: TextureSlots, a: seq<TextureSlot>, b: seq<TextureSlot>)
    ensures DefinesAll(s, a + b) == DefinesAll(s, a) + DefinesAll(s, b)
    decreases |a|
  {
    if a != [] {
      assert (a + b)[1..] == a[1..] + b;
      assert (a + b)[0] == a[0];
      DefinesAllAppend(s, a[1..], b);
    } else {
      assert a + b == b;
    }
  }

  /** Two runs of texture blocks around a contribution that sets only uniforms: their textures. */
  lemma TwoRunsTextures(s: TextureSlots, a: seq<TextureSlot>, props: map<string, Value>, b: seq<TextureSlot>, trig: Trig)
    ensures Then(SlotsContribution(s, a, trig), Then(Baked([], props, [], NoFlags), SlotsContribution(s, b, trig))).textures
            == BoundAll(s, a + b)
  {
    var x := SlotsContribution(s, a, trig);
    var y := SlotsContribution(s, b, trig);
    SlotsContributionTextures(s, a, trig);
    SlotsContributionTextures(s, b, trig);
    BoundAllAppend(s, a, b);
    assert Then(x, Then(Baked([], props, [], NoFlags), y)).textures == x.textures + ([] + y.textures);
    assert [] + y.textures == y.textures;
  }

  /** Two runs of texture blocks around a contribution that sets only uniforms: their defines. */
  lemma TwoRunsDefines(s: TextureSlots, a: seq<TextureSlot>, props: map<string, Value>, b: seq<TextureSlot>, trig: Trig)
    ensures Then(SlotsContribution(s, a, trig), Then(Baked([], props, [], NoFlags), SlotsContribution(s, b, trig))).defines
            == DefinesAll(s, a + b)
  {
    var x := SlotsContribution(s, a, trig);
    var y := SlotsContribution(s, b, trig);
    SlotsContributionDefines(s, a, trig);
    SlotsContributionDefines(s, b, trig);
    DefinesAllAppend(s, a, b);
    assert Then(x, Then(Baked([], props, [], NoFlags), y)).defines == x.defines + ([] + y.defines);
    assert [] + y.defines == y.defines;
  }

  /** The base texture blocks push their textures and defines in the fixed order normal … specular-glossiness. */
  lemma BaseTextureStageTextures(m: Material, trig: Trig)
    ensures BaseTextureStage(m, trig).textures == BoundAll(m.slots, BaseSlots)
    ensures BaseTextureStage(m, trig).defines == DefinesAll(m.slots, BaseSlots)
  {
    TwoRunsTextures(m.slots, LeadingSlots, map["u_EmissiveFactor" := Vector(m.emissiveFactor)], TrailingSlots, trig);
    TwoRunsDefines(m.slots, LeadingSlots, map["u_EmissiveFactor" := Vector(m.emissiveFactor)], TrailingSlots, trig);
    assert LeadingSlots + TrailingSlots == BaseSlots;
  }

  /** What an optional block adds to `textures` and `defines`: those of its set texture fields. */
  predicate Pushes(b: Baked, s: TextureSlots, order: seq<TextureSlot>) {
    b.textures == BoundAll(s, order) && b.defines == DefinesAll(s, order)
  }

  /** Each optional block pushes the textures and defines of its fields when its extension is present, nothing otherwise. */
  lemma ClearcoatPushes(m: Material, e: JsonMaterialExtensions, trig: Trig)
    ensures Pushes(ClearcoatStage(m, e, trig), m.slots, When(e.clearcoat.Some?, ClearcoatSlots))
  {
  }

  lemma SpecularPushes(m: Material, e: JsonMaterialExtensions, trig: Trig)
    ensures Pushes(SpecularStage(m, e, trig), m.slots, When(e.specular.Some?, SpecularSlots))
  {
  }

  lemma SheenPushes(m: Material, e: JsonMaterialExtensions, trig: Trig)
    ensures Pushes(SheenStage(m, e, trig), m.slots, When(e.sheen.Some?, SheenSlots))
  {
  }

  lemma TransmissionPushes(m: Material, e: JsonMaterialExtensions, trig: Trig)
    ensures Pushes(TransmissionStage(m, e, trig), m.slots, When(e.transmission.Some?, TransmissionSlots))
  {
  }

  lemma VolumePushes(m: Material, e: JsonMaterialExtensions, trig: Trig)
    ensures Pushes(VolumeStage(m, e, trig), m.slots, When(e.volume.Some?, VolumeSlots))
  {
  }

  /** Chaining contributions that push two runs pushes their concatenation. */
  lemma ThenPushes(b: Baked, c: Baked, s: TextureSlots, x: seq<TextureSlot>, y: seq<TextureSlot>)
    requires Pushes(b, s, x) && Pushes(c, s, y)
    ensures Pushes(Then(b, c), s, x + y)
  {
    BoundAllAppend(s, x, y);
    DefinesAllAppend(s, x, y);
  }

  /** Five chained contributions push the concatenation of their runs. */
  lemma ChainPushes(c: Baked, p: Baked, h: Baked, t: Baked, v: Baked, s: TextureSlots,
                    cc: seq<TextureSlot>, sp: seq<TextureSlot>, sh: seq<TextureSlot>, tr: seq<TextureSlot>, vo: seq<TextureSlot>)
    requires Pushes(c, s, cc) && Pushes(p, s, sp) && Pushes(h, s, sh) && Pushes(t, s, tr) && Pushes(v, s, vo)
    ensures Pushes(Then(c, Then(p, Then(h, Then(t, v)))), s, cc + (sp + (sh + (tr + vo))))
  {
    ThenPushes(t, v, s, tr, vo);
    ThenPushes(h, Then(t, v), s, sh, tr + vo);
    ThenPushes(p, Then(h, Then(t, v)), s, sp, sh + (tr + vo));
    ThenPushes(c, Then(p, Then(h, Then(t, v))), s, cc, sp + (sh + (tr + vo)));
  }

  /**
   * The optional extension blocks push their textures in the order
   * clearcoat, specular, sheen, transmission, volume, and their texture
   * defines in the same order.
   */
  lemma FeatureStagesOrder(m: Material, e: JsonMaterialExtensions, trig: Trig)
    requires m.extensions == Some(e)
    ensures Pushes(FeatureStages(m, e, trig), m.slots, ExtensionSlots(m))
  {
    var s := m.slots;
    var cc := When(e.clearcoat.Some?, ClearcoatSlots);
    var sp := When(e.specular.Some?, SpecularSlots);
    var sh := When(e.sheen.Some?, SheenSlots);
    var tr := When(e.transmission.Some?, TransmissionSlots);
    var vo := When(e.volume.Some?, VolumeSlots);
    var c := ClearcoatStage(m, e, trig);
    var p := SpecularStage(m, e, trig);
    var h := SheenStage(m, e, trig);
    var t := TransmissionStage(m, e, trig);
    var v := VolumeStage(m, e, trig);
    ClearcoatPushes(m, e, trig);
    SpecularPushes(m, e, trig);
    SheenPushes(m, e, trig);
    TransmissionPushes(m, e, trig);
    VolumePushes(m, e, trig);
    ChainPushes(c, p, h, t, v, s, cc, sp, sh, tr, vo);
  }

  /** The defines of the unlit and specular-glossiness blocks, which precede the optional blocks. */
  function ShadingDefines(m: Material): seq<string> {
    match m.extensions
    case None => []
    case Some(e) => UnlitStage(e).defines + SpecularGlossinessStage(e).defines
  }

  /** Three chained contributions whose first two push no textures. */
  lemma ChainOfThree(u: Baked, g: Baked, f: Baked)
    requires u.textures == [] && g.textures == []
    ensures Then(u, Then(g, f)).textures == f.textures
    ensures Then(u, Then(g, f)).defines == (u.defines + g.defines) + f.defines
  {
  }

  /** The extension stage: the unlit and specular-glossiness defines, then the optional blocks. */
  lemma ExtensionStageOrder(m: Material, trig: Trig)
    ensures ExtensionStage(m, trig).textures == BoundAll(m.slots, ExtensionSlots(m))
    ensures ExtensionStage(m, trig).defines == ShadingDefines(m) + DefinesAll(m.slots, ExtensionSlots(m))
  {
    match m.extensions {
      case None =>
      case Some(e) =>
        FeatureStagesOrder(m, e, trig);
        ChainOfThree(UnlitStage(e), SpecularGlossinessStage(e), FeatureStages(m, e, trig));
    }
  }

  /** Four chained contributions whose middle two push no textures. */
  lemma ChainOfFour(b: Baked, a: Baked, r: Baked, x: Baked)
    requires a.textures == [] && r.textures == []
    ensures Then(b, Then(a, Then(r, x))).textures == b.textures + x.textures
    ensures Then(b, Then(a, Then(r, x))).defines == b.defines + a.defines + r.defines + x.defines
  {
  }

  /**
   * The whole of `initGl` before `initGlForMembers`: every set texture field
   * contributes exactly one entry to `textures`, in the fixed order base
   * fields then extension fields; the defines are the base texture defines,
   * the alpha define, the metallic-roughness define, the unlit and
   * specular-glossiness defines, then the extension texture defines.
   */
  lemma ContributionOrder(m: Material, trig: Trig)
    ensures Contribution(m, trig).textures == BoundAll(m.slots, TextureOrder(m))
    ensures Contribution(m, trig).defines ==
              DefinesAll(m.slots, BaseSlots) + AlphaStage(m).defines + MetallicRoughnessStage(m).defines
              + (ShadingDefines(m) + DefinesAll(m.slots, ExtensionSlots(m)))
  {
    BaseTextureStageTextures(m, trig);
    ExtensionStageOrder(m, trig);
    BoundAllAppend(m.slots, BaseSlots, ExtensionSlots(m));
    ChainOfFour(BaseTextureStage(m, trig), AlphaStage(m), MetallicRoughnessStage(m), ExtensionStage(m, trig));
  }

  /**
   * The emissive factor is set whatever the material holds, and a MASK
   * material's cutoff is set: later blocks may only overwrite them.
   */
  lemma AlwaysSetUniforms(m: Material, trig: Trig)
    ensures "u_EmissiveFactor" in Contribution(m, trig).properties
    ensures m.alphaMode == "MASK" ==> "u_AlphaCutoff" in Contribution(m, trig).properties
  {
    var b := BaseTextureStage(m, trig);
    var a := AlphaStage(m);
    var r := MetallicRoughnessStage(m);
    var x := ExtensionStage(m, trig);
    assert "u_EmissiveFactor" in b.properties;
    assert Contribution(m, trig).properties == b.properties + (a.properties + (r.properties + x.properties));
  }

  /** The texture key "BaseColor" upper-cases to "BASECOLOR". */
  lemma UpperBaseColor()
    ensures Upper("BaseColor") == "BASECOLOR"
  {
    var u := Upper("BaseColor");
    assert u[0] == 'B' && u[1] == 'A' && u[2] == 'S' && u[3] == 'E';
    assert u[4] == 'C' && u[5] == 'O' && u[6] == 'L' && u[7] == 'O' && u[8] == 'R';
  }

  /** The UV-transform define of the base colour texture. */
  lemma BaseColorUvDefine()
    ensures UvTransformDefine("BaseColor") == "HAS_BASECOLOR_UV_TRANSFORM 1"
  {
    UpperBaseColor();
    assert "HAS_" + "BASECOLOR" == "HAS_BASECOLOR";
    assert "HAS_BASECOLOR" + "_UV_TRANSFORM 1" == "HAS_BASECOLOR_UV_TRANSFORM 1";
  }

  /** The map define of the base colour texture. */
  lemma BaseColorMapDefine()
    ensures BindingOf(BaseColorSlot).mapDefine == "HAS_BASE_COLOR_MAP 1"
  {
    assert NamesOf(BaseColorSlot).defineStem == "BASE_COLOR";
    assert "HAS_" + "BASE_COLOR" == "HAS_BASE_COLOR";
    assert "HAS_BASE_COLOR" + "_MAP 1" == "HAS_BASE_COLOR_MAP 1";
  }

  /**
   * A transformed base colour texture pushes its UV-transform define
   * immediately before its map define.
   */
  lemma BaseColorDefines(t: TextureInfo)
    requires TransformOf(t).Some?
    ensures SlotDefines(t, BaseColorSlot) == ["HAS_BASECOLOR_UV_TRANSFORM 1", "HAS_BASE_COLOR_MAP 1"]
  {
    var b := BindingOf(BaseColorSlot);
    assert b.key == NamesOf(BaseColorSlot).key == "BaseColor";
    BaseColorUvDefine();
    BaseColorMapDefine();
    assert SlotDefines(t, BaseColorSlot) == [UvTransformDefine(b.key)] + [b.mapDefine];
  }

  /** Every UV-matrix name ends in "Transform". */
  lemma UvTransformKeyEnd(key: string)
    ensures UvTransformKey(key)[|UvTransformKey(key)| - 1] == 'm'
  {
  }

  /** The UV-set names of all but the two specular textures end in "UVSet". */
  lemma UvSetKeyEnd(slot: TextureSlot)
    requires slot != PbrSpecularSlot && slot != PbrSpecularColorSlot
    ensures |BindingOf(slot).uvSetKey| > 0 && BindingOf(slot).uvSetKey[|BindingOf(slot).uvSetKey| - 1] == 't'
  {
  }

  /** The specular texture's UV-matrix name, spelled out. */
  lemma SpecularMatrixName()
    ensures BindingOf(PbrSpecularSlot).key == "pbrNextSpecular"
    ensures UvTransformKey("pbrNextSpecular") == "u_pbrNextSpecularUVTransform"
  {
    assert NamesOf(PbrSpecularSlot).key == "pbrNextSpecular";
    assert "u_" + "pbrNextSpecular" == "u_pbrNextSpecular";
    assert "u_pbrNextSpecular" + "UVTransform" == "u_pbrNextSpecularUVTransform";
  }

  /** Every other texture's UV-set name differs from its UV-matrix name. */
  lemma OtherNamesDiffer(slot: TextureSlot)
    requires slot != PbrSpecularSlot && slot != PbrSpecularColorSlot
    ensures UvTransformKey(BindingOf(slot).key) != BindingOf(slot).uvSetKey
  {
    UvTransformKeyEnd(BindingOf(slot).key);
    UvSetKeyEnd(slot);
  }

  /**
   * Only the two specular textures store their texture coordinate set under
   * the name of their UV matrix; every other texture uses a name of its own.
   */
  lemma UvNamesClash(slot: TextureSlot)
    ensures UvTransformKey(BindingOf(slot).key) == BindingOf(slot).uvSetKey <==>
            slot == PbrSpecularSlot || slot == PbrSpecularColorSlot
  {
    if slot != PbrSpecularSlot && slot != PbrSpecularColorSlot {
      OtherNamesDiffer(slot);
    }
  }

  /**
   * Every other transformed texture keeps its UV matrix: its block stores the
   * texture coordinate set under a different name.
   */
  lemma UvMatrixSurvives(s: TextureSlots, slot: TextureSlot, trig: Trig)
    requires slot != PbrSpecularSlot && slot != PbrSpecularColorSlot
    requires s.Get(slot).Some? && TransformOf(s.Get(slot).value).Some?
    ensures UvTransformKey(BindingOf(slot).key) in SlotContribution(s, slot, trig).properties
    ensures SlotContribution(s, slot, trig).properties[UvTransformKey(BindingOf(slot).key)]
              == Matrix(UvAffine(TransformOf(s.Get(slot).value).value, trig))
  {
    var t := s.Get(slot).value;
    var b := BindingOf(slot);
    var x := ParseTextureInfoExtensions(t.(samplerName := b.sampler), b.key, trig);
    var u := x.texture;
    var k := UvTransformKey(b.key);
    assert TransformOf(t.(samplerName := b.sampler)) == TransformOf(t);
    OtherNamesDiffer(slot);
    ExtraNamesDiffer(slot, u);
    SurvivesLaterWrites(x.contribution.properties, ExtraProperties(b.extra, u), b.uvSetKey,
                        TexCoordValue(u.texCoord), k);
    assert SlotContribution(s, slot, trig).properties
        == x.contribution.properties + (ExtraProperties(b.extra, u) + map[b.uvSetKey := TexCoordValue(u.texCoord)]);
  }

  /** A name written first survives later writes to other names. */
  lemma SurvivesLaterWrites(first: map<string, Value>, extra: map<string, Value>, k0: string, v0: Value, k: string)
    requires k in first && k !in extra && k != k0
    ensures k in first + (extra + map[k0 := v0]) && (first + (extra + map[k0 := v0]))[k] == first[k]
  {
  }

  /** No texture's scale or strength uniform shares the name of its UV matrix. */
  lemma ExtraNamesDiffer(slot: TextureSlot, u: TextureInfo)
    ensures UvTransformKey(BindingOf(slot).key) !in ExtraProperties(BindingOf(slot).extra, u)
  {
    var k := UvTransformKey(BindingOf(slot).key);
    UvTransformKeyEnd(BindingOf(slot).key);
    match BindingOf(slot).extra
    case NoExtra =>
    case ScaleUniform(name) =>
      assert name[|name| - 1] == 'e';
    case StrengthUniform(name) =>
      assert name[|name| - 1] == 'h';
  }

  /**
   * The specular texture's block sets its texture coordinate set last, under
   * the name of its UV matrix, so the set replaces the matrix.
   */
  lemma SpecularUvSetReplacesMatrix(s: TextureSlots, trig: Trig)
    requires s.pbrSpecularTexture.Some?
    ensures "u_pbrNextSpecularUVTransform" == UvTransformKey("pbrNextSpecular")
    ensures SlotContribution(s, PbrSpecularSlot, trig).properties["u_pbrNextSpecularUVTransform"]
              == TexCoordValue(EffectiveTexCoord(s.pbrSpecularTexture.value))
  {
    SpecularMatrixName();
  }

  /** A field `initGl` visits is one its fixed texture order lists, and the other way round. */
  lemma VisitsIffOrdered(m: Material, slot: TextureSlot)
    ensures slot in TextureOrder(m) <==> Visits(m, slot)
  {
    var e := m.extensions.GetOr(NoExtensions);
    var cc := When(e.clearcoat.Some?, ClearcoatSlots);
    var sp := When(e.specular.Some?, SpecularSlots);
    var sh := When(e.sheen.Some?, SheenSlots);
    var tr := When(e.transmission.Some?, TransmissionSlots);
    var vo := When(e.volume.Some?, VolumeSlots);
    assert ExtensionSlots(m) == cc + (sp + (sh + (tr + vo)));
    InChain(slot, BaseSlots, cc, sp, sh, tr, vo);
  }

  /** Membership in a chain of runs is membership in one of them. */
  lemma InChain<T>(x: T, a: seq<T>, b: seq<T>, c: seq<T>, d: seq<T>, e: seq<T>, f: seq<T>)
    ensures x in a + (b + (c + (d + (e + f)))) <==> x in a || x in b || x in c || x in d || x in e || x in f
  {
  }

  /** The set fields among `order`, in that order. */
  function Fields(s: TextureSlots, order: seq<TextureSlot>): seq<TextureInfo>
    decreases |order|
  {
    if order == [] then []
    else (if s.Get(order[0]).Some? then [s.Get(order[0]).value] else []) + Fields(s, order[1..])
  }

  /** Over visited fields, the bound texture-infos pushed are the fields as `initGl` leaves them. */
  lemma {:induction false} FieldsOfBoundSlots(m: Material, order: seq<TextureSlot>)
    requires forall slot :: slot in order ==> Visits(m, slot)
    ensures Fields(BoundSlots(m), order) == BoundAll(m.slots, order)
    decreases |order|
  {
    if order != [] {
      assert order[0] in order;
      FieldsOfBoundSlots(m, order[1..]);
    }
  }

  /**
   * The texture list `initGl` builds holds the very texture-infos the
   * descriptor holds afterwards: its new entries are the set fields, bound in
   * place, in the fixed order of the blocks.
   */
  lemma InitGlTexturesAreFields(g: GltfMaterial, trig: Trig)
    ensures InitGl(g, trig).baked.textures == g.baked.textures + Fields(InitGl(g, trig).material.slots, TextureOrder(g.material))
  {
    var m := g.material;
    forall slot | slot in TextureOrder(m) ensures Visits(m, slot) {
      VisitsIffOrdered(m, slot);
    }
    FieldsOfBoundSlots(m, TextureOrder(m));
    ContributionOrder(m, trig);
  }

  /** Binding a texture-info twice is binding it once. */
  lemma BindTwice(t: TextureInfo, slot: TextureSlot)
    ensures BoundTexture(BoundTexture(t, slot), slot) == BoundTexture(t, slot)
  {
  }

  /** Texture fields that agree field by field are equal. */
  lemma SlotsExtensional(a: TextureSlots, b: TextureSlots)
    requires forall slot :: a.Get(slot) == b.Get(slot)
    ensures a == b
  {
    assert a.Get(NormalSlot) == b.Get(NormalSlot) && a.Get(OcclusionSlot) == b.Get(OcclusionSlot);
    assert a.Get(EmissiveSlot) == b.Get(EmissiveSlot) && a.Get(BaseColorSlot) == b.Get(BaseColorSlot);
    assert a.Get(MetallicRoughnessSlot) == b.Get(MetallicRoughnessSlot) && a.Get(DiffuseSlot) == b.Get(DiffuseSlot);
    assert a.Get(SpecularGlossinessSlot) == b.Get(SpecularGlossinessSlot) && a.Get(ClearcoatSlot) == b.Get(ClearcoatSlot);
    assert a.Get(ClearcoatRoughnessSlot) == b.Get(ClearcoatRoughnessSlot);
    assert a.Get(ClearcoatNormalSlot) == b.Get(ClearcoatNormalSlot);
    assert a.Get(PbrSpecularSlot) == b.Get(PbrSpecularSlot) && a.Get(PbrSpecularColorSlot) == b.Get(PbrSpecularColorSlot);
    assert a.Get(SheenRoughnessSlot) == b.Get(SheenRoughnessSlot) && a.Get(SheenColorSlot) == b.Get(SheenColorSlot);
    assert a.Get(TransmissionSlot) == b.Get(TransmissionSlot) && a.Get(ThicknessSlot) == b.Get(ThicknessSlot);
  }

  /** Binding one field a second time leaves it as the first binding left it. */
  lemma BindFieldTwice(m: Material, slot: TextureSlot)
    ensures BindField(m.(slots := BoundSlots(m)), slot) == BindField(m, slot)
  {
    if Visits(m, slot) && m.slots.Get(slot).Some? {
      BindTwice(m.slots.Get(slot).value, slot);
    }
  }

  /** Binding the texture fields is idempotent. */
  lemma BoundSlotsTwice(m: Material)
    ensures BoundSlots(m.(slots := BoundSlots(m))) == BoundSlots(m)
  {
    var m1 := m.(slots := BoundSlots(m));
    forall slot ensures BoundSlots(m1).Get(slot) == BoundSlots(m).Get(slot) {
      BindFieldTwice(m, slot);
    }
    SlotsExtensional(BoundSlots(m1), BoundSlots(m));
  }

  /**
   * Running `initGl` again binds nothing new: the texture fields it leaves
   * are already bound, because naming the sampler and overriding the texture
   * coordinate set a second time changes nothing.
   */
  lemma InitGlBindsOnce(g: GltfMaterial, trig: Trig)
    ensures InitGl(InitGl(g, trig), trig).material == InitGl(g, trig).material
  {
    BoundSlotsTwice(g.material);
  }

  /** The base texture blocks read no extension. */
  lemma BaseTexturesIgnoreExtensions(m: Material, x: Option<JsonMaterialExtensions>, trig: Trig)
    ensures BaseTextureStage(m.(extensions := x), trig) == BaseTextureStage(m, trig)
  {
    assert m.(extensions := x).slots == m.slots;
    assert m.(extensions := x).emissiveFactor == m.emissiveFactor;
  }

  /** The alpha block reads no extension. */
  lemma AlphaIgnoresExtensions(m: Material, x: Option<JsonMaterialExtensions>)
    ensures AlphaStage(m.(extensions := x)) == AlphaStage(m)
  {
    assert m.(extensions := x).alphaMode == m.alphaMode && m.(extensions := x).alphaCutoff == m.alphaCutoff;
  }

  /** The metallic-roughness block reads no extension. */
  lemma MetallicRoughnessIgnoresExtensions(m: Material, x: Option<JsonMaterialExtensions>)
    ensures MetallicRoughnessStage(m.(extensions := x)) == MetallicRoughnessStage(m)
  {
    assert UsesMetallicRoughness(m.(extensions := x)) == UsesMetallicRoughness(m);
  }

  /** The optional blocks read only the extensions they know by name. */
  lemma FeatureStagesIgnoreUnrecognized(m: Material, e: JsonMaterialExtensions, trig: Trig)
    ensures FeatureStages(m, e.(unrecognized := {}), trig) == FeatureStages(m, e, trig)
  {
    var e' := e.(unrecognized := {});
    assert ClearcoatStage(m, e', trig) == ClearcoatStage(m, e, trig);
    assert SpecularStage(m, e', trig) == SpecularStage(m, e, trig);
    assert SheenStage(m, e', trig) == SheenStage(m, e, trig);
    assert TransmissionStage(m, e', trig) == TransmissionStage(m, e, trig);
    assert VolumeStage(m, e', trig) == VolumeStage(m, e, trig);
  }

  /** The extension stage of a material depends on its texture fields and known extensions only. */
  lemma ExtensionStageIgnoresUnrecognized(m: Material, e: JsonMaterialExtensions, trig: Trig)
    requires m.extensions == Some(e)
    ensures ExtensionStage(m.(extensions := Some(e.(unrecognized := {}))), trig) == ExtensionStage(m, trig)
  {
    var m' := m.(extensions := Some(e.(unrecognized := {})));
    var e' := e.(unrecognized := {});
    FeatureStagesIgnoreUnrecognized(m, e, trig);
    FeatureStagesSlotsOnly(m', m, e', trig);
    ShadingBlocksIgnoreUnrecognized(e);
    assert ExtensionStage(m', trig) == Then(UnlitStage(e'), Then(SpecularGlossinessStage(e'), FeatureStages(m', e', trig)));
    assert ExtensionStage(m, trig) == Then(UnlitStage(e), Then(SpecularGlossinessStage(e), FeatureStages(m, e, trig)));
  }

  /** The unlit and specular-glossiness blocks read only their own extensions. */
  lemma ShadingBlocksIgnoreUnrecognized(e: JsonMaterialExtensions)
    ensures UnlitStage(e.(unrecognized := {})) == UnlitStage(e)
    ensures SpecularGlossinessStage(e.(unrecognized := {})) == SpecularGlossinessStage(e)
  {
    assert e.(unrecognized := {}).unlit == e.unlit;
    assert e.(unrecognized := {}).pbrSpecularGlossiness == e.pbrSpecularGlossiness;
  }

  /** The optional blocks read only the texture fields of the material. */
  lemma FeatureStagesSlotsOnly(a: Material, b: Material, e: JsonMaterialExtensions, trig: Trig)
    requires a.slots == b.slots
    ensures FeatureStages(a, e, trig) == FeatureStages(b, e, trig)
  {
    assert ClearcoatStage(a, e, trig) == ClearcoatStage(b, e, trig);
    assert SpecularStage(a, e, trig) == SpecularStage(b, e, trig);
    assert SheenStage(a, e, trig) == SheenStage(b, e, trig);
    assert TransmissionStage(a, e, trig) == TransmissionStage(b, e, trig);
    assert VolumeStage(a, e, trig) == VolumeStage(b, e, trig);
  }

  /**
   * Extensions the material code does not know change nothing `initGl`
   * bakes: every block tests only the extensions it knows by name.
   */
  lemma UnrecognizedExtensionsIgnored(m: Material, e: JsonMaterialExtensions, trig: Trig)
    requires m.extensions == Some(e)
    ensures Contribution(m.(extensions := Some(e.(unrecognized := {}))), trig) == Contribution(m, trig)
  {
    BaseTexturesIgnoreExtensions(m, Some(e.(unrecognized := {})), trig);
    AlphaIgnoresExtensions(m, Some(e.(unrecognized := {})));
    MetallicRoughnessIgnoresExtensions(m, Some(e.(unrecognized := {})));
    ExtensionStageIgnoresUnrecognized(m, e, trig);
  }
}
