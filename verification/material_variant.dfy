/**
 * The per-snapshot queries of a `gltfMaterial`: `getDefines` for a set of
 * rendering switches, `getShaderIdentifier`, and the `createDefault`
 * factory. `getProperties` and `getTextures` return the `properties` and
 * `textures` fields of `Baked` as they are.
 */
module MaterialVariant {
  import opened Wrappers
  import opened MaterialTypes
  import opened GltfJson
  import opened MaterialParse
  import opened MaterialBake

  /** The optional features `getDefines` can switch on, in the order it checks them. */
  datatype Feature = ClearcoatFeature | PbrSpecularFeature | SheenFeature | TransmissionFeature | VolumeFeature

  /** The define each feature pushes. */
  function Define(x: Feature): string {
    match x
    case ClearcoatFeature => "MATERIAL_CLEARCOAT 1"
    case PbrSpecularFeature => "MATERIAL_PBRSPECULAR 1"
    case SheenFeature => "MATERIAL_SHEEN 1"
    case TransmissionFeature => "MATERIAL_TRANSMISSION 1"
    case VolumeFeature => "MATERIAL_VOLUME 1"
  }

  /** The position of a feature in the order `getDefines` checks them. */
  function Rank(x: Feature): nat {
    match x
    case ClearcoatFeature => 0
    case PbrSpecularFeature => 1
    case SheenFeature => 2
    case TransmissionFeature => 3
    case VolumeFeature => 4
  }

  /**
   * Whether a feature is on: its flag and its switch both set. Volume has no
   * switch of its own and follows the transmission switch.
   */
  predicate Enabled(x: Feature, f: Flags, t: Toggles) {
    match x
    case ClearcoatFeature => f.hasClearcoat && t.clearcoat
    case PbrSpecularFeature => f.hasPBRSpecular && t.pbrSpecular
    case SheenFeature => f.hasSheen && t.sheen
    case TransmissionFeature => f.hasTransmission && t.transmission
    case VolumeFeature => f.hasVolume && t.transmission
  }

  /** All features, in the order `getDefines` checks them. */
  const AllFeatures: seq<Feature> := [ClearcoatFeature, PbrSpecularFeature, SheenFeature, TransmissionFeature, VolumeFeature]

  /** Features listed in strictly increasing rank: ordered, and none twice. */
  predicate Increasing(xs: seq<Feature>) {
    forall i, j :: 0 <= i < j < |xs| ==> Rank(xs[i]) < Rank(xs[j])
  }

  /** The enabled features of `xs`, in the order of `xs`. */
  function Select(xs: seq<Feature>, f: Flags, t: Toggles): (r: seq<Feature>)
    ensures |r| <= |xs|
    ensures forall x :: x in r <==> x in xs && Enabled(x, f, t)
    decreases |xs|
  {
    if xs == [] then []
    else if Enabled(xs[0], f, t) then [xs[0]] + Select(xs[1..], f, t)
    else Select(xs[1..], f, t)
  }

  /** Selecting keeps the order of the list selected from. */
  lemma {:induction false} SelectIncreasing(xs: seq<Feature>, f: Flags, t: Toggles)
    requires Increasing(xs)
    ensures Increasing(Select(xs, f, t))
    decreases |xs|
  {
    if xs != [] {
      SelectIncreasing(xs[1..], f, t);
      var rest := Select(xs[1..], f, t);
      forall y | y in rest
        ensures Rank(xs[0]) < Rank(y)
      {
        var k :| 0 <= k < |xs[1..]| && xs[1..][k] == y;
        assert xs[k + 1] == y;
      }
    }
  }

  /** The defines of a list of features, in the same order. */
  function Defines(xs: seq<Feature>): (r: seq<string>)
    ensures |r| == |xs|
    ensures forall i :: 0 <= i < |xs| ==> r[i] == Define(xs[i])
  {
    seq(|xs|, i requires 0 <= i < |xs| => Define(xs[i]))
  }

  /** Different features push different defines. */
  lemma DefineInjective(x: Feature, y: Feature)
    ensures Define(x) == Define(y) ==> x == y
  {
    if x != y {
      assert |Define(x)| != |Define(y)|;
    }
  }

  /** A feature's define is among the defines of a list exactly when the feature is in it. */
  lemma DefinesMember(xs: seq<Feature>, x: Feature)
    ensures Define(x) in Defines(xs) <==> x in xs
  {
    if Define(x) in Defines(xs) {
      var i :| 0 <= i < |xs| && Defines(xs)[i] == Define(x);
      DefineInjective(xs[i], x);
    }
    if x in xs {
      var i :| 0 <= i < |xs| && xs[i] == x;
      assert Defines(xs)[i] == Define(x);
    }
  }

  /** The defines of a feature followed by others. */
  lemma DefinesCons(x: Feature, xs: seq<Feature>)
    ensures Defines([x] + xs) == [Define(x)] + Defines(xs)
  {
  }

  /**
   * The tests of `getDefines`, one feature after another: each enabled
   * feature pushes its define onto the copy.
   */
  function PushEnabled(defines: seq<string>, xs: seq<Feature>, f: Flags, t: Toggles): seq<string>
    decreases |xs|
  {
    if xs == [] then defines
    else if Enabled(xs[0], f, t) then PushEnabled(defines + [Define(xs[0])], xs[1..], f, t)
    else PushEnabled(defines, xs[1..], f, t)
  }

  /** Pushing feature by feature appends the defines of the enabled ones. */
  lemma {:induction false} PushEnabledSelects(defines: seq<string>, xs: seq<Feature>, f: Flags, t: Toggles)
    ensures PushEnabled(defines, xs, f, t) == defines + Defines(Select(xs, f, t))
    decreases |xs|
  {
    if xs != [] {
      var rest := Select(xs[1..], f, t);
      if Enabled(xs[0], f, t) {
        PushEnabledSelects(defines + [Define(xs[0])], xs[1..], f, t);
        assert Select(xs, f, t) == [xs[0]] + rest;
        DefinesCons(xs[0], rest);
        assert (defines + [Define(xs[0])]) + Defines(rest) == defines + ([Define(xs[0])] + Defines(rest));
      } else {
        PushEnabledSelects(defines, xs[1..], f, t);
        assert Select(xs, f, t) == rest;
      }
    }
  }

  /**
   * `getDefines(renderingParameters)`: a copy of the baked defines with the
   * define of every enabled feature appended in the order clearcoat,
   * specular, sheen, transmission, volume. The stored defines, flags and
   * properties are only read.
   */
  function GetDefines(b: Baked, t: Toggles): (r: seq<string>)
    ensures r == b.defines + Defines(Select(AllFeatures, b.flags, t))
  {
    PushEnabledSelects(b.defines, AllFeatures, b.flags, t);
    PushEnabled(b.defines, AllFeatures, b.flags, t)
  }

  /** The feature defines `getDefines` appends. */
  function Appended(b: Baked, t: Toggles): (r: seq<string>)
    requires |b.defines| <= |GetDefines(b, t)|
  {
    GetDefines(b, t)[|b.defines|..]
  }

  /**
   * `getDefines` keeps the baked defines as a prefix and appends the define
   * of a feature exactly when that feature is enabled: flag and toggle both
   * set, and for volume the transmission toggle.
   */
  lemma GetDefinesFeatures(b: Baked, t: Toggles)
    ensures |b.defines| <= |GetDefines(b, t)| <= |b.defines| + 5
    ensures GetDefines(b, t)[..|b.defines|] == b.defines
    ensures forall x :: Define(x) in Appended(b, t) <==> Enabled(x, b.flags, t)
  {
    var xs := Select(AllFeatures, b.flags, t);
    assert |AllFeatures| == 5;
    assert GetDefines(b, t) == b.defines + Defines(xs);
    assert Appended(b, t) == Defines(xs);
    forall x
      ensures Define(x) in Appended(b, t) <==> Enabled(x, b.flags, t)
    {
      DefinesMember(xs, x);
      assert x in AllFeatures;
    }
  }

  /**
   * The appended defines follow the fixed order clearcoat, specular, sheen,
   * transmission, volume, with none of them twice.
   */
  lemma GetDefinesOrdered(b: Baked, t: Toggles)
    ensures |b.defines| <= |GetDefines(b, t)|
    ensures exists xs :: Increasing(xs) && Appended(b, t) == Defines(xs)
  {
    var xs := Select(AllFeatures, b.flags, t);
    assert Increasing(AllFeatures);
    SelectIncreasing(AllFeatures, b.flags, t);
    assert Appended(b, t) == Defines(xs);
  }

  /** Whether the extension block behind a feature ran: its `has*` flag. */
  predicate HasFeature(x: Feature, f: Flags) {
    match x
    case ClearcoatFeature => f.hasClearcoat
    case PbrSpecularFeature => f.hasPBRSpecular
    case SheenFeature => f.hasSheen
    case TransmissionFeature => f.hasTransmission
    case VolumeFeature => f.hasVolume
  }

  /**
   * With the switches at their defaults (all on), `getDefines` appends the
   * define of a feature exactly when its extension block ran.
   */
  lemma DefaultTogglesFollowFlags(b: Baked)
    ensures |b.defines| <= |GetDefines(b, DefaultToggles)|
    ensures forall x :: Define(x) in Appended(b, DefaultToggles) <==> HasFeature(x, b.flags)
  {
    GetDefinesFeatures(b, DefaultToggles);
  }

  /**
   * `getShaderIdentifier`: every type, "unlit" and any unknown one included,
   * falls through to the one physically based fragment shader.
   */
  function ShaderIdentifier(t: ShadingType): (r: string)
    ensures r == "pbr.frag"
  {
    match t
    case SpecularGlossiness => "pbr.frag"
    case MetallicRoughness => "pbr.frag"
    case Unlit => "pbr.frag"
  }

  /** The name `createDefault` gives its material. */
  const DefaultName := "Default Material"

  /**
   * `createDefault`: a fresh material renamed and made "MR", holding the
   * metallic-roughness define and its three default factors, and nothing
   * else baked.
   */
  function CreateDefault(): (r: GltfMaterial)
    ensures r.material.shadingType == MetallicRoughness
    ensures r.material.name == Some(DefaultName)
    ensures SameFields(r.material.(name := None), Fresh) && r.material.slots == NoTextures
    ensures r.baked.defines == ["MATERIAL_METALLICROUGHNESS 1"]
    ensures r.baked.properties.Keys == {"u_BaseColorFactor", "u_MetallicFactor", "u_RoughnessFactor"}
    ensures r.baked.properties["u_BaseColorFactor"] == Vector([1.0, 1.0, 1.0, 1.0])
    ensures r.baked.properties["u_MetallicFactor"] == Number(1.0)
    ensures r.baked.properties["u_RoughnessFactor"] == Number(1.0)
    ensures r.baked.textures == [] && r.baked.flags == NoFlags
  {
    var material := Fresh.(shadingType := MetallicRoughness, name := Some(DefaultName));
    var properties := map["u_BaseColorFactor" := Vector([1.0, 1.0, 1.0, 1.0]),
                          "u_MetallicFactor" := Number(1.0),
                          "u_RoughnessFactor" := Number(1.0)];
    GltfMaterial(material, Then(Empty, Baked(["MATERIAL_METALLICROUGHNESS 1"], properties, [], NoFlags)))
  }

  /** A `pbrMetallicRoughness` object with none of its fields given. */
  const EmptyMetallicRoughness := JsonMetallicRoughness(None, None, None, None, None)

  /**
   * The default material bakes exactly what the metallic-roughness block of
   * `initGl` would bake for an empty `pbrMetallicRoughness` object: its
   * factors are that block's defaults.
   */
  lemma CreateDefaultIsMetallicRoughnessBlock()
    ensures CreateDefault().baked ==
              MetallicRoughnessStage(CreateDefault().material.(pbrMetallicRoughness := Some(EmptyMetallicRoughness)))
  {
    var m := CreateDefault().material.(pbrMetallicRoughness := Some(EmptyMetallicRoughness));
    var b := MetallicRoughnessStage(m);
    assert UsesMetallicRoughness(m);
    assert b.properties == CreateDefault().baked.properties;
  }

  /**
   * Whatever the switches, the default material's defines are the
   * metallic-roughness define alone, and its shader is "pbr.frag".
   */
  lemma CreateDefaultDefines(t: Toggles)
    ensures GetDefines(CreateDefault().baked, t) == ["MATERIAL_METALLICROUGHNESS 1"]
    ensures ShaderIdentifier(CreateDefault().material.shadingType) == "pbr.frag"
  {
    var b := CreateDefault().baked;
    assert Select(AllFeatures, b.flags, t) == [] by {
      forall x | x in Select(AllFeatures, b.flags, t) ensures false { }
    }
  }
}
