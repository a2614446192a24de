# glTF material compiler, modelled in Dafny

This project models the material compiler of the glTF Sample Viewer, class
`gltfMaterial` in `source/gltf/material.js`. It turns a glTF 2.0 material
record into what the renderer needs, in three stages:

1. **Parse** (`fromJson`, `fromJsonMaterialExtensions` and the `fromJsonX`
   helpers). The shading type is decided: "unlit", "MR" (metallic-roughness)
   or "SG" (specular-glossiness). The texture-infos the JSON names are
   attached. Modelled as `MaterialParse.Parse : JsonMaterial -> Material`.
2. **Bake** (`initGl` up to `initGlForMembers`, and
   `parseTextureInfoExtensions`). This appends to an ordered list of shader
   defines, sets uniforms in a last-write-wins property map, appends to an
   ordered texture list, and raises the five capability flags `hasClearcoat`,
   `hasPBRSpecular`, `hasSheen`, `hasTransmission` and `hasVolume`.
   Modelled as `MaterialBake.InitGl`. Each block of `initGl` is a `Baked`
   contribution, and the blocks are chained with `MaterialTypes.Then`:
   defines and textures are concatenated, properties are merged with the
   right side winning, and flags are or-ed.
3. **Variant** (`getDefines`). For one snapshot of the rendering switches,
   the gated `MATERIAL_*` feature defines are appended to a copy of the baked
   defines. Modelled as `MaterialVariant.GetDefines`. The switches are the
   `clearcoat`, `pbrSpecular`, `sheen` and `transmission` rendering
   parameters of `source/GltfState/gltf_state.js`, all on by default
   (`MaterialTypes.DefaultToggles`).

The KHR_texture_transform matrix is modelled entry by entry in
`uv_transform.dfy`. It is rotation · scale · translation over gl-matrix's
9-element column-major `mat3`, with the array literals kept exactly as the
source writes them.

Files:
- `wrappers.dfy`: Option.
- `strings.dfy`: ASCII upper-casing.
- `gltf_json.dfy`: the JSON input records.
- `uv_transform.dfy`: the UV matrix.
- `material_types.dfy`: the material descriptor, the baked state and `Then`.
- `material_parse.dfy`: the parse stage.
- `material_bake.dfy`: the bake stage.
- `material_variant.dfy`: `getDefines`, `getShaderIdentifier` and `createDefault`.
- `material_properties.dfy`: whole-bake ordering and naming properties.

Behaviour of `material.js` worth knowing:
- The rendering switches gate only the `MATERIAL_*` feature defines that
  `getDefines` appends (source/gltf/material.js:66-85). The extension blocks
  of `initGl` read no switch (source/gltf/material.js:293-461): a present
  extension block always sets its flag, its texture defines and its
  uniforms.
- `MATERIAL_UNLIT 1` is pushed whenever the unlit extension is present,
  whatever the final type (source/gltf/material.js:259-262).
- Uniform names carry the `u_` prefix (`u_BaseColorFactor`,
  `u_NormalUVSet`, ...), and one sampler breaks the capitalisation of its
  texture key: `u_sheenRoughnessSampler` (source/gltf/material.js:398).
- `createDefault` sets no `u_EmissiveFactor` and leaves
  `pbrMetallicRoughness` undefined, although its type is "MR"
  (source/gltf/material.js:35-49).
- Malformed input raises no error: `fromJson` validates nothing
  (source/gltf/material.js:467-507).
- The base-colour and metallic-roughness textures are bound by `initGl`
  whenever they were attached, and `fromJson` attaches them only when the
  type ends "MR" (source/gltf/material.js:502-506).
- Colour textures are built as `new gltfTextureInfo(undefined, 0, false)`,
  so a colour texture without its own `texCoord` uses set 0
  (source/gltf/material.js:492).
- Extensions the code does not know by name are copied with the rest of
  `extensions` and read by nothing.

## Model

| member | source | states |
|---|---|---|
| MaterialParse.FromJsonMetallicRoughness | source/gltf/material.js:548-563 | attaches the base-colour texture (sRGB) and the metallic-roughness texture (linear) exactly when the JSON names them; every other texture field is unchanged |
| MaterialParse.FromJsonSpecularGlossiness | source/gltf/material.js:565-580 | attaches the diffuse and specular-glossiness textures (both sRGB) when named; nothing else changes |
| MaterialParse.FromJsonClearcoat | source/gltf/material.js:582-604 | attaches the three clearcoat textures (linear) when named; nothing else changes |
| MaterialParse.FromJsonPBRSpecular | source/gltf/material.js:606-621 | attaches the specular and specular-colour textures when named; nothing else changes |
| MaterialParse.FromJsonSheen | source/gltf/material.js:623-637 | attaches the sheen colour (sRGB) and sheen roughness textures when named; nothing else changes |
| MaterialParse.FromJsonTransmission | source/gltf/material.js:639-647 | attaches the transmission texture when named; nothing else changes |
| MaterialParse.FromJsonVolume | source/gltf/material.js:649-657 | attaches the thickness texture when named; nothing else changes |
| MaterialParse.ExtensionShadingType | source/gltf/material.js:511-520 | the unlit extension forces "unlit"; otherwise SG forces "SG"; with neither, the type is kept |
| MaterialParse.ExtensionTextures | source/gltf/material.js:509-546 | every extension texture field is written from its own extension's texture-info in its colour space, and the base fields are kept |
| MaterialParse.ExtensionHelpersWriteExtensionTextures | source/gltf/material.js:509-546 | running the present-extension helpers one after the other in source order gives exactly the independent field-by-field assignment: the helpers touch disjoint fields |
| MaterialParse.FromJsonMaterialExtensions | source/gltf/material.js:509-546 | the type follows the SG-then-unlit precedence, the recognised extensions' textures are attached, the base texture fields and all non-texture fields are unchanged |
| MaterialParse.BaseTextures | source/gltf/material.js:476-495 | normal and occlusion (linear) and emissive (sRGB) texture-infos are attached exactly when the JSON names them |
| MaterialParse.CopyFields | source/gltf/material.js:8-33 | a fresh material starts "unlit" with alpha mode OPAQUE, cutoff 0.5, single-sided and emissive [0,0,0]; the JSON's own fields replace these defaults when given |
| MaterialParse.Parse | source/gltf/material.js:467-507 | type is "SG" iff the SG extension is present and unlit absent; "MR" iff `pbrMetallicRoughness` is present and SG does not win; otherwise "unlit". So unlit+SG+MR ends "MR", and unlit+MR ends "MR" |
| MaterialParse.ParseTextures | source/gltf/material.js:476-506 | after `fromJson` every base and extension texture field holds what the JSON names, and the metallic-roughness textures are attached iff the type is "MR" |
| MaterialParse.TextureFromJson | source/gltf/material.js:476-495 | a texture-info built from JSON keeps the JSON's index, scale, strength and extensions, takes the JSON's texCoord when given and otherwise the constructor's, and has the colour space it was constructed with |
| MaterialParse.ColourTextureStartsAtSetZero | source/gltf/material.js:490-495 | an emissive texture whose JSON gives no texCoord is attached with texture coordinate set 0 |
| MaterialParse.UnrecognizedExtensionsIgnored | source/gltf/material.js:509-546 | extensions the parser does not know by name change neither the shading type nor any texture field |
| MaterialBake.ParseTextureInfoExtensions | source/gltf/material.js:100-149 | with no KHR_texture_transform nothing changes; with one, a given texCoord replaces the texture's, and exactly one define `HAS_<KEY>_UV_TRANSFORM 1` and one uniform `u_<key>UVTransform` are added, the uniform holding rotation·scale·translation in closed form; no other field of the texture-info changes |
| UvTransform.MulIsProduct | source/gltf/material.js:141-143 | the unrolled column-major `mat3.multiply` is the matrix product, entry by entry |
| UvTransform.UvMatrixClosedForm | source/gltf/material.js:116-143 | rotation·scale·translation, with absent components the identity, equals the affine map [c·sx, s·sx, ox, −s·sy, c·sy, oy, 0, 0, 1] |
| UvTransform.OnlyOffsetIsTranslation | source/gltf/material.js:116-143 | with only an offset given, the UV matrix is exactly the translation array literal |
| UvTransform.EmptyTransformIsIdentity | source/gltf/material.js:116-143 | with no component given, the UV matrix is the identity |
| UvTransform.ZeroRotationUnitScale | source/gltf/material.js:121-143 | rotation 0 and scale (1,1) leave only the offset's translation, given sin 0 = 0 and cos 0 = 1 |
| MaterialBake.BindingOf | source/gltf/material.js:153-451 | every texture block names a sampler `u_...Sampler` and a map define `HAS_..._MAP 1`, and writes the texCoord to `u_<key>UVSet`, except the two specular blocks, which write it to `u_<key>UVTransform` |
| MaterialBake.SlotContribution | source/gltf/material.js:153-161 | a set texture contributes exactly one texture entry carrying its sampler name and overridden texCoord, its UV-transform define (if any) immediately before its map define, and its UV-set uniform equal to the texCoord after the override; an unset one contributes nothing |
| MaterialBake.SlotsContributionTextures | source/gltf/material.js:153-217 | a run of texture blocks pushes the bound texture-infos of its set fields, in block order |
| MaterialProperties.UvMatrixSurvives | source/gltf/material.js:141-161 | for every texture but the two specular ones, the UV matrix `parseTextureInfoExtensions` sets under `u_<key>UVTransform` is the value the block leaves, since the block's later writes use other names |
| MaterialBake.SlotsContributionDefines | source/gltf/material.js:153-217 | a run of texture blocks pushes the defines of its set fields, in block order |
| MaterialBake.BaseTextureStage | source/gltf/material.js:153-217 | the base blocks raise no flag, and `u_EmissiveFactor` is set for every material, whichever textures are present |
| MaterialProperties.BaseTextureStageTextures | source/gltf/material.js:153-217 | the base blocks push textures and defines in the fixed order normal, occlusion, emissive, base colour, metallic-roughness, diffuse, specular-glossiness |
| MaterialProperties.BaseColorDefines | source/gltf/material.js:183-190 | a transformed base-colour texture pushes `HAS_BASECOLOR_UV_TRANSFORM 1` immediately before `HAS_BASE_COLOR_MAP 1` |
| MaterialBake.AlphaStage | source/gltf/material.js:219-227 | MASK pushes `ALPHAMODE_MASK 1` and sets `u_AlphaCutoff` to the cutoff; OPAQUE pushes `ALPHAMODE_OPAQUE 1` and sets no cutoff; any other mode adds nothing; the cutoff is set iff the mode is MASK |
| MaterialProperties.AlwaysSetUniforms | source/gltf/material.js:173 | `u_EmissiveFactor` is set for every material, and `u_AlphaCutoff` for every MASK material |
| MaterialBake.MetallicRoughnessStage | source/gltf/material.js:229-255 | `MATERIAL_METALLICROUGHNESS 1` and exactly the three MR factors, defaulting to [1,1,1,1], 1 and 1, are emitted iff `pbrMetallicRoughness` is present and the type is not "SG" |
| MaterialBake.UnlitStage | source/gltf/material.js:259-262 | `MATERIAL_UNLIT 1` is pushed iff the unlit extension is present, independent of the type |
| MaterialBake.SpecularGlossinessStage | source/gltf/material.js:264-290 | with the SG extension present, `MATERIAL_SPECULARGLOSSINESS 1` and exactly the three SG factors, defaulting to [1,1,1,1], [1,1,1] and 1; without it, nothing |
| MaterialBake.FeatureBlock | source/gltf/material.js:293-337 | a present optional block raises its flag, pushes the textures and defines of its set fields in order, and its factors survive every texture uniform; an absent one adds nothing |
| MaterialBake.ClearcoatStage | source/gltf/material.js:293-337 | clearcoat raises `hasClearcoat`, binds its three textures in order, and sets factors defaulting to 0 and 0 |
| MaterialBake.SpecularStage | source/gltf/material.js:341-376 | specular raises `hasPBRSpecular`, binds its two textures in order, and sets factors defaulting to 0 and [1,1,1] |
| MaterialBake.SheenStage | source/gltf/material.js:381-415 | sheen raises `hasSheen`, binds roughness then colour, and sets factors defaulting to 0 and [1,1,1] |
| MaterialBake.TransmissionFactor | source/gltf/material.js:419-426 | the transmission factor is the JSON value verbatim, and undefined when absent, because the guard tests the local variable |
| MaterialBake.TransmissionStage | source/gltf/material.js:418-438 | transmission raises `hasTransmission`, binds its texture, and sets `u_TransmissionFactor` to the verbatim (possibly undefined) JSON value |
| MaterialBake.VolumeStage | source/gltf/material.js:441-461 | volume raises `hasVolume`, binds the thickness texture, and sets factors defaulting to [1,1,1], 0 and 0 |
| MaterialProperties.FeatureStagesOrder | source/gltf/material.js:293-461 | the optional blocks push their textures and defines in the order clearcoat, specular, sheen, transmission, volume, each only when its extension is present |
| MaterialProperties.ExtensionStageOrder | source/gltf/material.js:257-462 | the extension stage pushes the unlit and SG defines, then the optional blocks' texture defines and textures in block order |
| MaterialBake.FeatureStages | source/gltf/material.js:293-461 | the five flags are raised exactly for the present optional extensions |
| MaterialBake.ExtensionStage | source/gltf/material.js:257-462 | the flags raised are those of the present extensions, and none without an `extensions` object |
| MaterialBake.Contribution | source/gltf/material.js:151-463 | the flags the bake raises are exactly those of the present optional extensions |
| MaterialProperties.ContributionOrder | source/gltf/material.js:151-463 | every set texture field contributes exactly one entry to `textures`, base fields then extension fields in the fixed order; the defines are base texture defines, alpha, MR, unlit and SG, then extension texture defines |
| MaterialBake.InitGl | source/gltf/material.js:151-465 | baking keeps the existing defines and textures as a prefix, or-s the extension flags into the existing ones, and changes no descriptor field except the texture fields whose blocks ran |
| MaterialBake.BoundSlots | source/gltf/material.js:153-451 | each texture field whose block runs is left with its sampler named and its texCoord overridden in place; the others are kept |
| MaterialProperties.VisitsIffOrdered | source/gltf/material.js:153-451 | `initGl` runs a texture field's block iff the field is in the fixed visit order: base fields always, extension fields iff their extension is present |
| MaterialProperties.FieldsOfBoundSlots | source/gltf/material.js:153-451 | over visited fields, the texture-infos pushed are the descriptor's fields as binding leaves them |
| MaterialProperties.InitGlTexturesAreFields | source/gltf/material.js:151-463 | the texture list gains exactly the set texture fields of the descriptor after `initGl`, the same objects, in the fixed block order |
| MaterialProperties.BoundSlotsTwice | source/gltf/material.js:100-149 | binding the texture fields twice leaves them as binding once does |
| MaterialProperties.InitGlBindsOnce | source/gltf/material.js:151-465 | a second `initGl` leaves the descriptor exactly as the first left it |
| MaterialProperties.UvNamesClash | source/gltf/material.js:356-372 | a texture's UV-set name equals its UV-matrix name iff it is the specular or specular-colour texture |
| MaterialProperties.SpecularUvSetReplacesMatrix | source/gltf/material.js:356-363 | the specular texCoord is written under `u_pbrNextSpecularUVTransform`, the UV matrix's own key, and is the value that remains |
| MaterialVariant.GetDefines | source/gltf/material.js:62-88 | the result is the baked defines followed by the defines of the enabled features, in the order of the feature list |
| MaterialVariant.PushEnabledSelects | source/gltf/material.js:62-88 | the literal sequence of guarded pushes equals appending the defines of the selected features |
| MaterialVariant.SelectIncreasing | source/gltf/material.js:62-88 | selecting the enabled features keeps them in the order `getDefines` checks them |
| MaterialVariant.GetDefinesFeatures | source/gltf/material.js:62-88 | the baked defines are an unchanged prefix; a feature define is appended iff its flag and its switch are both set, with volume following the transmission switch; at most five are appended |
| MaterialVariant.GetDefinesOrdered | source/gltf/material.js:66-85 | the appended defines follow the order clearcoat, specular, sheen, transmission, volume, with none twice |
| MaterialVariant.DefaultTogglesFollowFlags | source/GltfState/gltf_state.js:42-49 | with every switch at its default (on), a feature define is appended iff its `has*` flag is set |
| MaterialVariant.ShaderIdentifier | source/gltf/material.js:51-60 | every type, "unlit" included, yields "pbr.frag" |
| MaterialVariant.CreateDefault | source/gltf/material.js:35-49 | the default material is "MR" and named "Default Material", with constructor defaults elsewhere; defines exactly `MATERIAL_METALLICROUGHNESS 1`; exactly three properties, [1,1,1,1], 1 and 1; no textures; all five flags false |
| MaterialVariant.CreateDefaultIsMetallicRoughnessBlock | source/gltf/material.js:229-255 | the default material bakes exactly what the MR block bakes for an empty `pbrMetallicRoughness` object |
| MaterialVariant.CreateDefaultDefines | source/gltf/material.js:35-88 | under any switches, the default material's defines are `MATERIAL_METALLICROUGHNESS 1` alone, and its shader is "pbr.frag" |
| MaterialProperties.UnrecognizedExtensionsIgnored | source/gltf/material.js:257-462 | with an `extensions` object present, extensions the bake does not know by name change nothing it contributes |
| MaterialTypes.ThenAssociative | source/gltf/material.js:151-463 | chaining bake steps is associative, so the blocks of `initGl` may be grouped freely |
| Strings.Upper | source/gltf/material.js:146 | upper-casing keeps the length and upper-cases each character |

## Left out

- `initGlForMembers` (source/gltf/material.js:464) and every GPU upload are left out. They are a foreign call with WebGL side effects.
- `Math.sin` and `Math.cos` are not modelled. The caller supplies them as the `Trig` parameter, so results are stated in terms of whatever they return.
- `jsToGl`'s Float32 conversion is not modelled. Factors are kept as the reals of the JSON, and floating-point rounding is ignored.
- `gltfTextureInfo.fromJson` and `GltfObject.fromJson` are not part of this model. Texture-infos and the verbatim copy of `pbrMetallicRoughness`, `extensions` and `name` are records with optional fields.
- The insertion order of the JavaScript `Map` of properties is not modelled. Properties are a Dafny `map`, which keeps only the last value written per name.
- `String.prototype.toUpperCase` is modelled for ASCII letters only. Other characters are kept as they are, which covers every texture key the source passes.
- Malformed arrays, such as a `scale` with fewer than two entries, are not modelled. The JSON records are typed, and the code performs no validation.
- `getProperties` and `getTextures` are the `properties` and `textures` fields of `Baked`. They return the stored values unchanged and need no separate member.
- Object identity is not modelled. In the source, the texture list and the descriptor share the same JavaScript texture-info objects; the model states that the values are equal (MaterialProperties.InitGlTexturesAreFields) instead.
- Purity of `getDefines` (the copy at source/gltf/material.js:64) is not stated as a lemma. `GetDefines` is a pure function of the baked state and the switches, so equal inputs give equal results and nothing stored changes.
- MaterialProperties.AlwaysSetUniforms: states that the two uniforms are present after the bake, not which value they end with; no later block writes those names.
- MaterialBake.SlotContribution: states the UV-set value and the defines, not the extra normal-scale or occlusion-strength uniform; the body of SlotContribution sets those from the texture-info's `scale` and `strength`. The surviving UV matrix is stated separately, by MaterialProperties.UvMatrixSurvives.
- MaterialParse.TextureFromJson: a linear texture is built with `new gltfTextureInfo()`, whose defaults live in texture.js, which is not part of this model; a linear texture without its own `texCoord` keeps the set absent, so its UV-set uniform holds no value, where the constructor's default may supply one.
- The other rendering parameters of `gltf_state.js` (morphing, skinning, exposure and the rest) are not read by the material code and are left out.
