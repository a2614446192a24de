/**
 * The UV-transform matrix of KHR_texture_transform as the material compiler
 * builds it with gl-matrix: a `mat3` is a 9-element array in column-major
 * order, and `mat3.multiply(out, a, b)` stores the product a·b.
 */
module UvTransform {
  import opened Wrappers
  import opened GltfJson

  type Mat3 = m: seq<real> | |m| == 9 witness [1.0, 0.0, 0.0, 0.0, 1.0, 0.0, 0.0, 0.0, 1.0]

  /**
   * `Math.sin` and `Math.cos`, supplied by the caller: the model states its
   * results in terms of whatever these return for the rotation angle.
   */
  datatype Trig = Trig(sin: real -> real, cos: real -> real)

  /** Entry (row, col) of a column-major matrix. */
  function At(m: Mat3, row: nat, col: nat): real
    requires row < 3 && col < 3
  {
    m[3 * col + row]
  }

  /** `mat3.create()`: the identity. */
  const Identity: Mat3 := [1.0, 0.0, 0.0, 0.0, 1.0, 0.0, 0.0, 0.0, 1.0]

  /**
   * `mat3.multiply(out, a, b)`, unrolled entry by entry as gl-matrix does
   * (entry k of the result is a[row]·b[3·col] + a[3+row]·b[3·col+1] + a[6+row]·b[3·col+2]
   * for k = 3·col + row).
   */
  function Mul(a: Mat3, b: Mat3): Mat3 {
    [ a[0] * b[0] + a[3] * b[1] + a[6] * b[2],
      a[1] * b[0] + a[4] * b[1] + a[7] * b[2],
      a[2] * b[0] + a[5] * b[1] + a[8] * b[2],
      a[0] * b[3] + a[3] * b[4] + a[6] * b[5],
      a[1] * b[3] + a[4] * b[4] + a[7] * b[5],
      a[2] * b[3] + a[5] * b[4] + a[8] * b[5],
      a[0] * b[6] + a[3] * b[7] + a[6] * b[8],
      a[1] * b[6] + a[4] * b[7] + a[7] * b[8],
      a[2] * b[6] + a[5] * b[7] + a[8] * b[8] ]
  }

  /** Entry (row, col) of the matrix product a·b, by the textbook definition. */
  function ProductEntry(a: Mat3, b: Mat3, row: nat, col: nat): real
    requires row < 3 && col < 3
  {
    At(a, row, 0) * At(b, 0, col) + At(a, row, 1) * At(b, 1, col) + At(a, row, 2) * At(b, 2, col)
  }

  /** The first row of the unrolled `multiply` agrees with the matrix product. */
  lemma MulRow0(a: Mat3, b: Mat3)
    ensures At(Mul(a, b), 0, 0) == ProductEntry(a, b, 0, 0)
    ensures At(Mul(a, b), 0, 1) == ProductEntry(a, b, 0, 1)
    ensures At(Mul(a, b), 0, 2) == ProductEntry(a, b, 0, 2)
  {
  }

  /** The second row of the unrolled `multiply` agrees with the matrix product. */
  lemma MulRow1(a: Mat3, b: Mat3)
    ensures At(Mul(a, b), 1, 0) == ProductEntry(a, b, 1, 0)
    ensures At(Mul(a, b), 1, 1) == ProductEntry(a, b, 1, 1)
    ensures At(Mul(a, b), 1, 2) == ProductEntry(a, b, 1, 2)
  {
  }

  /** The third row of the unrolled `multiply` agrees with the matrix product. */
  lemma MulRow2(a: Mat3, b: Mat3)
    ensures At(Mul(a, b), 2, 0) == ProductEntry(a, b, 2, 0)
    ensures At(Mul(a, b), 2, 1) == ProductEntry(a, b, 2, 1)
    ensures At(Mul(a, b), 2, 2) == ProductEntry(a, b, 2, 2)
  {
  }

  /** The unrolled `multiply` is the matrix product a·b read in column-major order. */
  lemma MulIsProduct(a: Mat3, b: Mat3)
    ensures forall row: nat, col: nat :: row < 3 && col < 3 ==> At(Mul(a, b), row, col) == ProductEntry(a, b, row, col)
  {
    MulRow0(a, b);
    MulRow1(a, b);
    MulRow2(a, b);
  }

  /** The rotation array literal for angle `theta` (`jsToGl([c, s, 0, -s, c, 0, 0, 0, 1])`). */
  function Rotation(theta: real, trig: Trig): Mat3 {
    var s := trig.sin(theta);
    var c := trig.cos(theta);
    [c, s, 0.0, -s, c, 0.0, 0.0, 0.0, 1.0]
  }

  /** The scale array literal `[scale[0], 0, 0, 0, scale[1], 0, 0, 0, 1]`. */
  function Scaling(v: Vec2): Mat3 {
    [v.x, 0.0, 0.0, 0.0, v.y, 0.0, 0.0, 0.0, 1.0]
  }

  /** The translation array literal `[1, 0, offset[0], 0, 1, offset[1], 0, 0, 1]`. */
  function Translation(v: Vec2): Mat3 {
    [1.0, 0.0, v.x, 0.0, 1.0, v.y, 0.0, 0.0, 1.0]
  }

  /**
   * The uniform stored for a texture with KHR_texture_transform:
   * rotation · scale · translation, each factor the identity when its field
   * is absent.
   */
  function UvMatrix(tr: JsonTextureTransform, trig: Trig): Mat3 {
    var rotation := if tr.rotation.Some? then Rotation(tr.rotation.value, trig) else Identity;
    var scale := if tr.scale.Some? then Scaling(tr.scale.value) else Identity;
    var translation := if tr.offset.Some? then Translation(tr.offset.value) else Identity;
    Mul(Mul(rotation, scale), translation)
  }

  /** Rotation (cosine c, sine s) times a scaling, as gl-matrix computes it. */
  lemma RotationTimesScaling(c: real, s: real, v: Vec2)
    ensures Mul([c, s, 0.0, -s, c, 0.0, 0.0, 0.0, 1.0], Scaling(v))
         == [c * v.x, s * v.x, 0.0, -s * v.y, c * v.y, 0.0, 0.0, 0.0, 1.0]
  {
    var r := Mul([c, s, 0.0, -s, c, 0.0, 0.0, 0.0, 1.0], Scaling(v));
    assert r[0] == c * v.x && r[1] == s * v.x && r[2] == 0.0;
    assert r[3] == -s * v.y && r[4] == c * v.y && r[5] == 0.0;
    assert r[6] == 0.0 && r[7] == 0.0 && r[8] == 1.0;
  }

  /** A linear part followed by the translation array: the offset lands in entries 2 and 5. */
  lemma LinearTimesTranslation(m: Mat3, v: Vec2)
    requires m[2] == 0.0 && m[5] == 0.0 && m[6] == 0.0 && m[7] == 0.0 && m[8] == 1.0
    ensures Mul(m, Translation(v)) == [m[0], m[1], v.x, m[3], m[4], v.y, 0.0, 0.0, 1.0]
  {
    var r := Mul(m, Translation(v));
    assert r[0] == m[0] && r[1] == m[1] && r[2] == v.x;
    assert r[3] == m[3] && r[4] == m[4] && r[5] == v.y;
    assert r[6] == 0.0 && r[7] == 0.0 && r[8] == 1.0;
  }

  /** Cosine and sine of the rotation; an absent rotation counts as angle zero. */
  function CosOf(tr: JsonTextureTransform, trig: Trig): real {
    if tr.rotation.Some? then trig.cos(tr.rotation.value) else 1.0
  }

  function SinOf(tr: JsonTextureTransform, trig: Trig): real {
    if tr.rotation.Some? then trig.sin(tr.rotation.value) else 0.0
  }

  /** The scale and offset in force: (1, 1) and (0, 0) when absent. */
  function ScaleOf(tr: JsonTextureTransform): Vec2 {
    tr.scale.GetOr(Vec2(1.0, 1.0))
  }

  function OffsetOf(tr: JsonTextureTransform): Vec2 {
    tr.offset.GetOr(Vec2(0.0, 0.0))
  }

  /**
   * The affine UV map with cosine c, sine s, scale (sx, sy) and offset
   * (ox, oy), as a column-major array: [c·sx, s·sx, ox, -s·sy, c·sy, oy, 0, 0, 1].
   */
  function AffineUv(c: real, s: real, sc: Vec2, off: Vec2): Mat3 {
    [c * sc.x, s * sc.x, off.x, -s * sc.y, c * sc.y, off.y, 0.0, 0.0, 1.0]
  }

  /** The closed form of the UV matrix of `tr`. */
  function UvAffine(tr: JsonTextureTransform, trig: Trig): Mat3 {
    AffineUv(CosOf(tr, trig), SinOf(tr, trig), ScaleOf(tr), OffsetOf(tr))
  }

  /** Rotation, then scaling, then translation, multiplied out. */
  lemma ComposeAffine(c: real, s: real, sc: Vec2, off: Vec2)
    ensures Mul(Mul([c, s, 0.0, -s, c, 0.0, 0.0, 0.0, 1.0], Scaling(sc)), Translation(off)) == AffineUv(c, s, sc, off)
  {
    var x := Mul([c, s, 0.0, -s, c, 0.0, 0.0, 0.0, 1.0], Scaling(sc));
    RotationTimesScaling(c, s, sc);
    LinearTimesTranslation(x, off);
    var y := Mul(x, Translation(off));
    var z := AffineUv(c, s, sc, off);
    assert y[0] == z[0] && y[1] == z[1] && y[2] == z[2];
    assert y[3] == z[3] && y[4] == z[4] && y[5] == z[5];
    assert y[6] == z[6] && y[7] == z[7] && y[8] == z[8];
  }

  /**
   * The UV matrix in closed form: rotation · scale · translation is the
   * affine map built from the rotation's cosine and sine, the scale and the
   * offset in force.
   */
  lemma UvMatrixClosedForm(tr: JsonTextureTransform, trig: Trig)
    ensures UvMatrix(tr, trig) == UvAffine(tr, trig)
  {
    var c, s := CosOf(tr, trig), SinOf(tr, trig);
    var sc, off := ScaleOf(tr), OffsetOf(tr);
    assert UvMatrix(tr, trig) == Mul(Mul([c, s, 0.0, -s, c, 0.0, 0.0, 0.0, 1.0], Scaling(sc)), Translation(off));
    ComposeAffine(c, s, sc, off);
  }

  /** Without rotation and at unit scale, the affine UV map is a pure translation. */
  lemma UnrotatedUnitScale(off: Vec2)
    ensures AffineUv(1.0, 0.0, Vec2(1.0, 1.0), off) == Translation(off)
  {
    var a, t := AffineUv(1.0, 0.0, Vec2(1.0, 1.0), off), Translation(off);
    assert a[0] == t[0] && a[1] == t[1] && a[2] == t[2];
    assert a[3] == t[3] && a[4] == t[4] && a[5] == t[5];
    assert a[6] == t[6] && a[7] == t[7] && a[8] == t[8];
  }

  /** With only an offset given, the UV matrix is exactly the translation array. */
  lemma OnlyOffsetIsTranslation(tr: JsonTextureTransform, trig: Trig)
    requires tr.rotation.None? && tr.scale.None? && tr.offset.Some?
    ensures UvMatrix(tr, trig) == Translation(tr.offset.value)
  {
    UvMatrixClosedForm(tr, trig);
    UnrotatedUnitScale(tr.offset.value);
  }

  /** With no component given, the UV matrix is the identity. */
  lemma EmptyTransformIsIdentity(tr: JsonTextureTransform, trig: Trig)
    requires tr.rotation.None? && tr.scale.None? && tr.offset.None?
    ensures UvMatrix(tr, trig) == Identity
  {
    UvMatrixClosedForm(tr, trig);
    UnrotatedUnitScale(Vec2(0.0, 0.0));
  }

  /**
   * A zero rotation with unit scale is no rotation at all, provided the
   * supplied sine and cosine agree with `Math` at zero.
   */
  lemma ZeroRotationUnitScale(tr: JsonTextureTransform, trig: Trig)
    requires tr.rotation == Some(0.0) && tr.scale == Some(Vec2(1.0, 1.0))
    requires trig.sin(0.0) == 0.0 && trig.cos(0.0) == 1.0
    ensures UvMatrix(tr, trig) == Translation(tr.offset.GetOr(Vec2(0.0, 0.0)))
  {
    UvMatrixClosedForm(tr, trig);
    UnrotatedUnitScale(tr.offset.GetOr(Vec2(0.0, 0.0)));
  }
}
