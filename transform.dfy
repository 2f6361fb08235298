/**
 * Symbolic 4x4 transforms as built by android.opengl.Matrix in both video processors.
 *
 * A matrix is kept as the product of the factors that built it, leftmost outermost:
 * `[]` is the identity, `translateM(m, x, y, z)` and `rotateM(m, a, x, y, z)` multiply
 * `m` on the right, and `multiplyMM(r, lhs, rhs)` is `lhs * rhs`. `Apply` gives the
 * factors an exact meaning over the reals where one exists, so that properties of the
 * mirror transform can be stated about the points a matrix moves.
 */
module Transform {
  import opened Options

  datatype Factor =
    | Ortho(left: real, right: real, bottom: real, top: real, near: real, far: real)
    | Perspective(fovy: real, aspect: real, zNear: real, zFar: real)
    | Translate(dx: real, dy: real, dz: real)
    | Rotate(angle: real, ax: real, ay: real, az: real)

  type Matrix = seq<Factor>

  /** A point in homogeneous coordinates. */
  datatype Vec4 = Vec4(x: real, y: real, z: real, w: real)

  /** Matrix.setIdentityM. */
  function Identity(): (id: Matrix) { [] }

  /** Matrix.translateM: m := m * T(x, y, z). */
  function TranslateM(m: Matrix, x: real, y: real, z: real): (product: Matrix) { m + [Translate(x, y, z)] }

  /** Matrix.rotateM: m := m * R(angle, axis). */
  function RotateM(m: Matrix, angle: real, x: real, y: real, z: real): (product: Matrix) { m + [Rotate(angle, x, y, z)] }

  /** Matrix.multiplyMM: lhs * rhs. */
  function MultiplyMM(lhs: Matrix, rhs: Matrix): (product: Matrix) { lhs + rhs }

  /**
   * The model matrix both processors rebuild from identity: a translation along z,
   * then, when mirrored, a rotation of 180 degrees about the y axis.
   */
  function ModelMatrix(mirrored: bool, depth: real): (model: Matrix) {
    var m := TranslateM(Identity(), 0.0, 0.0, depth);
    if mirrored then RotateM(m, 180.0, 0.0, 1.0, 0.0) else m
  }

  /** The horizontal mirror in model space: a half turn about the y axis. */
  function FlipXZ(v: Vec4): (flipped: Vec4) { Vec4(-v.x, v.y, -v.z, v.w) }

  /**
   * The exact real action of one factor, following the matrices Matrix.orthoM,
   * Matrix.perspectiveM, Matrix.translateM and Matrix.rotateM write. None where the
   * factor has no exact real value here: a rotation other than a half turn about
   * the y axis, a perspective whose field of view is not 90 degrees (its scale is a
   * tangent), and the degenerate frusta on which orthoM throws and perspectiveM divides by zero.
   */
  function ApplyFactor(f: Factor, v: Vec4): (image: Option<Vec4>) {
    match f
    case Translate(dx, dy, dz) =>
      Some(Vec4(v.x + dx * v.w, v.y + dy * v.w, v.z + dz * v.w, v.w))
    case Rotate(a, ax, ay, az) =>
      if a == 180.0 && ax == 0.0 && ay == 1.0 && az == 0.0 then Some(FlipXZ(v)) else None
    case Ortho(l, r, b, t, n, fa) =>
      if l == r || b == t || n == fa then None
      else Some(Vec4(2.0 / (r - l) * v.x - (r + l) / (r - l) * v.w,
                     2.0 / (t - b) * v.y - (t + b) / (t - b) * v.w,
                     -2.0 / (fa - n) * v.z - (fa + n) / (fa - n) * v.w,
                     v.w))
    case Perspective(fovy, aspect, zn, zf) =>
      // cot(fovy / 2) is exactly 1 for a 90-degree field of view
      if fovy != 90.0 || aspect == 0.0 || zn == zf then None
      else Some(Vec4(v.x / aspect,
                     v.y,
                     (zf + zn) / (zn - zf) * v.z + 2.0 * zf * zn / (zn - zf) * v.w,
                     -v.z))
  }

  /** The action of a whole product: the rightmost factor is applied first. */
  function Apply(m: Matrix, v: Vec4): (image: Option<Vec4>)
    decreases |m|
  {
    if m == [] then Some(v)
    else match Apply(m[1..], v)
      case None => None
      case Some(u) => ApplyFactor(m[0], u)
  }

  /** Applying `m` to an optional point. */
  function ApplyTo(m: Matrix, ov: Option<Vec4>): (image: Option<Vec4>) {
    match ov
    case None => None
    case Some(u) => Apply(m, u)
  }

  /** multiplyMM composes: (lhs * rhs) v == lhs (rhs v). */
  lemma {:induction false} MultiplyMMApplies(lhs: Matrix, rhs: Matrix, v: Vec4)
    ensures Apply(MultiplyMM(lhs, rhs), v) == ApplyTo(lhs, Apply(rhs, v))
    decreases |lhs|
  {
    if lhs == [] {
      assert MultiplyMM(lhs, rhs) == rhs;
      match Apply(rhs, v)
      case None =>
      case Some(u) => assert Apply(lhs, u) == Some(u);
    } else {
      assert MultiplyMM(lhs, rhs)[1..] == MultiplyMM(lhs[1..], rhs);
      MultiplyMMApplies(lhs[1..], rhs, v);
    }
  }

  /** A translation along z by `depth` adds `depth` times w to z. */
  lemma DepthTranslateMoves(depth: real, u: Vec4)
    ensures ApplyFactor(Translate(0.0, 0.0, depth), u) == Some(Vec4(u.x, u.y, u.z + depth * u.w, u.w))
  {
    var t := Translate(0.0, 0.0, depth);
    assert t.dx * u.w == 0.0 && t.dy * u.w == 0.0 && t.dz * u.w == depth * u.w;
    var moved := ApplyFactor(t, u);
    assert moved.Some? && moved.value.x == u.x && moved.value.y == u.y;
    assert moved.value.z == u.z + depth * u.w && moved.value.w == u.w;
  }

  /** The same translation after the half turn: z is negated before it is pushed. */
  lemma FlippedDepthTranslateMoves(depth: real, v: Vec4)
    ensures ApplyFactor(Translate(0.0, 0.0, depth), FlipXZ(v)) == Some(Vec4(-v.x, v.y, -v.z + depth * v.w, v.w))
  {
    var t := Translate(0.0, 0.0, depth);
    var f := FlipXZ(v);
    assert f.x == -v.x && f.y == v.y && f.z == -v.z && f.w == v.w;
    assert t.dx * f.w == 0.0 && t.dy * f.w == 0.0 && t.dz * f.w == depth * v.w;
    var moved := ApplyFactor(t, f);
    assert moved.Some? && moved.value.x == -v.x && moved.value.y == v.y;
    assert moved.value.z == -v.z + depth * v.w && moved.value.w == v.w;
  }

  /** The unmirrored model matrix only pushes a point `depth` along z. */
  lemma PlainModelMoves(depth: real, v: Vec4)
    ensures Apply(ModelMatrix(false, depth), v) == Some(Vec4(v.x, v.y, v.z + depth * v.w, v.w))
  {
    var t := Translate(0.0, 0.0, depth);
    assert Apply(ModelMatrix(false, depth), v) == ApplyFactor(t, v) by {
      assert ModelMatrix(false, depth) == [t];
      assert [t][1..] == [];
    }
    DepthTranslateMoves(depth, v);
  }

  /** The mirrored model matrix flips x and z about the y axis, then pushes the point `depth` along z. */
  lemma MirroredModelMoves(depth: real, v: Vec4)
    ensures Apply(ModelMatrix(true, depth), v) == Some(Vec4(-v.x, v.y, -v.z + depth * v.w, v.w))
  {
    var t := Translate(0.0, 0.0, depth);
    assert Apply(ModelMatrix(true, depth), v) == ApplyFactor(t, FlipXZ(v)) by {
      var r := Rotate(180.0, 0.0, 1.0, 0.0);
      assert ModelMatrix(true, depth) == [t, r];
      assert [t, r][1..] == [r] && [r][1..] == [];
      assert Apply([r], v) == ApplyFactor(r, v) == Some(FlipXZ(v));
    }
    FlippedDepthTranslateMoves(depth, v);
  }

  /**
   * What the model matrix does to a point: the mirrored one flips x and z about the
   * y axis before pushing the point `depth` along z; the other only pushes it.
   */
  lemma ModelMatrixMoves(mirrored: bool, depth: real, v: Vec4)
    ensures Apply(ModelMatrix(mirrored, depth), v)
         == Some(if mirrored then Vec4(-v.x, v.y, -v.z + depth * v.w, v.w)
                 else Vec4(v.x, v.y, v.z + depth * v.w, v.w))
  {
    if mirrored {
      MirroredModelMoves(depth, v);
    } else {
      PlainModelMoves(depth, v);
    }
  }

  /**
   * Whatever the projection, the mirrored MVP matrix draws the point the unmirrored
   * one draws for the point's half-turn image: mirroring is a flip of the model.
   */
  lemma MirroredMvpIsFlip(projection: Matrix, depth: real, v: Vec4)
    ensures Apply(MultiplyMM(projection, ModelMatrix(true, depth)), v)
         == Apply(MultiplyMM(projection, ModelMatrix(false, depth)), FlipXZ(v))
  {
    var f := FlipXZ(v);
    var moved := Vec4(-v.x, v.y, -v.z + depth * v.w, v.w);
    ModelMatrixMoves(true, depth, v);
    ModelMatrixMoves(false, depth, f);
    assert Apply(ModelMatrix(false, depth), f) == Some(Vec4(f.x, f.y, f.z + depth * f.w, f.w));
    assert f.w == v.w;
    assert Vec4(f.x, f.y, f.z + depth * f.w, f.w) == moved;
    MultiplyMMApplies(projection, ModelMatrix(true, depth), v);
    MultiplyMMApplies(projection, ModelMatrix(false, depth), f);
  }

  /** An orthographic frustum symmetric in x is odd in x: negating a point's x negates its clip x and nothing else. */
  lemma OrthoOddInX(l: real, r: real, b: real, t: real, n: real, fa: real, u: Vec4)
    requires l == -r
    ensures var plain := ApplyFactor(Ortho(l, r, b, t, n, fa), u);
            var negated := ApplyFactor(Ortho(l, r, b, t, n, fa), u.(x := -u.x));
      plain.Some? ==> negated == Some(plain.value.(x := -plain.value.x))
  {
    if !(l == r || b == t || n == fa) {
      var sx, tx := 2.0 / (r - l), (r + l) / (r - l);
      assert tx == 0.0;
      assert tx * u.w == 0.0;
      assert sx * -u.x == -(sx * u.x);
      var plain := ApplyFactor(Ortho(l, r, b, t, n, fa), u).value;
      var negated := ApplyFactor(Ortho(l, r, b, t, n, fa), u.(x := -u.x)).value;
      assert plain.x == sx * u.x - tx * u.w && negated.x == sx * -u.x - tx * u.w;
      assert negated.x == -plain.x;
      assert negated.y == plain.y && negated.z == plain.z && negated.w == plain.w;
    }
  }
}
