/**
 Quaternions and rotation matrices (common/transformations/transformations.py, `quat2rot_single` and
 `rot2quat_single`) over the reals. A square root is passed in as a positive number together with
 the fact that its square is the radicand.
 */
module Quaternion {

  datatype Quat = Quat(w: real, x: real, y: real, z: real)

  datatype Vec = Vec(x: real, y: real, z: real)

  /** A 3x3 matrix by rows. */
  datatype Mat = Mat(a: Vec, b: Vec, c: Vec)

  function Negated(q: Quat): Quat {
    Quat(-q.w, -q.x, -q.y, -q.z)
  }

  function Norm2(q: Quat): real {
    q.w * q.w + q.x * q.x + q.y * q.y + q.z * q.z
  }

  function Quat2Rot(q: Quat): Mat {
    var xx, yy, zz := q.x * q.x, q.y * q.y, q.z * q.z;
    var xy, xz, yz := q.x * q.y, q.x * q.z, q.y * q.z;
    var wx, wy, wz := q.w * q.x, q.w * q.y, q.w * q.z;
    Mat(
      Vec(1.0 - 2.0 * (yy + zz), 2.0 * (xy - wz), 2.0 * (xz + wy)),
      Vec(2.0 * (xy + wz), 1.0 - 2.0 * (xx + zz), 2.0 * (yz - wx)),
      Vec(2.0 * (xz - wy), 2.0 * (yz + wx), 1.0 - 2.0 * (xx + yy)))
  }

  datatype Branch = OnW | OnX | OnY | OnZ

  function Trace(m: Mat): real {
    m.a.x + m.b.y + m.c.z
  }

  function BranchOf(m: Mat): Branch {
    if Trace(m) > 0.0 then OnW
    else if m.a.x > m.b.y && m.a.x > m.c.z then OnX
    else if m.b.y > m.c.z then OnY
    else OnZ
  }

  function Radicand(m: Mat): real {
    match BranchOf(m)
    case OnW => Trace(m) + 1.0
    case OnX => 1.0 + m.a.x - m.b.y - m.c.z
    case OnY => 1.0 + m.b.y - m.a.x - m.c.z
    case OnZ => 1.0 + m.c.z - m.a.x - m.b.y
  }

  predicate IsRoot(root: real, m: Mat) {
    root > 0.0 && root * root == Radicand(m)
  }

  /** The quaternion of the branch taken, before its sign is settled. */
  function Unsigned(m: Mat, root: real): Quat
    requires IsRoot(root, m)
  {
    match BranchOf(m)
    case OnW =>
      var s := 0.5 / root;
      Quat(0.25 / s, (m.c.y - m.b.z) * s, (m.a.z - m.c.x) * s, (m.b.x - m.a.y) * s)
    case OnX =>
      var s := 2.0 * root;
      Quat((m.c.y - m.b.z) / s, 0.25 * s, (m.a.y + m.b.x) / s, (m.a.z + m.c.x) / s)
    case OnY =>
      var s := 2.0 * root;
      Quat((m.a.z - m.c.x) / s, (m.a.y + m.b.x) / s, 0.25 * s, (m.b.z + m.c.y) / s)
    case OnZ =>
      var s := 2.0 * root;
      Quat((m.b.x - m.a.y) / s, (m.a.z + m.c.x) / s, (m.b.z + m.c.y) / s, 0.25 * s)
  }

  function Rot2Quat(m: Mat, root: real): Quat
    requires IsRoot(root, m)
  {
    var q := Unsigned(m, root);
    if q.w < 0.0 then Negated(q) else q
  }

  // ---------- rotations ----------

  function Dot(u: Vec, v: Vec): real {
    u.x * v.x + u.y * v.y + u.z * v.z
  }

  function Cross(u: Vec, v: Vec): Vec {
    Vec(u.y * v.z - u.z * v.y, u.z * v.x - u.x * v.z, u.x * v.y - u.y * v.x)
  }

  function Det(m: Mat): real {
    Dot(m.a, Cross(m.b, m.c))
  }

  /** Orthonormal rows and determinant one. */
  predicate IsRotation(m: Mat) {
    Dot(m.a, m.a) == 1.0 && Dot(m.b, m.b) == 1.0 && Dot(m.c, m.c) == 1.0
    && Dot(m.a, m.b) == 0.0 && Dot(m.b, m.c) == 0.0 && Dot(m.a, m.c) == 0.0
    && Det(m) == 1.0
  }

  // ---------- what the matrix does ----------

  /** Hamilton's product. */
  function Hamilton(p: Quat, q: Quat): Quat {
    Quat(p.w * q.w - p.x * q.x - p.y * q.y - p.z * q.z,
         p.w * q.x + p.x * q.w + p.y * q.z - p.z * q.y,
         p.w * q.y - p.x * q.z + p.y * q.w + p.z * q.x,
         p.w * q.z + p.x * q.y - p.y * q.x + p.z * q.w)
  }

  function Conjugate(q: Quat): Quat {
    Quat(q.w, -q.x, -q.y, -q.z)
  }

  function Pure(v: Vec): Quat {
    Quat(0.0, v.x, v.y, v.z)
  }

  /** The matrix turns the axes as the quaternion does: its columns are q i q*, q j q* and q k q*. */
  lemma ColumnsAreTurnedAxes(q: Quat)
    requires Norm2(q) == 1.0
    ensures var m := Quat2Rot(q);
            && Hamilton(Hamilton(q, Pure(Vec(1.0, 0.0, 0.0))), Conjugate(q)) == Pure(Vec(m.a.x, m.b.x, m.c.x))
            && Hamilton(Hamilton(q, Pure(Vec(0.0, 1.0, 0.0))), Conjugate(q)) == Pure(Vec(m.a.y, m.b.y, m.c.y))
            && Hamilton(Hamilton(q, Pure(Vec(0.0, 0.0, 1.0))), Conjugate(q)) == Pure(Vec(m.a.z, m.b.z, m.c.z))
  {
    hide Hamilton, Quat2Rot;
    HamiltonAxes(q);
    FirstAxis(q);
    SecondAxis(q);
    ThirdAxis(q);
  }

  lemma HamiltonAxes(q: Quat)
    ensures Hamilton(q, Pure(Vec(1.0, 0.0, 0.0))) == Quat(-q.x, q.w, q.z, -q.y)
    ensures Hamilton(q, Pure(Vec(0.0, 1.0, 0.0))) == Quat(-q.y, -q.z, q.w, q.x)
    ensures Hamilton(q, Pure(Vec(0.0, 0.0, 1.0))) == Quat(-q.z, q.y, -q.x, q.w)
  {
  }

  lemma MinusRight(a: real, b: real)
    ensures a * -b == -(a * b)
  {
  }

  lemma MinusLeft(a: real, b: real)
    ensures -a * b == -(a * b)
  {
  }

  lemma TimesConjugate(p: Quat, q: Quat)
    ensures Hamilton(p, Conjugate(q)) == Quat(
      p.w * q.w + p.x * q.x + p.y * q.y + p.z * q.z, -(p.w * q.x) + p.x * q.w - p.y * q.z + p.z * q.y,
      -(p.w * q.y) + p.x * q.z + p.y * q.w - p.z * q.x, -(p.w * q.z) - p.x * q.y + p.y * q.x + p.z * q.w)
  {
    MinusRight(p.w, q.x);
    MinusRight(p.w, q.y);
    MinusRight(p.w, q.z);
    MinusRight(p.x, q.x);
    MinusRight(p.x, q.y);
    MinusRight(p.x, q.z);
    MinusRight(p.y, q.x);
    MinusRight(p.y, q.y);
    MinusRight(p.y, q.z);
    MinusRight(p.z, q.x);
    MinusRight(p.z, q.y);
    MinusRight(p.z, q.z);
  }

  lemma FirstAxis(q: Quat)
    requires Norm2(q) == 1.0
    ensures var m := Quat2Rot(q);
            Hamilton(Quat(-q.x, q.w, q.z, -q.y), Conjugate(q)) == Pure(Vec(m.a.x, m.b.x, m.c.x))
  {
    hide Hamilton, Conjugate, Quat2Rot, Norm2, ProductsIn;
    FirstAxisProducts(q);
    ProductsOfQuat(q);
  }

  lemma FirstAxisProducts(q: Quat)
    ensures var p := ProductsIn(q);
            Hamilton(Quat(-q.x, q.w, q.z, -q.y), Conjugate(q))
            == Quat(0.0, p.ww + p.xx - p.yy - p.zz, 2.0 * (p.xy + p.wz), 2.0 * (p.xz - p.wy))
  {
    hide Hamilton, Conjugate;
    TimesConjugate(Quat(-q.x, q.w, q.z, -q.y), q);
    MinusLeft(q.x, q.w);
    MinusLeft(q.x, q.x);
    MinusLeft(q.x, q.y);
    MinusLeft(q.x, q.z);
    MinusLeft(q.y, q.x);
    MinusLeft(q.y, q.y);
    MinusLeft(q.y, q.z);
    MinusLeft(q.y, q.w);
  }

  lemma SecondAxis(q: Quat)
    requires Norm2(q) == 1.0
    ensures var m := Quat2Rot(q);
            Hamilton(Quat(-q.y, -q.z, q.w, q.x), Conjugate(q)) == Pure(Vec(m.a.y, m.b.y, m.c.y))
  {
    hide Hamilton, Conjugate, Quat2Rot, Norm2, ProductsIn;
    SecondAxisProducts(q);
    ProductsOfQuat(q);
  }

  lemma SecondAxisSums(w: real, x: real, y: real, z: real)
    ensures -y * w + -z * x + w * y + x * z == 0.0
    ensures -(-y * x) + -z * w - w * z + x * y == 2.0 * (x * y - w * z)
    ensures -(-y * y) + -z * z + w * w - x * x == w * w - x * x + y * y - z * z
    ensures -(-y * z) - -z * y + w * x + x * w == 2.0 * (y * z + w * x)
  {
  }

  lemma SecondAxisProducts(q: Quat)
    ensures var p := ProductsIn(q);
            Hamilton(Quat(-q.y, -q.z, q.w, q.x), Conjugate(q))
            == Quat(0.0, 2.0 * (p.xy - p.wz), p.ww - p.xx + p.yy - p.zz, 2.0 * (p.yz + p.wx))
  {
    hide Hamilton, Conjugate;
    TimesConjugate(Quat(-q.y, -q.z, q.w, q.x), q);
    SecondAxisSums(q.w, q.x, q.y, q.z);
  }

  lemma ThirdAxis(q: Quat)
    requires Norm2(q) == 1.0
    ensures var m := Quat2Rot(q);
            Hamilton(Quat(-q.z, q.y, -q.x, q.w), Conjugate(q)) == Pure(Vec(m.a.z, m.b.z, m.c.z))
  {
    hide Hamilton, Conjugate, Quat2Rot, Norm2, ProductsIn;
    ThirdAxisProducts(q);
    ProductsOfQuat(q);
  }

  lemma ThirdAxisSums(w: real, x: real, y: real, z: real)
    ensures -z * w + y * x + -x * y + w * z == 0.0
    ensures -(-z * x) + y * w - -x * z + w * y == 2.0 * (x * z + w * y)
    ensures -(-z * y) + y * z + -x * w - w * x == 2.0 * (y * z - w * x)
    ensures -(-z * z) - y * y + -x * x + w * w == w * w - x * x - y * y + z * z
  {
  }

  lemma ThirdAxisProducts(q: Quat)
    ensures var p := ProductsIn(q);
            Hamilton(Quat(-q.z, q.y, -q.x, q.w), Conjugate(q))
            == Quat(0.0, 2.0 * (p.xz + p.wy), 2.0 * (p.yz - p.wx), p.ww - p.xx - p.yy + p.zz)
  {
    hide Hamilton, Conjugate;
    TimesConjugate(Quat(-q.z, q.y, -q.x, q.w), q);
    ThirdAxisSums(q.w, q.x, q.y, q.z);
  }

  // ---------- the radicand ----------

  /** No branch divides by zero: the chosen radicand is at least one, for every matrix whatsoever. */
  lemma RadicandIsAtLeastOne(m: Mat)
    ensures Radicand(m) >= 1.0
  {
  }

  // ---------- the sixteen products ----------

  /** Four times the products of the components of a quaternion, read off its rotation matrix. The
      entries are linear in the matrix. */
  datatype Products = Products(
    ww: real, xx: real, yy: real, zz: real, wx: real, wy: real, wz: real, xy: real, xz: real, yz: real)

  function ProductsOf(m: Mat): Products {
    Products(
      1.0 + m.a.x + m.b.y + m.c.z, 1.0 + m.a.x - m.b.y - m.c.z,
      1.0 + m.b.y - m.a.x - m.c.z, 1.0 + m.c.z - m.a.x - m.b.y,
      m.c.y - m.b.z, m.a.z - m.c.x, m.b.x - m.a.y,
      m.a.y + m.b.x, m.a.z + m.c.x, m.b.z + m.c.y)
  }

  predicate AreProducts(k: Products, q: Quat) {
    k.ww == 4.0 * (q.w * q.w) && k.xx == 4.0 * (q.x * q.x) && k.yy == 4.0 * (q.y * q.y) && k.zz == 4.0 * (q.z * q.z)
    && k.wx == 4.0 * (q.w * q.x) && k.wy == 4.0 * (q.w * q.y) && k.wz == 4.0 * (q.w * q.z)
    && k.xy == 4.0 * (q.x * q.y) && k.xz == 4.0 * (q.x * q.z) && k.yz == 4.0 * (q.y * q.z)
  }

  /** A unit quaternion's matrix holds its products. */
  lemma MatrixHoldsProducts(q: Quat)
    requires Norm2(q) == 1.0
    ensures AreProducts(ProductsOf(Quat2Rot(q)), q)
  {
  }

  /** The matrix and the norm with the products as numbers of their own. */
  function FromProducts(p: Products): Mat {
    Mat(
      Vec(1.0 - 2.0 * (p.yy + p.zz), 2.0 * (p.xy - p.wz), 2.0 * (p.xz + p.wy)),
      Vec(2.0 * (p.xy + p.wz), 1.0 - 2.0 * (p.xx + p.zz), 2.0 * (p.yz - p.wx)),
      Vec(2.0 * (p.xz - p.wy), 2.0 * (p.yz + p.wx), 1.0 - 2.0 * (p.xx + p.yy)))
  }

  function ProductsIn(q: Quat): Products {
    Products(q.w * q.w, q.x * q.x, q.y * q.y, q.z * q.z, q.w * q.x, q.w * q.y, q.w * q.z,
             q.x * q.y, q.x * q.z, q.y * q.z)
  }

  predicate FourTimes(k: Products, p: Products) {
    k.ww == 4.0 * p.ww && k.xx == 4.0 * p.xx && k.yy == 4.0 * p.yy && k.zz == 4.0 * p.zz
    && k.wx == 4.0 * p.wx && k.wy == 4.0 * p.wy && k.wz == 4.0 * p.wz
    && k.xy == 4.0 * p.xy && k.xz == 4.0 * p.xz && k.yz == 4.0 * p.yz
  }

  /** Everything is linear in the products. */
  lemma FixedByProducts(m: Mat, p: Products)
    requires FourTimes(ProductsOf(m), p)
    ensures p.ww + p.xx + p.yy + p.zz == 1.0 && m == FromProducts(p)
  {
  }

  lemma ProductsOfQuat(q: Quat)
    ensures Quat2Rot(q) == FromProducts(ProductsIn(q))
    ensures var p := ProductsIn(q); Norm2(q) == p.ww + p.xx + p.yy + p.zz
    ensures forall k :: AreProducts(k, q) <==> FourTimes(k, ProductsIn(q))
  {
  }

  /** Conversely a matrix that holds a quaternion's products is its matrix, and it has norm one. */
  lemma ProductsFixMatrix(m: Mat, q: Quat)
    requires AreProducts(ProductsOf(m), q)
    ensures Norm2(q) == 1.0 && Quat2Rot(q) == m
  {
    hide ProductsOf, AreProducts, Quat2Rot, Norm2, FromProducts, ProductsIn, FourTimes;
    ProductsOfQuat(q);
    FixedByProducts(m, ProductsIn(q));
  }

  /** The row of the products that a branch reads. */
  function Row(k: Products, b: Branch): Quat {
    match b
    case OnW => Quat(k.ww, k.wx, k.wy, k.wz)
    case OnX => Quat(k.wx, k.xx, k.xy, k.xz)
    case OnY => Quat(k.wy, k.xy, k.yy, k.yz)
    case OnZ => Quat(k.wz, k.xz, k.yz, k.zz)
  }

  function Scaled(q: Quat, t: real): Quat {
    Quat(q.w * t, q.x * t, q.y * t, q.z * t)
  }

  lemma Halved(a: real, r: real)
    requires r > 0.0
    ensures a / (2.0 * r) * (2.0 * r) == a
  {
  }

  lemma HalvedByFactor(a: real, r: real)
    requires r > 0.0
    ensures a * (0.5 / r) * (2.0 * r) == a
  {
    assert 0.5 / r * (2.0 * r) == 1.0;
    Regroup(a, 0.5 / r, 2.0 * r);
  }

  lemma Regroup(a: real, b: real, c: real)
    ensures a * b * c == a * (b * c)
  {
  }

  lemma PivotOfW(r: real)
    requires r > 0.0
    ensures 0.25 / (0.5 / r) * (2.0 * r) == r * r
  {
    var s := 0.5 / r;
    assert s * r == 0.5;
    var w := 0.25 / s;
    assert w * s == 0.25;
    Regroup(w, s, r);
    assert w == 0.5 * r;
  }

  lemma QuarterOfDouble(r: real)
    ensures 0.25 * (2.0 * r) * (2.0 * r) == r * r
  {
  }

  lemma ScaledByFactor(q: Quat, r: real, a: real, b: real, c: real)
    requires r > 0.0 && var s := 0.5 / r; q == Quat(0.25 / s, a * s, b * s, c * s)
    ensures Scaled(q, 2.0 * r) == Quat(r * r, a, b, c)
  {
    PivotOfW(r);
    HalvedByFactor(a, r);
    HalvedByFactor(b, r);
    HalvedByFactor(c, r);
  }

  lemma ScaledQuotients(r: real, a: real, b: real, c: real)
    requires r > 0.0
    ensures var s := 2.0 * r;
            Scaled(Quat(a / s, 0.25 * s, b / s, c / s), s) == Quat(a, r * r, b, c)
            && Scaled(Quat(a / s, b / s, 0.25 * s, c / s), s) == Quat(a, b, r * r, c)
            && Scaled(Quat(a / s, b / s, c / s, 0.25 * s), s) == Quat(a, b, c, r * r)
  {
    QuarterOfDouble(r);
    Halved(a, r);
    Halved(b, r);
    Halved(c, r);
  }

  lemma UnsignedOnW(m: Mat, root: real)
    requires IsRoot(root, m) && BranchOf(m) == OnW
    ensures Scaled(Unsigned(m, root), 2.0 * root) == Quat(root * root, m.c.y - m.b.z, m.a.z - m.c.x, m.b.x - m.a.y)
  {
    hide Scaled, BranchOf, Radicand;
    ScaledByFactor(Unsigned(m, root), root, m.c.y - m.b.z, m.a.z - m.c.x, m.b.x - m.a.y);
  }

  /** Every branch divides the row of its pivot by twice the root. */
  lemma UnsignedIsScaledRow(m: Mat, root: real)
    requires IsRoot(root, m)
    ensures Scaled(Unsigned(m, root), 2.0 * root) == Row(ProductsOf(m), BranchOf(m))
  {
    hide Scaled, BranchOf;
    var k := ProductsOf(m);
    match BranchOf(m)
    case OnW => hide Unsigned; UnsignedOnW(m, root);
    case OnX => ScaledQuotients(root, k.wx, k.xy, k.xz);
    case OnY => ScaledQuotients(root, k.wy, k.xy, k.yz);
    case OnZ => ScaledQuotients(root, k.wz, k.xz, k.yz);
  }

  /** What the body computes, in one form for all four branches. */
  lemma BodyIsScaledRow(m: Mat, root: real)
    requires IsRoot(root, m)
    ensures var p := Rot2Quat(m, root);
            p.w >= 0.0
            && (Scaled(p, 2.0 * root) == Row(ProductsOf(m), BranchOf(m))
                || Scaled(Negated(p), 2.0 * root) == Row(ProductsOf(m), BranchOf(m)))
  {
    hide Row, Unsigned, Scaled;
    UnsignedIsScaledRow(m, root);
  }

  // ---------- from a quaternion and back ----------

  function Component(b: Branch, q: Quat): real {
    match b case OnW => q.w case OnX => q.x case OnY => q.y case OnZ => q.z
  }

  lemma RowOfProducts(k: Products, b: Branch, q: Quat)
    requires AreProducts(k, q)
    ensures var t, row := Component(b, q), Row(k, b);
            row.w == 4.0 * (t * q.w) && row.x == 4.0 * (t * q.x) && row.y == 4.0 * (t * q.y) && row.z == 4.0 * (t * q.z)
  {
  }

  lemma CancelOne(t: real, a: real, b: real)
    requires t != 0.0 && a * (2.0 * (2.0 * t)) == 4.0 * (t * b)
    ensures a == b
  {
    assert t * (a - b) == 0.0;
  }

  /** There is one quaternion with a given row and root. */
  lemma ScaledRowIsUnique(k: Products, b: Branch, p: Quat, q: Quat)
    requires AreProducts(k, q) && Component(b, q) != 0.0
    requires Scaled(p, 2.0 * (2.0 * Component(b, q))) == Row(k, b)
    ensures p == q
  {
    hide Row, AreProducts, Component;
    var t := Component(b, q);
    RowOfProducts(k, b, q);
    CancelOne(t, p.w, q.w);
    CancelOne(t, p.x, q.x);
    CancelOne(t, p.y, q.y);
    CancelOne(t, p.z, q.z);
  }

  lemma RootOfSquare(r: real, t: real)
    requires r > 0.0 && r * r == 4.0 * (t * t)
    ensures t != 0.0 && (r == 2.0 * t || r == 2.0 * -t)
  {
    assert (r - 2.0 * t) * (r + 2.0 * t) == 0.0;
  }

  lemma NegatedProducts(k: Products, b: Branch, q: Quat)
    requires AreProducts(k, q)
    ensures AreProducts(k, Negated(q)) && Component(b, Negated(q)) == -Component(b, q) && Negated(Negated(q)) == q
  {
  }

  lemma PivotSquare(m: Mat, q: Quat)
    requires AreProducts(ProductsOf(m), q)
    ensures Radicand(m) == 4.0 * (Component(BranchOf(m), q) * Component(BranchOf(m), q))
  {
  }

  lemma ScaledEither(k: Products, b: Branch, p: Quat, q: Quat, root: real)
    requires AreProducts(k, q) && Scaled(p, 2.0 * root) == Row(k, b)
    requires Component(b, q) != 0.0 && (root == 2.0 * Component(b, q) || root == 2.0 * -Component(b, q))
    ensures p == q || p == Negated(q)
  {
    hide AreProducts, Row, Scaled, Component, Negated;
    NegatedProducts(k, b, q);
    if root == 2.0 * Component(b, q) {
      ScaledRowIsUnique(k, b, p, q);
    } else {
      ScaledRowIsUnique(k, b, p, Negated(q));
    }
  }

  /** For a unit quaternion the conversions undo each other up to sign, and the sign is the one that
      makes w non-negative. */
  lemma QuaternionRoundTrip(q: Quat, root: real)
    requires Norm2(q) == 1.0 && IsRoot(root, Quat2Rot(q))
    ensures var p := Rot2Quat(Quat2Rot(q), root); p.w >= 0.0 && (p == q || p == Negated(q))
  {
    hide Quat2Rot, Rot2Quat, AreProducts, Scaled, Row, Norm2, ProductsOf, Component, BranchOf;
    var m := Quat2Rot(q);
    var p := Rot2Quat(m, root);
    var k := ProductsOf(m);
    var b := BranchOf(m);
    MatrixHoldsProducts(q);
    BodyIsScaledRow(m, root);
    PivotSquare(m, q);
    RootOfSquare(root, Component(b, q));
    if Scaled(p, 2.0 * root) == Row(k, b) {
      ScaledEither(k, b, p, q, root);
    } else {
      ScaledEither(k, b, Negated(p), q, root);
      NegatedProducts(k, b, q);
    }
  }

  // ---------- the matrix of a unit quaternion is a rotation ----------

  predicate HasEntries(m: Mat, w: real, x: real, y: real, z: real) {
    m.a.x == 1.0 - 2.0 * (y * y + z * z)
    && m.a.y == 2.0 * (x * y - w * z)
    && m.a.z == 2.0 * (x * z + w * y)
    && m.b.x == 2.0 * (x * y + w * z)
    && m.b.y == 1.0 - 2.0 * (x * x + z * z)
    && m.b.z == 2.0 * (y * z - w * x)
    && m.c.x == 2.0 * (x * z - w * y)
    && m.c.y == 2.0 * (y * z + w * x)
    && m.c.z == 1.0 - 2.0 * (x * x + y * y)
  }

  lemma Entries(q: Quat)
    ensures HasEntries(Quat2Rot(q), q.w, q.x, q.y, q.z)
  {
  }

  lemma Vanishes(f: real, n: real)
    requires n == 1.0
    ensures 4.0 * f * (n - 1.0) == 0.0
  {
  }

  // The polynomial identities behind it, entry by entry.

  lemma NormA(w: real, x: real, y: real, z: real, a1: real, a2: real, a3: real)
    requires w * w + x * x + y * y + z * z == 1.0
    requires a1 == 1.0 - 2.0 * (y * y + z * z)
    requires a2 == 2.0 * (x * y - w * z)
    requires a3 == 2.0 * (x * z + w * y)
    ensures a1 * a1 + a2 * a2 + a3 * a3 == 1.0
  {
    var n := w * w + x * x + y * y + z * z;
    Vanishes((y * y + z * z), n);
    assert a1 * a1 == (1.0 - 2.0 * (y * y + z * z)) * (1.0 - 2.0 * (y * y + z * z));
    assert a2 * a2 == (2.0 * (x * y - w * z)) * (2.0 * (x * y - w * z));
    assert a3 * a3 == (2.0 * (x * z + w * y)) * (2.0 * (x * z + w * y));
    assert (1.0 - 2.0 * (y * y + z * z)) * (1.0 - 2.0 * (y * y + z * z))
           + (2.0 * (x * y - w * z)) * (2.0 * (x * y - w * z))
           + (2.0 * (x * z + w * y)) * (2.0 * (x * z + w * y))
           == 1.0 + 4.0 * (y * y + z * z) * (n - 1.0);
  }

  lemma NormAIn(q: Quat, m: Mat)
    requires Norm2(q) == 1.0 && HasEntries(m, q.w, q.x, q.y, q.z)
    ensures m.a.x * m.a.x + m.a.y * m.a.y + m.a.z * m.a.z == 1.0
  {
    NormA(q.w, q.x, q.y, q.z, m.a.x, m.a.y, m.a.z);
  }

  lemma NormAOf(q: Quat, m: Mat)
    requires Norm2(q) == 1.0 && HasEntries(m, q.w, q.x, q.y, q.z)
    ensures Dot(m.a, m.a) == 1.0
  {
    hide HasEntries, Norm2;
    NormAIn(q, m);
  }

  lemma NormB(w: real, x: real, y: real, z: real, b1: real, b2: real, b3: real)
    requires w * w + x * x + y * y + z * z == 1.0
    requires b1 == 2.0 * (x * y + w * z)
    requires b2 == 1.0 - 2.0 * (x * x + z * z)
    requires b3 == 2.0 * (y * z - w * x)
    ensures b1 * b1 + b2 * b2 + b3 * b3 == 1.0
  {
    var n := w * w + x * x + y * y + z * z;
    Vanishes((x * x + z * z), n);
    assert b1 * b1 == (2.0 * (x * y + w * z)) * (2.0 * (x * y + w * z));
    assert b2 * b2 == (1.0 - 2.0 * (x * x + z * z)) * (1.0 - 2.0 * (x * x + z * z));
    assert b3 * b3 == (2.0 * (y * z - w * x)) * (2.0 * (y * z - w * x));
    assert (2.0 * (x * y + w * z)) * (2.0 * (x * y + w * z))
           + (1.0 - 2.0 * (x * x + z * z)) * (1.0 - 2.0 * (x * x + z * z))
           + (2.0 * (y * z - w * x)) * (2.0 * (y * z - w * x))
           == 1.0 + 4.0 * (x * x + z * z) * (n - 1.0);
  }

  lemma NormBIn(q: Quat, m: Mat)
    requires Norm2(q) == 1.0 && HasEntries(m, q.w, q.x, q.y, q.z)
    ensures m.b.x * m.b.x + m.b.y * m.b.y + m.b.z * m.b.z == 1.0
  {
    NormB(q.w, q.x, q.y, q.z, m.b.x, m.b.y, m.b.z);
  }

  lemma NormBOf(q: Quat, m: Mat)
    requires Norm2(q) == 1.0 && HasEntries(m, q.w, q.x, q.y, q.z)
    ensures Dot(m.b, m.b) == 1.0
  {
    hide HasEntries, Norm2;
    NormBIn(q, m);
  }

  lemma NormC(w: real, x: real, y: real, z: real, c1: real, c2: real, c3: real)
    requires w * w + x * x + y * y + z * z == 1.0
    requires c1 == 2.0 * (x * z - w * y)
    requires c2 == 2.0 * (y * z + w * x)
    requires c3 == 1.0 - 2.0 * (x * x + y * y)
    ensures c1 * c1 + c2 * c2 + c3 * c3 == 1.0
  {
    var n := w * w + x * x + y * y + z * z;
    Vanishes((x * x + y * y), n);
    assert c1 * c1 == (2.0 * (x * z - w * y)) * (2.0 * (x * z - w * y));
    assert c2 * c2 == (2.0 * (y * z + w * x)) * (2.0 * (y * z + w * x));
    assert c3 * c3 == (1.0 - 2.0 * (x * x + y * y)) * (1.0 - 2.0 * (x * x + y * y));
    assert (2.0 * (x * z - w * y)) * (2.0 * (x * z - w * y))
           + (2.0 * (y * z + w * x)) * (2.0 * (y * z + w * x))
           + (1.0 - 2.0 * (x * x + y * y)) * (1.0 - 2.0 * (x * x + y * y))
           == 1.0 + 4.0 * (x * x + y * y) * (n - 1.0);
  }

  lemma NormCIn(q: Quat, m: Mat)
    requires Norm2(q) == 1.0 && HasEntries(m, q.w, q.x, q.y, q.z)
    ensures m.c.x * m.c.x + m.c.y * m.c.y + m.c.z * m.c.z == 1.0
  {
    NormC(q.w, q.x, q.y, q.z, m.c.x, m.c.y, m.c.z);
  }

  lemma NormCOf(q: Quat, m: Mat)
    requires Norm2(q) == 1.0 && HasEntries(m, q.w, q.x, q.y, q.z)
    ensures Dot(m.c, m.c) == 1.0
  {
    hide HasEntries, Norm2;
    NormCIn(q, m);
  }

  lemma CrossX(w: real, x: real, y: real, z: real, b2: real, c3: real, b3: real, c2: real, a1: real)
    requires w * w + x * x + y * y + z * z == 1.0
    requires b2 == 1.0 - 2.0 * (x * x + z * z)
    requires c3 == 1.0 - 2.0 * (x * x + y * y)
    requires b3 == 2.0 * (y * z - w * x)
    requires c2 == 2.0 * (y * z + w * x)
    requires a1 == 1.0 - 2.0 * (y * y + z * z)
    ensures b2 * c3 - b3 * c2 == a1
  {
    var n := w * w + x * x + y * y + z * z;
    Vanishes((x * x), n);
    assert b2 * c3 == (1.0 - 2.0 * (x * x + z * z)) * (1.0 - 2.0 * (x * x + y * y));
    assert b3 * c2 == (2.0 * (y * z - w * x)) * (2.0 * (y * z + w * x));
    assert (1.0 - 2.0 * (x * x + z * z)) * (1.0 - 2.0 * (x * x + y * y))
           - (2.0 * (y * z - w * x)) * (2.0 * (y * z + w * x))
           == 1.0 - 2.0 * (y * y + z * z) + 4.0 * (x * x) * (n - 1.0);
  }

  lemma CrossXIn(q: Quat, m: Mat)
    requires Norm2(q) == 1.0 && HasEntries(m, q.w, q.x, q.y, q.z)
    ensures m.b.y * m.c.z - m.b.z * m.c.y == m.a.x
  {
    CrossX(q.w, q.x, q.y, q.z, m.b.y, m.c.z, m.b.z, m.c.y, m.a.x);
  }

  lemma CrossXOf(q: Quat, m: Mat)
    requires Norm2(q) == 1.0 && HasEntries(m, q.w, q.x, q.y, q.z)
    ensures Cross(m.b, m.c).x == m.a.x
  {
    hide HasEntries, Norm2;
    CrossXIn(q, m);
  }

  lemma CrossY(w: real, x: real, y: real, z: real, b3: real, c1: real, b1: real, c3: real, a2: real)
    requires w * w + x * x + y * y + z * z == 1.0
    requires b3 == 2.0 * (y * z - w * x)
    requires c1 == 2.0 * (x * z - w * y)
    requires b1 == 2.0 * (x * y + w * z)
    requires c3 == 1.0 - 2.0 * (x * x + y * y)
    requires a2 == 2.0 * (x * y - w * z)
    ensures b3 * c1 - b1 * c3 == a2
  {
    var n := w * w + x * x + y * y + z * z;
    Vanishes((x * y), n);
    assert b3 * c1 == (2.0 * (y * z - w * x)) * (2.0 * (x * z - w * y));
    assert b1 * c3 == (2.0 * (x * y + w * z)) * (1.0 - 2.0 * (x * x + y * y));
    assert (2.0 * (y * z - w * x)) * (2.0 * (x * z - w * y))
           - (2.0 * (x * y + w * z)) * (1.0 - 2.0 * (x * x + y * y))
           == 2.0 * (x * y - w * z) + 4.0 * (x * y) * (n - 1.0);
  }

  lemma CrossYIn(q: Quat, m: Mat)
    requires Norm2(q) == 1.0 && HasEntries(m, q.w, q.x, q.y, q.z)
    ensures m.b.z * m.c.x - m.b.x * m.c.z == m.a.y
  {
    CrossY(q.w, q.x, q.y, q.z, m.b.z, m.c.x, m.b.x, m.c.z, m.a.y);
  }

  lemma CrossYOf(q: Quat, m: Mat)
    requires Norm2(q) == 1.0 && HasEntries(m, q.w, q.x, q.y, q.z)
    ensures Cross(m.b, m.c).y == m.a.y
  {
    hide HasEntries, Norm2;
    CrossYIn(q, m);
  }

  lemma CrossZ(w: real, x: real, y: real, z: real, b1: real, c2: real, b2: real, c1: real, a3: real)
    requires w * w + x * x + y * y + z * z == 1.0
    requires b1 == 2.0 * (x * y + w * z)
    requires c2 == 2.0 * (y * z + w * x)
    requires b2 == 1.0 - 2.0 * (x * x + z * z)
    requires c1 == 2.0 * (x * z - w * y)
    requires a3 == 2.0 * (x * z + w * y)
    ensures b1 * c2 - b2 * c1 == a3
  {
    var n := w * w + x * x + y * y + z * z;
    Vanishes((x * z), n);
    assert b1 * c2 == (2.0 * (x * y + w * z)) * (2.0 * (y * z + w * x));
    assert b2 * c1 == (1.0 - 2.0 * (x * x + z * z)) * (2.0 * (x * z - w * y));
    assert (2.0 * (x * y + w * z)) * (2.0 * (y * z + w * x))
           - (1.0 - 2.0 * (x * x + z * z)) * (2.0 * (x * z - w * y))
           == 2.0 * (x * z + w * y) + 4.0 * (x * z) * (n - 1.0);
  }

  lemma CrossZIn(q: Quat, m: Mat)
    requires Norm2(q) == 1.0 && HasEntries(m, q.w, q.x, q.y, q.z)
    ensures m.b.x * m.c.y - m.b.y * m.c.x == m.a.z
  {
    CrossZ(q.w, q.x, q.y, q.z, m.b.x, m.c.y, m.b.y, m.c.x, m.a.z);
  }

  lemma CrossZOf(q: Quat, m: Mat)
    requires Norm2(q) == 1.0 && HasEntries(m, q.w, q.x, q.y, q.z)
    ensures Cross(m.b, m.c).z == m.a.z
  {
    hide HasEntries, Norm2;
    CrossZIn(q, m);
  }

  lemma Lagrange(u: Vec, v: Vec)
    ensures Dot(Cross(u, v), Cross(u, v)) == Dot(u, u) * Dot(v, v) - Dot(u, v) * Dot(u, v)
  {
  }

  lemma PositiveProduct(x: real, y: real, product: real)
    requires x > 0.0 && y > 0.0 && product == x * y
    ensures product > 0.0
  {
  }

  lemma SquareSign(x: real, square: real)
    requires square == x * x
    ensures square >= 0.0
    ensures square == 0.0 ==> x == 0.0
  {
    if x > 0.0 {
      PositiveProduct(x, x, square);
    } else if x < 0.0 {
      PositiveProduct(-x, -x, square);
    }
  }

  lemma CrossIsNormal(u: Vec, v: Vec)
    ensures Dot(Cross(u, v), u) == 0.0 && Dot(Cross(u, v), v) == 0.0
  {
  }

  /** A unit vector that is the cross product of two unit vectors makes all three orthogonal. */
  lemma UnitCross(a: Vec, b: Vec, c: Vec)
    requires Dot(a, a) == 1.0 && Dot(b, b) == 1.0 && Dot(c, c) == 1.0 && Cross(b, c) == a
    ensures Dot(a, b) == 0.0 && Dot(b, c) == 0.0 && Dot(a, c) == 0.0
  {
    hide Dot, Cross;
    CrossIsNormal(b, c);
    Lagrange(b, c);
    SquareSign(Dot(b, c), Dot(b, c) * Dot(b, c));
  }

  /** The matrix of a unit quaternion is orthogonal with determinant one. */
  lemma UnitGivesRotation(q: Quat)
    requires Norm2(q) == 1.0
    ensures IsRotation(Quat2Rot(q))
  {
    hide Quat2Rot, Norm2, Dot, Cross, HasEntries;
    var m := Quat2Rot(q);
    Entries(q);
    NormAOf(q, m);
    NormBOf(q, m);
    NormCOf(q, m);
    CrossXOf(q, m);
    CrossYOf(q, m);
    CrossZOf(q, m);
    UnitCross(m.a, m.b, m.c);
  }

  // ---------- from a rotation and back ----------

  lemma SumOfSquares(x: real, y: real, z: real, xx: real, yy: real, zz: real)
    requires xx == x * x && yy == y * y && zz == z * z && xx + yy + zz == 0.0
    ensures x == 0.0 && y == 0.0 && z == 0.0
  {
    SquareSign(x, xx);
    SquareSign(y, yy);
    SquareSign(z, zz);
  }

  lemma Distance(u: Vec, v: Vec)
    requires Dot(u, u) - 2.0 * Dot(u, v) + Dot(v, v) == 0.0
    ensures u == v
  {
    var x, y, z := u.x - v.x, u.y - v.y, u.z - v.z;
    assert x * x + y * y + z * z == 0.0;
    SumOfSquares(x, y, z, x * x, y * y, z * z);
  }

  /** A row of a rotation is the cross product of the other two. */
  lemma RowIsCross(m: Mat)
    requires IsRotation(m)
    ensures Cross(m.b, m.c) == m.a
  {
    hide Dot, Cross;
    Lagrange(m.b, m.c);
    Distance(m.a, Cross(m.b, m.c));
  }

  lemma DotCommutes(u: Vec, v: Vec)
    ensures Dot(u, v) == Dot(v, u)
  {
  }

  lemma DetTurns(a: Vec, b: Vec, c: Vec)
    ensures Det(Mat(a, b, c)) == Det(Mat(b, c, a))
  {
  }

  lemma RotationTurns(m: Mat)
    requires IsRotation(m)
    ensures IsRotation(Mat(m.b, m.c, m.a))
  {
    hide Dot, Det;
    DotCommutes(m.a, m.b);
    DotCommutes(m.a, m.c);
    DetTurns(m.a, m.b, m.c);
  }

  /** Each entry of a rotation is its own cofactor. */
  predicate OwnCofactors(m: Mat) {
    Cross(m.b, m.c) == m.a && Cross(m.c, m.a) == m.b && Cross(m.a, m.b) == m.c
  }

  lemma RotationHasOwnCofactors(m: Mat)
    requires IsRotation(m)
    ensures OwnCofactors(m)
  {
    hide IsRotation, Cross;
    RowIsCross(m);
    RotationTurns(m);
    RowIsCross(Mat(m.b, m.c, m.a));
    RotationTurns(Mat(m.b, m.c, m.a));
    RowIsCross(Mat(m.c, m.a, m.b));
  }

  function ColX(m: Mat): Vec { Vec(m.a.x, m.b.x, m.c.x) }
  function ColY(m: Mat): Vec { Vec(m.a.y, m.b.y, m.c.y) }
  function ColZ(m: Mat): Vec { Vec(m.a.z, m.b.z, m.c.z) }

  predicate OrthonormalColumns(m: Mat) {
    Dot(ColX(m), ColX(m)) == 1.0 && Dot(ColY(m), ColY(m)) == 1.0 && Dot(ColZ(m), ColZ(m)) == 1.0
    && Dot(ColX(m), ColY(m)) == 0.0 && Dot(ColX(m), ColZ(m)) == 0.0 && Dot(ColY(m), ColZ(m)) == 0.0
  }

  lemma TripleProduct(a: Vec, b: Vec, c: Vec)
    ensures Dot(a, Cross(b, c)) ==
      a.x * (b.y * c.z - b.z * c.y) + a.y * (b.z * c.x - b.x * c.z) + a.z * (b.x * c.y - b.y * c.x)
  {
  }

  lemma CrossEntries(u: Vec, v: Vec)
    ensures Cross(u, v).x == u.y * v.z - u.z * v.y
    ensures Cross(u, v).y == u.z * v.x - u.x * v.z
    ensures Cross(u, v).z == u.x * v.y - u.y * v.x
  {
  }

  // Expanding the determinant along a column gives the determinant, and along a column with the
  // cofactors of another one, zero.

  lemma ColumnX(
    a1: real, a2: real, a3: real, b1: real, b2: real, b3: real, c1: real, c2: real, c3: real)
    ensures a1 * (b2 * c3 - b3 * c2) + b1 * (c2 * a3 - c3 * a2) + c1 * (a2 * b3 - a3 * b2)
            == a1 * (b2 * c3 - b3 * c2) + a2 * (b3 * c1 - b1 * c3) + a3 * (b1 * c2 - b2 * c1)
  {
  }

  lemma ColumnNormX(a: Vec, b: Vec, c: Vec)
    ensures a.x * Cross(b, c).x + b.x * Cross(c, a).x + c.x * Cross(a, b).x == Dot(a, Cross(b, c))
  {
    hide Dot, Cross;
    ColumnX(a.x, a.y, a.z, b.x, b.y, b.z, c.x, c.y, c.z);
    TripleProduct(a, b, c);
    CrossEntries(b, c);
    CrossEntries(c, a);
    CrossEntries(a, b);
  }

  lemma ColumnY(
    a1: real, a2: real, a3: real, b1: real, b2: real, b3: real, c1: real, c2: real, c3: real)
    ensures a2 * (b3 * c1 - b1 * c3) + b2 * (c3 * a1 - c1 * a3) + c2 * (a3 * b1 - a1 * b3)
            == a1 * (b2 * c3 - b3 * c2) + a2 * (b3 * c1 - b1 * c3) + a3 * (b1 * c2 - b2 * c1)
  {
  }

  lemma ColumnNormY(a: Vec, b: Vec, c: Vec)
    ensures a.y * Cross(b, c).y + b.y * Cross(c, a).y + c.y * Cross(a, b).y == Dot(a, Cross(b, c))
  {
    hide Dot, Cross;
    ColumnY(a.x, a.y, a.z, b.x, b.y, b.z, c.x, c.y, c.z);
    TripleProduct(a, b, c);
    CrossEntries(b, c);
    CrossEntries(c, a);
    CrossEntries(a, b);
  }

  lemma ColumnZ(
    a1: real, a2: real, a3: real, b1: real, b2: real, b3: real, c1: real, c2: real, c3: real)
    ensures a3 * (b1 * c2 - b2 * c1) + b3 * (c1 * a2 - c2 * a1) + c3 * (a1 * b2 - a2 * b1)
            == a1 * (b2 * c3 - b3 * c2) + a2 * (b3 * c1 - b1 * c3) + a3 * (b1 * c2 - b2 * c1)
  {
  }

  lemma ColumnNormZ(a: Vec, b: Vec, c: Vec)
    ensures a.z * Cross(b, c).z + b.z * Cross(c, a).z + c.z * Cross(a, b).z == Dot(a, Cross(b, c))
  {
    hide Dot, Cross;
    ColumnZ(a.x, a.y, a.z, b.x, b.y, b.z, c.x, c.y, c.z);
    TripleProduct(a, b, c);
    CrossEntries(b, c);
    CrossEntries(c, a);
    CrossEntries(a, b);
  }

  lemma ColumnProductXY(a: Vec, b: Vec, c: Vec)
    ensures Cross(b, c).x * a.y + Cross(c, a).x * b.y + Cross(a, b).x * c.y == 0.0
  {
  }

  lemma ColumnProductXZ(a: Vec, b: Vec, c: Vec)
    ensures Cross(b, c).x * a.z + Cross(c, a).x * b.z + Cross(a, b).x * c.z == 0.0
  {
  }

  lemma ColumnProductYZ(a: Vec, b: Vec, c: Vec)
    ensures Cross(b, c).y * a.z + Cross(c, a).y * b.z + Cross(a, b).y * c.z == 0.0
  {
  }

  lemma ColumnNorms(m: Mat)
    requires OwnCofactors(m) && Dot(m.a, m.a) == 1.0
    ensures Dot(ColX(m), ColX(m)) == 1.0 && Dot(ColY(m), ColY(m)) == 1.0 && Dot(ColZ(m), ColZ(m)) == 1.0
  {
    hide Cross;
    ColumnNormX(m.a, m.b, m.c);
    ColumnNormY(m.a, m.b, m.c);
    ColumnNormZ(m.a, m.b, m.c);
  }

  lemma ColumnProducts(m: Mat)
    requires OwnCofactors(m)
    ensures Dot(ColX(m), ColY(m)) == 0.0 && Dot(ColX(m), ColZ(m)) == 0.0 && Dot(ColY(m), ColZ(m)) == 0.0
  {
    hide Cross;
    ColumnProductXY(m.a, m.b, m.c);
    ColumnProductXZ(m.a, m.b, m.c);
    ColumnProductYZ(m.a, m.b, m.c);
  }

  lemma RotationColumns(m: Mat)
    requires IsRotation(m)
    ensures OrthonormalColumns(m)
  {
    hide Cross, Dot, OwnCofactors;
    RotationHasOwnCofactors(m);
    ColumnNorms(m);
    ColumnProducts(m);
  }

  // Rank one, entry by entry: two entries of a row multiply to the pivot times the entry of their
  // columns.

  function Times(a: real, b: real): real {
    a * b
  }

  predicate Special(m: Mat) {
    IsRotation(m) && OwnCofactors(m) && OrthonormalColumns(m)
  }

  // The polynomial identities, each as a sum of quantities that vanish for a rotation.

  lemma SquareDifference(p: real, q: real, r: real, u: real, v: real, norms: real, cofactor: real)
    requires norms == q * q + u * u + v * v + r * r - 1.0 - p * p
    requires cofactor == q * r - u * v - p
    ensures Times(v - u, v - u) - Times(1.0 + p + q + r, 1.0 + p - q - r) == norms + 2.0 * cofactor
  {
  }

  lemma SquareSum(p: real, q: real, r: real, u: real, v: real, norms: real, cofactor: real)
    requires norms == q * q + u * u + v * v + r * r - 1.0 - p * p
    requires cofactor == q * r - u * v - p
    ensures Times(u + v, u + v) - Times(1.0 + q - r - p, 1.0 + r - q - p) == norms - 2.0 * cofactor
  {
  }

  lemma RowW(p: real, q: real, r: real, s: real, d: real, e: real, f: real, g: real, h: real,
             z1: real, z2: real, z3: real, z4: real)
    requires z1 == g * e - d - s * r && z2 == f * h - s - d * r
    requires z3 == h * e + p * s + d * q && z4 == g * f + p * d + s * q
    ensures Times(e - f, g - h) - Times(1.0 + p + q + r, s + d) == z1 + z2 - z3 - z4
  {
  }

  lemma RowOwn(p: real, q: real, r: real, s: real, d: real, e: real, f: real, g: real, h: real,
               z1: real, z2: real, z3: real, z4: real)
    requires z1 == e * d - g - q * h && z2 == f * s - h - g * q
    requires z3 == e * s + p * h + g * r && z4 == f * d + p * g + h * r
    ensures Times(e - f, s + d) - Times(1.0 + p - q - r, g - h) == z1 - z2 + z3 - z4
  {
  }

  lemma RowOwnNext(p: real, q: real, r: real, s: real, d: real, e: real, f: real, g: real, h: real,
                   z1: real, z2: real, z3: real, z4: real)
    requires z1 == g * e - d - s * r && z2 == f * h - s - d * r
    requires z3 == h * e + p * s + d * q && z4 == g * f + p * d + s * q
    ensures Times(e - f, g + h) - Times(1.0 + p - q - r, d - s) == z1 - z2 + z3 - z4
  {
  }

  lemma RowOther(p: real, q: real, r: real, s: real, d: real, e: real, f: real, g: real, h: real,
                 z1: real, z2: real, z3: real, z4: real)
    requires z1 == s * h - f - e * p && z2 == d * g - e - f * p
    requires z3 == s * g + q * f + e * r && z4 == d * h + q * e + f * r
    ensures Times(s + d, g + h) - Times(1.0 + p - q - r, e + f) == z1 + z2 + z3 + z4
  {
  }

  // What vanishes for a rotation: cofactors less entries, and products of rows and of columns.

  lemma DotIs(u: Vec, v: Vec, n: real)
    requires Dot(u, v) == n
    ensures u.x * v.x + u.y * v.y + u.z * v.z == n
  {
  }

  lemma CrossIs(u: Vec, v: Vec, w: Vec)
    requires Cross(u, v) == w
    ensures w.x == u.y * v.z - u.z * v.y && w.y == u.z * v.x - u.x * v.z && w.z == u.x * v.y - u.y * v.x
  {
  }

  lemma ThirdX(m: Mat)
    requires Special(m)
    ensures m.a.z * m.c.y - m.b.x - m.a.y * m.c.z == 0.0
    ensures m.b.z * m.c.x - m.a.y - m.b.x * m.c.z == 0.0
    ensures m.c.x * m.c.y + m.a.x * m.a.y + m.b.x * m.b.y == 0.0
    ensures m.a.z * m.b.z + m.a.x * m.b.x + m.a.y * m.b.y == 0.0
  {
    hide Dot, Cross;
    CrossIs(m.c, m.a, m.b);
    CrossIs(m.b, m.c, m.a);
    DotIs(ColX(m), ColY(m), 0.0);
    DotIs(m.a, m.b, 0.0);
  }

  lemma OwnX(m: Mat)
    requires Special(m)
    ensures m.c.y * m.b.x - m.a.z - m.b.y * m.c.x == 0.0
    ensures m.b.z * m.a.y - m.c.x - m.a.z * m.b.y == 0.0
    ensures m.c.y * m.a.y + m.a.x * m.c.x + m.a.z * m.c.z == 0.0
    ensures m.b.z * m.b.x + m.a.x * m.a.z + m.c.x * m.c.z == 0.0
  {
    hide Dot, Cross;
    CrossIs(m.b, m.c, m.a);
    CrossIs(m.a, m.b, m.c);
    DotIs(m.a, m.c, 0.0);
    DotIs(ColX(m), ColZ(m), 0.0);
  }

  lemma OtherX(m: Mat)
    requires Special(m)
    ensures m.a.y * m.c.x - m.b.z - m.c.y * m.a.x == 0.0
    ensures m.b.x * m.a.z - m.c.y - m.b.z * m.a.x == 0.0
    ensures m.a.y * m.a.z + m.b.y * m.b.z + m.c.y * m.c.z == 0.0
    ensures m.b.x * m.c.x + m.b.y * m.c.y + m.b.z * m.c.z == 0.0
  {
    hide Dot, Cross;
    CrossIs(m.c, m.a, m.b);
    CrossIs(m.a, m.b, m.c);
    DotIs(ColY(m), ColZ(m), 0.0);
    DotIs(m.b, m.c, 0.0);
  }

  lemma BlockX(m: Mat)
    requires Special(m)
    ensures m.b.y * m.b.y + m.b.z * m.b.z + m.c.y * m.c.y + m.c.z * m.c.z - 1.0 - m.a.x * m.a.x == 0.0
    ensures m.b.y * m.c.z - m.b.z * m.c.y - m.a.x == 0.0
  {
    hide Dot, Cross;
    DotIs(m.b, m.b, 1.0);
    DotIs(m.c, m.c, 1.0);
    DotIs(ColX(m), ColX(m), 1.0);
    CrossIs(m.b, m.c, m.a);
  }

  lemma ThirdY(m: Mat)
    requires Special(m)
    ensures m.b.x * m.a.z - m.c.y - m.b.z * m.a.x == 0.0
    ensures m.c.x * m.a.y - m.b.z - m.c.y * m.a.x == 0.0
    ensures m.a.y * m.a.z + m.b.y * m.b.z + m.c.y * m.c.z == 0.0
    ensures m.b.x * m.c.x + m.b.y * m.c.y + m.b.z * m.c.z == 0.0
  {
    hide Dot, Cross;
    CrossIs(m.a, m.b, m.c);
    CrossIs(m.c, m.a, m.b);
    DotIs(ColY(m), ColZ(m), 0.0);
    DotIs(m.b, m.c, 0.0);
  }

  lemma OwnY(m: Mat)
    requires Special(m)
    ensures m.a.z * m.c.y - m.b.x - m.c.z * m.a.y == 0.0
    ensures m.c.x * m.b.z - m.a.y - m.b.x * m.c.z == 0.0
    ensures m.a.z * m.b.z + m.b.y * m.a.y + m.b.x * m.a.x == 0.0
    ensures m.c.x * m.c.y + m.b.y * m.b.x + m.a.y * m.a.x == 0.0
  {
    hide Dot, Cross;
    CrossIs(m.c, m.a, m.b);
    CrossIs(m.b, m.c, m.a);
    DotIs(m.a, m.b, 0.0);
    DotIs(ColX(m), ColY(m), 0.0);
  }

  lemma OtherY(m: Mat)
    requires Special(m)
    ensures m.b.z * m.a.y - m.c.x - m.a.z * m.b.y == 0.0
    ensures m.c.y * m.b.x - m.a.z - m.c.x * m.b.y == 0.0
    ensures m.b.z * m.b.x + m.c.z * m.c.x + m.a.z * m.a.x == 0.0
    ensures m.c.y * m.a.y + m.c.z * m.a.z + m.c.x * m.a.x == 0.0
  {
    hide Dot, Cross;
    CrossIs(m.a, m.b, m.c);
    CrossIs(m.b, m.c, m.a);
    DotIs(ColX(m), ColZ(m), 0.0);
    DotIs(m.a, m.c, 0.0);
  }

  lemma BlockY(m: Mat)
    requires Special(m)
    ensures m.c.z * m.c.z + m.c.x * m.c.x + m.a.z * m.a.z + m.a.x * m.a.x - 1.0 - m.b.y * m.b.y == 0.0
    ensures m.c.z * m.a.x - m.c.x * m.a.z - m.b.y == 0.0
  {
    hide Dot, Cross;
    DotIs(m.c, m.c, 1.0);
    DotIs(m.a, m.a, 1.0);
    DotIs(ColY(m), ColY(m), 1.0);
    CrossIs(m.c, m.a, m.b);
  }

  lemma ThirdZ(m: Mat)
    requires Special(m)
    ensures m.c.y * m.b.x - m.a.z - m.c.x * m.b.y == 0.0
    ensures m.a.y * m.b.z - m.c.x - m.a.z * m.b.y == 0.0
    ensures m.b.z * m.b.x + m.c.z * m.c.x + m.a.z * m.a.x == 0.0
    ensures m.c.y * m.a.y + m.c.z * m.a.z + m.c.x * m.a.x == 0.0
  {
    hide Dot, Cross;
    CrossIs(m.b, m.c, m.a);
    CrossIs(m.a, m.b, m.c);
    DotIs(ColX(m), ColZ(m), 0.0);
    DotIs(m.a, m.c, 0.0);
  }

  lemma OwnZ(m: Mat)
    requires Special(m)
    ensures m.b.x * m.a.z - m.c.y - m.a.x * m.b.z == 0.0
    ensures m.a.y * m.c.x - m.b.z - m.c.y * m.a.x == 0.0
    ensures m.b.x * m.c.x + m.c.z * m.b.z + m.c.y * m.b.y == 0.0
    ensures m.a.y * m.a.z + m.c.z * m.c.y + m.b.z * m.b.y == 0.0
  {
    hide Dot, Cross;
    CrossIs(m.a, m.b, m.c);
    CrossIs(m.c, m.a, m.b);
    DotIs(m.b, m.c, 0.0);
    DotIs(ColY(m), ColZ(m), 0.0);
  }

  lemma OtherZ(m: Mat)
    requires Special(m)
    ensures m.c.x * m.b.z - m.a.y - m.b.x * m.c.z == 0.0
    ensures m.a.z * m.c.y - m.b.x - m.a.y * m.c.z == 0.0
    ensures m.c.x * m.c.y + m.a.x * m.a.y + m.b.x * m.b.y == 0.0
    ensures m.a.z * m.b.z + m.a.x * m.b.x + m.a.y * m.b.y == 0.0
  {
    hide Dot, Cross;
    CrossIs(m.b, m.c, m.a);
    CrossIs(m.c, m.a, m.b);
    DotIs(ColX(m), ColY(m), 0.0);
    DotIs(m.a, m.b, 0.0);
  }

  lemma BlockZ(m: Mat)
    requires Special(m)
    ensures m.a.x * m.a.x + m.a.y * m.a.y + m.b.x * m.b.x + m.b.y * m.b.y - 1.0 - m.c.z * m.c.z == 0.0
    ensures m.a.x * m.b.y - m.a.y * m.b.x - m.c.z == 0.0
  {
    hide Dot, Cross;
    DotIs(m.a, m.a, 1.0);
    DotIs(m.b, m.b, 1.0);
    DotIs(ColZ(m), ColZ(m), 1.0);
    CrossIs(m.a, m.b, m.c);
  }

  lemma RowWAtXY(m: Mat)
    requires Special(m)
    ensures var k := ProductsOf(m); Times(k.wx, k.wy) == Times(k.ww, k.xy)
  {
    hide Special, Times;
    TimesCommutes();
    ThirdX(m);
    RowW(m.a.x, m.b.y, m.c.z, m.a.y, m.b.x, m.c.y, m.b.z, m.a.z, m.c.x, 0.0, 0.0, 0.0, 0.0);
  }

  lemma RowWAtXZ(m: Mat)
    requires Special(m)
    ensures var k := ProductsOf(m); Times(k.wx, k.wz) == Times(k.ww, k.xz)
  {
    hide Special, Times;
    TimesCommutes();
    ThirdZ(m);
    RowW(m.c.z, m.a.x, m.b.y, m.c.x, m.a.z, m.b.x, m.a.y, m.c.y, m.b.z, 0.0, 0.0, 0.0, 0.0);
  }

  lemma RowWAtYZ(m: Mat)
    requires Special(m)
    ensures var k := ProductsOf(m); Times(k.wy, k.wz) == Times(k.ww, k.yz)
  {
    hide Special, Times;
    TimesCommutes();
    ThirdY(m);
    RowW(m.b.y, m.c.z, m.a.x, m.b.z, m.c.y, m.a.z, m.c.x, m.b.x, m.a.y, 0.0, 0.0, 0.0, 0.0);
  }

  lemma RowXAtWY(m: Mat)
    requires Special(m)
    ensures var k := ProductsOf(m); Times(k.wx, k.xy) == Times(k.xx, k.wy)
  {
    hide Special, Times;
    TimesCommutes();
    OwnX(m);
    RowOwn(m.a.x, m.b.y, m.c.z, m.a.y, m.b.x, m.c.y, m.b.z, m.a.z, m.c.x, 0.0, 0.0, 0.0, 0.0);
  }

  lemma RowXAtWZ(m: Mat)
    requires Special(m)
    ensures var k := ProductsOf(m); Times(k.wx, k.xz) == Times(k.xx, k.wz)
  {
    hide Special, Times;
    TimesCommutes();
    ThirdX(m);
    RowOwnNext(m.a.x, m.b.y, m.c.z, m.a.y, m.b.x, m.c.y, m.b.z, m.a.z, m.c.x, 0.0, 0.0, 0.0, 0.0);
  }

  lemma RowXAtYZ(m: Mat)
    requires Special(m)
    ensures var k := ProductsOf(m); Times(k.xy, k.xz) == Times(k.xx, k.yz)
  {
    hide Special, Times;
    TimesCommutes();
    OtherX(m);
    RowOther(m.a.x, m.b.y, m.c.z, m.a.y, m.b.x, m.c.y, m.b.z, m.a.z, m.c.x, 0.0, 0.0, 0.0, 0.0);
  }

  lemma RowYAtWX(m: Mat)
    requires Special(m)
    ensures var k := ProductsOf(m); Times(k.wy, k.xy) == Times(k.yy, k.wx)
  {
    hide Special, Times;
    TimesCommutes();
    ThirdY(m);
    RowOwnNext(m.b.y, m.c.z, m.a.x, m.b.z, m.c.y, m.a.z, m.c.x, m.b.x, m.a.y, 0.0, 0.0, 0.0, 0.0);
  }

  lemma RowYAtWZ(m: Mat)
    requires Special(m)
    ensures var k := ProductsOf(m); Times(k.wy, k.yz) == Times(k.yy, k.wz)
  {
    hide Special, Times;
    TimesCommutes();
    OwnY(m);
    RowOwn(m.b.y, m.c.z, m.a.x, m.b.z, m.c.y, m.a.z, m.c.x, m.b.x, m.a.y, 0.0, 0.0, 0.0, 0.0);
  }

  lemma RowYAtXZ(m: Mat)
    requires Special(m)
    ensures var k := ProductsOf(m); Times(k.xy, k.yz) == Times(k.yy, k.xz)
  {
    hide Special, Times;
    TimesCommutes();
    OtherY(m);
    RowOther(m.b.y, m.c.z, m.a.x, m.b.z, m.c.y, m.a.z, m.c.x, m.b.x, m.a.y, 0.0, 0.0, 0.0, 0.0);
  }

  lemma RowZAtWX(m: Mat)
    requires Special(m)
    ensures var k := ProductsOf(m); Times(k.wz, k.xz) == Times(k.zz, k.wx)
  {
    hide Special, Times;
    TimesCommutes();
    OwnZ(m);
    RowOwn(m.c.z, m.a.x, m.b.y, m.c.x, m.a.z, m.b.x, m.a.y, m.c.y, m.b.z, 0.0, 0.0, 0.0, 0.0);
  }

  lemma RowZAtWY(m: Mat)
    requires Special(m)
    ensures var k := ProductsOf(m); Times(k.wz, k.yz) == Times(k.zz, k.wy)
  {
    hide Special, Times;
    TimesCommutes();
    ThirdZ(m);
    RowOwnNext(m.c.z, m.a.x, m.b.y, m.c.x, m.a.z, m.b.x, m.a.y, m.c.y, m.b.z, 0.0, 0.0, 0.0, 0.0);
  }

  lemma RowZAtXY(m: Mat)
    requires Special(m)
    ensures var k := ProductsOf(m); Times(k.xz, k.yz) == Times(k.zz, k.xy)
  {
    hide Special, Times;
    TimesCommutes();
    OtherZ(m);
    RowOther(m.c.z, m.a.x, m.b.y, m.c.x, m.a.z, m.b.x, m.a.y, m.c.y, m.b.z, 0.0, 0.0, 0.0, 0.0);
  }

  lemma SquareWX(m: Mat)
    requires Special(m)
    ensures var k := ProductsOf(m); Times(k.wx, k.wx) == Times(k.ww, k.xx)
  {
    hide Special, Times;
    TimesCommutes();
    BlockX(m);
    SquareDifference(m.a.x, m.b.y, m.c.z, m.b.z, m.c.y, 0.0, 0.0);
  }

  lemma SquareWY(m: Mat)
    requires Special(m)
    ensures var k := ProductsOf(m); Times(k.wy, k.wy) == Times(k.ww, k.yy)
  {
    hide Special, Times;
    TimesCommutes();
    BlockY(m);
    SquareDifference(m.b.y, m.c.z, m.a.x, m.c.x, m.a.z, 0.0, 0.0);
  }

  lemma SquareWZ(m: Mat)
    requires Special(m)
    ensures var k := ProductsOf(m); Times(k.wz, k.wz) == Times(k.ww, k.zz)
  {
    hide Special, Times;
    TimesCommutes();
    BlockZ(m);
    SquareDifference(m.c.z, m.a.x, m.b.y, m.a.y, m.b.x, 0.0, 0.0);
  }

  lemma SquareXY(m: Mat)
    requires Special(m)
    ensures var k := ProductsOf(m); Times(k.xy, k.xy) == Times(k.xx, k.yy)
  {
    hide Special, Times;
    TimesCommutes();
    BlockZ(m);
    SquareSum(m.c.z, m.a.x, m.b.y, m.a.y, m.b.x, 0.0, 0.0);
  }

  lemma SquareXZ(m: Mat)
    requires Special(m)
    ensures var k := ProductsOf(m); Times(k.xz, k.xz) == Times(k.xx, k.zz)
  {
    hide Special, Times;
    TimesCommutes();
    BlockY(m);
    SquareSum(m.b.y, m.c.z, m.a.x, m.c.x, m.a.z, 0.0, 0.0);
  }

  lemma SquareYZ(m: Mat)
    requires Special(m)
    ensures var k := ProductsOf(m); Times(k.yz, k.yz) == Times(k.yy, k.zz)
  {
    hide Special, Times;
    TimesCommutes();
    BlockX(m);
    SquareSum(m.a.x, m.b.y, m.c.z, m.b.z, m.c.y, 0.0, 0.0);
  }

  function Entry(k: Products, b: Branch, c: Branch): real {
    Component(c, Row(k, b))
  }

  /** The row of the pivot determines everything. */
  predicate RankOne(k: Products, p: Branch) {
    forall b, c :: Times(Entry(k, p, b), Entry(k, p, c)) == Times(Entry(k, p, p), Entry(k, b, c))
  }

  lemma RankOneW(m: Mat)
    requires Special(m)
    ensures RankOne(ProductsOf(m), OnW)
  {
    hide Special, ProductsOf, Times;
    TimesCommutes();
    SquareWX(m);
    RowWAtXY(m);
    RowWAtXZ(m);
    SquareWY(m);
    RowWAtYZ(m);
    SquareWZ(m);
  }

  lemma RankOneX(m: Mat)
    requires Special(m)
    ensures RankOne(ProductsOf(m), OnX)
  {
    hide Special, ProductsOf, Times;
    TimesCommutes();
    SquareWX(m);
    RowXAtWY(m);
    RowXAtWZ(m);
    SquareXY(m);
    RowXAtYZ(m);
    SquareXZ(m);
  }

  lemma RankOneY(m: Mat)
    requires Special(m)
    ensures RankOne(ProductsOf(m), OnY)
  {
    hide Special, ProductsOf, Times;
    TimesCommutes();
    SquareWY(m);
    RowYAtWX(m);
    RowYAtWZ(m);
    SquareXY(m);
    RowYAtXZ(m);
    SquareYZ(m);
  }

  lemma RankOneZ(m: Mat)
    requires Special(m)
    ensures RankOne(ProductsOf(m), OnZ)
  {
    hide Special, ProductsOf, Times;
    TimesCommutes();
    SquareWZ(m);
    RowZAtWX(m);
    RowZAtWY(m);
    SquareXZ(m);
    RowZAtXY(m);
    SquareYZ(m);
  }

  lemma TimesCommutes()
    ensures forall a, b :: Times(a, b) == Times(b, a)
  {
  }

  lemma FromRow(t: real, p: real, q: real, kp: real, kq: real, pivot: real, kpq: real)
    requires pivot > 0.0 && t * t == 4.0 * pivot
    requires Times(p, t) == kp && Times(q, t) == kq && Times(kp, kq) == Times(pivot, kpq)
    ensures kpq == 4.0 * (p * q)
  {
    assert p * t * (q * t) == p * q * (t * t);
    assert p * q * (t * t) == pivot * (4.0 * (p * q));
    CancelPivot(pivot, kpq, 4.0 * (p * q));
  }

  lemma CancelPivot(t: real, a: real, b: real)
    requires t > 0.0 && t * a == t * b
    ensures a == b
  {
    assert t * (a - b) == 0.0;
  }

  lemma ScaledComponent(q: Quat, t: real, b: Branch)
    ensures Component(b, Scaled(q, t)) == Times(Component(b, q), t)
  {
  }

  lemma EntryFromRow(k: Products, p: Branch, q: Quat, t: real, b: Branch, c: Branch)
    requires RankOne(k, p) && Scaled(q, t) == Row(k, p)
    requires Entry(k, p, p) > 0.0 && t * t == 4.0 * Entry(k, p, p)
    ensures Entry(k, b, c) == 4.0 * (Component(b, q) * Component(c, q))
  {
    hide Scaled, Row, Component, Times;
    ScaledComponent(q, t, b);
    ScaledComponent(q, t, c);
    FromRow(t, Component(b, q), Component(c, q), Entry(k, p, b), Entry(k, p, c), Entry(k, p, p), Entry(k, b, c));
  }

  lemma EntriesAreProducts(k: Products, q: Quat)
    requires forall b, c :: Entry(k, b, c) == 4.0 * (Component(b, q) * Component(c, q))
    ensures AreProducts(k, q)
  {
    assert Entry(k, OnW, OnW) == k.ww && Entry(k, OnX, OnX) == k.xx;
    assert Entry(k, OnY, OnY) == k.yy && Entry(k, OnZ, OnZ) == k.zz;
    assert Entry(k, OnW, OnX) == k.wx && Entry(k, OnW, OnY) == k.wy && Entry(k, OnW, OnZ) == k.wz;
    assert Entry(k, OnX, OnY) == k.xy && Entry(k, OnX, OnZ) == k.xz && Entry(k, OnY, OnZ) == k.yz;
  }

  lemma RadicandIsPivot(m: Mat)
    ensures Entry(ProductsOf(m), BranchOf(m), BranchOf(m)) == Radicand(m)
  {
  }

  lemma RankOneAt(m: Mat, p: Branch)
    requires Special(m)
    ensures RankOne(ProductsOf(m), p)
  {
    hide Special, RankOne, ProductsOf;
    match p
    case OnW => RankOneW(m);
    case OnX => RankOneX(m);
    case OnY => RankOneY(m);
    case OnZ => RankOneZ(m);
  }

  lemma RotationIsSpecial(m: Mat)
    requires IsRotation(m)
    ensures Special(m)
  {
    hide IsRotation, OwnCofactors, OrthonormalColumns;
    RotationHasOwnCofactors(m);
    RotationColumns(m);
  }

  lemma ScaledRowGivesProducts(m: Mat, q: Quat, t: real)
    requires IsRotation(m) && t * t == 4.0 * Radicand(m)
    requires Scaled(q, t) == Row(ProductsOf(m), BranchOf(m))
    ensures AreProducts(ProductsOf(m), q)
  {
    hide IsRotation, Special, AreProducts, Scaled, Row, BranchOf, Radicand, Entry, Component, RankOne, ProductsOf;
    RotationIsSpecial(m);
    RadicandIsAtLeastOne(m);
    RadicandIsPivot(m);
    RankOneAt(m, BranchOf(m));
    var k := ProductsOf(m);
    forall b, c
      ensures Entry(k, b, c) == 4.0 * (Component(b, q) * Component(c, q))
    {
      EntryFromRow(k, BranchOf(m), q, t, b, c);
    }
    EntriesAreProducts(k, q);
  }

  lemma DoubleRoot(root: real, r: real)
    requires root * root == r
    ensures 2.0 * root * (2.0 * root) == 4.0 * r
  {
  }

  lemma NegatedTwice(k: Products, q: Quat)
    requires AreProducts(k, Negated(q))
    ensures AreProducts(k, q)
  {
  }

  /** For a rotation matrix the conversions undo each other exactly, through a unit quaternion with w
      non-negative. */
  lemma MatrixRoundTrip(m: Mat, root: real)
    requires IsRotation(m) && IsRoot(root, m)
    ensures var q := Rot2Quat(m, root); Norm2(q) == 1.0 && q.w >= 0.0 && Quat2Rot(q) == m
  {
    hide Rot2Quat, AreProducts, Scaled, Row, Norm2, ProductsOf, BranchOf, IsRotation, Quat2Rot, Radicand;
    var q := Rot2Quat(m, root);
    var k := ProductsOf(m);
    BodyIsScaledRow(m, root);
    DoubleRoot(root, Radicand(m));
    if Scaled(q, 2.0 * root) == Row(k, BranchOf(m)) {
      ScaledRowGivesProducts(m, q, 2.0 * root);
    } else {
      ScaledRowGivesProducts(m, Negated(q), 2.0 * root);
      NegatedTwice(k, q);
    }
    ProductsFixMatrix(m, q);
  }
}
