/** Points and 2D affine transforms, in the conventions of Core Graphics:
    a point is a row vector, so `Apply(p, t)` is p times the 3x3 matrix
      | a  b  0 |
      | c  d  0 |
      | tx ty 1 |
    and `Concat(t1, t2)` is the transform that applies t1 first, then t2.
    CGFloat is modelled as `real`, so there is no rounding. */
module Geometry {

  datatype Point = Point(x: real, y: real)

  const Zero := Point(0.0, 0.0)

  function Add(p: Point, q: Point): (r: Point) {
    Point(p.x + q.x, p.y + q.y)
  }

  datatype Affine = Affine(a: real, b: real, c: real, d: real, tx: real, ty: real)

  const Identity := Affine(1.0, 0.0, 0.0, 1.0, 0.0, 0.0)

  /** An angle, given by its cosine and sine (the model has no trigonometry). */
  datatype Angle = Angle(cos: real, sin: real)

  /** The angle 0 radians. */
  const NoTurn := Angle(1.0, 0.0)

  /** The angle pi/2 radians. */
  const QuarterTurn := Angle(0.0, 1.0)

  /** The sum of two angles, by the angle-addition formulas. */
  function Sum(alpha: Angle, beta: Angle): (r: Angle) {
    Angle(alpha.cos * beta.cos - alpha.sin * beta.sin,
          alpha.sin * beta.cos + alpha.cos * beta.sin)
  }

  /** `CGPoint.applying(_:)`. */
  function Apply(p: Point, t: Affine): (r: Point)
    ensures t == Identity ==> r == p
  {
    Point(t.a * p.x + t.c * p.y + t.tx, t.b * p.x + t.d * p.y + t.ty)
  }

  /** `CGAffineTransformConcat(t1, t2)`: the matrix product t1 * t2. */
  function Concat(t1: Affine, t2: Affine): (r: Affine) {
    Affine(t1.a * t2.a + t1.b * t2.c,
           t1.a * t2.b + t1.b * t2.d,
           t1.c * t2.a + t1.d * t2.c,
           t1.c * t2.b + t1.d * t2.d,
           t1.tx * t2.a + t1.ty * t2.c + t2.tx,
           t1.tx * t2.b + t1.ty * t2.d + t2.ty)
  }

  /** `CGAffineTransform(scaleX:y:)`. */
  function Scale(sx: real, sy: real): (r: Affine) {
    Affine(sx, 0.0, 0.0, sy, 0.0, 0.0)
  }

  /** `CGAffineTransform(rotationAngle:)`. */
  function Rotation(alpha: Angle): (r: Affine) {
    Affine(alpha.cos, alpha.sin, -alpha.sin, alpha.cos, 0.0, 0.0)
  }

  /** `t.scaledBy(x: sx, y: sy)`: scale in the transform's own space, then apply t. */
  function ScaledBy(t: Affine, sx: real, sy: real): (r: Affine)
    ensures r.tx == t.tx && r.ty == t.ty
  {
    Concat(Scale(sx, sy), t)
  }

  /** `t.rotated(by: alpha)`: rotate in the transform's own space, then apply t. */
  function RotatedBy(t: Affine, alpha: Angle): (r: Affine)
    ensures r.tx == t.tx && r.ty == t.ty
  {
    Concat(Rotation(alpha), t)
  }

  /** A transform without a translation part maps sums of vectors to sums. */
  predicate Linear(t: Affine) {
    t.tx == 0.0 && t.ty == 0.0
  }

  // Polynomial identities on plain reals, used one coordinate at a time below.

  lemma Regroup(a: real, b: real, c: real, d: real, e: real, f: real, g: real, p: real, q: real, x: real, y: real)
    ensures p * (a * x + c * y + e) + q * (b * x + d * y + f) + g
         == (a * p + b * q) * x + (c * p + d * q) * y + (e * p + f * q + g)
  {
  }

  lemma TurnTwice(c1: real, s1: real, c2: real, s2: real, u: real, v: real)
    ensures c2 * (c1 * u + s1 * v) + s2 * (-s1 * u + c1 * v)
         == (c1 * c2 - s1 * s2) * u + (s1 * c2 + c1 * s2) * v
  {
  }

  lemma TurnTwiceOther(c1: real, s1: real, c2: real, s2: real, u: real, v: real)
    ensures -s2 * (c1 * u + s1 * v) + c2 * (-s1 * u + c1 * v)
         == -(s1 * c2 + c1 * s2) * u + (c1 * c2 - s1 * s2) * v
  {
  }

  lemma ScaleTwice(s1: real, s2: real, u: real)
    ensures s2 * (s1 * u) == (s1 * s2) * u
  {
  }

  lemma Spread(a: real, c: real, x1: real, y1: real, x2: real, y2: real)
    ensures a * (x1 + x2) + c * (y1 + y2) == (a * x1 + c * y1) + (a * x2 + c * y2)
  {
  }

  lemma ConcatAppliesX(p: Point, t1: Affine, t2: Affine)
    ensures Apply(p, Concat(t1, t2)).x == Apply(Apply(p, t1), t2).x
  {
    Regroup(t1.a, t1.b, t1.c, t1.d, t1.tx, t1.ty, t2.tx, t2.a, t2.c, p.x, p.y);
  }

  lemma ConcatAppliesY(p: Point, t1: Affine, t2: Affine)
    ensures Apply(p, Concat(t1, t2)).y == Apply(Apply(p, t1), t2).y
  {
    Regroup(t1.a, t1.b, t1.c, t1.d, t1.tx, t1.ty, t2.ty, t2.b, t2.d, p.x, p.y);
  }

  /** Concatenation means "apply one, then the other". */
  lemma ConcatApplies(p: Point, t1: Affine, t2: Affine)
    ensures Apply(p, Concat(t1, t2)) == Apply(Apply(p, t1), t2)
  {
    ConcatAppliesX(p, t1, t2);
    ConcatAppliesY(p, t1, t2);
  }

  /** A scaled transform first scales the point, then applies the old transform. */
  lemma ScaledByApplies(p: Point, t: Affine, sx: real, sy: real)
    ensures Apply(p, ScaledBy(t, sx, sy)) == Apply(Point(sx * p.x, sy * p.y), t)
  {
    ConcatApplies(p, Scale(sx, sy), t);
    var q := Apply(p, Scale(sx, sy));
    assert q.x == sx * p.x + 0.0 * p.y + 0.0 && q.y == 0.0 * p.x + sy * p.y + 0.0;
    assert q == Point(sx * p.x, sy * p.y);
  }

  /** A rotated transform first rotates the point, then applies the old transform. */
  lemma RotatedByApplies(p: Point, t: Affine, alpha: Angle)
    ensures Apply(p, RotatedBy(t, alpha)) == Apply(Apply(p, Rotation(alpha)), t)
  {
    ConcatApplies(p, Rotation(alpha), t);
    assert RotatedBy(t, alpha) == Concat(Rotation(alpha), t);
  }

  lemma ScaledComponents(t: Affine, s: real)
    ensures ScaledBy(t, s, s) == Affine(s * t.a, s * t.b, s * t.c, s * t.d, t.tx, t.ty)
  {
    var r := Concat(Scale(s, s), t);
    assert r.a == s * t.a + 0.0 * t.c && r.b == s * t.b + 0.0 * t.d;
    assert r.c == 0.0 * t.a + s * t.c && r.d == 0.0 * t.b + s * t.d;
    assert r.tx == 0.0 * t.a + 0.0 * t.c + t.tx && r.ty == 0.0 * t.b + 0.0 * t.d + t.ty;
  }

  /** Successive uniform scalings multiply: scaling by s1 and then by s2 is scaling by s1 * s2. */
  lemma ScalingsMultiply(t: Affine, s1: real, s2: real)
    ensures ScaledBy(ScaledBy(t, s1, s1), s2, s2) == ScaledBy(t, s1 * s2, s1 * s2)
  {
    ScaledComponents(t, s1);
    ScaledComponents(ScaledBy(t, s1, s1), s2);
    ScaledComponents(t, s1 * s2);
    ScaleTwice(s1, s2, t.a);
    ScaleTwice(s1, s2, t.b);
    ScaleTwice(s1, s2, t.c);
    ScaleTwice(s1, s2, t.d);
  }

  lemma RotatedComponents(t: Affine, alpha: Angle)
    ensures RotatedBy(t, alpha)
         == Affine(alpha.cos * t.a + alpha.sin * t.c, alpha.cos * t.b + alpha.sin * t.d,
                   -alpha.sin * t.a + alpha.cos * t.c, -alpha.sin * t.b + alpha.cos * t.d,
                   t.tx, t.ty)
  {
    var r := Concat(Rotation(alpha), t);
    assert r.a == alpha.cos * t.a + alpha.sin * t.c && r.b == alpha.cos * t.b + alpha.sin * t.d;
    assert r.c == -alpha.sin * t.a + alpha.cos * t.c && r.d == -alpha.sin * t.b + alpha.cos * t.d;
    assert r.tx == 0.0 * t.a + 0.0 * t.c + t.tx && r.ty == 0.0 * t.b + 0.0 * t.d + t.ty;
  }

  /** One row (u, v) of a transform, rotated by alpha and then by beta. */
  lemma RowRotationsAdd(u: real, v: real, alpha: Angle, beta: Angle)
    ensures var sum := Sum(alpha, beta);
            var u1, v1 := alpha.cos * u + alpha.sin * v, -alpha.sin * u + alpha.cos * v;
            beta.cos * u1 + beta.sin * v1 == sum.cos * u + sum.sin * v
            && -beta.sin * u1 + beta.cos * v1 == -sum.sin * u + sum.cos * v
  {
    TurnTwice(alpha.cos, alpha.sin, beta.cos, beta.sin, u, v);
    TurnTwiceOther(alpha.cos, alpha.sin, beta.cos, beta.sin, u, v);
  }

  /** Successive rotations add: rotating by alpha and then by beta is rotating by their sum. */
  lemma RotationsAdd(t: Affine, alpha: Angle, beta: Angle)
    ensures RotatedBy(RotatedBy(t, alpha), beta) == RotatedBy(t, Sum(alpha, beta))
  {
    RotatedComponents(t, alpha);
    RowRotationsAdd(t.a, t.c, alpha, beta);
    RowRotationsAdd(t.b, t.d, alpha, beta);
  }

  /** Scaling the identity uniformly gives the plain scale. */
  lemma ScaledIdentity(s: real)
    ensures ScaledBy(Identity, s, s) == Scale(s, s)
  {
  }

  /** Scaling a plain uniform scale multiplies the factors. */
  lemma ScaledScale(s1: real, s2: real)
    ensures ScaledBy(Scale(s1, s1), s2, s2) == Scale(s1 * s2, s1 * s2)
  {
  }

  /** Rotating the identity gives the plain rotation. */
  lemma RotatedIdentity(alpha: Angle)
    ensures RotatedBy(Identity, alpha) == Rotation(alpha)
  {
  }

  /** The transforms a layer's handlers reach stay linear: a layer starts at the identity,
      pinch scales and rotate rotates it, and pan leaves it as it is. */
  lemma HandlersKeepLinear(t: Affine, s: real, alpha: Angle)
    ensures Linear(Identity)
    ensures Linear(t) ==> Linear(ScaledBy(t, s, s)) && Linear(RotatedBy(t, alpha))
  {
  }

  /** A linear transform is additive on vectors. */
  lemma LinearIsAdditive(p: Point, q: Point, t: Affine)
    requires Linear(t)
    ensures Apply(Add(p, q), t) == Add(Apply(p, t), Apply(q, t))
  {
    var s := Add(p, q);
    assert s.x == p.x + q.x && s.y == p.y + q.y;
    assert Apply(s, t) == Point(t.a * s.x + t.c * s.y, t.b * s.x + t.d * s.y);
    assert Apply(p, t) == Point(t.a * p.x + t.c * p.y, t.b * p.x + t.d * p.y);
    assert Apply(q, t) == Point(t.a * q.x + t.c * q.y, t.b * q.x + t.d * q.y);
    Spread(t.a, t.c, p.x, p.y, q.x, q.y);
    Spread(t.b, t.d, p.x, p.y, q.x, q.y);
  }

  /** Two pi/4 turns make a pi/2 turn, where h stands for cos(pi/4) = sin(pi/4) = sqrt(2)/2. */
  lemma EighthTurnsMakeQuarterTurn(h: real)
    requires h * h == 0.5
    ensures Sum(Angle(h, h), Angle(h, h)) == QuarterTurn
  {
  }

  /** Pinches of 2.0 and then 1.5, from the identity, scale by 3.0 (not 1.5, not 2.5). */
  lemma PinchesMultiplyFromIdentity()
    ensures ScaledBy(ScaledBy(Identity, 2.0, 2.0), 1.5, 1.5) == Scale(3.0, 3.0)
  {
    ScaledIdentity(2.0);
    ScaledScale(2.0, 1.5);
    assert 2.0 * 1.5 == 3.0;
  }

  /** Two rotations by pi/4, from the identity, give the rotation by pi/2. */
  lemma EighthTurnsFromIdentity(h: real)
    requires h * h == 0.5
    ensures RotatedBy(RotatedBy(Identity, Angle(h, h)), Angle(h, h)) == Rotation(QuarterTurn)
  {
    RotationsAdd(Identity, Angle(h, h), Angle(h, h));
    EighthTurnsMakeQuarterTurn(h);
    RotatedIdentity(QuarterTurn);
  }

  /** After a quarter turn from the identity, a horizontal vector is mapped onto the vertical axis. */
  lemma QuarterTurnMapsHorizontal(dx: real)
    ensures Apply(Point(dx, 0.0), RotatedBy(Identity, QuarterTurn)) == Point(0.0, dx)
  {
    assert Rotation(QuarterTurn) == Affine(0.0, 1.0, -1.0, 0.0, 0.0, 0.0);
    assert RotatedBy(Identity, QuarterTurn) == Concat(Rotation(QuarterTurn), Identity);
    assert Concat(Affine(0.0, 1.0, -1.0, 0.0, 0.0, 0.0), Identity) == Affine(0.0, 1.0, -1.0, 0.0, 0.0, 0.0);
  }
}
