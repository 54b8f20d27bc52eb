/**
 * Two-dimensional affine transforms in the six-coefficient form of SVG 1.1
 * (section 7.15.3): the tuple (a, b, c, d, e, f) stands for the matrix
 *
 *     | a c e |
 *     | b d f |
 *     | 0 0 1 |
 *
 * The plug-in keeps such a transform as a Python 6-tuple indexed 0..5; here
 * the indices 0..5 are the fields a..f.
 */
module Affine {

  datatype Point = Point(x: real, y: real)

  datatype Matrix = Matrix(a: real, b: real, c: real, d: real, e: real, f: real)

  /** The textbook affine map x' = a*x + c*y + e, y' = b*x + d*y + f. */
  function Apply(m: Matrix, p: Point): Point
  {
    Point(m.a * p.x + m.c * p.y + m.e, m.b * p.x + m.d * p.y + m.f)
  }

  /** The default matrix argument of the tree walk, (1, 0, 0, 1, 0, 0). */
  function Identity(): Matrix
  {
    Matrix(1.0, 0.0, 0.0, 1.0, 0.0, 0.0)
  }

  /** The matrix a `translate(tx, ty)` attribute stands for. */
  function Translation(tx: real, ty: real): Matrix
  {
    Matrix(1.0, 0.0, 0.0, 1.0, tx, ty)
  }

  /** The identity leaves every point where it is. */
  lemma ApplyIdentity(p: Point)
    ensures Apply(Identity(), p) == p
  {
  }

  /** A translation shifts every point by (tx, ty). */
  lemma ApplyTranslation(tx: real, ty: real, p: Point)
    ensures Apply(Translation(tx, ty), p) == Point(p.x + tx, p.y + ty)
  {
  }

  /**
   * Product parent * child: the transform of a child coordinate system nested
   * inside the parent's one (SVG 1.1 sections 7.5 and 7.6).
   */
  function Compose(parent: Matrix, child: Matrix): Matrix
  {
    var a, b := parent, child;
    Matrix(a.a * b.a + a.c * b.b,
           a.b * b.a + a.d * b.b,
           a.a * b.c + a.c * b.d,
           a.b * b.c + a.d * b.d,
           a.a * b.e + a.c * b.f + a.e,
           a.b * b.e + a.d * b.f + a.f)
  }

  /**
   * One row of the product applied to (x, y): the product's row (t1, t2, t3),
   * made of the parent's row (r1, r2, r3) and the child's coefficients, gives
   * what the parent's row gives at the child's image (qx, qy) of (x, y).
   */
  lemma ProductRow(r1: real, r2: real, r3: real, s1: real, s2: real, s3: real, s4: real, s5: real, s6: real,
                   t1: real, t2: real, t3: real, x: real, y: real, qx: real, qy: real)
    requires t1 == r1 * s1 + r2 * s2 && t2 == r1 * s3 + r2 * s4 && t3 == r1 * s5 + r2 * s6 + r3
    requires qx == s1 * x + s3 * y + s5 && qy == s2 * x + s4 * y + s6
    ensures t1 * x + t2 * y + t3 == r1 * qx + r2 * qy + r3
  {
    assert t1 * x == r1 * (s1 * x) + r2 * (s2 * x);
    assert t2 * y == r1 * (s3 * y) + r2 * (s4 * y);
    assert r1 * qx == r1 * (s1 * x) + r1 * (s3 * y) + r1 * s5;
    assert r2 * qy == r2 * (s2 * x) + r2 * (s4 * y) + r2 * s6;
  }

  lemma ApplyComposeX(parent: Matrix, child: Matrix, p: Point)
    ensures Apply(Compose(parent, child), p).x == Apply(parent, Apply(child, p)).x
  {
    var a, b, q, r := parent, child, Apply(child, p), Compose(parent, child);
    ProductRow(a.a, a.c, a.e, b.a, b.b, b.c, b.d, b.e, b.f, r.a, r.c, r.e, p.x, p.y, q.x, q.y);
  }

  lemma ApplyComposeY(parent: Matrix, child: Matrix, p: Point)
    ensures Apply(Compose(parent, child), p).y == Apply(parent, Apply(child, p)).y
  {
    var a, b, q, r := parent, child, Apply(child, p), Compose(parent, child);
    ProductRow(a.b, a.d, a.f, b.a, b.b, b.c, b.d, b.e, b.f, r.b, r.d, r.f, p.x, p.y, q.x, q.y);
  }

  /** Applying a product is applying the child first and the parent afterwards. */
  lemma ApplyCompose(parent: Matrix, child: Matrix, p: Point)
    ensures Apply(Compose(parent, child), p) == Apply(parent, Apply(child, p))
  {
    ApplyComposeX(parent, child, p);
    ApplyComposeY(parent, child, p);
  }

  lemma ApplyComposeAll(parent: Matrix, child: Matrix)
    ensures forall p :: Apply(Compose(parent, child), p) == Apply(parent, Apply(child, p))
  {
    forall p ensures Apply(Compose(parent, child), p) == Apply(parent, Apply(child, p)) {
      ApplyCompose(parent, child, p);
    }
  }

  /** Two matrices that move every point alike are the same six coefficients. */
  lemma {:induction false} ApplyDeterminesMatrix(m: Matrix, n: Matrix)
    requires forall p :: Apply(m, p) == Apply(n, p)
    ensures m == n
  {
    var o, ex, ey := Apply(m, Point(0.0, 0.0)), Apply(m, Point(1.0, 0.0)), Apply(m, Point(0.0, 1.0));
    assert o == Apply(n, Point(0.0, 0.0));
    assert ex == Apply(n, Point(1.0, 0.0));
    assert ey == Apply(n, Point(0.0, 1.0));
  }

  lemma ComposeIdentityLeft(m: Matrix)
    ensures Compose(Identity(), m) == m
  {
  }

  lemma ComposeIdentityRight(m: Matrix)
    ensures Compose(m, Identity()) == m
  {
  }

  /** Nesting three coordinate systems does not depend on how they are grouped. */
  lemma ComposeAssociative(p: Matrix, q: Matrix, r: Matrix)
    ensures Compose(Compose(p, q), r) == Compose(p, Compose(q, r))
  {
    forall pt ensures Apply(Compose(Compose(p, q), r), pt) == Apply(Compose(p, Compose(q, r)), pt) {
      ApplyCompose(Compose(p, q), r, pt);
      ApplyCompose(p, q, Apply(r, pt));
      ApplyCompose(p, Compose(q, r), pt);
      ApplyCompose(q, r, pt);
    }
    ApplyDeterminesMatrix(Compose(Compose(p, q), r), Compose(p, Compose(q, r)));
  }

  /** Composition is not commutative: a translation and a scaling, in both orders. */
  lemma ComposeNotCommutative()
    ensures Compose(Translation(1.0, 0.0), Matrix(2.0, 0.0, 0.0, 2.0, 0.0, 0.0))
         != Compose(Matrix(2.0, 0.0, 0.0, 2.0, 0.0, 0.0), Translation(1.0, 0.0))
  {
  }
}
