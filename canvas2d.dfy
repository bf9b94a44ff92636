/**
 The part of an HTML canvas and its 2D rendering context that the Puddi
 runtime relies on: the size of the drawing surface and the context's current
 transformation matrix.  Pixels are not modelled.

 Following section 4.12.5 (the canvas element) of the WHATWG HTML Standard:
 - assigning the canvas `width` attribute, even its current value, resets the
   context to its default state, whose transformation matrix is the identity;
 - `transform(a, b, c, d, e, f)` replaces the current matrix by the current
   matrix multiplied on the right by [a c e; b d f; 0 0 1].
 */
module Canvas2D {

  /** The affine matrix [a c e; b d f; 0 0 1], in the argument order of `transform`. */
  datatype Matrix = Matrix(a: real, b: real, c: real, d: real, e: real, f: real)

  /** A point or an offset of the plane. */
  datatype Vec = Vec(x: real, y: real)

  function Add(u: Vec, v: Vec): Vec {
    Vec(u.x + v.x, u.y + v.y)
  }

  const IDENTITY: Matrix := Matrix(1.0, 0.0, 0.0, 1.0, 0.0, 0.0)

  /** Where the matrix sends a point of user space on the canvas. */
  function Apply(m: Matrix, p: Vec): Vec {
    Vec(m.a * p.x + m.c * p.y + m.e, m.b * p.x + m.d * p.y + m.f)
  }

  /** The matrix product m * n. */
  function Multiply(m: Matrix, n: Matrix): Matrix {
    Matrix(m.a * n.a + m.c * n.b,
           m.b * n.a + m.d * n.b,
           m.a * n.c + m.c * n.d,
           m.b * n.c + m.d * n.d,
           m.a * n.e + m.c * n.f + m.e,
           m.b * n.e + m.d * n.f + m.f)
  }

  lemma MultiplyAppliesX(m: Matrix, n: Matrix, p: Vec)
    ensures Apply(Multiply(m, n), p).x == Apply(m, Apply(n, p)).x
  {
    calc {
      Apply(m, Apply(n, p)).x;
      m.a * (n.a * p.x + n.c * p.y + n.e) + m.c * (n.b * p.x + n.d * p.y + n.f) + m.e;
      (m.a * n.a) * p.x + (m.a * n.c) * p.y + m.a * n.e + (m.c * n.b) * p.x + (m.c * n.d) * p.y + m.c * n.f + m.e;
      (m.a * n.a + m.c * n.b) * p.x + (m.a * n.c + m.c * n.d) * p.y + (m.a * n.e + m.c * n.f + m.e);
      Apply(Multiply(m, n), p).x;
    }
  }

  lemma MultiplyAppliesY(m: Matrix, n: Matrix, p: Vec)
    ensures Apply(Multiply(m, n), p).y == Apply(m, Apply(n, p)).y
  {
    calc {
      Apply(m, Apply(n, p)).y;
      m.b * (n.a * p.x + n.c * p.y + n.e) + m.d * (n.b * p.x + n.d * p.y + n.f) + m.f;
      (m.b * n.a) * p.x + (m.b * n.c) * p.y + m.b * n.e + (m.d * n.b) * p.x + (m.d * n.d) * p.y + m.d * n.f + m.f;
      (m.b * n.a + m.d * n.b) * p.x + (m.b * n.c + m.d * n.d) * p.y + (m.b * n.e + m.d * n.f + m.f);
      Apply(Multiply(m, n), p).y;
    }
  }

  /** Multiplying on the right means the new transform is applied first, then the old one. */
  lemma MultiplyApplies(m: Matrix, n: Matrix, p: Vec)
    ensures Apply(Multiply(m, n), p) == Apply(m, Apply(n, p))
  {
    MultiplyAppliesX(m, n, p);
    MultiplyAppliesY(m, n, p);
  }

  /** After a reset, one `transform` call leaves exactly its own matrix. */
  lemma IdentityIsNeutral(n: Matrix)
    ensures Multiply(IDENTITY, n) == n
    ensures forall p :: Apply(IDENTITY, p) == p
  {
  }

  /** A canvas element together with its 2D context. */
  class Canvas {
    var width: nat
    var height: nat
    /** The context's current transformation matrix. */
    ghost var matrix: Matrix

    constructor (w: nat, h: nat)
      ensures width == w && height == h && matrix == IDENTITY
    {
      width, height := w, h;
      matrix := IDENTITY;
    }

    /** `canvas.width += 0`: the size is kept and the context returns to its default state. */
    method ReassignWidth()
      modifies this
      ensures width == old(width) && height == old(height)
      ensures matrix == IDENTITY
    {
      width := width + 0;
      matrix := IDENTITY;
    }

    /** `ctx.transform(m.a, m.b, m.c, m.d, m.e, m.f)`. */
    method Transform(m: Matrix)
      modifies this`matrix
      ensures matrix == Multiply(old(matrix), m)
    {
      matrix := Multiply(matrix, m);
    }
  }
}
