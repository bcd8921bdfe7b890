/** The affine geo-transform of a raster (pixel to world and back) and the
    rectangle-overlap test used to decide whether a tile touches a dataset. */
module GeoMatrix {
  import opened Common

  /** Six coefficients mapping a pixel (x, y) to the world point
      (c0 + x*c1 + y*c2, c3 + x*c4 + y*c5). */
  datatype GeoTransform = GeoTransform(c0: real, c1: real, c2: real, c3: real, c4: real, c5: real)

  /** GM_EPSILON, the double-precision machine epsilon 2.2204460492503131e-16. */
  const Epsilon: real := 0.00000000000000022204460492503131

  function Abs(x: real): real { if x < 0.0 then -x else x }

  /** One output coordinate of an affine map: a0 + u*a1 + v*a2. */
  function Row(a0: real, a1: real, a2: real, u: real, v: real): real
  {
    a0 + u * a1 + v * a2
  }

  /** `GDALApplyGeoTransform` / the render loop's inline formula. */
  function Apply(m: GeoTransform, x: real, y: real): (real, real)
  {
    (Row(m.c0, m.c1, m.c2, x, y), Row(m.c3, m.c4, m.c5, x, y))
  }

  /** The determinant of the linear part. */
  function Det(m: GeoTransform): real
  {
    m.c1 * m.c5 - m.c2 * m.c4
  }

  /** The numerators of `InvertGeoMatrix`: the cofactors of the transform,
      in coefficient order. */
  function Cofactors(m: GeoTransform): GeoTransform
  {
    GeoTransform(m.c2 * m.c3 - m.c0 * m.c5, m.c5, -m.c2, -m.c1 * m.c3 + m.c0 * m.c4, -m.c4, m.c1)
  }

  /** Every coefficient multiplied by k. */
  function Scale(g: GeoTransform, k: real): GeoTransform
  {
    GeoTransform(g.c0 * k, g.c1 * k, g.c2 * k, g.c3 * k, g.c4 * k, g.c5 * k)
  }

  /** `InvertGeoMatrix`: the closed-form inverse, or None (FALSE, nothing written)
      when the linear part is too close to singular. */
  function Invert(m: GeoTransform): (r: Option<GeoTransform>)
    ensures r.None? <==> Abs(Det(m)) < Epsilon
  {
    var det := Det(m);
    if Abs(det) < Epsilon then None
    else Some(Scale(Cofactors(m), 1.0 / det))
  }

  /** `i` is the inverse of `m`, stated without division: Det(m) times each
      coefficient of `i` is the matching cofactor. */
  predicate InverseOf(m: GeoTransform, i: GeoTransform)
  {
    Det(m) != 0.0 && Scale(i, Det(m)) == Cofactors(m)
  }

  /** Scaling by k and then by d, with k the reciprocal of d, changes nothing. */
  lemma ScaleBack(g: GeoTransform, d: real, k: real)
    requires d != 0.0 && k == 1.0 / d
    ensures Scale(Scale(g, k), d) == g
  {
    MulInverse(g.c0, d, k);
    MulInverse(g.c1, d, k);
    MulInverse(g.c2, d, k);
    MulInverse(g.c3, d, k);
    MulInverse(g.c4, d, k);
    MulInverse(g.c5, d, k);
  }

  lemma MulInverse(a: real, d: real, k: real)
    requires d != 0.0 && k == 1.0 / d
    ensures (a * k) * d == a
  {
    assert k * d == 1.0;
    assert (a * k) * d == a * (k * d);
  }

  lemma Cancel(a: real, b: real, d: real)
    requires d != 0.0 && a * d == b * d
    ensures a == b
  {
    assert (a - b) * d == 0.0;
  }

  /** Whatever Invert returns is the inverse of its argument. */
  lemma InvertIsInverse(m: GeoTransform)
    requires Invert(m).Some?
    ensures InverseOf(m, Invert(m).value)
  {
    ScaleBack(Cofactors(m), Det(m), 1.0 / Det(m));
  }

  /** An affine row whose coefficients are cofactors divided by d evaluates to t
      when the cofactor row evaluates to t * d. */
  lemma RowByCofactors(i0: real, i1: real, i2: real, a0: real, a1: real, a2: real,
                       u: real, v: real, t: real, d: real)
    requires d != 0.0
    requires i0 * d == a0 && i1 * d == a1 && i2 * d == a2
    requires Row(a0, a1, a2, u, v) == t * d
    ensures Row(i0, i1, i2, u, v) == t
  {
    assert (i0 + u * i1 + v * i2) * d == i0 * d + u * (i1 * d) + v * (i2 * d);
    Cancel(i0 + u * i1 + v * i2, t, d);
  }

  /** The cofactor rows applied to the forward image give back the point times d. */
  lemma CofactorIdentities(c0: real, c1: real, c2: real, c3: real, c4: real, c5: real,
                           x: real, y: real, d: real)
    requires d == c1 * c5 - c2 * c4
    ensures Row(c2 * c3 - c0 * c5, c5, -c2, Row(c0, c1, c2, x, y), Row(c3, c4, c5, x, y)) == x * d
    ensures Row(c0 * c4 - c1 * c3, -c4, c1, Row(c0, c1, c2, x, y), Row(c3, c4, c5, x, y)) == y * d
  {
  }

  /** The forward rows applied to the cofactor image give back the point times d. */
  lemma ForwardIdentities(c0: real, c1: real, c2: real, c3: real, c4: real, c5: real,
                          X: real, Y: real, d: real)
    requires d == c1 * c5 - c2 * c4
    ensures c0 * d + c1 * Row(c2 * c3 - c0 * c5, c5, -c2, X, Y) + c2 * Row(c0 * c4 - c1 * c3, -c4, c1, X, Y) == X * d
    ensures c3 * d + c4 * Row(c2 * c3 - c0 * c5, c5, -c2, X, Y) + c5 * Row(c0 * c4 - c1 * c3, -c4, c1, X, Y) == Y * d
  {
  }

  /** A row with cofactor coefficients scaled by d. */
  lemma RowScaled(i0: real, i1: real, i2: real, a0: real, a1: real, a2: real, u: real, v: real, d: real)
    requires i0 * d == a0 && i1 * d == a1 && i2 * d == a2
    ensures Row(i0, i1, i2, u, v) * d == Row(a0, a1, a2, u, v)
  {
    assert (i0 + u * i1 + v * i2) * d == i0 * d + u * (i1 * d) + v * (i2 * d);
  }

  /** A forward row evaluated at d-scaled coordinates. */
  lemma ForwardRow(c0: real, c1: real, c2: real, x: real, y: real, P: real, Q: real, t: real, d: real)
    requires d != 0.0 && x * d == P && y * d == Q
    requires c0 * d + c1 * P + c2 * Q == t * d
    ensures Row(c0, c1, c2, x, y) == t
  {
    assert (c0 + x * c1 + y * c2) * d == c0 * d + c1 * (x * d) + c2 * (y * d);
    Cancel(c0 + x * c1 + y * c2, t, d);
  }

  /** Over exact reals, the inverse undoes the forward map at every point. */
  lemma InverseUndoesForward(m: GeoTransform, i: GeoTransform, x: real, y: real)
    requires InverseOf(m, i)
    ensures Apply(i, Apply(m, x, y).0, Apply(m, x, y).1) == (x, y)
  {
    var X := Apply(m, x, y).0;
    var Y := Apply(m, x, y).1;
    CofactorIdentities(m.c0, m.c1, m.c2, m.c3, m.c4, m.c5, x, y, Det(m));
    RowByCofactors(i.c0, i.c1, i.c2, m.c2 * m.c3 - m.c0 * m.c5, m.c5, -m.c2, X, Y, x, Det(m));
    RowByCofactors(i.c3, i.c4, i.c5, m.c0 * m.c4 - m.c1 * m.c3, -m.c4, m.c1, X, Y, y, Det(m));
  }

  /** The forward map undoes the cofactor solution, on plain reals. */
  lemma ForwardOfInverse(c0: real, c1: real, c2: real, c3: real, c4: real, c5: real,
                         i0: real, i1: real, i2: real, i3: real, i4: real, i5: real,
                         X: real, Y: real, d: real)
    requires d == c1 * c5 - c2 * c4 && d != 0.0
    requires i0 * d == c2 * c3 - c0 * c5 && i1 * d == c5 && i2 * d == -c2
    requires i3 * d == c0 * c4 - c1 * c3 && i4 * d == -c4 && i5 * d == c1
    ensures Row(c0, c1, c2, Row(i0, i1, i2, X, Y), Row(i3, i4, i5, X, Y)) == X
    ensures Row(c3, c4, c5, Row(i0, i1, i2, X, Y), Row(i3, i4, i5, X, Y)) == Y
  {
    var P := Row(c2 * c3 - c0 * c5, c5, -c2, X, Y);
    var Q := Row(c0 * c4 - c1 * c3, -c4, c1, X, Y);
    RowScaled(i0, i1, i2, c2 * c3 - c0 * c5, c5, -c2, X, Y, d);
    RowScaled(i3, i4, i5, c0 * c4 - c1 * c3, -c4, c1, X, Y, d);
    ForwardIdentities(c0, c1, c2, c3, c4, c5, X, Y, d);
    ForwardRow(c0, c1, c2, Row(i0, i1, i2, X, Y), Row(i3, i4, i5, X, Y), P, Q, X, d);
    ForwardRow(c3, c4, c5, Row(i0, i1, i2, X, Y), Row(i3, i4, i5, X, Y), P, Q, Y, d);
  }

  /** ... and the forward map undoes the inverse: the inverse is two-sided. */
  lemma ForwardUndoesInverse(m: GeoTransform, i: GeoTransform, X: real, Y: real)
    requires InverseOf(m, i)
    ensures Apply(m, Apply(i, X, Y).0, Apply(i, X, Y).1) == (X, Y)
  {
    ForwardOfInverse(m.c0, m.c1, m.c2, m.c3, m.c4, m.c5, i.c0, i.c1, i.c2, i.c3, i.c4, i.c5, X, Y, Det(m));
  }

  /** The render loop's use of `InvertGeoMatrix`: a successful inversion maps a
      world point back to the pixel that produced it, and the other way round. */
  lemma InvertRoundTrips(m: GeoTransform, x: real, y: real)
    requires Invert(m).Some?
    ensures Apply(Invert(m).value, Apply(m, x, y).0, Apply(m, x, y).1) == (x, y)
    ensures Apply(m, Apply(Invert(m).value, x, y).0, Apply(Invert(m).value, x, y).1) == (x, y)
  {
    InvertIsInverse(m);
    InverseUndoesForward(m, Invert(m).value, x, y);
    ForwardUndoesInverse(m, Invert(m).value, x, y);
  }

  // ---------------------------------------------------------------------------
  // Rectangles

  /** A north-up world rectangle: upper-left (ulx, uly), lower-right (lrx, lry). */
  datatype Rect = Rect(ulx: real, uly: real, lrx: real, lry: real)

  predicate WellFormed(r: Rect) { r.ulx < r.lrx && r.lry < r.uly }

  /** A point strictly inside the rectangle. */
  predicate Inside(r: Rect, x: real, y: real) { r.ulx < x < r.lrx && r.lry < y < r.uly }

  /** `TestRectRectIntersect`: strict, so rectangles sharing only an edge do not intersect. */
  predicate Intersects(a: Rect, b: Rect)
  {
    !(a.ulx >= b.lrx || a.lrx <= b.ulx || a.uly <= b.lry || a.lry >= b.uly)
  }

  lemma IntersectsSymmetric(a: Rect, b: Rect)
    ensures Intersects(a, b) == Intersects(b, a)
  {
  }

  /** Two well-formed rectangles intersect exactly when some point lies strictly
      inside both; in particular disjoint or edge-touching rectangles never do. */
  lemma IntersectsIffCommonPoint(a: Rect, b: Rect)
    requires WellFormed(a) && WellFormed(b)
    ensures Intersects(a, b) <==> exists x, y :: Inside(a, x, y) && Inside(b, x, y)
  {
    if Intersects(a, b) {
      var x := (Max(a.ulx, b.ulx) + Min(a.lrx, b.lrx)) / 2.0;
      var y := (Max(a.lry, b.lry) + Min(a.uly, b.uly)) / 2.0;
      assert Inside(a, x, y) && Inside(b, x, y);
    }
  }
}
