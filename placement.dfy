/**
 * Placement arithmetic of mkkb.py: the SVG `matrix(a,b,c,d,e,f)` transform as
 * a 3x3 matrix, the inverse length transforms `transform_x` and
 * `transform_y`, the repositioning rule of `transform_x_y`, and the size and
 * centring formulas of `add_rect` and `add_text`.
 *
 * Numbers are exact reals: numpy's floating-point inverse is replaced by the
 * exact inverse of an affine matrix.
 */
module Placement {
  import opened Wrappers
  import opened PathBounds

  /** Template lengths are in millimetres; dividing by this gives pixels. */
  const MmScale: real := 0.26458

  /** A matrix as a sequence of rows. */
  type Matrix = seq<seq<real>>

  predicate Is3x3(m: Matrix) {
    |m| == 3 && |m[0]| == 3 && |m[1]| == 3 && |m[2]| == 3
  }

  /** A 2D affine map in homogeneous form: the last row is (0, 0, 1). */
  predicate IsAffine(m: Matrix) {
    Is3x3(m) && m[2] == [0.0, 0.0, 1.0]
  }

  /** The determinant of an affine matrix: that of its linear part, a*d - b*c. */
  function Det(m: Matrix): real
    requires IsAffine(m)
  {
    m[0][0] * m[1][1] - m[1][0] * m[0][1]
  }

  /** What `numpy.linalg.inv` accepts without raising. */
  predicate Invertible(m: Matrix) {
    IsAffine(m) && Det(m) != 0.0
  }

  const Identity: Matrix := [[1.0, 0.0, 0.0], [0.0, 1.0, 0.0], [0.0, 0.0, 1.0]]

  /** The matrix with its translation column replaced by (e, f). */
  function WithTranslation(m: Matrix, e: real, f: real): (r: Matrix)
    requires IsAffine(m)
    ensures IsAffine(r) && Det(r) == Det(m)
  {
    [[m[0][0], m[0][1], e], [m[1][0], m[1][1], f], m[2]]
  }

  /**
   * `parse_svg_matrix` applied to the six numbers of `matrix(a,b,c,d,e,f)`:
   * fewer than six raise (IndexError), numbers past the sixth are ignored.
   */
  function ParseSvgMatrix(elements: seq<real>): (r: Option<Matrix>)
    ensures r.Some? <==> |elements| >= 6
    ensures r.Some? ==> IsAffine(r.value)
    ensures r.Some? ==> forall k :: 0 <= k < 6 ==> r.value[k % 2][k / 2] == elements[k]
  {
    if |elements| < 6 then None
    else
      var e := elements;
      Some([[e[0], e[2], e[4]], [e[1], e[3], e[5]], [0.0, 0.0, 1.0]])
  }

  /** `matrix.dot(v)` for a 3x3 matrix and a 3-vector. */
  function MatVec(m: Matrix, v: seq<real>): (r: seq<real>)
    requires Is3x3(m) && |v| == 3
    ensures |r| == 3
  {
    [m[0][0] * v[0] + m[0][1] * v[1] + m[0][2] * v[2],
     m[1][0] * v[0] + m[1][1] * v[1] + m[1][2] * v[2],
     m[2][0] * v[0] + m[2][1] * v[1] + m[2][2] * v[2]]
  }

  /** The exact inverse of an invertible affine matrix, in place of `numpy.linalg.inv`. */
  function Inverse(m: Matrix): (r: Matrix)
    requires Invertible(m)
    ensures IsAffine(r)
  {
    var a, b, c, d, e, f := m[0][0], m[1][0], m[0][1], m[1][1], m[0][2], m[1][2];
    var k := 1.0 / Det(m);
    [[d * k, -c * k, (c * f - d * e) * k],
     [-b * k, a * k, (b * e - a * f) * k],
     [0.0, 0.0, 1.0]]
  }

  /** `transform_x`: a horizontal length in millimetres, mapped back through the inverse. */
  function TransformX(m: Matrix, x: real): real
    requires Invertible(m)
  {
    MatVec(Inverse(m), [x / MmScale, 0.0, 0.0])[0]
  }

  /** `transform_y`: a vertical length in millimetres, mapped back through the inverse. */
  function TransformY(m: Matrix, y: real): real
    requires Invertible(m)
  {
    MatVec(Inverse(m), [0.0, y / MmScale, 0.0])[1]
  }

  /** A rectangle element of the key template (`rect`). */
  datatype Rect = Rect(x: real, y: real, width: real, height: real, ry: Option<real>, strokeWidth: real)

  /** The single `tspan` inside a text element, with its font size, fill and content. */
  datatype Span = Span(x: real, y: real, fontSize: real, fill: string, content: string)

  /** A text element of the key template (`text`) and its span. */
  datatype Text = Text(x: real, y: real, fill: string, span: Span)

  /**
   * `transform_x_y`: a template position (x, y), shifted by the template
   * group's translation, mapped through the inverse and anchored at the
   * origin of the key's measured outline.
   */
  function Reposition(m: Matrix, translate: (real, real), outline: Dimensions, x: real, y: real): (r: (real, real))
    requires Invertible(m)
    ensures r.0 - outline.x == m[1][1] * ((x + translate.0) / MmScale) / Det(m)
    ensures r.1 - outline.y == m[0][0] * ((y + translate.1) / MmScale) / Det(m)
  {
    TransformFormulas(m, x + translate.0);
    TransformFormulas(m, y + translate.1);
    (outline.x + TransformX(m, x + translate.0), outline.y + TransformY(m, y + translate.1))
  }

  /**
   * `add_rect` on a copy of a template rectangle. A stretched rectangle takes
   * the outline's width less twice its left margin; any other keeps its own
   * width, scaled (as in the source) by `transform_y`.
   */
  function PlaceRect(m: Matrix, translate: (real, real), outline: Dimensions, rect: Rect, stretched: bool): (r: Rect)
    requires Invertible(m)
    ensures (r.x, r.y) == Reposition(m, translate, outline, rect.x, rect.y)
    ensures stretched ==> r.x - outline.x == (outline.x + outline.width) - (r.x + r.width)
    ensures !stretched ==> r.width == TransformY(m, rect.width)
    ensures r.height == TransformY(m, rect.height)
    ensures r.ry == if rect.ry.Some? then Some(TransformY(m, rect.ry.value)) else None
    ensures r.strokeWidth == TransformX(m, rect.strokeWidth)
  {
    var (x, y) := Reposition(m, translate, outline, rect.x, rect.y);
    var ry := if rect.ry.Some? then Some(TransformY(m, rect.ry.value)) else None;
    var width := if stretched then outline.width - (x - outline.x) * 2.0 else TransformY(m, rect.width);
    Rect(x, y, width, TransformY(m, rect.height), ry, TransformX(m, rect.strokeWidth))
  }

  /**
   * `add_text` on a copy of a template text. Text and span are repositioned;
   * a centred text's own x moves to the middle of the outline; the span's
   * font size is scaled by `transform_y`.
   */
  function PlaceText(m: Matrix, translate: (real, real), outline: Dimensions, text: Text, centered: bool): (r: Text)
    requires Invertible(m)
    ensures centered ==> r.x - outline.x == (outline.x + outline.width) - r.x
    ensures !centered ==> r.x == Reposition(m, translate, outline, text.x, text.y).0
    ensures r.y == Reposition(m, translate, outline, text.x, text.y).1
    ensures (r.span.x, r.span.y) == Reposition(m, translate, outline, text.span.x, text.span.y)
    ensures r.span.fontSize == TransformY(m, text.span.fontSize)
    ensures r.fill == text.fill && r.span.fill == text.span.fill && r.span.content == text.span.content
  {
    var (x, y) := Reposition(m, translate, outline, text.x, text.y);
    var x := if centered then outline.x + outline.width / 2.0 else x;
    var (spanX, spanY) := Reposition(m, translate, outline, text.span.x, text.span.y);
    var fontSize := TransformY(m, text.span.fontSize);
    Text(x, y, text.fill, text.span.(x := spanX, y := spanY, fontSize := fontSize))
  }

  // ---------------------------------------------------------------------------
  // Properties of the transforms
  // ---------------------------------------------------------------------------

  /** `parse_svg_matrix` puts matrix(a,b,c,d,e,f) in the rows [[a,c,e],[b,d,f],[0,0,1]]. */
  lemma MatrixLayout(a: real, b: real, c: real, d: real, e: real, f: real)
    ensures ParseSvgMatrix([a, b, c, d, e, f]) == Some([[a, c, e], [b, d, f], [0.0, 0.0, 1.0]])
  {
  }

  /** Inverse really is the inverse of m, on either side. */
  lemma InverseIsInverse(m: Matrix, v: seq<real>)
    requires Invertible(m) && |v| == 3
    ensures MatVec(m, MatVec(Inverse(m), v)) == v
    ensures MatVec(Inverse(m), MatVec(m, v)) == v
  {
    RightInverse(m, v);
    LeftInverse(m, v);
  }

  lemma RightInverse(m: Matrix, v: seq<real>)
    requires Invertible(m) && |v| == 3
    ensures MatVec(m, MatVec(Inverse(m), v)) == v
  {
    var back := MatVec(m, MatVec(Inverse(m), v));
    RightInverseFirst(m, v);
    RightInverseSecond(m, v);
    assert back == [back[0], back[1], back[2]] == v;
  }

  lemma RightInverseFirst(m: Matrix, v: seq<real>)
    requires Invertible(m) && |v| == 3
    ensures MatVec(m, MatVec(Inverse(m), v))[0] == v[0]
  {
    var a, b, c, d, e, f := m[0][0], m[1][0], m[0][1], m[1][1], m[0][2], m[1][2];
    var k := 1.0 / Det(m);
    var w := MatVec(Inverse(m), v);
    assert (a * d - b * c) * k == 1.0;
    InverseRow(a, b, c, d, e, f, k, v[0], v[1], v[2], w[0], w[1]);
  }

  lemma RightInverseSecond(m: Matrix, v: seq<real>)
    requires Invertible(m) && |v| == 3
    ensures MatVec(m, MatVec(Inverse(m), v))[1] == v[1]
  {
    var a, b, c, d, e, f := m[0][0], m[1][0], m[0][1], m[1][1], m[0][2], m[1][2];
    var k := 1.0 / Det(m);
    var w := MatVec(Inverse(m), v);
    assert (d * a - c * b) * k == 1.0;
    InverseRow(d, c, b, a, f, e, k, v[1], v[0], v[2], w[1], w[0]);
  }

  lemma LeftInverse(m: Matrix, v: seq<real>)
    requires Invertible(m) && |v| == 3
    ensures MatVec(Inverse(m), MatVec(m, v)) == v
  {
    var there := MatVec(Inverse(m), MatVec(m, v));
    LeftInverseFirst(m, v);
    LeftInverseSecond(m, v);
    assert there == [there[0], there[1], there[2]] == v;
  }

  lemma LeftInverseFirst(m: Matrix, v: seq<real>)
    requires Invertible(m) && |v| == 3
    ensures MatVec(Inverse(m), MatVec(m, v))[0] == v[0]
  {
    var a, b, c, d, e, f := m[0][0], m[1][0], m[0][1], m[1][1], m[0][2], m[1][2];
    var k := 1.0 / Det(m);
    var u := MatVec(m, v);
    assert (a * d - b * c) * k == 1.0;
    InverseColumn(a, b, c, d, e, f, k, v[0], v[1], v[2], u[0], u[1], u[2]);
  }

  lemma LeftInverseSecond(m: Matrix, v: seq<real>)
    requires Invertible(m) && |v| == 3
    ensures MatVec(Inverse(m), MatVec(m, v))[1] == v[1]
  {
    var a, b, c, d, e, f := m[0][0], m[1][0], m[0][1], m[1][1], m[0][2], m[1][2];
    var k := 1.0 / Det(m);
    var u := MatVec(m, v);
    assert (d * a - c * b) * k == 1.0;
    InverseColumn(d, c, b, a, f, e, k, v[1], v[0], v[2], u[1], u[0], u[2]);
  }

  /** Row (a, c, e) of m applied to the inverse's image (w0, w1, v2) of v gives back v0. */
  lemma InverseRow(a: real, b: real, c: real, d: real, e: real, f: real, k: real,
                   v0: real, v1: real, v2: real, w0: real, w1: real)
    requires (a * d - b * c) * k == 1.0
    requires w0 == d * k * v0 + -c * k * v1 + (c * f - d * e) * k * v2
    requires w1 == -b * k * v0 + a * k * v1 + (b * e - a * f) * k * v2
    ensures a * w0 + c * w1 + e * v2 == v0
  {
    calc {
      a * w0 + c * w1 + e * v2;
      (a * d - b * c) * k * v0 + (a * c - c * a) * k * v1 - e * ((a * d - b * c) * k) * v2 + e * v2;
      v0;
    }
  }

  /** Row (d, -c, cf - de)/det of the inverse applied to m's image (u0, u1, v2) of v gives back v0. */
  lemma InverseColumn(a: real, b: real, c: real, d: real, e: real, f: real, k: real,
                      v0: real, v1: real, v2: real, u0: real, u1: real, u2: real)
    requires (a * d - b * c) * k == 1.0
    requires u0 == a * v0 + c * v1 + e * v2 && u1 == b * v0 + d * v1 + f * v2 && u2 == v2
    ensures d * k * u0 + -c * k * u1 + (c * f - d * e) * k * u2 == v0
  {
    calc {
      d * k * u0 + -c * k * u1 + (c * f - d * e) * k * u2;
      (a * d - b * c) * k * v0 + (d * c - c * d) * k * v1 + (d * e - c * f + c * f - d * e) * k * v2;
      v0;
    }
  }

  /** The closed forms: transform_x(m, x) = d*(x/S)/det and transform_y(m, y) = a*(y/S)/det. */
  lemma TransformFormulas(m: Matrix, v: real)
    requires Invertible(m)
    ensures TransformX(m, v) == m[1][1] * (v / MmScale) / Det(m)
    ensures TransformY(m, v) == m[0][0] * (v / MmScale) / Det(m)
  {
    var s := v / MmScale;
    var inv := Inverse(m);
    assert MatVec(inv, [s, 0.0, 0.0])[0] == inv[0][0] * s;
    assert MatVec(inv, [0.0, s, 0.0])[1] == inv[1][1] * s;
    DivisionIsProduct(m[1][1] * s, Det(m));
    DivisionIsProduct(m[0][0] * s, Det(m));
  }

  lemma DivisionIsProduct(x: real, y: real)
    requires y != 0.0
    ensures x / y == x * (1.0 / y)
  {
  }

  /** Length transforms ignore the translation column (e, f) of the matrix. */
  lemma TransformIgnoresTranslation(m: Matrix, e: real, f: real, v: real)
    requires Invertible(m)
    ensures Invertible(WithTranslation(m, e, f))
    ensures TransformX(WithTranslation(m, e, f), v) == TransformX(m, v)
    ensures TransformY(WithTranslation(m, e, f), v) == TransformY(m, v)
  {
    TransformFormulas(m, v);
    TransformFormulas(WithTranslation(m, e, f), v);
  }

  /** Length transforms are linear in the length. */
  lemma TransformIsLinear(m: Matrix, p: real, u: real, q: real, v: real)
    requires Invertible(m)
    ensures TransformX(m, p * u + q * v) == p * TransformX(m, u) + q * TransformX(m, v)
    ensures TransformY(m, p * u + q * v) == p * TransformY(m, u) + q * TransformY(m, v)
  {
    TransformXIsLinear(m, p, u, q, v);
    TransformYIsLinear(m, p, u, q, v);
  }

  lemma TransformXIsLinear(m: Matrix, p: real, u: real, q: real, v: real)
    requires Invertible(m)
    ensures TransformX(m, p * u + q * v) == p * TransformX(m, u) + q * TransformX(m, v)
  {
    TransformDiagonal(m, p * u + q * v);
    TransformDiagonal(m, u);
    TransformDiagonal(m, v);
    ScaledSum(Inverse(m)[0][0], p, u, q, v, TransformX(m, p * u + q * v), TransformX(m, u), TransformX(m, v));
  }

  lemma TransformYIsLinear(m: Matrix, p: real, u: real, q: real, v: real)
    requires Invertible(m)
    ensures TransformY(m, p * u + q * v) == p * TransformY(m, u) + q * TransformY(m, v)
  {
    TransformDiagonal(m, p * u + q * v);
    TransformDiagonal(m, u);
    TransformDiagonal(m, v);
    ScaledSum(Inverse(m)[1][1], p, u, q, v, TransformY(m, p * u + q * v), TransformY(m, u), TransformY(m, v));
  }

  /** Scaling a combination of two lengths by c, after the millimetre conversion, combines their scaled values. */
  lemma ScaledSum(c: real, p: real, u: real, q: real, v: real, x: real, xu: real, xv: real)
    requires x == c * ((p * u + q * v) / MmScale)
    requires xu == c * (u / MmScale) && xv == c * (v / MmScale)
    ensures x == p * xu + q * xv
  {
    DividedSum(p, u, q, v, MmScale);
    Distributes(c, p, u / MmScale, q, v / MmScale);
  }

  /** Dividing a combination of two lengths divides each of them. */
  lemma DividedSum(p: real, u: real, q: real, v: real, k: real)
    requires k != 0.0
    ensures (p * u + q * v) / k == p * (u / k) + q * (v / k)
  {
    var s, t := u / k, v / k;
    assert u == s * k && v == t * k;
    assert p * u + q * v == (p * s + q * t) * k;
  }

  /** A length transform scales its pixel length by a diagonal entry of the inverse. */
  lemma TransformDiagonal(m: Matrix, v: real)
    requires Invertible(m)
    ensures TransformX(m, v) == Inverse(m)[0][0] * (v / MmScale)
    ensures TransformY(m, v) == Inverse(m)[1][1] * (v / MmScale)
  {
  }

  lemma Distributes(c: real, p: real, s: real, q: real, t: real)
    ensures c * (p * s + q * t) == p * (c * s) + q * (c * t)
  {
  }

  /** With the identity matrix a length only changes unit: value / 0.26458. */
  lemma TransformOfIdentity(v: real)
    ensures Invertible(Identity)
    ensures TransformX(Identity, v) == v / MmScale && TransformY(Identity, v) == v / MmScale
  {
    TransformFormulas(Identity, v);
  }

  /**
   * The length round trip: mapping the inverse-transformed vector forward
   * through m gives back the pixel length on the same axis.
   */
  lemma LengthRoundTrip(m: Matrix, v: real)
    requires Invertible(m)
    ensures MatVec(m, MatVec(Inverse(m), [v / MmScale, 0.0, 0.0])) == [v / MmScale, 0.0, 0.0]
    ensures MatVec(m, MatVec(Inverse(m), [0.0, v / MmScale, 0.0])) == [0.0, v / MmScale, 0.0]
  {
    InverseIsInverse(m, [v / MmScale, 0.0, 0.0]);
    InverseIsInverse(m, [0.0, v / MmScale, 0.0]);
  }

  /**
   * For a matrix without rotation or skew, scaling a repositioned offset back
   * by the matrix's own scale recovers the template coordinate in millimetres.
   */
  lemma RepositionUndoesAxisScale(m: Matrix, translate: (real, real), outline: Dimensions, x: real, y: real)
    requires Invertible(m) && m[1][0] == 0.0 && m[0][1] == 0.0
    ensures var r := Reposition(m, translate, outline, x, y);
            (r.0 - outline.x) * m[0][0] * MmScale == x + translate.0
            && (r.1 - outline.y) * m[1][1] * MmScale == y + translate.1
  {
    var a, d := m[0][0], m[1][1];
    var k := 1.0 / Det(m);
    assert Det(m) == a * d && a * d * k == 1.0;
    var inv := Inverse(m);
    assert inv[0][0] == d * k && inv[1][1] == a * k;
    var s, t := (x + translate.0) / MmScale, (y + translate.1) / MmScale;
    var r := Reposition(m, translate, outline, x, y);
    assert r.0 - outline.x == d * k * s;
    assert r.1 - outline.y == a * k * t;
    assert d * k * s * a == s;
    assert a * k * t * d == t;
  }

  /**
   * A stretched background has equal margins inside the key outline; when it
   * starts at the outline's left edge it is exactly as wide as the outline.
   */
  lemma StretchedRectSpansOutline(m: Matrix, translate: (real, real), outline: Dimensions, rect: Rect)
    requires Invertible(m)
    ensures var r := PlaceRect(m, translate, outline, rect, true);
            r.width == outline.width - 2.0 * (r.x - outline.x)
            && (r.x == outline.x ==> r.width == outline.width)
  {
  }
}
