/**
 * Component-wise vector arithmetic of `libra::Vector<N, T>` over exact reals.
 *
 * The in-place operators (`+=`, `-=`, `*=`, `/=`, `FillUp`, `Normalize`) work on
 * the vector's component storage, an `array<real>` of length N.  The operators
 * that return a new vector (`+`, `-`, scalar `*`, unary `-`, `InnerProduct`)
 * take and return values, `seq<real>`, and build their result in a local array
 * as the source does.  Each is specified by one of the functions below.
 */
module VectorMath {

  /** The vector of `n` components, all equal to `c`. */
  function Fill(n: nat, c: real): seq<real>
  {
    seq(n, _ => c)
  }

  function Zero(n: nat): seq<real>
  {
    Fill(n, 0.0)
  }

  /** Component-wise sum. */
  function Add(x: seq<real>, y: seq<real>): seq<real>
    requires |x| == |y|
  {
    seq(|x|, i requires 0 <= i < |x| => x[i] + y[i])
  }

  /** Component-wise difference. */
  function Sub(x: seq<real>, y: seq<real>): seq<real>
    requires |x| == |y|
  {
    seq(|x|, i requires 0 <= i < |x| => x[i] - y[i])
  }

  /** Every component multiplied by `k`. */
  function Scale(k: real, x: seq<real>): seq<real>
  {
    seq(|x|, i requires 0 <= i < |x| => k * x[i])
  }

  /** Sum of the component-wise products, accumulated from the first component. */
  function Dot(x: seq<real>, y: seq<real>): real
    requires |x| == |y|
  {
    if |x| == 0 then 0.0
    else Dot(x[..|x| - 1], y[..|y| - 1]) + x[|x| - 1] * y[|y| - 1]
  }

  /** The cross product of two 3-vectors: a 3-vector orthogonal to both arguments. */
  function Cross(a: seq<real>, b: seq<real>): (r: seq<real>)
    requires |a| == 3 && |b| == 3
    ensures |r| == 3
    ensures Dot(r, a) == 0.0 && Dot(r, b) == 0.0
  {
    assert a == [a[0], a[1], a[2]] && b == [b[0], b[1], b[2]];
    CrossOfOrthogonal(a[0], a[1], a[2], b[0], b[1], b[2]);
    CrossOf(a[0], a[1], a[2], b[0], b[1], b[2])
  }

  function CrossOf(a0: real, a1: real, a2: real, b0: real, b1: real, b2: real): seq<real>
  {
    [a1 * b2 - a2 * b1,
     a2 * b0 - a0 * b2,
     a0 * b1 - a1 * b0]
  }

  // ---------------------------------------------------------------------------
  // Construction and in-place operators
  // ---------------------------------------------------------------------------

  /** The fill constructor `Vector(n)`: every component is `n`. */
  method FillConstruct(size: nat, n: real) returns (v: array<real>)
    ensures fresh(v)
    ensures v[..] == Fill(size, n)
  {
    v := new real[size];
    var i := 0;
    while i < size
      invariant 0 <= i <= size
      invariant forall k :: 0 <= k < i ==> v[k] == n
    {
      v[i] := n;
      i := i + 1;
    }
  }

  /** `FillUp(v, n)`: overwrites every component of `v` with `n`. */
  method FillUp(v: array<real>, n: real)
    modifies v
    ensures v[..] == Fill(v.Length, n)
  {
    var i := 0;
    while i < v.Length
      invariant 0 <= i <= v.Length
      invariant forall k :: 0 <= k < i ==> v[k] == n
    {
      v[i] := n;
      i := i + 1;
    }
  }

  /** `v += w`; `w` may be `v` itself, and is otherwise left unchanged. */
  method AddAssign(v: array<real>, w: array<real>)
    requires v.Length == w.Length
    modifies v
    ensures v[..] == Add(old(v[..]), old(w[..]))
    ensures w != v ==> w[..] == old(w[..])
  {
    var i := 0;
    while i < v.Length
      invariant 0 <= i <= v.Length
      invariant forall k :: 0 <= k < i ==> v[k] == old(v[k]) + old(w[k])
      invariant forall k :: i <= k < v.Length ==> v[k] == old(v[k]) && w[k] == old(w[k])
    {
      v[i] := v[i] + w[i];
      i := i + 1;
    }
  }

  /** `v -= w`; `w` may be `v` itself, and is otherwise left unchanged. */
  method SubAssign(v: array<real>, w: array<real>)
    requires v.Length == w.Length
    modifies v
    ensures v[..] == Sub(old(v[..]), old(w[..]))
    ensures w != v ==> w[..] == old(w[..])
  {
    var i := 0;
    while i < v.Length
      invariant 0 <= i <= v.Length
      invariant forall k :: 0 <= k < i ==> v[k] == old(v[k]) - old(w[k])
      invariant forall k :: i <= k < v.Length ==> v[k] == old(v[k]) && w[k] == old(w[k])
    {
      v[i] := v[i] - w[i];
      i := i + 1;
    }
  }

  /** `v *= n`. */
  method ScaleAssign(v: array<real>, n: real)
    modifies v
    ensures v[..] == Scale(n, old(v[..]))
  {
    var i := 0;
    while i < v.Length
      invariant 0 <= i <= v.Length
      invariant forall k :: 0 <= k < i ==> v[k] == n * old(v[k])
      invariant forall k :: i <= k < v.Length ==> v[k] == old(v[k])
    {
      v[i] := v[i] * n;
      i := i + 1;
    }
    assert forall k :: 0 <= k < v.Length ==> v[..][k] == Scale(n, old(v[..]))[k];
  }

  /** `v /= n`, which the source computes as `v *= 1.0 / n`. */
  method DivAssign(v: array<real>, n: real)
    requires n != 0.0
    modifies v
    ensures v[..] == Scale(1.0 / n, old(v[..]))
    ensures Scale(n, v[..]) == old(v[..])
  {
    ScaleAssign(v, 1.0 / n);
    ScaleByInverse(old(v[..]), n);
  }

  /**
   * The value `Normalize` leaves behind, for a vector `x` whose Euclidean norm
   * is `norm`: the zero vector stays as it is, any other one becomes a unit vector.
   */
  function Normalized(x: seq<real>, norm: real): (u: seq<real>)
    requires norm >= 0.0 && norm * norm == Dot(x, x)
    ensures |u| == |x|
    ensures norm == 0.0 ==> u == x == Zero(|x|)
    ensures norm != 0.0 ==> Dot(u, u) == 1.0
  {
    SelfDotZero(x);
    if norm == 0.0 then x
    else
      NormalizedHasUnitLength(x, norm);
      Scale(1.0 / norm, x)
  }

  /**
   * `Normalize(v)`.  The Euclidean norm (a square root) is supplied as
   * `norm`; a zero-norm vector is returned unchanged, any other one is scaled
   * by `1 / norm` and then has unit length.
   */
  method Normalize(v: array<real>, norm: real)
    requires norm >= 0.0 && norm * norm == Dot(v[..], v[..])
    modifies v
    ensures v[..] == Normalized(old(v[..]), norm)
    ensures norm == 0.0 ==> v[..] == old(v[..]) && v[..] == Zero(v.Length)
    ensures norm != 0.0 ==> v[..] == Scale(1.0 / norm, old(v[..]))
    ensures norm != 0.0 ==> Dot(v[..], v[..]) == 1.0
  {
    if norm == 0.0 {
      SelfDotZero(v[..]);
      return;
    }
    ghost var before := v[..];
    ScaleAssign(v, 1.0 / norm);
    NormalizedHasUnitLength(before, norm);
  }

  // ---------------------------------------------------------------------------
  // Operators returning a new vector
  // ---------------------------------------------------------------------------

  /** Binary `lhs + rhs`. */
  method Plus(lhs: seq<real>, rhs: seq<real>) returns (r: seq<real>)
    requires |lhs| == |rhs|
    ensures |r| == |lhs|
    ensures forall i :: 0 <= i < |r| ==> r[i] == lhs[i] + rhs[i]
    ensures Sub(r, rhs) == lhs
  {
    var temp := new real[|lhs|];
    var i := 0;
    while i < |lhs|
      invariant 0 <= i <= |lhs|
      invariant forall k :: 0 <= k < i ==> temp[k] == lhs[k] + rhs[k]
    {
      temp[i] := lhs[i] + rhs[i];
      i := i + 1;
    }
    r := temp[..];
    assert r == Add(lhs, rhs);
    SubUndoesAdd(lhs, rhs);
  }

  /** Binary `lhs - rhs`. */
  method Minus(lhs: seq<real>, rhs: seq<real>) returns (r: seq<real>)
    requires |lhs| == |rhs|
    ensures |r| == |lhs|
    ensures forall i :: 0 <= i < |r| ==> r[i] == lhs[i] - rhs[i]
    ensures Add(r, rhs) == lhs
  {
    var temp := new real[|lhs|];
    var i := 0;
    while i < |lhs|
      invariant 0 <= i <= |lhs|
      invariant forall k :: 0 <= k < i ==> temp[k] == lhs[k] - rhs[k]
    {
      temp[i] := lhs[i] - rhs[i];
      i := i + 1;
    }
    r := temp[..];
    assert Add(r, rhs) == lhs;
  }

  /** Scalar `lhs * rhs`. */
  method Times(lhs: real, rhs: seq<real>) returns (r: seq<real>)
    ensures |r| == |rhs|
    ensures forall i :: 0 <= i < |r| ==> r[i] == lhs * rhs[i]
  {
    var temp := new real[|rhs|];
    var i := 0;
    while i < |rhs|
      invariant 0 <= i <= |rhs|
      invariant forall k :: 0 <= k < i ==> temp[k] == lhs * rhs[k]
    {
      temp[i] := lhs * rhs[i];
      i := i + 1;
    }
    r := temp[..];
  }

  /** Unary `-v`: a copy of `v` scaled in place by -1; adding it to `v` gives zero. */
  method Negated(v: seq<real>) returns (r: seq<real>)
    ensures r == Scale(-1.0, v)
    ensures Add(v, r) == Zero(|v|)
  {
    var temp := new real[|v|](i requires 0 <= i < |v| => v[i]);
    assert temp[..] == v;
    ScaleAssign(temp, -1.0);
    r := temp[..];
    assert Add(v, r) == Zero(|v|);
  }

  /** `InnerProduct(lhs, rhs)`, accumulated component by component. */
  method InnerProduct(lhs: seq<real>, rhs: seq<real>) returns (r: real)
    requires |lhs| == |rhs|
    ensures r == Dot(lhs, rhs)
    ensures r == Dot(rhs, lhs)
  {
    r := 0.0;
    var i := 0;
    while i < |lhs|
      invariant 0 <= i <= |lhs|
      invariant r == Dot(lhs[..i], rhs[..i])
    {
      assert lhs[..i + 1][..i] == lhs[..i] && rhs[..i + 1][..i] == rhs[..i];
      r := r + lhs[i] * rhs[i];
      i := i + 1;
    }
    assert lhs[..i] == lhs && rhs[..i] == rhs;
    DotSymmetric(lhs, rhs);
  }

  // ---------------------------------------------------------------------------
  // Properties
  // ---------------------------------------------------------------------------

  /** Subtracting `y` undoes adding it. */
  lemma SubUndoesAdd(x: seq<real>, y: seq<real>)
    requires |x| == |y|
    ensures Sub(Add(x, y), y) == x
  {
    assert forall i :: 0 <= i < |x| ==> Sub(Add(x, y), y)[i] == x[i];
  }

  /** Scaling by `1/n` and then by `n` gives the vector back. */
  lemma ScaleByInverse(x: seq<real>, n: real)
    requires n != 0.0
    ensures Scale(n, Scale(1.0 / n, x)) == x
  {
    forall i | 0 <= i < |x|
      ensures Scale(n, Scale(1.0 / n, x))[i] == x[i]
    {
      calc {
        n * ((1.0 / n) * x[i]);
        (n * (1.0 / n)) * x[i];
        x[i];
      }
    }
  }

  /** The inner product does not depend on the order of its arguments. */
  lemma {:induction false} DotSymmetric(x: seq<real>, y: seq<real>)
    requires |x| == |y|
    ensures Dot(x, y) == Dot(y, x)
  {
    if |x| > 0 {
      DotSymmetric(x[..|x| - 1], y[..|y| - 1]);
    }
  }

  /** A scalar factor on the left argument comes out of the inner product. */
  lemma {:induction false} DotScaleLeft(k: real, x: seq<real>, y: seq<real>)
    requires |x| == |y|
    ensures Dot(Scale(k, x), y) == k * Dot(x, y)
  {
    if |x| > 0 {
      var n := |x| - 1;
      var sx := Scale(k, x);
      var d := Dot(x[..n], y[..n]);
      assert Dot(sx[..n], y[..n]) == k * d by {
        assert forall i :: 0 <= i < n ==> sx[..n][i] == Scale(k, x[..n])[i];
        assert sx[..n] == Scale(k, x[..n]);
        DotScaleLeft(k, x[..n], y[..n]);
      }
      assert Dot(sx, y) == k * d + (k * x[n]) * y[n];
      ScaleProduct(k, x[n], y[n], d);
    }
  }

  /** The inductive step of `DotScaleLeft`, kept apart from the sequence reasoning. */
  lemma ScaleProduct(k: real, a: real, b: real, d: real)
    ensures k * d + (k * a) * b == k * (d + a * b)
  {
  }

  /** The squared norm is never negative, and is zero only for the zero vector. */
  lemma {:induction false} SelfDotZero(x: seq<real>)
    ensures Dot(x, x) >= 0.0
    ensures Dot(x, x) == 0.0 <==> x == Zero(|x|)
  {
    if |x| > 0 {
      var n := |x| - 1;
      SelfDotZero(x[..n]);
      if x[n] != 0.0 {
        AddPositiveProduct(Dot(x[..n], x[..n]), x[n], x[n]);
      }
      if x == Zero(|x|) {
        assert x[..n] == Zero(n);
      }
      if Dot(x, x) == 0.0 {
        assert x[..n] == Zero(n);
        assert forall i :: 0 <= i < |x| ==> x[i] == 0.0 by {
          assert forall i :: 0 <= i < n ==> x[i] == x[..n][i];
        }
        assert x == Zero(|x|);
      }
    }
  }

  /** Adding a product of two factors of the same sign to a non-negative value. */
  lemma AddPositiveProduct(d: real, b: real, c: real)
    requires d >= 0.0 && ((b > 0.0 && c > 0.0) || (b < 0.0 && c < 0.0))
    ensures d + b * c > 0.0
  {
  }

  /** Dividing a vector by its (non-zero) norm gives a unit vector. */
  lemma NormalizedHasUnitLength(x: seq<real>, norm: real)
    requires norm > 0.0 && norm * norm == Dot(x, x)
    ensures Dot(Scale(1.0 / norm, x), Scale(1.0 / norm, x)) == 1.0
  {
    var k := 1.0 / norm;
    var u := Scale(k, x);
    DotScaleLeft(k, x, u);
    DotSymmetric(x, u);
    DotScaleLeft(k, x, x);
    calc {
      Dot(u, u);
      k * Dot(x, u);
      k * Dot(u, x);
      k * (k * Dot(x, x));
      (k * norm) * (k * norm);
      1.0;
    }
  }

  /** The inner product of short vectors, written out. */
  lemma Dot1(x0: real, y0: real)
    ensures Dot([x0], [y0]) == x0 * y0
  {
    assert [x0][..0] == [] && [y0][..0] == [];
  }

  lemma Dot2(x0: real, x1: real, y0: real, y1: real)
    ensures Dot([x0, x1], [y0, y1]) == x0 * y0 + x1 * y1
  {
    assert [x0, x1][..1] == [x0] && [y0, y1][..1] == [y0];
    Dot1(x0, y0);
  }

  lemma Dot3(x0: real, x1: real, x2: real, y0: real, y1: real, y2: real)
    ensures Dot([x0, x1, x2], [y0, y1, y2]) == x0 * y0 + x1 * y1 + x2 * y2
  {
    assert [x0, x1, x2][..2] == [x0, x1] && [y0, y1, y2][..2] == [y0, y1];
    Dot2(x0, x1, y0, y1);
  }

  /** Swapping the arguments of the cross product negates it. */
  lemma CrossAntiCommutative(a: seq<real>, b: seq<real>)
    requires |a| == 3 && |b| == 3
    ensures Cross(b, a) == Scale(-1.0, Cross(a, b))
  {
  }

  /** The two polynomial identities behind orthogonality of the cross product. */
  lemma CrossTermsCancel(a0: real, a1: real, a2: real, b0: real, b1: real, b2: real)
    ensures (a1 * b2 - a2 * b1) * a0 + (a2 * b0 - a0 * b2) * a1 + (a0 * b1 - a1 * b0) * a2 == 0.0
    ensures (a1 * b2 - a2 * b1) * b0 + (a2 * b0 - a0 * b2) * b1 + (a0 * b1 - a1 * b0) * b2 == 0.0
  {
  }

  lemma CrossOfOrthogonal(a0: real, a1: real, a2: real, b0: real, b1: real, b2: real)
    ensures Dot(CrossOf(a0, a1, a2, b0, b1, b2), [a0, a1, a2]) == 0.0
    ensures Dot(CrossOf(a0, a1, a2, b0, b1, b2), [b0, b1, b2]) == 0.0
  {
    Dot3(a1 * b2 - a2 * b1, a2 * b0 - a0 * b2, a0 * b1 - a1 * b0, a0, a1, a2);
    Dot3(a1 * b2 - a2 * b1, a2 * b0 - a0 * b2, a0 * b1 - a1 * b0, b0, b1, b2);
    CrossTermsCancel(a0, a1, a2, b0, b1, b2);
  }
}
