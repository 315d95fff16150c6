/** Square integer matrices: the i-k-j product, its algebra, and the iterated product. */
module Matrices {
  type Matrix = seq<seq<int>>

  /** At least n rows with at least n entries in the first n rows: what the loops index. */
  predicate Covers(m: Matrix, n: nat) {
    |m| >= n && forall i :: 0 <= i < n ==> |m[i]| >= n
  }

  predicate Square(m: Matrix, n: nat) {
    |m| == n && forall i :: 0 <= i < n ==> |m[i]| == n
  }

  /** Sum over k < upto of A[i][k] * B[k][j]. */
  function Dot(a: Matrix, b: Matrix, n: nat, i: nat, j: nat, upto: nat): int
    requires Covers(a, n) && Covers(b, n) && i < n && j < n && upto <= n
  {
    if upto == 0 then 0 else Dot(a, b, n, i, j, upto - 1) + a[i][upto - 1] * b[upto - 1][j]
  }

  /** The matrix product, entry by entry. */
  function Product(a: Matrix, b: Matrix, n: nat): (c: Matrix)
    requires Covers(a, n) && Covers(b, n)
    ensures Square(c, n)
    ensures forall i, j :: 0 <= i < n && 0 <= j < n ==> c[i][j] == Dot(a, b, n, i, j, n)
  {
    seq(n, i requires 0 <= i < n => seq(n, j requires 0 <= j < n => Dot(a, b, n, i, j, n)))
  }

  function Identity(n: nat): (m: Matrix)
    ensures Square(m, n)
  {
    seq(n, i requires 0 <= i < n => seq(n, j requires 0 <= j < n => if i == j then 1 else 0))
  }

  /** right^t by the textbook recursion, independent of the loop in the program. */
  function Power(m: Matrix, n: nat, t: nat): (p: Matrix)
    requires Square(m, n)
    ensures Square(p, n)
  {
    if t == 0 then Identity(n) else Product(m, Power(m, n, t - 1), n)
  }

  /** What t passes of the loop compute: the product with `right` on the right, again and again. */
  function Iterate(left: Matrix, right: Matrix, n: nat, t: nat): (p: Matrix)
    requires Covers(left, n) && Covers(right, n)
    ensures Covers(p, n) && (t > 0 || Square(left, n) ==> Square(p, n))
  {
    if t == 0 then left else Product(Iterate(left, right, n, t - 1), right, n)
  }

  // ---------------------------------------------------------------- algebra of the product

  lemma SameMatrix(a: Matrix, b: Matrix, n: nat)
    requires Square(a, n) && Square(b, n)
    requires forall i, j :: 0 <= i < n && 0 <= j < n ==> a[i][j] == b[i][j]
    ensures a == b
  {
    forall i | 0 <= i < n ensures a[i] == b[i] {}
  }

  /** Sum over k < ku of (sum over l < lu of a[i][l] * b[l][k]) * c[k][j]. */
  function LeftSum(a: Matrix, b: Matrix, c: Matrix, n: nat, i: nat, j: nat, lu: nat, ku: nat): int
    requires Square(a, n) && Square(b, n) && Square(c, n) && i < n && j < n && lu <= n && ku <= n
  {
    if ku == 0 then 0
    else LeftSum(a, b, c, n, i, j, lu, ku - 1) + Dot(a, b, n, i, ku - 1, lu) * c[ku - 1][j]
  }

  /** Sum over l < lu of a[i][l] * (sum over k < ku of b[l][k] * c[k][j]). */
  function RightSum(a: Matrix, b: Matrix, c: Matrix, n: nat, i: nat, j: nat, lu: nat, ku: nat): int
    requires Square(a, n) && Square(b, n) && Square(c, n) && i < n && j < n && lu <= n && ku <= n
  {
    if lu == 0 then 0
    else RightSum(a, b, c, n, i, j, lu - 1, ku) + a[i][lu - 1] * Dot(b, c, n, lu - 1, j, ku)
  }

  lemma {:induction false} RightSumStep(a: Matrix, b: Matrix, c: Matrix, n: nat, i: nat, j: nat, lu: nat, ku: nat)
    requires Square(a, n) && Square(b, n) && Square(c, n) && i < n && j < n && lu <= n && 0 < ku <= n
    ensures RightSum(a, b, c, n, i, j, lu, ku)
         == RightSum(a, b, c, n, i, j, lu, ku - 1) + Dot(a, b, n, i, ku - 1, lu) * c[ku - 1][j]
    decreases lu
  {
    if lu > 0 {
      RightSumStep(a, b, c, n, i, j, lu - 1, ku);
      var x, y, z := a[i][lu - 1], b[lu - 1][ku - 1], c[ku - 1][j];
      assert x * (Dot(b, c, n, lu - 1, j, ku - 1) + y * z) == x * Dot(b, c, n, lu - 1, j, ku - 1) + x * y * z;
      assert (Dot(a, b, n, i, ku - 1, lu - 1) + x * y) * z == Dot(a, b, n, i, ku - 1, lu - 1) * z + x * y * z;
    }
  }

  lemma {:induction false} RightSumEmpty(a: Matrix, b: Matrix, c: Matrix, n: nat, i: nat, j: nat, lu: nat)
    requires Square(a, n) && Square(b, n) && Square(c, n) && i < n && j < n && lu <= n
    ensures RightSum(a, b, c, n, i, j, lu, 0) == 0
  {
    if lu > 0 {
      RightSumEmpty(a, b, c, n, i, j, lu - 1);
    }
  }

  /** The two orders of summation agree. */
  lemma {:induction false} ExchangeSums(a: Matrix, b: Matrix, c: Matrix, n: nat, i: nat, j: nat, ku: nat)
    requires Square(a, n) && Square(b, n) && Square(c, n) && i < n && j < n && ku <= n
    ensures LeftSum(a, b, c, n, i, j, n, ku) == RightSum(a, b, c, n, i, j, n, ku)
  {
    if ku == 0 {
      RightSumEmpty(a, b, c, n, i, j, n);
    } else {
      ExchangeSums(a, b, c, n, i, j, ku - 1);
      RightSumStep(a, b, c, n, i, j, n, ku);
    }
  }

  lemma {:induction false} LeftSumIsDot(a: Matrix, b: Matrix, c: Matrix, n: nat, i: nat, j: nat, ku: nat)
    requires Square(a, n) && Square(b, n) && Square(c, n) && i < n && j < n && ku <= n
    ensures LeftSum(a, b, c, n, i, j, n, ku) == Dot(Product(a, b, n), c, n, i, j, ku)
  {
    if ku > 0 {
      LeftSumIsDot(a, b, c, n, i, j, ku - 1);
    }
  }

  lemma {:induction false} RightSumIsDot(a: Matrix, b: Matrix, c: Matrix, n: nat, i: nat, j: nat, lu: nat)
    requires Square(a, n) && Square(b, n) && Square(c, n) && i < n && j < n && lu <= n
    ensures RightSum(a, b, c, n, i, j, lu, n) == Dot(a, Product(b, c, n), n, i, j, lu)
  {
    if lu > 0 {
      RightSumIsDot(a, b, c, n, i, j, lu - 1);
    }
  }

  lemma ProductAssociative(a: Matrix, b: Matrix, c: Matrix, n: nat)
    requires Square(a, n) && Square(b, n) && Square(c, n)
    ensures Product(Product(a, b, n), c, n) == Product(a, Product(b, c, n), n)
  {
    forall i, j | 0 <= i < n && 0 <= j < n
      ensures Product(Product(a, b, n), c, n)[i][j] == Product(a, Product(b, c, n), n)[i][j]
    {
      LeftSumIsDot(a, b, c, n, i, j, n);
      ExchangeSums(a, b, c, n, i, j, n);
      RightSumIsDot(a, b, c, n, i, j, n);
    }
    SameMatrix(Product(Product(a, b, n), c, n), Product(a, Product(b, c, n), n), n);
  }

  lemma {:induction false} DotIdentity(a: Matrix, n: nat, i: nat, j: nat, upto: nat)
    requires Square(a, n) && i < n && j < n && upto <= n
    ensures Dot(a, Identity(n), n, i, j, upto) == (if j < upto then a[i][j] else 0)
    ensures Dot(Identity(n), a, n, i, j, upto) == (if i < upto then a[i][j] else 0)
  {
    if upto > 0 {
      DotIdentity(a, n, i, j, upto - 1);
    }
  }

  lemma ProductIdentity(a: Matrix, n: nat)
    requires Square(a, n)
    ensures Product(a, Identity(n), n) == a && Product(Identity(n), a, n) == a
  {
    forall i, j | 0 <= i < n && 0 <= j < n
      ensures Product(a, Identity(n), n)[i][j] == a[i][j] && Product(Identity(n), a, n)[i][j] == a[i][j]
    {
      DotIdentity(a, n, i, j, n);
    }
    SameMatrix(Product(a, Identity(n), n), a, n);
    SameMatrix(Product(Identity(n), a, n), a, n);
  }

  // ---------------------------------------------------------------- the iterated product

  lemma {:induction false} PowerSnoc(m: Matrix, n: nat, t: nat)
    requires Square(m, n)
    ensures Product(m, Power(m, n, t), n) == Product(Power(m, n, t), m, n)
  {
    if t == 0 {
      ProductIdentity(m, n);
    } else {
      PowerSnoc(m, n, t - 1);
      ProductAssociative(m, Power(m, n, t - 1), m, n);
    }
  }

  /** t passes of the loop multiply `left` by the independently defined power of `right`. */
  lemma {:induction false} IterateIsPower(left: Matrix, right: Matrix, n: nat, t: nat)
    requires Square(left, n) && Square(right, n)
    ensures Iterate(left, right, n, t) == Product(left, Power(right, n, t), n)
  {
    if t == 0 {
      ProductIdentity(left, n);
    } else {
      IterateIsPower(left, right, n, t - 1);
      ProductAssociative(left, Power(right, n, t - 1), right, n);
      PowerSnoc(right, n, t - 1);
    }
  }

  /** s steps and then t steps are s + t steps. */
  lemma {:induction false} IterateAdds(left: Matrix, right: Matrix, n: nat, s: nat, t: nat)
    requires Covers(left, n) && Covers(right, n)
    ensures Iterate(Iterate(left, right, n, s), right, n, t) == Iterate(left, right, n, s + t)
  {
    if t > 0 {
      IterateAdds(left, right, n, s, t - 1);
    }
  }

  // ---------------------------------------------------------------- growth

  function Abs(x: int): nat { if x < 0 then -x else x }

  predicate Bounded(m: Matrix, n: nat, a: nat)
    requires Covers(m, n)
  {
    forall i, j :: 0 <= i < n && 0 <= j < n ==> Abs(m[i][j]) <= a
  }

  lemma AbsProduct(x: int, y: int, a: nat, b: nat)
    requires Abs(x) <= a && Abs(y) <= b
    ensures Abs(x * y) <= a * b
  {
    assert Abs(x * y) == Abs(x) * Abs(y) by {
      if x < 0 && y < 0 { assert x * y == (-x) * (-y); }
      else if x < 0 { assert x * y == -((-x) * y); }
      else if y < 0 { assert x * y == -(x * (-y)); }
    }
    assert Abs(x) * Abs(y) <= a * Abs(y);
    assert a * Abs(y) <= a * b;
  }

  lemma {:induction false} DotBounded(l: Matrix, r: Matrix, n: nat, i: nat, j: nat, upto: nat, a: nat, b: nat)
    requires Covers(l, n) && Covers(r, n) && i < n && j < n && upto <= n
    requires Bounded(l, n, a) && Bounded(r, n, b)
    ensures Abs(Dot(l, r, n, i, j, upto)) <= upto * (a * b)
  {
    if upto > 0 {
      DotBounded(l, r, n, i, j, upto - 1, a, b);
      AbsProduct(l[i][upto - 1], r[upto - 1][j], a, b);
      assert upto * (a * b) == (upto - 1) * (a * b) + a * b;
    }
  }

  /** a * (n * b)^t */
  function Growth(a: nat, n: nat, b: nat, t: nat): nat {
    if t == 0 then a else Growth(a, n, b, t - 1) * (n * b)
  }

  lemma GrowthStep(upto: nat, n: nat, g: nat, b: nat)
    requires upto <= n
    ensures upto * (g * b) <= g * (n * b)
  {
    assert n * (g * b) == g * (n * b);
    assert upto * (g * b) <= n * (g * b);
  }

  lemma {:induction false} IterateBounded(left: Matrix, right: Matrix, n: nat, a: nat, b: nat, t: nat)
    requires Covers(left, n) && Covers(right, n)
    requires Bounded(left, n, a) && Bounded(right, n, b)
    ensures Bounded(Iterate(left, right, n, t), n, Growth(a, n, b, t))
  {
    if t > 0 {
      IterateBounded(left, right, n, a, b, t - 1);
      StepBounded(Iterate(left, right, n, t - 1), right, n, Growth(a, n, b, t - 1), b);
    }
  }

  /** One product multiplies the bound by n*b. */
  lemma StepBounded(l: Matrix, r: Matrix, n: nat, g: nat, b: nat)
    requires Covers(l, n) && Covers(r, n) && Bounded(l, n, g) && Bounded(r, n, b)
    ensures Bounded(Product(l, r, n), n, g * (n * b))
  {
    forall i, j | 0 <= i < n && 0 <= j < n ensures Abs(Product(l, r, n)[i][j]) <= g * (n * b) {
      DotBounded(l, r, n, i, j, n, g, b);
      GrowthStep(n, n, g, b);
    }
  }

  /** Every partial sum of step t + 1 stays within a * (n*b)^(t+1). */
  lemma PartialSumBounded(left: Matrix, right: Matrix, n: nat, i: nat, j: nat, upto: nat, a: nat, b: nat, t: nat)
    requires Covers(left, n) && Covers(right, n) && i < n && j < n && upto <= n
    requires Bounded(left, n, a) && Bounded(right, n, b)
    ensures Abs(Dot(Iterate(left, right, n, t), right, n, i, j, upto)) <= Growth(a, n, b, t + 1)
  {
    IterateBounded(left, right, n, a, b, t);
    DotBounded(Iterate(left, right, n, t), right, n, i, j, upto, Growth(a, n, b, t), b);
    GrowthStep(upto, n, Growth(a, n, b, t), b);
  }

  /** Growth is monotone in t once n*b >= 1, and everything after the start is 0 when n*b = 0. */
  lemma {:induction false} GrowthMonotone(a: nat, n: nat, b: nat, t: nat, u: nat)
    requires t <= u
    ensures n * b >= 1 ==> Growth(a, n, b, t) <= Growth(a, n, b, u)
    ensures n * b == 0 && t > 0 ==> Growth(a, n, b, t) == 0
    decreases u
  {
    if t < u {
      GrowthMonotone(a, n, b, t, u - 1);
      if n * b >= 1 {
        assert Growth(a, n, b, u - 1) * (n * b) >= Growth(a, n, b, u - 1);
      }
    }
  }
}
