/** The matrix method on machine integers, and its transport through the request message. */
module MatrixService {
  import opened Words
  import opened Matrices

  type IntMatrix = seq<seq<Int32>>

  predicate Fits(x: int) { -0x8000_0000 <= x <= INT_MAX }

  // ---------------------------------------------------------------- the product and its iteration

  /** Exactly what the triple loop needs: no single product and no partial sum overflows. */
  ghost predicate NoOverflow(a: Matrix, b: Matrix, n: nat)
    requires Covers(a, n) && Covers(b, n)
  {
    forall i, j, k :: 0 <= i < n && 0 <= j < n && 0 <= k < n ==>
      Fits(a[i][k] * b[k][j]) && Fits(Dot(a, b, n, i, j, k + 1))
  }

  method Multiply(a: IntMatrix, b: IntMatrix) returns (c: IntMatrix)
    requires Covers(a, |a|) && Covers(b, |a|) && NoOverflow(a, b, |a|)
    ensures c == Product(a, b, |a|)
  {
    var n := |a|;
    c := seq(n, _ => seq(n, _ => 0));
    var i := 0;
    while i < n
      invariant i <= n && Square(c, n)
      invariant forall x, y :: 0 <= x < n && 0 <= y < n ==> c[x][y] == if x < i then Dot(a, b, n, x, y, n) else 0
    {
      var k := 0;
      while k < n
        invariant k <= n && Square(c, n)
        invariant forall x, y :: 0 <= x < n && 0 <= y < n && x != i ==>
          c[x][y] == if x < i then Dot(a, b, n, x, y, n) else 0
        invariant forall y :: 0 <= y < n ==> c[i][y] == Dot(a, b, n, i, y, k)
      {
        var j := 0;
        while j < n
          invariant j <= n && Square(c, n)
          invariant forall x, y :: 0 <= x < n && 0 <= y < n && x != i ==>
            c[x][y] == if x < i then Dot(a, b, n, x, y, n) else 0
          invariant forall y :: 0 <= y < n ==> c[i][y] == Dot(a, b, n, i, y, if y < j then k + 1 else k)
        {
          assert Fits(a[i][k] * b[k][j]) && Fits(Dot(a, b, n, i, j, k + 1));
          var p: Int32 := a[i][k] * b[k][j];
          var sum: Int32 := c[i][j] + p;
          var row: seq<Int32> := c[i];
          row := row[j := sum];
          c := c[i := row];
          j := j + 1;
        }
        k := k + 1;
      }
      i := i + 1;
    }
    SameMatrix(c, Product(a, b, n), n);
  }

  /** No step of the iteration overflows. */
  ghost predicate AllStepsFit(left: Matrix, right: Matrix, n: nat, times: int)
    requires Covers(left, n) && Covers(right, n)
  {
    forall t: nat :: t < times ==> NoOverflow(Iterate(left, right, n, t), right, n)
  }

  /** What the loops index and the arithmetic needs; nothing when `times` is not positive. */
  ghost predicate Computable(left: Matrix, right: Matrix, times: int) {
    times > 0 ==> Covers(left, |left|) && Covers(right, |left|) && AllStepsFit(left, right, |left|, times)
  }

  ghost function CalcResult(left: Matrix, right: Matrix, times: int): Matrix
    requires Computable(left, right, times)
  {
    if times <= 0 then left else Iterate(left, right, |left|, times)
  }

  method CalcMatrix(left: IntMatrix, right: IntMatrix, times: Int32) returns (result: IntMatrix)
    requires Computable(left, right, times)
    ensures result == CalcResult(left, right, times)
    ensures times <= 0 ==> result == left
    ensures times > 0 ==> result == Iterate(left, right, |left|, times)
  {
    if times <= 0 {
      return left;
    }
    var n := |left|;
    result := left;
    var t := 0;
    while t < times
      invariant 0 <= t <= times && |result| == n
      invariant result == Iterate(left, right, n, t)
    {
      result := Multiply(result, right);
      t := t + 1;
    }
  }

  /** left * right^times, for square inputs and every non-negative `times`. */
  lemma CalcMatrixIsPower(left: Matrix, right: Matrix, times: nat)
    requires Square(left, |left|) && Square(right, |left|) && Computable(left, right, times)
    ensures CalcResult(left, right, times) == Product(left, Power(right, |left|, times), |left|)
  {
    IterateIsPower(left, right, |left|, times);
  }

  /** A caller's check that rules out every overflow: a * (n*b)^times <= INT_MAX. */
  lemma GrowthBoundSuffices(left: Matrix, right: Matrix, times: int, a: nat, b: nat)
    requires times > 0 ==> Covers(left, |left|) && Covers(right, |left|)
    requires times > 0 ==> Bounded(left, |left|, a) && Bounded(right, |left|, b)
    requires times > 0 ==> Growth(a, |left|, b, times) <= INT_MAX
    ensures Computable(left, right, times)
  {
    var n := |left|;
    if times > 0 {
      forall t: nat | t < times ensures NoOverflow(Iterate(left, right, n, t), right, n) {
        StepFits(left, right, n, times, a, b, t);
      }
    }
  }

  lemma StepFits(left: Matrix, right: Matrix, n: nat, times: nat, a: nat, b: nat, t: nat)
    requires Covers(left, n) && Covers(right, n) && Bounded(left, n, a) && Bounded(right, n, b)
    requires t < times && Growth(a, n, b, times) <= INT_MAX
    ensures NoOverflow(Iterate(left, right, n, t), right, n)
  {
    var bound := Growth(a, n, b, t + 1);
    assert bound <= INT_MAX by { GrowthMonotone(a, n, b, t + 1, times); }
    forall i, j, k | 0 <= i < n && 0 <= j < n && 0 <= k < n
      ensures Fits(Iterate(left, right, n, t)[i][k] * right[k][j])
      ensures Fits(Dot(Iterate(left, right, n, t), right, n, i, j, k + 1))
    {
      PartialSumBounded(left, right, n, i, j, k + 1, a, b, t);
      TermBounded(left, right, n, i, j, k, a, b, t);
    }
  }

  /** Every single product of step t + 1 stays within a * (n*b)^(t+1). */
  lemma TermBounded(left: Matrix, right: Matrix, n: nat, i: nat, j: nat, k: nat, a: nat, b: nat, t: nat)
    requires Covers(left, n) && Covers(right, n) && i < n && j < n && k < n
    requires Bounded(left, n, a) && Bounded(right, n, b)
    ensures Abs(Iterate(left, right, n, t)[i][k] * right[k][j]) <= Growth(a, n, b, t + 1)
  {
    IterateBounded(left, right, n, a, b, t);
    AbsProduct(Iterate(left, right, n, t)[i][k], right[k][j], Growth(a, n, b, t), b);
    GrowthStep(1, n, Growth(a, n, b, t), b);
  }

  // ---------------------------------------------------------------- transport

  /** A repeated field of repeated int32. */
  datatype IntList = IntList(edge: seq<Int32>)

  datatype CalcRequest = CalcRequest(left: seq<IntList>, right: seq<IntList>, times: UInt32)

  function Unwrapped(rows: seq<IntList>): (m: IntMatrix)
    ensures |m| == |rows| && forall i :: 0 <= i < |rows| ==> m[i] == rows[i].edge
  {
    seq(|rows|, i requires 0 <= i < |rows| => rows[i].edge)
  }

  function Wrapped(m: IntMatrix): (rows: seq<IntList>)
    ensures Unwrapped(rows) == m
  {
    seq(|m|, i requires 0 <= i < |m| => IntList(m[i]))
  }

  /** Rows are determined by the matrix they carry. */
  lemma UnwrappedInjective(rows: seq<IntList>, m: IntMatrix)
    requires Unwrapped(rows) == m
    ensures rows == Wrapped(m)
  {
    forall i | 0 <= i < |rows| ensures rows[i] == Wrapped(m)[i] {
      assert Unwrapped(Wrapped(m))[i] == m[i];
    }
  }

  function CalcMessage(left: IntMatrix, right: IntMatrix, times: Int32): CalcRequest {
    CalcRequest(Wrapped(left), Wrapped(right), ToUnsigned(times))
  }

  method FillProtoMatrix(matrix: IntMatrix, before: seq<IntList>) returns (rows: seq<IntList>)
    ensures |rows| == |before| + |matrix| && rows[..|before|] == before
    ensures Unwrapped(rows[|before|..]) == matrix
  {
    rows := before;
    var i := 0;
    while i < |matrix|
      invariant i <= |matrix| && |rows| == |before| + i && rows[..|before|] == before
      invariant forall x :: 0 <= x < i ==> rows[|before| + x].edge == matrix[x]
    {
      var edge: seq<Int32> := [];
      var j := 0;
      while j < |matrix[i]|
        invariant j <= |matrix[i]| && edge == matrix[i][..j]
      {
        edge := edge + [matrix[i][j]];
        j := j + 1;
      }
      rows := rows + [IntList(edge)];
      i := i + 1;
    }
  }

  method ReadProtoMatrix(rows: seq<IntList>) returns (matrix: IntMatrix)
    ensures matrix == Unwrapped(rows)
  {
    matrix := [];
    var i := 0;
    while i < |rows|
      invariant i <= |rows| && |matrix| == i
      invariant forall x :: 0 <= x < i ==> matrix[x] == rows[x].edge
    {
      var row: seq<Int32> := [];
      var j := 0;
      while j < |rows[i].edge|
        invariant j <= |rows[i].edge| && row == rows[i].edge[..j]
      {
        row := row + [rows[i].edge[j]];
        j := j + 1;
      }
      matrix := matrix + [row];
      i := i + 1;
    }
  }

  /** `static_cast<uint32_t>`. */
  function ToUnsigned(x: Int32): UInt32 { x % 0x1_0000_0000 }

  /** `static_cast<int>` of a 32-bit word. */
  function ToSigned(x: UInt32): Int32 { if x <= INT_MAX then x else x - 0x1_0000_0000 }

  /** Every `times`, negatives included, survives the unsigned field. */
  lemma TimesSurvives(x: Int32)
    ensures ToSigned(ToUnsigned(x)) == x
  {
    if x < 0 {
      assert (x + 0x1_0000_0000) % 0x1_0000_0000 == x + 0x1_0000_0000;
      assert x % 0x1_0000_0000 == (x + 0x1_0000_0000) % 0x1_0000_0000;
    }
  }

  method MakeRequest(left: IntMatrix, right: IntMatrix, times: Int32) returns (request: CalcRequest)
    ensures Unwrapped(request.left) == left && Unwrapped(request.right) == right
    ensures ToSigned(request.times) == times
    ensures request == CalcMessage(left, right, times)
  {
    var l := FillProtoMatrix(left, []);
    var r := FillProtoMatrix(right, []);
    assert l[0..] == l && r[0..] == r;
    UnwrappedInjective(l, left);
    UnwrappedInjective(r, right);
    TimesSurvives(times);
    request := CalcRequest(l, r, ToUnsigned(times));
  }

  method Invoke(request: CalcRequest) returns (result: IntMatrix)
    requires Computable(Unwrapped(request.left), Unwrapped(request.right), ToSigned(request.times))
    ensures result == CalcResult(Unwrapped(request.left), Unwrapped(request.right), ToSigned(request.times))
    ensures ToSigned(request.times) <= 0 ==> result == Unwrapped(request.left)
  {
    var left := ReadProtoMatrix(request.left);
    var right := ReadProtoMatrix(request.right);
    result := CalcMatrix(left, right, ToSigned(request.times));
  }

  method MakeResponse(value: IntMatrix) returns (ret: seq<IntList>)
    ensures Unwrapped(ret) == value
  {
    ret := FillProtoMatrix(value, []);
  }

  /**
   The whole method as the client sees it: arguments into a request, the request invoked, the
   result into a response and out again.  For square inputs this is left * right^times.
   */
  method RemoteCalc(left: IntMatrix, right: IntMatrix, times: Int32) returns (result: IntMatrix)
    requires Computable(left, right, times)
    ensures result == CalcResult(left, right, times)
    ensures times <= 0 ==> result == left
    ensures times >= 0 && Square(left, |left|) && Square(right, |left|) ==>
      result == Product(left, Power(right, |left|, times), |left|)
  {
    var request := MakeRequest(left, right, times);
    var value := Invoke(request);
    var ret := MakeResponse(value);
    result := ReadProtoMatrix(ret);
    if times >= 0 && Square(left, |left|) && Square(right, |left|) {
      CalcMatrixIsPower(left, right, times);
    }
  }
}
