/** Finite sums over process ids, and the few laws the protocol proofs use to
    count messages, replies and outstanding announcements. */
module Sums {

  /** f(1) + f(2) + ... + f(n). */
  ghost function Sum(n: nat, f: int -> int): int {
    if n == 0 then 0 else Sum(n - 1, f) + f(n)
  }

  function Bit(b: bool): int {
    if b then 1 else 0
  }

  lemma {:induction false} SumEqual(n: nat, f: int -> int, g: int -> int)
    requires forall k :: 1 <= k <= n ==> f(k) == g(k)
    ensures Sum(n, f) == Sum(n, g)
  {
    if n > 0 {
      SumEqual(n - 1, f, g);
    }
  }

  /** Two summands that differ at one index only. */
  lemma {:induction false} SumChange(n: nat, f: int -> int, g: int -> int, i: int)
    requires 1 <= i <= n
    requires forall k :: 1 <= k <= n && k != i ==> f(k) == g(k)
    ensures Sum(n, g) == Sum(n, f) + g(i) - f(i)
  {
    if i == n {
      SumEqual(n - 1, f, g);
    } else {
      SumChange(n - 1, f, g, i);
    }
  }

  lemma {:induction false} SumBounded(n: nat, f: int -> int, g: int -> int)
    requires forall k :: 1 <= k <= n ==> f(k) <= g(k)
    ensures Sum(n, f) <= Sum(n, g)
  {
    if n > 0 {
      SumBounded(n - 1, f, g);
    }
  }

  lemma {:induction false} SumConstant(n: nat, f: int -> int, c: int)
    requires forall k :: 1 <= k <= n ==> f(k) == c
    ensures Sum(n, f) == n * c
  {
    if n > 0 {
      SumConstant(n - 1, f, c);
      assert n * c == (n - 1) * c + c;
    }
  }

  /** A sum of bits that reaches the number of its indices has every bit set. */
  lemma {:induction false} SumFull(n: nat, f: int -> int, i: int)
    requires 1 <= i <= n
    requires forall k :: 1 <= k <= n ==> 0 <= f(k) <= 1
    requires f(i) == 0
    ensures Sum(n, f) <= n - 1
    ensures Sum(n, f) == n - 1 <==> forall k :: 1 <= k <= n && k != i ==> f(k) == 1
  {
    var g := k => if k == i then 0 else 1;
    var one := (k: int) => 1;
    SumBounded(n, f, g);
    SumConstant(n, one, 1);
    SumChange(n, one, g, i);
    if Sum(n, f) == n - 1 {
      forall j | 1 <= j <= n && j != i
        ensures f(j) == 1
      {
        if f(j) != 1 {
          var h := k => if k == j then 0 else g(k);
          SumBounded(n, f, h);
          SumChange(n, g, h, j);
        }
      }
    } else if forall k :: 1 <= k <= n && k != i ==> f(k) == 1 {
      SumEqual(n, f, g);
    }
  }

  /** A sum of non-negative summands vanishes exactly when all of them do. */
  lemma {:induction false} SumZero(n: nat, f: int -> int)
    requires forall k :: 1 <= k <= n ==> f(k) >= 0
    ensures Sum(n, f) >= 0
    ensures Sum(n, f) == 0 <==> forall k :: 1 <= k <= n ==> f(k) == 0
  {
    if n > 0 {
      SumZero(n - 1, f);
    }
  }

  lemma {:induction false} SumAdd(n: nat, f: int -> int, g: int -> int, h: int -> int)
    requires forall k :: 1 <= k <= n ==> h(k) == f(k) + g(k)
    ensures Sum(n, h) == Sum(n, f) + Sum(n, g)
  {
    if n > 0 {
      SumAdd(n - 1, f, g, h);
    }
  }

  lemma {:induction false} SumScale(n: nat, f: int -> int, g: int -> int, c: int)
    requires forall k :: 1 <= k <= n ==> g(k) == c * f(k)
    ensures Sum(n, g) == c * Sum(n, f)
  {
    if n > 0 {
      SumScale(n - 1, f, g, c);
      assert c * (Sum(n - 1, f) + f(n)) == c * Sum(n - 1, f) + c * f(n);
    }
  }

  /** 1 + 2 + ... + n. */
  function Triangle(n: nat): nat {
    if n == 0 then 0 else Triangle(n - 1) + n
  }

  lemma {:induction false} TriangleGrows(n: nat, m: nat)
    requires n <= m
    ensures Triangle(n) <= Triangle(m)
  {
    if n < m {
      TriangleGrows(n, m - 1);
    }
  }

  lemma {:induction false} TriangleClosed(n: nat)
    ensures 2 * Triangle(n) == n * (n + 1)
  {
    if n > 0 {
      TriangleClosed(n - 1);
    }
  }

  /** Sums of an arithmetic progression. */
  lemma SumMinus(n: nat, f: int -> int, t: int -> int, h: int -> int)
    requires forall k :: 1 <= k <= n ==> f(k) == -(t(k) + h(k))
    ensures Sum(n, f) == -Sum(n, t) - Sum(n, h)
  {
    var th := k => t(k) + h(k);
    SumAdd(n, t, h, th);
    SumScale(n, th, f, -1);
  }

  lemma Distribute(c: int, x: int, y: int)
    ensures c * (x + y) == c * x + c * y
  {
  }

  lemma {:induction false} SumLinear(n: nat, f: int -> int, c: int, d: int)
    requires forall k :: 1 <= k <= n ==> f(k) == c * k + d
    ensures Sum(n, f) == c * Triangle(n) + d * n
  {
    if n > 0 {
      SumLinear(n - 1, f, c, d);
      Distribute(c, Triangle(n - 1), n);
      Distribute(d, n - 1, 1);
    }
  }

  // ---- sums over ordered pairs ----

  ghost function Row(n: nat, f: (int, int) -> int, a: int): int {
    Sum(n, (b: int) => f(a, b))
  }

  /** The sum of f(a, b) over all ordered pairs of ids. */
  ghost function Grid(n: nat, f: (int, int) -> int): int {
    Sum(n, (a: int) => Row(n, f, a))
  }

  /** How much f and g differ on the pairs {i, b}. */
  function Cross(f: (int, int) -> int, g: (int, int) -> int, i: int, b: int): int {
    if b == i then 0 else g(i, b) - f(i, b) + g(b, i) - f(b, i)
  }

  /** Two grids that agree on all pairs not containing i. */
  lemma GridChange(n: nat, f: (int, int) -> int, g: (int, int) -> int, i: int)
    requires 1 <= i <= n && f(i, i) == g(i, i)
    requires forall a, b :: 1 <= a <= n && 1 <= b <= n && a != i && b != i ==> f(a, b) == g(a, b)
    ensures Grid(n, g) == Grid(n, f) + Sum(n, b => Cross(f, g, i, b))
  {
    var col := a => if a == i then 0 else g(a, i) - f(a, i);
    var own := b => if b == i then 0 else g(i, b) - f(i, b);
    var rf := (a: int) => Row(n, f, a);
    var rg := (a: int) => Row(n, g, a);
    // row by row
    forall a | 1 <= a <= n && a != i
      ensures rg(a) == rf(a) + col(a)
    {
      SumChange(n, (b: int) => f(a, b), (b: int) => g(a, b), i);
    }
    SumAdd(n, (b: int) => f(i, b), own, (b: int) => g(i, b));
    assert rg(i) == rf(i) + Sum(n, own);
    // all rows
    var mid := (a: int) => rf(a) + col(a);
    SumAdd(n, rf, col, mid);
    SumChange(n, mid, rg, i);
    SumAdd(n, own, col, b => Cross(f, g, i, b));
  }

  lemma GridNonNegative(n: nat, f: (int, int) -> int)
    requires forall a, b :: 1 <= a <= n && 1 <= b <= n ==> f(a, b) >= 0
    ensures Grid(n, f) >= 0
  {
    forall a | 1 <= a <= n
      ensures Row(n, f, a) >= 0
    {
      SumZero(n, (b: int) => f(a, b));
    }
    SumZero(n, (a: int) => Row(n, f, a));
  }

  lemma GridBounded(n: nat, f: (int, int) -> int, c: int)
    requires forall a, b :: 1 <= a <= n && 1 <= b <= n ==> f(a, b) <= c
    ensures Grid(n, f) <= c * (n * n)
  {
    var row := n * c;
    forall a | 1 <= a <= n
      ensures Row(n, f, a) <= row
    {
      SumBounded(n, (b: int) => f(a, b), (b: int) => c);
      SumConstant(n, (b: int) => c, c);
    }
    SumBounded(n, (a: int) => Row(n, f, a), (a: int) => row);
    SumConstant(n, (a: int) => row, row);
    assert n * (n * c) == c * (n * n);
  }

  /** A grid whose off-diagonal entries depend on the row only. */
  lemma GridOfRows(n: nat, f: (int, int) -> int, r: int -> int)
    requires forall a, b :: 1 <= a <= n && 1 <= b <= n ==> f(a, b) == if a == b then 0 else r(a)
    ensures Grid(n, f) == Sum(n, a => (n - 1) * r(a))
  {
    forall a | 1 <= a <= n
      ensures Row(n, f, a) == (n - 1) * r(a)
    {
      SumConstant(n, (b: int) => r(a), r(a));
      SumChange(n, (b: int) => r(a), (b: int) => f(a, b), a);
      assert n * r(a) - r(a) == (n - 1) * r(a);
    }
    SumEqual(n, (a: int) => Row(n, f, a), a => (n - 1) * r(a));
  }

  /** A grid whose off-diagonal entries are multiples of the row's id. */
  lemma GridLinear(n: nat, f: (int, int) -> int, c: int)
    requires forall a, b :: 1 <= a <= n && 1 <= b <= n ==> f(a, b) == if a == b then 0 else c * a
    ensures Grid(n, f) == (n - 1) * (c * Triangle(n))
  {
    var r := (a: int) => c * a;
    GridOfRows(n, f, r);
    SumScale(n, r, a => (n - 1) * r(a), n - 1);
    SumLinear(n, r, c, 0);
  }
}
