/** The nested `for` loops of the generators, as concatenation over an
    inclusive integer range, with the facts about membership and length that
    the generators' contracts are proved from. */
module Sweep {

  /** f(lo) + f(lo + 1) + ... + f(hi); empty when lo > hi. */
  function Concat<T>(lo: int, hi: int, f: int -> seq<T>): seq<T>
    decreases hi - lo
  {
    if lo > hi then [] else f(lo) + Concat(lo + 1, hi, f)
  }

  /** The number of integers in [lo, hi]. */
  function Span(lo: int, hi: int): (n: nat)
    ensures lo <= hi ==> n == hi - lo + 1
    ensures lo > hi ==> n == 0
  {
    if lo > hi then 0 else hi - lo + 1
  }

  /** An element is produced exactly when some step of the range produces it. */
  lemma {:induction false} ConcatMember<T>(lo: int, hi: int, f: int -> seq<T>, t: T)
    ensures t in Concat(lo, hi, f) <==> exists i :: lo <= i <= hi && t in f(i)
    decreases hi - lo
  {
    if lo <= hi {
      ConcatMember(lo + 1, hi, f, t);
      if t in Concat(lo + 1, hi, f) {
        var i :| lo + 1 <= i <= hi && t in f(i);
        assert lo <= i <= hi && t in f(i);
      }
    }
  }

  /** Every step produces at most k elements, so the range produces at most
      k times its span. */
  lemma {:induction false} ConcatLengthAtMost<T>(lo: int, hi: int, f: int -> seq<T>, k: nat)
    requires forall i :: lo <= i <= hi ==> |f(i)| <= k
    ensures |Concat(lo, hi, f)| <= k * Span(lo, hi)
    decreases hi - lo
  {
    if lo <= hi {
      ConcatLengthAtMost(lo + 1, hi, f, k);
      MulSucc(k, Span(lo + 1, hi));
    }
  }

  /** Every step produces exactly k elements. */
  lemma {:induction false} ConcatLengthExactly<T>(lo: int, hi: int, f: int -> seq<T>, k: nat)
    requires forall i :: lo <= i <= hi ==> |f(i)| == k
    ensures |Concat(lo, hi, f)| == k * Span(lo, hi)
    decreases hi - lo
  {
    if lo <= hi {
      ConcatLengthExactly(lo + 1, hi, f, k);
      MulSucc(k, Span(lo + 1, hi));
    }
  }

  /** Every step produces at most a elements, plus b more on the steps of
      the sub-range [lo2, hi2]. */
  lemma {:induction false} ConcatLengthAtMostBand<T>(lo: int, hi: int, f: int -> seq<T>,
                                                    a: nat, b: nat, lo2: int, hi2: int)
    requires forall i :: lo <= i <= hi ==> |f(i)| <= a + (if lo2 <= i <= hi2 then b else 0)
    ensures |Concat(lo, hi, f)| <= a * Span(lo, hi) + b * Span(Max(lo, lo2), Min(hi, hi2))
    decreases hi - lo
  {
    if lo <= hi {
      ConcatLengthAtMostBand(lo + 1, hi, f, a, b, lo2, hi2);
      MulSucc(a, Span(lo + 1, hi));
      var inner := Span(Max(lo + 1, lo2), Min(hi, hi2));
      if lo2 <= lo <= hi2 {
        assert Span(Max(lo, lo2), Min(hi, hi2)) == 1 + inner;
        MulSucc(b, inner);
      } else {
        assert Span(Max(lo, lo2), Min(hi, hi2)) == inner;
      }
    }
  }

  lemma MulSucc(a: int, n: int)
    ensures a * (1 + n) == a + a * n
  {
  }

  function Max(a: int, b: int): int { if a < b then b else a }

  function Min(a: int, b: int): int { if a < b then a else b }

  /** Two sweeps whose steps produce equally many elements have equal length. */
  lemma {:induction false} ConcatLengthSame<T, U>(lo: int, hi: int, f: int -> seq<T>, g: int -> seq<U>)
    requires forall i :: lo <= i <= hi ==> |f(i)| == |g(i)|
    ensures |Concat(lo, hi, f)| == |Concat(lo, hi, g)|
    decreases hi - lo
  {
    if lo <= hi {
      ConcatLengthSame(lo + 1, hi, f, g);
    }
  }

  /** Sweeps whose steps agree on the range are equal. */
  lemma {:induction false} ConcatExt<T>(lo: int, hi: int, f: int -> seq<T>, g: int -> seq<T>)
    requires forall i :: lo <= i <= hi ==> f(i) == g(i)
    ensures Concat(lo, hi, f) == Concat(lo, hi, g)
    decreases hi - lo
  {
    if lo <= hi {
      ConcatExt(lo + 1, hi, f, g);
    }
  }

  /** The number of elements of s that satisfy p. */
  function CountIf<T>(s: seq<T>, p: T -> bool): (n: nat)
    ensures n <= |s|
  {
    if |s| == 0 then 0 else (if p(s[0]) then 1 else 0) + CountIf(s[1..], p)
  }

  lemma {:induction false} CountIfAppend<T>(a: seq<T>, b: seq<T>, p: T -> bool)
    ensures CountIf(a + b, p) == CountIf(a, p) + CountIf(b, p)
  {
    if |a| == 0 {
      assert a + b == b;
    } else {
      assert (a + b)[1..] == a[1..] + b;
      CountIfAppend(a[1..], b, p);
    }
  }

  lemma CountIfAppend4<T>(a: seq<T>, b: seq<T>, c: seq<T>, d: seq<T>, p: T -> bool)
    ensures CountIf(a + b + c + d, p) == CountIf(a, p) + CountIf(b, p) + CountIf(c, p) + CountIf(d, p)
  {
    CountIfAppend(a, b, p);
    CountIfAppend(a + b, c, p);
    CountIfAppend(a + b + c, d, p);
  }

  /** No element satisfies p exactly when none is counted. */
  lemma {:induction false} CountIfZero<T>(s: seq<T>, p: T -> bool)
    ensures CountIf(s, p) == 0 <==> forall i :: 0 <= i < |s| ==> !p(s[i])
  {
    if |s| > 0 {
      CountIfZero(s[1..], p);
      assert forall i :: 1 <= i < |s| ==> s[i] == s[1..][i - 1];
    }
  }

  /** Every element satisfies p, so all are counted. */
  lemma {:induction false} CountIfAll<T>(s: seq<T>, p: T -> bool)
    requires forall i :: 0 <= i < |s| ==> p(s[i])
    ensures CountIf(s, p) == |s|
  {
    if |s| > 0 {
      assert forall i :: 0 <= i < |s[1..]| ==> s[1..][i] == s[i + 1];
      CountIfAll(s[1..], p);
    }
  }

  /** A sweep in which no step produces an element satisfying p. */
  lemma {:induction false} CountIfConcatNone<T>(lo: int, hi: int, f: int -> seq<T>, p: T -> bool)
    requires forall i :: lo <= i <= hi ==> CountIf(f(i), p) == 0
    ensures CountIf(Concat(lo, hi, f), p) == 0
    decreases hi - lo
  {
    if lo <= hi {
      CountIfConcatNone(lo + 1, hi, f, p);
      CountIfAppend(f(lo), Concat(lo + 1, hi, f), p);
    }
  }

  /** A sweep in which only step j can produce elements satisfying p counts
      exactly what step j counts. */
  lemma {:induction false} CountIfConcatOnly<T>(lo: int, hi: int, f: int -> seq<T>, p: T -> bool, j: int)
    requires lo <= j <= hi
    requires forall i :: lo <= i <= hi && i != j ==> CountIf(f(i), p) == 0
    ensures CountIf(Concat(lo, hi, f), p) == CountIf(f(j), p)
    decreases hi - lo
  {
    CountIfAppend(f(lo), Concat(lo + 1, hi, f), p);
    if lo == j {
      CountIfConcatNone(lo + 1, hi, f, p);
    } else {
      CountIfConcatOnly(lo + 1, hi, f, p, j);
    }
  }

  /** When each step holds k elements satisfying p for every element of the
      matching step of g, the two sweeps agree in total. */
  lemma {:induction false} CountIfConcatMatches<T, U>(lo: int, hi: int, f: int -> seq<T>, g: int -> seq<U>,
                                                      p: T -> bool, k: nat)
    requires forall i :: lo <= i <= hi ==> CountIf(f(i), p) == k * |g(i)|
    ensures CountIf(Concat(lo, hi, f), p) == k * |Concat(lo, hi, g)|
    decreases hi - lo
  {
    if lo <= hi {
      CountIfConcatMatches(lo + 1, hi, f, g, p, k);
      CountIfAppend(f(lo), Concat(lo + 1, hi, f), p);
      var a, b := |g(lo)|, |Concat(lo + 1, hi, g)|;
      assert |Concat(lo, hi, g)| == a + b;
      Distribute(k, a, b);
    }
  }

  lemma Distribute(k: int, a: int, b: int)
    ensures k * (a + b) == k * a + k * b
  {
  }

  // ---------------------------------------------------------------------
  // Square sweeps.

  /** The square sweep of the generators: x = -r .. r and, inside it,
      z = -r .. r. */
  function Grid<T>(r: int, cell: (int, int) -> seq<T>): seq<T>
  {
    Concat(-r, r, Rows(r, cell))
  }

  /** Row x of a grid sweep. */
  function Rows<T>(r: int, cell: (int, int) -> seq<T>): int -> seq<T>
  {
    x => Concat(-r, r, Column(cell, x))
  }

  function Column<T>(cell: (int, int) -> seq<T>, x: int): int -> seq<T>
  {
    z => cell(x, z)
  }

  /** A five-step sweep written out. */
  lemma Unroll5<T>(f: int -> seq<T>)
    ensures Concat(-2, 2, f) == f(-2) + f(-1) + f(0) + f(1) + f(2)
  {
    assert Concat(3, 2, f) == [];
    assert Concat(2, 2, f) == f(2);
    assert Concat(1, 2, f) == f(1) + f(2);
    assert Concat(0, 2, f) == f(0) + f(1) + f(2);
    assert Concat(-1, 2, f) == f(-1) + f(0) + f(1) + f(2);
  }

  /** A four-step sweep from lo written out. */
  lemma Unroll4<T>(lo: int, f: int -> seq<T>)
    ensures Concat(lo, lo + 3, f) == f(lo) + f(lo + 1) + f(lo + 2) + f(lo + 3)
  {
    assert Concat(lo + 4, lo + 3, f) == [];
    assert Concat(lo + 3, lo + 3, f) == f(lo + 3);
    assert Concat(lo + 2, lo + 3, f) == f(lo + 2) + f(lo + 3);
    assert Concat(lo + 1, lo + 3, f) == f(lo + 1) + f(lo + 2) + f(lo + 3);
  }

  /** The length of any s that is a four-step sweep from lo. */
  lemma Length4<T>(s: seq<T>, lo: int, hi: int, f: int -> seq<T>)
    requires hi == lo + 3 && s == Concat(lo, hi, f)
    ensures |s| == |f(lo)| + |f(lo + 1)| + |f(lo + 2)| + |f(lo + 3)|
  {
    Unroll4(lo, f);
  }

  /** A three-step sweep written out. */
  lemma Unroll3<T>(f: int -> seq<T>)
    ensures Concat(-1, 1, f) == f(-1) + f(0) + f(1)
  {
    assert Concat(2, 1, f) == [];
    assert Concat(1, 1, f) == f(1);
    assert Concat(0, 1, f) == f(0) + f(1);
  }

  lemma GridMember<T>(r: int, cell: (int, int) -> seq<T>, t: T)
    ensures t in Grid(r, cell) <==> exists x, z :: -r <= x <= r && -r <= z <= r && t in cell(x, z)
  {
    ConcatMember(-r, r, Rows(r, cell), t);
    if t in Grid(r, cell) {
      var x :| -r <= x <= r && t in Rows(r, cell)(x);
      ConcatMember(-r, r, Column(cell, x), t);
      var z :| -r <= z <= r && t in Column(cell, x)(z);
      assert t in cell(x, z);
    }
    if exists x, z :: -r <= x <= r && -r <= z <= r && t in cell(x, z) {
      var x, z :| -r <= x <= r && -r <= z <= r && t in cell(x, z);
      assert t in Column(cell, x)(z);
      ConcatMember(-r, r, Column(cell, x), t);
      assert t in Rows(r, cell)(x);
    }
  }

  lemma GridCountMatches<T, U>(r: int, a: (int, int) -> seq<T>, b: (int, int) -> seq<U>, p: T -> bool)
    requires forall x, z :: -r <= x <= r && -r <= z <= r ==> CountIf(a(x, z), p) == |b(x, z)|
    ensures CountIf(Grid(r, a), p) == |Grid(r, b)|
  {
    RowsCountMatches(r, a, b, p);
    CountIfConcatMatches(-r, r, Rows(r, a), Rows(r, b), p, 1);
  }

  lemma RowsCountMatches<T, U>(r: int, a: (int, int) -> seq<T>, b: (int, int) -> seq<U>, p: T -> bool)
    requires forall x, z :: -r <= x <= r && -r <= z <= r ==> CountIf(a(x, z), p) == |b(x, z)|
    ensures forall x :: -r <= x <= r ==> CountIf(Rows(r, a)(x), p) == 1 * |Rows(r, b)(x)|
  {
    forall x | -r <= x <= r
      ensures CountIf(Rows(r, a)(x), p) == 1 * |Rows(r, b)(x)|
    {
      CountIfConcatMatches(-r, r, Column(a, x), Column(b, x), p, 1);
    }
  }

  /** Square sweeps of cells that agree on the square are equal. */
  lemma GridExt<T>(r: int, a: (int, int) -> seq<T>, b: (int, int) -> seq<T>)
    requires forall x, z :: -r <= x <= r && -r <= z <= r ==> a(x, z) == b(x, z)
    ensures Grid(r, a) == Grid(r, b)
  {
    forall x | -r <= x <= r
      ensures Rows(r, a)(x) == Rows(r, b)(x)
    {
      ConcatExt(-r, r, Column(a, x), Column(b, x));
    }
    ConcatExt(-r, r, Rows(r, a), Rows(r, b));
  }

  /** What level y holds is in any s that is the concatenation of levels
      lo .. hi that include y. */
  lemma ConcatIn<T>(s: seq<T>, lo: int, hi: int, f: int -> seq<T>, y: int, t: T)
    requires s == Concat(lo, hi, f) && lo <= y <= hi && t in f(y)
    ensures t in s
  {
    ConcatMember(lo, hi, f, t);
  }

  /** What a cell of the square creates is in the grid. */
  lemma GridIn<T>(r: int, cell: (int, int) -> seq<T>, x: int, z: int, t: T)
    requires -r <= x <= r && -r <= z <= r && t in cell(x, z)
    ensures t in Grid(r, cell)
  {
    GridMember(r, cell, t);
  }

  /** An element of cell (x, z) of the square that step y of a sweep
      stamps is in the sweep. */
  lemma ConcatGridIn<T>(lo: int, hi: int, level: int -> seq<T>, r: int, cell: (int, int) -> seq<T>,
                        y: int, x: int, z: int, t: T)
    requires lo <= y <= hi && level(y) == Grid(r, cell)
    requires -r <= x <= r && -r <= z <= r && t in cell(x, z)
    ensures t in Concat(lo, hi, level)
  {
    GridMember(r, cell, t);
    ConcatMember(lo, hi, level, t);
  }

  lemma GridCountNone<T>(r: int, cell: (int, int) -> seq<T>, p: T -> bool)
    requires forall x, z :: -r <= x <= r && -r <= z <= r ==> CountIf(cell(x, z), p) == 0
    ensures CountIf(Grid(r, cell), p) == 0
  {
    forall x | -r <= x <= r
      ensures CountIf(Rows(r, cell)(x), p) == 0
    {
      CountIfConcatNone(-r, r, Column(cell, x), p);
    }
    CountIfConcatNone(-r, r, Rows(r, cell), p);
  }

  lemma GridCountOnly<T>(r: int, cell: (int, int) -> seq<T>, p: T -> bool, x0: int, z0: int)
    requires -r <= x0 <= r && -r <= z0 <= r
    requires forall x, z :: -r <= x <= r && -r <= z <= r && (x != x0 || z != z0) ==> CountIf(cell(x, z), p) == 0
    ensures CountIf(Grid(r, cell), p) == CountIf(cell(x0, z0), p)
  {
    forall x | -r <= x <= r && x != x0
      ensures CountIf(Rows(r, cell)(x), p) == 0
    {
      CountIfConcatNone(-r, r, Column(cell, x), p);
    }
    CountIfConcatOnly(-r, r, Column(cell, x0), p, z0);
    CountIfConcatOnly(-r, r, Rows(r, cell), p, x0);
  }

  lemma GridLengthAtMost<T>(r: int, cell: (int, int) -> seq<T>, k: nat)
    requires forall x, z :: -r <= x <= r && -r <= z <= r ==> |cell(x, z)| <= k
    ensures |Grid(r, cell)| <= k * Span(-r, r) * Span(-r, r)
  {
    forall x | -r <= x <= r
      ensures |Rows(r, cell)(x)| <= k * Span(-r, r)
    {
      ConcatLengthAtMost(-r, r, Column(cell, x), k);
    }
    ConcatLengthAtMost(-r, r, Rows(r, cell), k * Span(-r, r));
  }

  lemma GridLengthSame<T, U>(r: int, a: (int, int) -> seq<T>, b: (int, int) -> seq<U>)
    requires forall x, z :: -r <= x <= r && -r <= z <= r ==> |a(x, z)| == |b(x, z)|
    ensures |Grid(r, a)| == |Grid(r, b)|
  {
    forall x | -r <= x <= r
      ensures |Rows(r, a)(x)| == |Rows(r, b)(x)|
    {
      ConcatLengthSame(-r, r, Column(a, x), Column(b, x));
    }
    ConcatLengthSame(-r, r, Rows(r, a), Rows(r, b));
  }

  lemma GridLengthAtMostBand<T>(r: int, cell: (int, int) -> seq<T>, a: nat, b: nat, q: int)
    requires 0 <= q <= r
    requires forall x, z :: -r <= x <= r && -r <= z <= r ==>
               |cell(x, z)| <= a + (if -q <= x <= q && -q <= z <= q then b else 0)
    ensures |Grid(r, cell)| <= a * Span(-r, r) * Span(-r, r) + b * Span(-q, q) * Span(-q, q)
  {
    var s := Span(-r, r);
    var sq := Span(-q, q);
    forall x | -r <= x <= r
      ensures |Rows(r, cell)(x)| <= a * s + (if -q <= x <= q then b * sq else 0)
    {
      var bx := if -q <= x <= q then b else 0;
      ConcatLengthAtMostBand(-r, r, Column(cell, x), a, bx, -q, q);
      assert Max(-r, -q) == -q && Min(r, q) == q;
    }
    ConcatLengthAtMostBand(-r, r, Rows(r, cell), a * s, b * sq, -q, q);
    assert Max(-r, -q) == -q && Min(r, q) == q;
  }

  lemma GridLengthExactly<T>(r: int, cell: (int, int) -> seq<T>, k: nat)
    requires forall x, z :: -r <= x <= r && -r <= z <= r ==> |cell(x, z)| == k
    ensures |Grid(r, cell)| == k * Span(-r, r) * Span(-r, r)
  {
    forall x | -r <= x <= r
      ensures |Rows(r, cell)(x)| == k * Span(-r, r)
    {
      ConcatLengthExactly(-r, r, Column(cell, x), k);
    }
    ConcatLengthExactly(-r, r, Rows(r, cell), k * Span(-r, r));
  }
}
