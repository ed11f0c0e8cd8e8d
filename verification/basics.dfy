/** Small facts about numbers and sets that several modules share. */
module Basics {

  function Max(a: int, b: int): int {
    if a >= b then a else b
  }

  function Min(a: int, b: int): int {
    if a <= b then a else b
  }

  function Abs(x: real): real {
    if x < 0.0 then -x else x
  }

  lemma {:induction false} SubsetSize<T>(a: set<T>, b: set<T>)
    requires a <= b
    ensures |a| <= |b|
    decreases |b|
  {
    if b != {} {
      var x :| x in b;
      SubsetSize(a - {x}, b - {x});
      if x in a {
        assert |a| == |a - {x}| + 1;
      } else {
        assert a - {x} == a;
      }
    }
  }

  lemma {:induction false} SubsetOfSameSize<T>(a: set<T>, b: set<T>)
    requires a <= b && |a| == |b|
    ensures a == b
  {
    if a != b {
      var x :| x in b && x !in a;
      SubsetSize(a, b - {x});
    }
  }

  lemma {:induction false} DivUnique(x: nat, m: nat, q: nat, r: nat)
    requires m > 0 && x == q * m + r && r < m
    ensures x / m == q && x % m == r
  {
    assert x == (x / m) * m + x % m;
    SmallerQuotient(x / m, x % m, q, r, m);
    SmallerQuotient(q, r, x / m, x % m, m);
  }

  lemma {:induction false} SmallerQuotient(q: nat, r: nat, q': nat, r': nat, m: nat)
    requires r < m
    ensures q < q' ==> q * m + r < q' * m + r'
  {
    if q < q' {
      assert (q + 1) * m <= q' * m;
    }
  }
}
