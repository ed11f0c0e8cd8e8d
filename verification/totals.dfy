/** Sums of a real-valued function over a sequence, which no reordering changes. */
module Totals {
  import opened Sorting

  function SumOver<T>(ys: seq<T>, g: T -> real): real {
    if ys == [] then 0.0 else SumOver(ys[..|ys| - 1], g) + g(ys[|ys| - 1])
  }

  lemma {:induction false} SumOverConcat<T>(a: seq<T>, b: seq<T>, g: T -> real)
    ensures SumOver(a + b, g) == SumOver(a, g) + SumOver(b, g)
    decreases |b|
  {
    if b == [] {
      assert a + b == a;
    } else {
      assert (a + b)[..|a + b| - 1] == a + b[..|b| - 1];
      SumOverConcat(a, b[..|b| - 1], g);
    }
  }

  lemma {:induction false} InsertSumOver<T>(le: (T, T) -> bool, x: T, s: seq<T>, g: T -> real)
    ensures SumOver(Insert(le, x, s), g) == SumOver(s, g) + SumOver([x], g)
    decreases |s|
  {
    hide SumOver;
    if s == [] {
      SumOverConcat(s, [x], g);
      assert s + [x] == [x];
    } else if le(x, s[0]) {
      SumOverConcat([x], s, g);
    } else {
      InsertSumOver(le, x, s[1..], g);
      SumOverConcat([s[0]], s[1..], g);
      SumOverConcat([s[0]], Insert(le, x, s[1..]), g);
      assert [s[0]] + s[1..] == s;
    }
  }

  lemma {:induction false} SortSumOver<T>(le: (T, T) -> bool, samples: seq<T>, g: T -> real)
    ensures SumOver(Sort(le, samples), g) == SumOver(samples, g)
    decreases |samples|
  {
    hide SumOver;
    if samples != [] {
      SortSumOver(le, samples[1..], g);
      InsertSumOver(le, samples[0], Sort(le, samples[1..]), g);
      SumOverConcat([samples[0]], samples[1..], g);
      assert [samples[0]] + samples[1..] == samples;
    }
  }

  lemma {:induction false} SameSumOver<T>(ys: seq<T>, g: T -> real, h: T -> real)
    requires forall i :: 0 <= i < |ys| ==> g(ys[i]) == h(ys[i])
    ensures SumOver(ys, g) == SumOver(ys, h)
    decreases |ys|
  {
    if ys != [] {
      SameSumOver(ys[..|ys| - 1], g, h);
    }
  }

  lemma {:induction false} SumOverBounds<T>(ys: seq<T>, g: T -> real, h: T -> real)
    requires forall i :: 0 <= i < |ys| ==> g(ys[i]) <= h(ys[i])
    ensures SumOver(ys, g) <= SumOver(ys, h)
    decreases |ys|
  {
    if ys != [] {
      SumOverBounds(ys[..|ys| - 1], g, h);
    }
  }

  lemma {:induction false} SumOverScaled<T>(ys: seq<T>, g: T -> real, h: T -> real, c: real)
    requires forall i :: 0 <= i < |ys| ==> g(ys[i]) == c * h(ys[i])
    ensures SumOver(ys, g) == c * SumOver(ys, h)
    decreases |ys|
  {
    if ys != [] {
      SumOverScaled(ys[..|ys| - 1], g, h, c);
      var front, last := SumOver(ys[..|ys| - 1], h), h(ys[|ys| - 1]);
      assert c * (front + last) == c * front + c * last;
    }
  }

  lemma {:induction false} SameMultisetSum<T>(a: seq<T>, b: seq<T>, g: T -> real)
    requires multiset(a) == multiset(b)
    ensures SumOver(a, g) == SumOver(b, g)
    decreases |a|
  {
    hide SumOver;
    if a == [] {
      assert |multiset(b)| == 0;
    } else {
      var last := a[|a| - 1];
      assert a == a[..|a| - 1] + [last];
      assert last in multiset(b);
      var i :| 0 <= i < |b| && b[i] == last;
      var rest := b[..i] + b[i + 1..];
      assert b == b[..i] + [last] + b[i + 1..];
      SumOverConcat(b[..i] + [last], b[i + 1..], g);
      SumOverConcat(b[..i], [last], g);
      SumOverConcat(b[..i], b[i + 1..], g);
      SumOverConcat(a[..|a| - 1], [last], g);
      assert multiset(rest) == multiset(b) - multiset{last} == multiset(a[..|a| - 1]);
      SameMultisetSum(a[..|a| - 1], rest, g);
    }
  }
}
