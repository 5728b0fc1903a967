/** get_places/deka_utils/misc.py: cutting a list into contiguous chunks. */
module Misc {

  /** Concatenation of a list of lists, in order. */
  function Flatten<T>(xss: seq<seq<T>>): seq<T>
  {
    if xss == [] then [] else xss[0] + Flatten(xss[1..])
  }

  /** `sum([len(batch) for batch in batches])` */
  function SumOfLengths<T>(xss: seq<seq<T>>): nat
  {
    if xss == [] then 0 else |xss[0]| + SumOfLengths(xss[1..])
  }

  function Min(a: int, b: int): int { if a <= b then a else b }

  /**
   * `[big_list[x:x + n] for x in range(0, len(big_list), n)]`.
   * A step of 0 makes `range` raise, and a negative step on a non-empty list
   * yields no batches and trips the assertion, so `n > 0` is required.
   */
  function SplitToBatches<T>(bigList: seq<T>, n: nat): (batches: seq<seq<T>>)
    requires n > 0
    ensures Flatten(batches) == bigList
    ensures forall i :: 0 <= i < |batches| ==> 0 < |batches[i]| <= n
    decreases |bigList|
  {
    if |bigList| <= n then
      (if bigList == [] then [] else [bigList])
    else
      var rest := SplitToBatches(bigList[n..], n);
      assert Flatten([bigList[..n]] + rest) == bigList[..n] + Flatten(rest);
      [bigList[..n]] + rest
  }

  lemma {:induction false} FlattenLength<T>(xss: seq<seq<T>>)
    ensures |Flatten(xss)| == SumOfLengths(xss)
  {
    if xss != [] {
      FlattenLength(xss[1..]);
    }
  }

  lemma {:induction false} FlattenAppend<T>(a: seq<seq<T>>, b: seq<seq<T>>)
    ensures Flatten(a + b) == Flatten(a) + Flatten(b)
  {
    if a == [] {
      assert a + b == b;
    } else {
      assert (a + b)[1..] == a[1..] + b;
      FlattenAppend(a[1..], b);
    }
  }

  /** The assertion on line 8: the batch lengths add up to the input length. */
  lemma SplitKeepsLength<T>(bigList: seq<T>, n: nat)
    requires n > 0
    ensures SumOfLengths(SplitToBatches(bigList, n)) == |bigList|
  {
    FlattenLength(SplitToBatches(bigList, n));
  }

  /** Every batch but the last holds exactly n items; the last holds 1 to n. */
  lemma {:induction false} SplitFullBatches<T>(bigList: seq<T>, n: nat, i: nat)
    requires n > 0
    requires i < |SplitToBatches(bigList, n)| - 1
    ensures |SplitToBatches(bigList, n)[i]| == n
    decreases |bigList|
  {
    if i > 0 {
      var rest := SplitToBatches(bigList[n..], n);
      assert SplitToBatches(bigList, n) == [bigList[..n]] + rest;
      SplitFullBatches(bigList[n..], n, i - 1);
    }
  }

  /** There are ceil(len / n) batches; an empty list gives none. */
  lemma {:induction false} SplitCount<T>(bigList: seq<T>, n: nat)
    requires n > 0
    ensures |SplitToBatches(bigList, n)| == (|bigList| + n - 1) / n
    ensures bigList == [] <==> SplitToBatches(bigList, n) == []
    decreases |bigList|
  {
    if |bigList| > n {
      SplitCount(bigList[n..], n);
      assert (|bigList| + n - 1) / n == (|bigList| - n + n - 1) / n + 1 by {
        DivStep(|bigList| - n + n - 1, n);
      }
    } else if bigList != [] {
      assert (|bigList| + n - 1) / n == 1 by {
        assert n <= |bigList| + n - 1 < 2 * n;
      }
    }
  }

  lemma MulAtLeast(d: int, n: int)
    requires d >= 1 && n > 0
    ensures d * n >= n
  {
    assert d * n == (d - 1) * n + n;
    assert (d - 1) * n >= 0;
  }

  lemma DivUnique(a: int, n: int, q: int, r: int)
    requires n > 0 && 0 <= r < n && a == q * n + r
    ensures a / n == q && a % n == r
  {
    var q2, r2 := a / n, a % n;
    assert a == q2 * n + r2;
    if q2 > q {
      assert (q2 - q) * n == q2 * n - q * n;
      MulAtLeast(q2 - q, n);
    } else if q2 < q {
      assert (q - q2) * n == q * n - q2 * n;
      MulAtLeast(q - q2, n);
    }
  }

  lemma DivStep(a: int, n: int)
    requires a >= 0 && n > 0
    ensures (a + n) / n == a / n + 1
  {
    assert a == (a / n) * n + a % n;
    assert (a / n + 1) * n == (a / n) * n + n;
    DivUnique(a + n, n, a / n + 1, a % n);
  }

  lemma ModStep(a: int, n: int)
    requires a >= n > 0
    ensures (a - n) % n == a % n
  {
    assert a == (a / n) * n + a % n;
    assert a - n == (a / n - 1) * n + a % n;
    DivUnique(a - n, n, a / n - 1, a % n);
  }

}
