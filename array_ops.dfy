/** Whole-array operations the grain-size pipeline takes from numpy, stated over
    exact reals: sums, running sums, reversal, deletion by index, evenly spaced
    points and averages. */
module ArrayOps {

  /** A float64 entry: an ordinary number or not-a-number. */
  datatype Float = Finite(val: real) | NaN

  /** np.sum */
  function Sum(s: seq<real>): real
  {
    if |s| == 0 then 0.0 else Sum(s[..|s| - 1]) + s[|s| - 1]
  }

  lemma {:induction false} SumConcat(a: seq<real>, b: seq<real>)
    ensures Sum(a + b) == Sum(a) + Sum(b)
  {
    if |b| == 0 {
      assert a + b == a;
    } else {
      var n := |b| - 1;
      assert (a + b)[..|a + b| - 1] == a + b[..n];
      SumConcat(a, b[..n]);
    }
  }

  lemma {:induction false} SumNonNegative(s: seq<real>)
    requires forall i :: 0 <= i < |s| ==> s[i] >= 0.0
    ensures Sum(s) >= 0.0
  {
    if |s| > 0 {
      SumNonNegative(s[..|s| - 1]);
    }
  }

  // ---------------------------------------------------------------------------
  // np.cumsum

  /** np.cumsum: entry i is the sum of the first i + 1 entries. */
  function CumSum(s: seq<real>): (c: seq<real>)
    ensures |c| == |s|
    ensures |s| > 0 ==> c[|s| - 1] == Sum(s)
  {
    if |s| == 0 then [] else CumSum(s[..|s| - 1]) + [Sum(s)]
  }

  lemma {:induction false} CumSumAt(s: seq<real>, i: int)
    requires 0 <= i < |s|
    ensures CumSum(s)[i] == Sum(s[..i + 1])
  {
    var n := |s| - 1;
    if i == n {
      assert s[..i + 1] == s;
    } else {
      CumSumAt(s[..n], i);
      assert s[..n][..i + 1] == s[..i + 1];
    }
  }

  /** The first difference of the running sum gives back the input (np.diff undoes np.cumsum). */
  lemma {:induction false} CumSumDifference(s: seq<real>, i: int)
    requires 0 < i < |s|
    ensures CumSum(s)[i] - CumSum(s)[i - 1] == s[i]
    ensures CumSum(s)[0] == s[0]
  {
    CumSumAt(s, i);
    CumSumAt(s, i - 1);
    CumSumAt(s, 0);
    assert s[..i + 1][..i] == s[..i];
    assert s[..1][..0] == [];
  }

  /** With non-negative entries the running sum never decreases, and it ends at the total. */
  lemma {:induction false} CumSumMonotone(s: seq<real>)
    requires forall i :: 0 <= i < |s| ==> s[i] >= 0.0
    ensures forall i, j :: 0 <= i <= j < |s| ==> CumSum(s)[i] <= CumSum(s)[j]
    ensures |s| > 0 ==> CumSum(s)[|s| - 1] == Sum(s)
  {
    forall i, j | 0 <= i <= j < |s|
      ensures CumSum(s)[i] <= CumSum(s)[j]
    {
      CumSumAt(s, i);
      CumSumAt(s, j);
      assert s[..j + 1] == s[..i + 1] + s[i + 1..j + 1];
      SumConcat(s[..i + 1], s[i + 1..j + 1]);
      SumNonNegative(s[i + 1..j + 1]);
    }
    if |s| > 0 {
      CumSumAt(s, |s| - 1);
      assert s[..|s|] == s;
    }
  }

  // ---------------------------------------------------------------------------
  // np.flip

  /** np.flip of a one-dimensional array. */
  function Flip<T>(s: seq<T>): (r: seq<T>)
    ensures |r| == |s|
  {
    if |s| == 0 then [] else [s[|s| - 1]] + Flip(s[..|s| - 1])
  }

  /** Entry i of the reversed array is entry |s| - 1 - i of the original. */
  lemma {:induction false} FlipAt<T>(s: seq<T>, i: int)
    requires 0 <= i < |s|
    ensures Flip(s)[i] == s[|s| - 1 - i]
  {
    if i > 0 {
      FlipAt(s[..|s| - 1], i - 1);
    }
  }

  /** Reversing twice gives the array back. */
  lemma {:induction false} FlipFlip<T>(s: seq<T>)
    ensures Flip(Flip(s)) == s
  {
    forall i | 0 <= i < |s|
      ensures Flip(Flip(s))[i] == s[i]
    {
      FlipAt(Flip(s), i);
      FlipAt(s, |s| - 1 - i);
    }
  }

  /** The first k entries of the reversed array are the last k entries of the original, reversed. */
  lemma {:induction false} FlipPrefix<T>(s: seq<T>, k: int)
    requires 0 <= k <= |s|
    ensures Flip(s)[..k] == Flip(s[|s| - k..])
  {
    forall i | 0 <= i < k
      ensures Flip(s)[..k][i] == Flip(s[|s| - k..])[i]
    {
      FlipAt(s, i);
      FlipAt(s[|s| - k..], i);
    }
  }

  /** Reversal does not change the sum. */
  lemma {:induction false} SumFlip(s: seq<real>)
    ensures Sum(Flip(s)) == Sum(s)
  {
    if |s| > 0 {
      var n := |s| - 1;
      SumFlip(s[..n]);
      SumConcat([s[n]], Flip(s[..n]));
      assert [s[n]][..0] == [];
      SumConcat(s[..n], [s[n]]);
      assert s[..n] + [s[n]] == s;
    }
  }

  // ---------------------------------------------------------------------------
  // np.delete, and the reference filter it is compared with

  /** np.delete(s, drop): the entries of s whose index is not in drop, in their original order. */
  function Delete<T>(s: seq<T>, drop: set<int>): (r: seq<T>)
    ensures |r| <= |s|
    ensures forall x :: x in r ==> x in s
  {
    if |s| == 0 then []
    else Delete(s[..|s| - 1], drop) + (if |s| - 1 in drop then [] else [s[|s| - 1]])
  }

  /** Two parallel arrays read as one array of pairs. */
  function Zip<K, T>(a: seq<K>, b: seq<T>): (ps: seq<(K, T)>)
    requires |a| == |b|
  {
    seq(|a|, i requires 0 <= i < |a| => (a[i], b[i]))
  }

  /** The reference definition of "keep the records whose key passes, in order". */
  function Filter<K, T>(ps: seq<(K, T)>, keep: K -> bool): (r: seq<(K, T)>)
    ensures |r| <= |ps|
    ensures forall i :: 0 <= i < |r| ==> keep(r[i].0) && r[i] in ps
  {
    if |ps| == 0 then []
    else Filter(ps[..|ps| - 1], keep) + (if keep(ps[|ps| - 1].0) then [ps[|ps| - 1]] else [])
  }

  /** Deleting the same index set from two parallel arrays, where the set holds exactly the
      indices whose key fails the test, keeps them aligned: the surviving pairs are exactly
      the pairs whose key passes, in their original order. */
  lemma {:induction false} DeleteInLockstep<K, T>(a: seq<K>, b: seq<T>, drop: set<int>, keep: K -> bool)
    requires |a| == |b|
    requires forall i :: 0 <= i < |a| ==> (i in drop <==> !keep(a[i]))
    ensures |Delete(a, drop)| == |Delete(b, drop)|
    ensures Zip(Delete(a, drop), Delete(b, drop)) == Filter(Zip(a, b), keep)
  {
    if |a| > 0 {
      var n := |a| - 1;
      DeleteInLockstep(a[..n], b[..n], drop, keep);
      assert Zip(a, b)[..n] == Zip(a[..n], b[..n]);
      if n !in drop {
        var da, db := Delete(a[..n], drop), Delete(b[..n], drop);
        assert Delete(a, drop) == da + [a[n]];
        assert Delete(b, drop) == db + [b[n]];
        assert Zip(da + [a[n]], db + [b[n]]) == Zip(da, db) + [(a[n], b[n])];
      }
    }
  }

  /** Everything is deleted exactly when every index is in the index set. */
  lemma {:induction false} DeleteAll<T>(s: seq<T>, drop: set<int>)
    ensures |Delete(s, drop)| == 0 <==> forall i :: 0 <= i < |s| ==> i in drop
  {
    if |s| > 0 {
      DeleteAll(s[..|s| - 1], drop);
    }
  }

  /** Deleting entries keeps a non-negative array non-negative. */
  lemma {:induction false} DeleteNonNegative(s: seq<real>, drop: set<int>)
    requires forall i :: 0 <= i < |s| ==> s[i] >= 0.0
    ensures forall i :: 0 <= i < |Delete(s, drop)| ==> Delete(s, drop)[i] >= 0.0
  {
    forall i | 0 <= i < |Delete(s, drop)| ensures Delete(s, drop)[i] >= 0.0 {
      assert Delete(s, drop)[i] in s;
    }
  }

  ghost predicate StrictlyIncreasing(s: seq<real>)
  {
    forall i, j :: 0 <= i < j < |s| ==> s[i] < s[j]
  }

  /** Deleting entries of a strictly increasing array leaves it strictly increasing. */
  lemma {:induction false} DeleteIncreasing(s: seq<real>, drop: set<int>)
    requires StrictlyIncreasing(s)
    ensures StrictlyIncreasing(Delete(s, drop))
  {
    if |s| > 0 {
      var n := |s| - 1;
      DeleteIncreasing(s[..n], drop);
      var d := Delete(s[..n], drop);
      if n !in drop {
        forall x | x in d ensures x < s[n] {
          assert x in s[..n];
        }
        var r := d + [s[n]];
        assert Delete(s, drop) == r;
        forall i, j | 0 <= i < j < |r| ensures r[i] < r[j] {
          if j == |d| {
            assert r[i] in d;
          }
        }
      }
    }
  }

  // ---------------------------------------------------------------------------
  // np.min, np.max

  function MinOf(s: seq<real>): (m: real)
    requires |s| > 0
    ensures m in s
    ensures forall i :: 0 <= i < |s| ==> m <= s[i]
  {
    if |s| == 1 then s[0]
    else
      var m' := MinOf(s[..|s| - 1]);
      if s[|s| - 1] < m' then s[|s| - 1] else m'
  }

  function MaxOf(s: seq<real>): (m: real)
    requires |s| > 0
    ensures m in s
    ensures forall i :: 0 <= i < |s| ==> s[i] <= m
  {
    if |s| == 1 then s[0]
    else
      var m' := MaxOf(s[..|s| - 1]);
      if s[|s| - 1] > m' then s[|s| - 1] else m'
  }

  // ---------------------------------------------------------------------------
  // np.linspace, np.poly1d evaluation, np.average

  /** np.linspace(a, b, num) with endpoint: num points a + j * (b - a) / (num - 1). */
  function Linspace(a: real, b: real, num: nat): (xs: seq<real>)
    ensures |xs| == num
  {
    if num == 1 then [a]
    else seq(num, j requires 0 <= j < num => a + (j as real) * ((b - a) / ((num - 1) as real)))
  }

  /** The points run from a to b, evenly spaced. */
  lemma {:induction false} LinspaceShape(a: real, b: real, num: nat)
    requires num >= 2
    ensures Linspace(a, b, num)[0] == a
    ensures Linspace(a, b, num)[num - 1] == b
    ensures forall j :: 0 <= j < num - 1 ==>
      Linspace(a, b, num)[j + 1] - Linspace(a, b, num)[j] == (b - a) / ((num - 1) as real)
  {
    var d := (b - a) / ((num - 1) as real);
    assert ((num - 1) as real) * d == b - a;
  }

  /** Sum of the arithmetic progression a, a + d, ..., a + (k - 1) d. */
  lemma {:induction false} SumProgression(a: real, d: real, k: nat)
    ensures Sum(seq(k, j requires 0 <= j < k => a + (j as real) * d))
      == (k as real) * a + d * ((k as real) * ((k - 1) as real) / 2.0)
  {
    var s := seq(k, j requires 0 <= j < k => a + (j as real) * d);
    if k > 0 {
      var t := seq(k - 1, j requires 0 <= j < k - 1 => a + (j as real) * d);
      assert s[..k - 1] == t;
      SumProgression(a, d, k - 1);
      var kr := (k - 1) as real;
      assert Sum(s) == Sum(t) + (a + kr * d);
      assert kr * a + d * (kr * (kr - 1.0) / 2.0) + (a + kr * d)
          == (kr + 1.0) * a + d * ((kr + 1.0) * kr / 2.0);
    }
  }

  /** np.average */
  function Mean(s: seq<real>): (mean: real)
    requires |s| > 0
  {
    Sum(s) / (|s| as real)
  }

  /** The centre of an evenly spaced run of points is the midpoint of its ends. */
  lemma {:induction false} LinspaceMean(a: real, b: real, num: nat)
    requires num >= 2
    ensures Mean(Linspace(a, b, num)) == (a + b) / 2.0
  {
    var n := num as real;
    var d := (b - a) / (n - 1.0);
    SumProgression(a, d, num);
    assert Linspace(a, b, num) == seq(num, j requires 0 <= j < num => a + (j as real) * d);
    assert d * (n - 1.0) == b - a;
    assert n * a + d * (n * (n - 1.0) / 2.0) == n * a + (b - a) * n / 2.0;
    assert n * a + (b - a) * n / 2.0 == n * ((a + b) / 2.0);
  }

  /** np.poly1d([m, c]) evaluated at every point: the line m x + c. */
  function PolyLine(m: real, c: real, xs: seq<real>): (ys: seq<real>)
    ensures |ys| == |xs|
  {
    seq(|xs|, j requires 0 <= j < |xs| => m * xs[j] + c)
  }

  lemma {:induction false} SumPolyLine(m: real, c: real, xs: seq<real>)
    ensures Sum(PolyLine(m, c, xs)) == m * Sum(xs) + c * (|xs| as real)
  {
    if |xs| > 0 {
      var n := |xs| - 1;
      forall j | 0 <= j < n ensures PolyLine(m, c, xs)[..n][j] == PolyLine(m, c, xs[..n])[j] {
      }
      assert PolyLine(m, c, xs)[..n] == PolyLine(m, c, xs[..n]);
      SumPolyLine(m, c, xs[..n]);
      assert m * (Sum(xs[..n]) + xs[n]) + c * ((n as real) + 1.0)
          == m * Sum(xs[..n]) + c * (n as real) + (m * xs[n] + c);
    }
  }

  /** The average of the line's values is the line's value at the average point. */
  lemma {:induction false} LineMean(m: real, c: real, xs: seq<real>)
    requires |xs| > 0
    ensures |PolyLine(m, c, xs)| == |xs|
    ensures Mean(PolyLine(m, c, xs)) == m * Mean(xs) + c
  {
    SumPolyLine(m, c, xs);
    var n := |xs| as real;
    assert (m * Sum(xs) + c * n) / n == m * (Sum(xs) / n) + c;
  }
}
