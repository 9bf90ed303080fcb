/** The clast sieve: per-particle (diameter, volume) pairs sorted into the bins
    [edge, edge + step) whose lower edges are np.arange(lo, hi, step). The same
    routine appears verbatim in the cumulative-volume and the fractal modules;
    it is modelled once here. Edges are exact reals lo + i * step. */
module Sieve {
  import opened ArrayOps

  /** Lower edge of bin i, the i-th value of np.arange(lo, hi, step). */
  function Edge(lo: real, step: real, i: int): real
  {
    lo + (i as real) * step
  }

  /** Diameter v lies in bin b: b's lower edge is included, its upper edge is not. */
  predicate InBin(lo: real, step: real, b: int, v: real)
  {
    Edge(lo, step, b) <= v < Edge(lo, step, b) + step
  }

  /** Multiplying by a positive step keeps the order of two reals. */
  lemma {:induction false} ScaleOrder(x: real, y: real, step: real)
    requires step > 0.0
    ensures x < y <==> x * step < y * step
    ensures x <= y <==> x * step <= y * step
  {
    if x < y {
      assert (y - x) * step > 0.0;
    } else {
      assert (x - y) * step >= 0.0;
    }
  }

  lemma {:induction false} EdgeNext(lo: real, step: real, i: int)
    ensures Edge(lo, step, i) + step == Edge(lo, step, i + 1)
  {
    assert ((i + 1) as real) * step == (i as real) * step + step;
  }

  lemma {:induction false} EdgeOrder(lo: real, step: real, i: int, j: int)
    requires step > 0.0
    ensures i < j <==> Edge(lo, step, i) < Edge(lo, step, j)
    ensures i <= j <==> Edge(lo, step, i) <= Edge(lo, step, j)
  {
    ScaleOrder(i as real, j as real, step);
  }

  /** len(np.arange(lo, hi, step)): exactly the non-negative i with lo + i * step < hi
      are bin indices, so the bins run from lo to the first edge at or past hi. */
  function BinCount(lo: real, hi: real, step: real): (n: nat)
    requires step > 0.0
    ensures forall i: nat :: i < n <==> Edge(lo, step, i) < hi
  {
    var q := (hi - lo) / step;
    var f := q.Floor;
    var n: nat := if q <= 0.0 then 0 else if f as real == q then f else f + 1;
    assert q * step == hi - lo;
    assert forall i: nat :: Edge(lo, step, i) < hi <==> i < n by {
      forall i: nat ensures Edge(lo, step, i) < hi <==> i < n {
        ScaleOrder(i as real, q, step);
      }
    }
    n
  }

  /** The bin of a diameter: the one integer b with v in [Edge(b), Edge(b) + step). */
  function BinOf(lo: real, step: real, v: real): (b: int)
    requires step > 0.0
    ensures InBin(lo, step, b, v)
    ensures forall b' :: InBin(lo, step, b', v) ==> b' == b
  {
    var q := (v - lo) / step;
    var f := q.Floor;
    assert q * step == v - lo;
    assert f as real <= q < (f + 1) as real;
    ScaleOrder(f as real, q, step);
    ScaleOrder(q, (f + 1) as real, step);
    assert (f as real) * step <= v - lo;
    assert v - lo < ((f + 1) as real) * step;
    EdgeNext(lo, step, f);
    assert Edge(lo, step, f) <= v;
    assert v < Edge(lo, step, f + 1);
    forall b' | InBin(lo, step, b', v) ensures b' == f {
      EdgeNext(lo, step, b');
      EdgeOrder(lo, step, b', f + 1);
      EdgeOrder(lo, step, f, b' + 1);
    }
    f
  }

  /** A diameter falls into one of the first n bins exactly when it lies in
      [lo, Edge(n)); a value outside that range belongs to no bin. */
  lemma {:induction false} CoveredRange(lo: real, step: real, n: nat, v: real)
    requires step > 0.0
    ensures (exists b :: 0 <= b < n && InBin(lo, step, b, v)) <==> lo <= v < Edge(lo, step, n)
  {
    var b := BinOf(lo, step, v);
    EdgeNext(lo, step, b);
    EdgeOrder(lo, step, 0, b + 1);
    EdgeOrder(lo, step, b, n);
    EdgeOrder(lo, step, 0, b);
    EdgeOrder(lo, step, b + 1, n);
    if lo <= v < Edge(lo, step, n) {
      assert 0 <= b < n && InBin(lo, step, b, v);
    }
  }

  // ---------------------------------------------------------------------------
  // What lands in a size interval

  /** Sum of the weights W[k] of the particles whose diameter D[k] lies in [x0, x1). */
  function IntervalTotal(D: seq<real>, W: seq<real>, x0: real, x1: real): real
    requires |W| == |D|
  {
    if |D| == 0 then 0.0
    else
      var k := |D| - 1;
      IntervalTotal(D[..k], W[..k], x0, x1) + (if x0 <= D[k] < x1 then W[k] else 0.0)
  }

  /** Number of particles whose diameter lies in [x0, x1). */
  function CountIn(D: seq<real>, x0: real, x1: real): nat
  {
    if |D| == 0 then 0
    else
      var k := |D| - 1;
      CountIn(D[..k], x0, x1) + (if x0 <= D[k] < x1 then 1 else 0)
  }

  /** The all-ones weight, the `1` the sieve writes into the count row. */
  function Ones(n: nat): (s: seq<real>)
    ensures |s| == n
  {
    seq(n, _ => 1.0)
  }

  /** Adding one particle to the input adds its weight to every interval containing it. */
  lemma {:induction false} IntervalTotalStep(D: seq<real>, W: seq<real>, k: int, x0: real, x1: real)
    requires |W| == |D|
    requires 0 <= k < |D|
    ensures IntervalTotal(D[..k + 1], W[..k + 1], x0, x1)
      == IntervalTotal(D[..k], W[..k], x0, x1) + (if x0 <= D[k] < x1 then W[k] else 0.0)
  {
    assert D[..k + 1][..k] == D[..k];
    assert W[..k + 1][..k] == W[..k];
  }

  /** Summing unit weights counts the particles. */
  lemma {:induction false} TotalOfOnes(D: seq<real>, x0: real, x1: real)
    ensures IntervalTotal(D, Ones(|D|), x0, x1) == CountIn(D, x0, x1) as real
  {
    if |D| > 0 {
      var k := |D| - 1;
      assert Ones(|D|)[..k] == Ones(k);
      TotalOfOnes(D[..k], x0, x1);
    }
  }

  /** Adjacent intervals add up: [x0, x2) is [x0, x1) followed by [x1, x2). */
  lemma {:induction false} IntervalSplit(D: seq<real>, W: seq<real>, x0: real, x1: real, x2: real)
    requires |W| == |D|
    requires x0 <= x1 <= x2
    ensures IntervalTotal(D, W, x0, x2) == IntervalTotal(D, W, x0, x1) + IntervalTotal(D, W, x1, x2)
  {
    if |D| > 0 {
      var k := |D| - 1;
      IntervalSplit(D[..k], W[..k], x0, x1, x2);
    }
  }

  /** An empty interval holds nothing. */
  lemma {:induction false} IntervalEmpty(D: seq<real>, W: seq<real>, x0: real, x1: real)
    requires |W| == |D|
    requires x1 <= x0
    ensures IntervalTotal(D, W, x0, x1) == 0.0
  {
    if |D| > 0 {
      IntervalEmpty(D[..|D| - 1], W[..|D| - 1], x0, x1);
    }
  }

  /** Non-negative weights give a non-negative total. */
  lemma {:induction false} IntervalTotalNonNegative(D: seq<real>, W: seq<real>, x0: real, x1: real)
    requires |W| == |D|
    requires forall k :: 0 <= k < |W| ==> W[k] >= 0.0
    ensures IntervalTotal(D, W, x0, x1) >= 0.0
  {
    if |D| > 0 {
      var k := |D| - 1;
      IntervalTotalNonNegative(D[..k], W[..k], x0, x1);
    }
  }

  // ---------------------------------------------------------------------------
  // The rows the sieve returns

  /** The first n bin edges. */
  function EdgeRow(lo: real, step: real, n: nat): (r: seq<real>)
    ensures |r| == n
  {
    seq(n, b requires 0 <= b < n => Edge(lo, step, b))
  }

  /** Per bin, the weights of the particles in that bin, added up. */
  function Row(D: seq<real>, W: seq<real>, lo: real, step: real, n: nat): (r: seq<real>)
    requires |W| == |D|
    ensures |r| == n
  {
    seq(n, b requires 0 <= b < n => IntervalTotal(D, W, Edge(lo, step, b), Edge(lo, step, b) + step))
  }

  /** With step > 0 the edges increase strictly. */
  lemma {:induction false} EdgesIncrease(lo: real, step: real, n: nat)
    requires step > 0.0
    ensures StrictlyIncreasing(EdgeRow(lo, step, n))
  {
    forall i, j | 0 <= i < j < n ensures Edge(lo, step, i) < Edge(lo, step, j) {
      EdgeOrder(lo, step, i, j);
    }
  }

  /** Partition and conservation: the bins from a up to n together hold exactly the
      particles of [Edge(a), Edge(n)), each counted once. */
  lemma {:induction false} RowSuffixSum(D: seq<real>, W: seq<real>, lo: real, step: real, a: nat, n: nat)
    requires |W| == |D|
    requires step > 0.0
    requires a <= n
    ensures Sum(Row(D, W, lo, step, n)[a..])
      == IntervalTotal(D, W, Edge(lo, step, a), Edge(lo, step, n))
  {
    RowSum(D, W, lo, step, n);
    RowSum(D, W, lo, step, a);
    var r := Row(D, W, lo, step, n);
    assert r[..a] == Row(D, W, lo, step, a);
    assert r == r[..a] + r[a..];
    SumConcat(r[..a], r[a..]);
    EdgeOrder(lo, step, a, n);
    EdgeOrder(lo, step, 0, a);
    assert Edge(lo, step, 0) == lo;
    IntervalSplit(D, W, lo, Edge(lo, step, a), Edge(lo, step, n));
  }

  /** Conservation over the whole row: the bins hold exactly the particles of [lo, Edge(n)). */
  lemma {:induction false} RowSum(D: seq<real>, W: seq<real>, lo: real, step: real, n: nat)
    requires |W| == |D|
    requires step > 0.0
    ensures Sum(Row(D, W, lo, step, n)) == IntervalTotal(D, W, lo, Edge(lo, step, n))
  {
    if n > 0 {
      var m := n - 1;
      var r := Row(D, W, lo, step, n);
      assert r[..m] == Row(D, W, lo, step, m);
      assert Sum(r) == Sum(r[..m]) + r[m];
      RowSum(D, W, lo, step, m);
      EdgeNext(lo, step, m);
      EdgeOrder(lo, step, 0, m);
      assert Edge(lo, step, 0) == lo;
      IntervalSplit(D, W, lo, Edge(lo, step, m), Edge(lo, step, n));
    } else {
      IntervalEmpty(D, W, lo, Edge(lo, step, 0));
    }
  }

  // ---------------------------------------------------------------------------
  // The sieve itself

  /** With non-negative weights every bin total is non-negative. */
  lemma {:induction false} RowNonNegative(D: seq<real>, W: seq<real>, lo: real, step: real, n: nat)
    requires |W| == |D|
    requires forall k :: 0 <= k < |W| ==> W[k] >= 0.0
    ensures forall b :: 0 <= b < n ==> Row(D, W, lo, step, n)[b] >= 0.0
  {
    forall b | 0 <= b < n ensures Row(D, W, lo, step, n)[b] >= 0.0 {
      IntervalTotalNonNegative(D, W, Edge(lo, step, b), Edge(lo, step, b) + step);
    }
  }

  /** The row _itt_ that one particle contributes: weight w in the column of every bin
      whose half-open interval holds the diameter, zero elsewhere. */
  function Placed(bins: seq<real>, step: real, value: real, w: real): (r: seq<real>)
    ensures |r| == |bins|
  {
    seq(|bins|, b requires 0 <= b < |bins| => if bins[b] <= value < bins[b] + step then w else 0.0)
  }

  /** The inner loop of the sieve: a fresh zero table, filled in for one particle. */
  method SortClast(bins: seq<real>, step: real, value: real, volume: real)
    returns (itt0: array<real>, itt1: array<real>, itt2: array<real>)
    ensures fresh(itt0) && fresh(itt1) && fresh(itt2)
    ensures itt0[..] == Placed(bins, step, value, volume)
    ensures itt1[..] == Placed(bins, step, value, 1.0)
    ensures itt2[..] == Placed(bins, step, value, value)
  {
    var n := |bins|;
    itt0 := new real[n](_ => 0.0);
    itt1 := new real[n](_ => 0.0);
    itt2 := new real[n](_ => 0.0);
    for bottom := 0 to n
      invariant forall b :: 0 <= b < n ==>
        itt0[b] == (if b < bottom then Placed(bins, step, value, volume)[b] else 0.0)
      invariant forall b :: 0 <= b < n ==>
        itt1[b] == (if b < bottom then Placed(bins, step, value, 1.0)[b] else 0.0)
      invariant forall b :: 0 <= b < n ==>
        itt2[b] == (if b < bottom then Placed(bins, step, value, value)[b] else 0.0)
    {
      if bins[bottom] <= value < bins[bottom] + step {
        itt0[bottom] := volume;
        itt1[bottom] := 1.0;
        itt2[bottom] := value;
      }
    }
  }

  /** np.add into the running totals, one column at a time. */
  method AddInto(totals: array<real>, itt: array<real>)
    requires itt.Length == totals.Length
    requires itt != totals
    modifies totals
    ensures forall b :: 0 <= b < totals.Length ==> totals[b] == old(totals[b]) + itt[b]
  {
    for b := 0 to totals.Length
      invariant forall j :: 0 <= j < b ==> totals[j] == old(totals[j]) + itt[j]
      invariant forall j :: b <= j < totals.Length ==> totals[j] == old(totals[j])
    {
      totals[b] := totals[b] + itt[b];
    }
  }

  /** One pass of the outer loop of the sieve: build the particle's table and add it
      into the three running totals. */
  method AddClast(mass: array<real>, number: array<real>, sizes: array<real>,
                  bins: seq<real>, step: real, value: real, volume: real)
    requires mass.Length == number.Length == sizes.Length == |bins|
    requires mass != number && mass != sizes && number != sizes
    modifies mass, number, sizes
    ensures forall b :: 0 <= b < |bins| ==> mass[b] == old(mass[b]) + Placed(bins, step, value, volume)[b]
    ensures forall b :: 0 <= b < |bins| ==> number[b] == old(number[b]) + Placed(bins, step, value, 1.0)[b]
    ensures forall b :: 0 <= b < |bins| ==> sizes[b] == old(sizes[b]) + Placed(bins, step, value, value)[b]
  {
    var itt0, itt1, itt2 := SortClast(bins, step, value, volume);
    AddInto(mass, itt0);
    AddInto(number, itt1);
    AddInto(sizes, itt2);
  }

  /** Adding the row of particle k to the totals of the first k particles gives the totals
      of the first k + 1. */
  lemma {:induction false} RowAdvance(D: seq<real>, W: seq<real>, lo: real, step: real, n: nat, k: int,
                   before: seq<real>, after: seq<real>)
    requires |W| == |D|
    requires 0 <= k < |D|
    requires before == Row(D[..k], W[..k], lo, step, n)
    requires |after| == n
    requires forall b :: 0 <= b < n ==> after[b] == before[b] + Placed(EdgeRow(lo, step, n), step, D[k], W[k])[b]
    ensures after == Row(D[..k + 1], W[..k + 1], lo, step, n)
  {
    forall b | 0 <= b < n
      ensures after[b] == Row(D[..k + 1], W[..k + 1], lo, step, n)[b]
    {
      IntervalTotalStep(D, W, k, Edge(lo, step, b), Edge(lo, step, b) + step);
    }
  }

  /** The count row holds, per bin, the number of particles in that bin. */
  lemma {:induction false} CountRowCounts(D: seq<real>, lo: real, step: real, sumVol: seq<real>, bins: seq<real>)
    requires bins == EdgeRow(lo, step, |bins|)
    requires sumVol == Row(D, Ones(|D|), lo, step, |bins|)
    ensures forall b :: 0 <= b < |bins| ==> sumVol[b] == CountIn(D, bins[b], bins[b] + step) as real
  {
    forall b | 0 <= b < |bins|
      ensures sumVol[b] == CountIn(D, bins[b], bins[b] + step) as real
    {
      TotalOfOnes(D, bins[b], bins[b] + step);
    }
  }

  /** Conservation: the count row adds up to the number of particles in [lo, Edge(n)). */
  lemma {:induction false} CountRowSum(D: seq<real>, lo: real, step: real, n: nat)
    requires step > 0.0
    ensures Sum(Row(D, Ones(|D|), lo, step, n)) == CountIn(D, lo, Edge(lo, step, n)) as real
  {
    RowSum(D, Ones(|D|), lo, step, n);
    TotalOfOnes(D, lo, Edge(lo, step, n));
  }

  lemma {:induction false} RowOfNone(lo: real, step: real, n: nat)
    ensures Row([], [], lo, step, n) == seq(n, _ => 0.0)
  {
  }

  /** clastsieve(D, V, lo, hi, step): for every particle a fresh zero table gets the
      particle's volume, a 1 and its diameter in the column of every bin containing it,
      and the table is added into the running totals. The four returned rows are the
      summed volumes, the counts, the summed diameters and the bin edges. */
  method ClastSieve(D: seq<real>, V: seq<real>, lo: real, hi: real, step: real)
    returns (freqVol: seq<real>, sumVol: seq<real>, grainsizes: seq<real>, bins: seq<real>)
    requires step > 0.0
    requires |V| == |D|
    ensures bins == EdgeRow(lo, step, BinCount(lo, hi, step))
    ensures freqVol == Row(D, V, lo, step, |bins|)
    ensures sumVol == Row(D, Ones(|D|), lo, step, |bins|)
    ensures grainsizes == Row(D, D, lo, step, |bins|)
    ensures forall b :: 0 <= b < |bins| ==> sumVol[b] == CountIn(D, bins[b], bins[b] + step) as real
    ensures Sum(freqVol) == IntervalTotal(D, V, lo, Edge(lo, step, |bins|))
    ensures Sum(sumVol) == CountIn(D, lo, Edge(lo, step, |bins|)) as real
    ensures Sum(grainsizes) == IntervalTotal(D, D, lo, Edge(lo, step, |bins|))
  {
    var n := BinCount(lo, hi, step);
    bins := EdgeRow(lo, step, n);
    var ones := Ones(|D|);
    // rows 0, 1 and 2 of _totals_
    var mass := new real[n](_ => 0.0);
    var number := new real[n](_ => 0.0);
    var sizes := new real[n](_ => 0.0);
    assert D[..0] == [] && V[..0] == [] && ones[..0] == [];
    RowOfNone(lo, step, n);
    for index := 0 to |D|
      invariant mass[..] == Row(D[..index], V[..index], lo, step, n)
      invariant number[..] == Row(D[..index], ones[..index], lo, step, n)
      invariant sizes[..] == Row(D[..index], D[..index], lo, step, n)
    {
      ghost var mass0, number0, sizes0 := mass[..], number[..], sizes[..];
      AddClast(mass, number, sizes, bins, step, D[index], V[index]);
      RowAdvance(D, V, lo, step, n, index, mass0, mass[..]);
      RowAdvance(D, ones, lo, step, n, index, number0, number[..]);
      RowAdvance(D, D, lo, step, n, index, sizes0, sizes[..]);
    }
    assert D[..|D|] == D && V[..|D|] == V && ones[..|D|] == ones;
    freqVol, sumVol, grainsizes := mass[..], number[..], sizes[..];
    CountRowCounts(D, lo, step, sumVol, bins);
    RowSum(D, V, lo, step, n);
    CountRowSum(D, lo, step, n);
    RowSum(D, D, lo, step, n);
  }
}
