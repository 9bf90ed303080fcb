/** The cumulative volume-fraction curve of cumvol_fit: threshold truncation of one or
    two particle tables, the overlap-window ratio, scaling and bin-wise merge of the
    sieved rows, removal of thinly populated bins, and the min-max normalised running
    volume. The curve fits that follow it are not part of this model. */
module CumvolFit {
  import opened ArrayOps
  import opened Sieve

  /** The sieve settings every call in cumvol_fit uses. */
  const MinGrainsize: real := 0.01
  const MaxGrainsize: real := 5.0
  const GrainsizeStep: real := 0.015
  /** Bins holding fewer clasts than this are dropped (lowest_numer). */
  const LowestNumber: real := 5.0

  datatype Option<T> = None | Some(value: T)

  /** One particle table after the side-contact filter: diameters ('ShapeC (mm)')
      and volumes ('Volume (mm^3)'), index by index. */
  datatype Dataset = Dataset(r: seq<real>, v: seq<real>)

  predicate Aligned(ds: Dataset)
  {
    |ds.r| == |ds.v|
  }

  /** The (Rx, Ry) series handed to the curve fits, or the failure the source raises. */
  datatype CurveResult =
    | Curve(rx: seq<real>, ry: seq<Float>)
    | OverlapWindowEmpty   // overlap_comp_value / overlap_value with overlap_value == 0
    | EmptyCurve           // np.min of the empty array inside normalize

  /** Number of bins of the cumvol_fit sieve. */
  const BinTotal: nat := 333

  /** np.arange(0.01, 5, 0.015) has BinTotal entries; the last bin starts at 4.99 and the
      covered range [0.01, 5.005) reaches past the nominal maximum 5. */
  lemma {:induction false} BinsOfCumvol()
    ensures BinCount(MinGrainsize, MaxGrainsize, GrainsizeStep) == BinTotal
    ensures Edge(MinGrainsize, GrainsizeStep, BinTotal - 1) == 4.99
    ensures Edge(MinGrainsize, GrainsizeStep, BinTotal) == 5.005
  {
    assert Edge(MinGrainsize, GrainsizeStep, 332) < MaxGrainsize;
    assert !(Edge(MinGrainsize, GrainsizeStep, 333) < MaxGrainsize);
  }

  // ---------------------------------------------------------------------------
  // Overlap window

  /** Number of values with cMin < value <= cMax. */
  function OverlapCount(values: seq<real>, cMin: real, cMax: real): (count: nat)
  {
    if |values| == 0 then 0
    else
      var k := |values| - 1;
      OverlapCount(values[..k], cMin, cMax) + (if cMin < values[k] <= cMax then 1 else 0)
  }

  /** The counter counts exactly the indices whose value lies in the window. */
  lemma {:induction false} OverlapCountIsWindowSize(values: seq<real>, cMin: real, cMax: real)
    ensures OverlapCount(values, cMin, cMax) == |set i | 0 <= i < |values| && cMin < values[i] <= cMax|
  {
    if |values| > 0 {
      var k := |values| - 1;
      OverlapCountIsWindowSize(values[..k], cMin, cMax);
      var before := set i | 0 <= i < k && cMin < values[..k][i] <= cMax;
      var after := set i | 0 <= i < |values| && cMin < values[i] <= cMax;
      if cMin < values[k] <= cMax {
        assert after == before + {k};
      } else {
        assert after == before;
      }
    }
  }

  /** The counting loops over R and r_2: one increment per value inside the window. */
  method CountOverlap(values: seq<real>, cMin: real, cMax: real) returns (count: nat)
    ensures count == OverlapCount(values, cMin, cMax)
  {
    count := 0;
    for index := 0 to |values|
      invariant count == OverlapCount(values[..index], cMin, cMax)
    {
      assert values[..index + 1][..index] == values[..index];
      if cMin < values[index] <= cMax {
        count := count + 1;
      }
    }
    assert values[..|values|] == values;
  }

  /** ratio = overlap_comp_value / overlap_value: the factor that makes the first
      table's window count equal the second's. */
  function OverlapRatio(comp: nat, overlap: nat): (ratio: real)
    requires overlap > 0
    ensures ratio >= 0.0
    ensures ratio * (overlap as real) == comp as real
  {
    comp as real / overlap as real
  }

  /** The ratio cumvol_fit scales the first table by: the second table's window count over
      the first table's. */
  function PairRatio(first: Dataset, second: Dataset, cMin: real, cMax: real): real
    requires OverlapCount(first.r, cMin, cMax) > 0
  {
    OverlapRatio(OverlapCount(second.r, cMin, cMax), OverlapCount(first.r, cMin, cMax))
  }

  // ---------------------------------------------------------------------------
  // Threshold truncation

  /** r_under_threshold: the indices of the first table whose diameter exceeds the threshold. */
  function AboveThreshold(r: seq<real>, threshold: real): (s: set<int>)
    ensures forall i :: i in s <==> 0 <= i < |r| && !AtMost(threshold)(r[i])
    ensures s !! AtMostThreshold(r, threshold)
    ensures forall i :: 0 <= i < |r| ==> i in s || i in AtMostThreshold(r, threshold)
  {
    set i | 0 <= i < |r| && r[i] > threshold
  }

  /** r2_over_threshold: the indices of the second table whose diameter is at most the threshold. */
  function AtMostThreshold(r: seq<real>, threshold: real): (s: set<int>)
    ensures forall i :: i in s <==> 0 <= i < |r| && !Above(threshold)(r[i])
  {
    set i | 0 <= i < |r| && r[i] <= threshold
  }

  function AtMost(threshold: real): real -> bool
  {
    x => x <= threshold
  }

  function Above(threshold: real): real -> bool
  {
    x => x > threshold
  }

  /** The first table keeps the particles with diameter at most the threshold. */
  function KeepAtMost(ds: Dataset, threshold: real): (kept: Dataset)
    requires Aligned(ds)
    ensures Aligned(kept)
    ensures Zip(kept.r, kept.v) == Filter(Zip(ds.r, ds.v), AtMost(threshold))
  {
    var drop := AboveThreshold(ds.r, threshold);
    DeleteInLockstep(ds.r, ds.v, drop, AtMost(threshold));
    Dataset(Delete(ds.r, drop), Delete(ds.v, drop))
  }

  /** The second table keeps the particles with diameter above the threshold. */
  function KeepAbove(ds: Dataset, threshold: real): (kept: Dataset)
    requires Aligned(ds)
    ensures Aligned(kept)
    ensures Zip(kept.r, kept.v) == Filter(Zip(ds.r, ds.v), Above(threshold))
  {
    var drop := AtMostThreshold(ds.r, threshold);
    DeleteInLockstep(ds.r, ds.v, drop, Above(threshold));
    Dataset(Delete(ds.r, drop), Delete(ds.v, drop))
  }

  // ---------------------------------------------------------------------------
  // Sieved rows, merge, low-count removal, normalisation

  function VolumeRow(ds: Dataset, n: nat): (row: seq<real>)
    requires Aligned(ds)
  {
    Row(ds.r, ds.v, MinGrainsize, GrainsizeStep, n)
  }

  /** The table with every volume replaced by one: sieving it counts clasts (sum_vol). */
  function Counted(ds: Dataset): (c: Dataset)
    ensures Aligned(c) && c.r == ds.r
    ensures forall i :: 0 <= i < |c.v| ==> c.v[i] == 1.0
  {
    Dataset(ds.r, Ones(|ds.r|))
  }

  function NumberRow(ds: Dataset, n: nat): (row: seq<real>)
  {
    VolumeRow(Counted(ds), n)
  }

  /** The volume of a table inside the range n bins cover, [0.01, Edge(n)). */
  function RangeTotal(ds: Dataset, n: nat): real
    requires Aligned(ds)
  {
    IntervalTotal(ds.r, ds.v, MinGrainsize, Edge(MinGrainsize, GrainsizeStep, n))
  }

  /** The counted table's range total is the number of its clasts inside the range. */
  lemma {:induction false} CountedTotal(ds: Dataset, n: nat)
    ensures RangeTotal(Counted(ds), n) == CountIn(ds.r, MinGrainsize, Edge(MinGrainsize, GrainsizeStep, n)) as real
  {
    TotalOfOnes(ds.r, MinGrainsize, Edge(MinGrainsize, GrainsizeStep, n));
  }

  /** vol * ratio + vol_2, bin by bin. */
  function Merge(a: seq<real>, b: seq<real>, ratio: real): (m: seq<real>)
    requires |a| == |b|
    ensures |m| == |a|
  {
    seq(|a|, i requires 0 <= i < |a| => a[i] * ratio + b[i])
  }

  /** The merged row's total is the scaled first total plus the second total; the merge
      does not renormalise. */
  lemma {:induction false} MergeTotal(a: seq<real>, b: seq<real>, ratio: real)
    requires |a| == |b|
    ensures Sum(Merge(a, b, ratio)) == ratio * Sum(a) + Sum(b)
  {
    if |a| > 0 {
      var k := |a| - 1;
      forall i | 0 <= i < k ensures Merge(a, b, ratio)[..k][i] == Merge(a[..k], b[..k], ratio)[i] {
      }
      assert Merge(a, b, ratio)[..k] == Merge(a[..k], b[..k], ratio);
      MergeTotal(a[..k], b[..k], ratio);
    }
  }

  /** low_count: the bins holding fewer than five clasts. */
  function LowCount(num: seq<real>): (s: set<int>)
    ensures forall i :: i in s <==> 0 <= i < |num| && !Supported()(num[i])
  {
    set i | 0 <= i < |num| && num[i] < LowestNumber
  }

  function Supported(): real -> bool
  {
    m => m >= LowestNumber
  }

  /** One entry of normalize: (x - lo) / (hi - lo), which is 0 / 0 = NaN when hi == lo. */
  function Rescaled(x: real, lo: real, hi: real): Float
  {
    if hi == lo then NaN else Finite((x - lo) / (hi - lo))
  }

  /** normalize(data) = (data - min) / (max - min), entry by entry. */
  function Normalize(data: seq<real>): (r: seq<Float>)
    requires |data| > 0
    ensures |r| == |data|
  {
    var lo, hi := MinOf(data), MaxOf(data);
    seq(|data|, i requires 0 <= i < |data| => Rescaled(data[i], lo, hi))
  }

  /** A value between lo and hi rescales to NaN when lo == hi, and otherwise to a number in
      [0, 1] that is 0 at lo and 1 at hi. */
  lemma {:induction false} RescaledRange(x: real, lo: real, hi: real)
    requires lo <= x <= hi
    ensures lo == hi ==> Rescaled(x, lo, hi) == NaN
    ensures lo != hi ==>
      && Rescaled(x, lo, hi).Finite?
      && 0.0 <= Rescaled(x, lo, hi).val <= 1.0
      && (x == lo ==> Rescaled(x, lo, hi).val == 0.0)
      && (x == hi ==> Rescaled(x, lo, hi).val == 1.0)
  {
    if lo != hi {
      var d := hi - lo;
      assert (x - lo) / d * d == x - lo;
      if x == hi {
        assert d / d == 1.0;
      }
    }
  }

  /** Rescaling keeps the order of values. */
  lemma {:induction false} RescaledOrder(x: real, y: real, lo: real, hi: real)
    requires x <= y
    requires lo < hi
    ensures Rescaled(x, lo, hi).val <= Rescaled(y, lo, hi).val
  {
    var d := hi - lo;
    assert ((y - lo) / d - (x - lo) / d) * d == y - x;
  }

  lemma {:induction false} NormalizeAt(data: seq<real>, i: int)
    requires 0 <= i < |data|
    ensures Normalize(data)[i] == Rescaled(data[i], MinOf(data), MaxOf(data))
  {
  }

  /** A constant array normalises to all NaN; otherwise every entry becomes a number in
      [0, 1], the minimum maps to 0, the maximum to 1, and the order of entries is kept. */
  lemma {:induction false} NormalizeRange(data: seq<real>)
    requires |data| > 0
    ensures var r := Normalize(data);
      MinOf(data) == MaxOf(data) ==> forall i :: 0 <= i < |r| ==> r[i] == NaN
    ensures var r := Normalize(data);
      MinOf(data) != MaxOf(data) ==> forall i :: 0 <= i < |r| ==>
        && r[i].Finite? && 0.0 <= r[i].val <= 1.0
        && (data[i] == MinOf(data) ==> r[i].val == 0.0)
        && (data[i] == MaxOf(data) ==> r[i].val == 1.0)
    ensures var r := Normalize(data);
      MinOf(data) != MaxOf(data) ==> forall i, j :: 0 <= i < |r| && 0 <= j < |r| && data[i] <= data[j] ==>
        r[i].val <= r[j].val
  {
    var lo, hi := MinOf(data), MaxOf(data);
    forall i | 0 <= i < |data|
      ensures lo == hi ==> Normalize(data)[i] == NaN
      ensures lo != hi ==>
        && Normalize(data)[i].Finite? && 0.0 <= Normalize(data)[i].val <= 1.0
        && (data[i] == lo ==> Normalize(data)[i].val == 0.0)
        && (data[i] == hi ==> Normalize(data)[i].val == 1.0)
    {
      NormalizeAt(data, i);
      RescaledRange(data[i], lo, hi);
    }
    if lo != hi {
      forall i, j | 0 <= i < |data| && 0 <= j < |data| && data[i] <= data[j]
        ensures Rescaled(data[i], lo, hi).val <= Rescaled(data[j], lo, hi).val
      {
        NormalizeAt(data, i);
        NormalizeAt(data, j);
        RescaledOrder(data[i], data[j], lo, hi);
      }
    }
  }

  /** A non-decreasing array normalises to all NaN when its last entry equals its first;
      otherwise to numbers in [0, 1] that start at 0, end at 1 and never decrease. */
  lemma {:induction false} NormalizeSorted(c: seq<real>)
    requires |c| > 0
    requires forall i, j :: 0 <= i <= j < |c| ==> c[i] <= c[j]
    ensures |Normalize(c)| == |c|
    ensures var ry := Normalize(c);
      c[|c| - 1] == c[0] ==> forall i :: 0 <= i < |ry| ==> ry[i] == NaN
    ensures var ry := Normalize(c);
      c[|c| - 1] != c[0] ==>
        && ry[0] == Finite(0.0)
        && ry[|ry| - 1] == Finite(1.0)
        && (forall i :: 0 <= i < |ry| ==> ry[i].Finite? && 0.0 <= ry[i].val <= 1.0)
        && (forall i, j :: 0 <= i <= j < |ry| ==> ry[i].val <= ry[j].val)
  {
    var n := |c| - 1;
    NormalizeRange(c);
    assert MinOf(c) == c[0] by {
      var k :| 0 <= k < |c| && c[k] == MinOf(c);
    }
    assert MaxOf(c) == c[n] by {
      var k :| 0 <= k < |c| && c[k] == MaxOf(c);
    }
  }

  /** For a running sum of non-negative volumes, Ry = normalize(cumsum(vol)) is all NaN when
      nothing is added after the first bin; otherwise it starts at 0, ends at 1, stays in
      [0, 1] and never decreases. */
  lemma {:induction false} NormalizedCumulative(vol: seq<real>)
    requires |vol| > 0
    requires forall i :: 0 <= i < |vol| ==> vol[i] >= 0.0
    ensures |Normalize(CumSum(vol))| == |vol|
    ensures var c, ry := CumSum(vol), Normalize(CumSum(vol));
      c[|vol| - 1] == c[0] ==> forall i :: 0 <= i < |ry| ==> ry[i] == NaN
    ensures var c, ry := CumSum(vol), Normalize(CumSum(vol));
      c[|vol| - 1] != c[0] ==>
        && ry[0] == Finite(0.0)
        && ry[|ry| - 1] == Finite(1.0)
        && (forall i :: 0 <= i < |ry| ==> ry[i].Finite? && 0.0 <= ry[i].val <= 1.0)
        && (forall i, j :: 0 <= i <= j < |ry| ==> ry[i].val <= ry[j].val)
  {
    CumSumMonotone(vol);
    NormalizeSorted(CumSum(vol));
  }

  /** What survives low-count removal and the cumulative curve built on it. */
  function Finish(vol: seq<real>, num: seq<real>, edges: seq<real>): (res: CurveResult)
    requires |vol| == |num| == |edges|
    ensures !res.OverlapWindowEmpty?
  {
    var drop := LowCount(num);
    var kept := Delete(vol, drop);
    if |kept| == 0 then EmptyCurve
    else Curve(Delete(edges, drop), Normalize(CumSum(kept)))
  }

  /** Low-count removal deletes the same bins from the volumes and the edges: the curve's
      sizes are exactly the edges of the bins holding at least five clasts, in increasing
      order, each paired with its bin's count, and the curve is empty exactly when no bin
      has five. */
  lemma {:induction false} FinishShape(vol: seq<real>, num: seq<real>, edges: seq<real>)
    requires |vol| == |num| == |edges|
    requires StrictlyIncreasing(edges)
    requires forall i :: 0 <= i < |vol| ==> vol[i] >= 0.0
    ensures Finish(vol, num, edges).EmptyCurve? <==> forall i :: 0 <= i < |num| ==> num[i] < LowestNumber
    ensures Finish(vol, num, edges).Curve? ==>
      var drop := LowCount(num);
      var rx, ry := Finish(vol, num, edges).rx, Finish(vol, num, edges).ry;
      && |rx| == |ry| == |Delete(num, drop)| > 0
      && Zip(Delete(num, drop), rx) == Filter(Zip(num, edges), Supported())
      && Zip(Delete(num, drop), Delete(vol, drop)) == Filter(Zip(num, vol), Supported())
      && StrictlyIncreasing(rx)
      && ((forall i :: 0 <= i < |ry| ==> ry[i] == NaN) ||
          (ry[0] == Finite(0.0) && ry[|ry| - 1] == Finite(1.0)
           && (forall i :: 0 <= i < |ry| ==> ry[i].Finite? && 0.0 <= ry[i].val <= 1.0)
           && (forall i, j :: 0 <= i <= j < |ry| ==> ry[i].val <= ry[j].val)))
  {
    var drop := LowCount(num);
    DeleteAll(vol, drop);
    DeleteInLockstep(num, edges, drop, Supported());
    DeleteInLockstep(num, vol, drop, Supported());
    DeleteIncreasing(edges, drop);
    var kept := Delete(vol, drop);
    if |kept| > 0 {
      DeleteNonNegative(vol, drop);
      NormalizedCumulative(kept);
    }
  }

  // ---------------------------------------------------------------------------
  // The whole pipeline

  /** The merged (vol, num) rows, or None when the ratio is undefined. */
  function MergedRows(first: Dataset, second: Option<Dataset>, cMin: real, cMax: real, threshold: real, n: nat)
    : (rows: Option<(seq<real>, seq<real>)>)
    requires Aligned(first) && (second.Some? ==> Aligned(second.value))
    ensures rows.None? <==> second.Some? && OverlapCount(first.r, cMin, cMax) == 0
    ensures rows.Some? ==> |rows.value.0| == |rows.value.1| == n
  {
    var kept := KeepAtMost(first, threshold);
    match second
    case None => Some((VolumeRow(kept, n), NumberRow(kept, n)))
    case Some(ds2) =>
      var overlap := OverlapCount(first.r, cMin, cMax);
      if overlap == 0 then None
      else
        var ratio := PairRatio(first, ds2, cMin, cMax);
        var kept2 := KeepAbove(ds2, threshold);
        Some((MergedVolume(kept, kept2, ratio, n), MergedVolume(Counted(kept), Counted(kept2), ratio, n)))
  }

  /** The merged row of two sieved tables: the first row scaled by ratio plus the second.
      Its total is ratio times the first range total plus the second. */
  function MergedVolume(k1: Dataset, k2: Dataset, ratio: real, n: nat): (row: seq<real>)
    requires Aligned(k1) && Aligned(k2)
    ensures |row| == n
    ensures Sum(row) == ratio * RangeTotal(k1, n) + RangeTotal(k2, n)
  {
    MergedVolumeTotal(k1, k2, ratio, n);
    Merge(VolumeRow(k1, n), VolumeRow(k2, n), ratio)
  }

  /** cumvol_fit up to the curve fits: (Rx, Ry), or the failure. */
  function CurveOf(first: Dataset, second: Option<Dataset>, cMin: real, cMax: real, threshold: real)
    : (res: CurveResult)
    requires Aligned(first) && (second.Some? ==> Aligned(second.value))
    ensures res.OverlapWindowEmpty? <==> second.Some? && OverlapCount(first.r, cMin, cMax) == 0
  {
    match MergedRows(first, second, cMin, cMax, threshold, BinTotal)
    case None => OverlapWindowEmpty
    case Some((vol, num)) => Finish(vol, num, EdgeRow(MinGrainsize, GrainsizeStep, BinTotal))
  }

  /** With one table, the rows add up to the volume and the number of the clasts at most
      the threshold inside the range the bins cover. */
  lemma {:induction false} SingleConservation(first: Dataset, cMin: real, cMax: real, threshold: real, n: nat)
    requires Aligned(first)
    ensures var rows := MergedRows(first, None, cMin, cMax, threshold, n);
      var k1 := KeepAtMost(first, threshold);
      && rows.Some?
      && Sum(rows.value.0) == RangeTotal(k1, n)
      && Sum(rows.value.1) == CountIn(k1.r, MinGrainsize, Edge(MinGrainsize, GrainsizeStep, n)) as real
  {
    var k1 := KeepAtMost(first, threshold);
    assert MergedRows(first, None, cMin, cMax, threshold, n) == Some((VolumeRow(k1, n), NumberRow(k1, n)));
    RowSum(k1.r, k1.v, MinGrainsize, GrainsizeStep, n);
    RowSum(k1.r, Ones(|k1.r|), MinGrainsize, GrainsizeStep, n);
    CountedTotal(k1, n);
  }

  /** Merging two sieved tables adds ratio times the first range total to the second. */
  lemma {:induction false} MergedVolumeTotal(k1: Dataset, k2: Dataset, ratio: real, n: nat)
    requires Aligned(k1) && Aligned(k2)
    ensures Sum(Merge(VolumeRow(k1, n), VolumeRow(k2, n), ratio)) == ratio * RangeTotal(k1, n) + RangeTotal(k2, n)
  {
    RowSum(k1.r, k1.v, MinGrainsize, GrainsizeStep, n);
    RowSum(k2.r, k2.v, MinGrainsize, GrainsizeStep, n);
    MergeTotal(VolumeRow(k1, n), VolumeRow(k2, n), ratio);
  }

  /** With two tables, the merged volume row adds up to ratio times the volume of the first
      table's clasts at most the threshold plus the volume of the second table's clasts above
      it, both taken over the range the bins cover; the merge does not renormalise. */
  lemma {:induction false} PairVolumeConservation(first: Dataset, second: Dataset, cMin: real, cMax: real, threshold: real, n: nat)
    requires Aligned(first) && Aligned(second)
    requires OverlapCount(first.r, cMin, cMax) > 0
    ensures MergedRows(first, Some(second), cMin, cMax, threshold, n).Some?
    ensures Sum(MergedRows(first, Some(second), cMin, cMax, threshold, n).value.0)
      == PairRatio(first, second, cMin, cMax) * RangeTotal(KeepAtMost(first, threshold), n)
         + RangeTotal(KeepAbove(second, threshold), n)
  {
    assert MergedRows(first, Some(second), cMin, cMax, threshold, n).value.0
      == MergedVolume(KeepAtMost(first, threshold), KeepAbove(second, threshold), PairRatio(first, second, cMin, cMax), n);
  }

  /** The same for the merged count row: ratio times the first table's count plus the
      second's, each taken as the range total of the counted table. */
  lemma {:induction false} PairCountConservation(first: Dataset, second: Dataset, cMin: real, cMax: real, threshold: real, n: nat)
    requires Aligned(first) && Aligned(second)
    requires OverlapCount(first.r, cMin, cMax) > 0
    ensures MergedRows(first, Some(second), cMin, cMax, threshold, n).Some?
    ensures Sum(MergedRows(first, Some(second), cMin, cMax, threshold, n).value.1)
      == PairRatio(first, second, cMin, cMax) * RangeTotal(Counted(KeepAtMost(first, threshold)), n)
         + RangeTotal(Counted(KeepAbove(second, threshold)), n)
  {
    assert MergedRows(first, Some(second), cMin, cMax, threshold, n).value.1
      == MergedVolume(Counted(KeepAtMost(first, threshold)), Counted(KeepAbove(second, threshold)), PairRatio(first, second, cMin, cMax), n);
  }

  /** With non-negative volumes, whatever Finish keeps of a row over n bins has sizes that
      are bin edges in increasing order, and Ry is either all NaN or a normalised,
      non-decreasing cumulative fraction from 0 to 1. */
  lemma {:induction false} FinishOnEdges(vol: seq<real>, num: seq<real>, n: nat)
    requires |vol| == |num| == n
    requires forall i :: 0 <= i < |vol| ==> vol[i] >= 0.0
    ensures var res := Finish(vol, num, EdgeRow(MinGrainsize, GrainsizeStep, n));
      res.Curve? ==>
      && |res.rx| == |res.ry| > 0
      && StrictlyIncreasing(res.rx)
      && (forall i :: 0 <= i < |res.rx| ==> exists b :: 0 <= b < n && res.rx[i] == Edge(MinGrainsize, GrainsizeStep, b))
      && ((forall i :: 0 <= i < |res.ry| ==> res.ry[i] == NaN) ||
          (res.ry[0] == Finite(0.0) && res.ry[|res.ry| - 1] == Finite(1.0)
           && (forall i :: 0 <= i < |res.ry| ==> res.ry[i].Finite? && 0.0 <= res.ry[i].val <= 1.0)
           && (forall i, j :: 0 <= i <= j < |res.ry| ==> res.ry[i].val <= res.ry[j].val)))
  {
    var edges := EdgeRow(MinGrainsize, GrainsizeStep, n);
    EdgesIncrease(MinGrainsize, GrainsizeStep, n);
    FinishShape(vol, num, edges);
    var res := Finish(vol, num, edges);
    if res.Curve? {
      forall i | 0 <= i < |res.rx|
        ensures exists b :: 0 <= b < n && res.rx[i] == Edge(MinGrainsize, GrainsizeStep, b)
      {
        assert res.rx[i] in edges;
      }
    }
  }

  /** Scaling by a non-negative ratio and adding keeps volumes non-negative. */
  lemma {:induction false} MergeNonNegative(a: seq<real>, b: seq<real>, ratio: real)
    requires |a| == |b|
    requires ratio >= 0.0
    requires forall i :: 0 <= i < |a| ==> a[i] >= 0.0 && b[i] >= 0.0
    ensures forall i :: 0 <= i < |a| ==> Merge(a, b, ratio)[i] >= 0.0
  {
    forall i | 0 <= i < |a| ensures Merge(a, b, ratio)[i] >= 0.0 {
      assert a[i] * ratio >= 0.0;
    }
  }

  /** The merged volume row is non-negative when the tables' volumes are. */
  lemma {:induction false} MergedVolumesNonNegative(first: Dataset, second: Option<Dataset>, cMin: real, cMax: real, threshold: real, n: nat)
    requires Aligned(first) && (second.Some? ==> Aligned(second.value))
    requires forall i :: 0 <= i < |first.v| ==> first.v[i] >= 0.0
    requires second.Some? ==> forall i :: 0 <= i < |second.value.v| ==> second.value.v[i] >= 0.0
    requires MergedRows(first, second, cMin, cMax, threshold, n).Some?
    ensures var vol := MergedRows(first, second, cMin, cMax, threshold, n).value.0;
      forall i :: 0 <= i < |vol| ==> vol[i] >= 0.0
  {
    var k1 := KeepAtMost(first, threshold);
    DeleteNonNegative(first.v, AboveThreshold(first.r, threshold));
    RowNonNegative(k1.r, k1.v, MinGrainsize, GrainsizeStep, n);
    if second.Some? {
      var ds2 := second.value;
      var k2 := KeepAbove(ds2, threshold);
      DeleteNonNegative(ds2.v, AtMostThreshold(ds2.r, threshold));
      RowNonNegative(k2.r, k2.v, MinGrainsize, GrainsizeStep, n);
      var ratio := PairRatio(first, ds2, cMin, cMax);
      MergeNonNegative(VolumeRow(k1, n), VolumeRow(k2, n), ratio);
    }
  }

  /** With non-negative volumes the curve's sizes are bin edges in increasing order, one per
      bin holding at least five (scaled) clasts, and Ry is either all NaN or a normalised,
      non-decreasing cumulative fraction from 0 to 1. */
  lemma {:induction false} CurveShape(first: Dataset, second: Option<Dataset>, cMin: real, cMax: real, threshold: real)
    requires Aligned(first) && (second.Some? ==> Aligned(second.value))
    requires forall i :: 0 <= i < |first.v| ==> first.v[i] >= 0.0
    requires second.Some? ==> forall i :: 0 <= i < |second.value.v| ==> second.value.v[i] >= 0.0
    ensures var res := CurveOf(first, second, cMin, cMax, threshold);
      res.Curve? ==>
      && |res.rx| == |res.ry| > 0
      && StrictlyIncreasing(res.rx)
      && (forall i :: 0 <= i < |res.rx| ==> exists b :: 0 <= b < BinTotal && res.rx[i] == Edge(MinGrainsize, GrainsizeStep, b))
      && ((forall i :: 0 <= i < |res.ry| ==> res.ry[i] == NaN) ||
          (res.ry[0] == Finite(0.0) && res.ry[|res.ry| - 1] == Finite(1.0)
           && (forall i :: 0 <= i < |res.ry| ==> res.ry[i].Finite? && 0.0 <= res.ry[i].val <= 1.0)
           && (forall i, j :: 0 <= i <= j < |res.ry| ==> res.ry[i].val <= res.ry[j].val)))
  {
    var rows := MergedRows(first, second, cMin, cMax, threshold, BinTotal);
    if rows.Some? {
      MergedVolumesNonNegative(first, second, cMin, cMax, threshold, BinTotal);
      FinishOnEdges(rows.value.0, rows.value.1, BinTotal);
    }
  }

  /** cumvol_fit from the two tables to (Rx, Ry): truncate the first table, sieve it,
      count its window on the untruncated diameters; with a second table, count its window,
      take the ratio, truncate and sieve it, scale the FIRST table's rows by the ratio and
      add the second's; then drop the low-count bins and normalise the running volume. */
  method CumvolCurve(first: Dataset, second: Option<Dataset>, cMin: real, cMax: real, threshold: real)
    returns (res: CurveResult)
    requires Aligned(first) && (second.Some? ==> Aligned(second.value))
    ensures res == CurveOf(first, second, cMin, cMax, threshold)
    ensures res.OverlapWindowEmpty? <==> second.Some? && OverlapCount(first.r, cMin, cMax) == 0
  {
    var kept := KeepAtMost(first, threshold);
    var vol, num, sizes, bins := ClastSieve(kept.r, kept.v, MinGrainsize, MaxGrainsize, GrainsizeStep);
    var overlap := CountOverlap(first.r, cMin, cMax);
    if second.Some? {
      var ds2 := second.value;
      var comp := CountOverlap(ds2.r, cMin, cMax);
      if overlap == 0 {
        return OverlapWindowEmpty;
      }
      var ratio := comp as real / overlap as real;
      var kept2 := KeepAbove(ds2, threshold);
      var vol2, num2, sizes2, bins2 := ClastSieve(kept2.r, kept2.v, MinGrainsize, MaxGrainsize, GrainsizeStep);
      vol := Merge(vol, vol2, ratio);
      num := Merge(num, num2, ratio);
    }
    res := Finish(vol, num, bins);
  }
}
