/** The log-log cumulative series of fractal_plot: the sieve's arrays flipped so the largest
    size comes first, the running count N(>d) from the largest size down, zero edges and
    zero counts marked undefined, logarithms taken, the points outside the fit window
    deleted in lockstep, and the fitted line evaluated on its 50 points and centroid. The
    logarithm is a parameter and the fitted coefficients are inputs. */
module FractalPlot {
  import opened ArrayOps
  import opened Sieve

  /** Sieve settings inside fractal_dimension. */
  const FitMin: real := 0.015
  const FitMax: real := 2.0
  const FitStep: real := 0.015
  /** Sieve settings of the scatter plot. */
  const PlotMin: real := 0.015
  const PlotMax: real := 3.0
  const PlotStep: real := 0.005
  /** The window fractal_plot passes to fractal_dimension: R_min = -1, R_max = 0. */
  const WindowMin: real := -1.0
  const WindowMax: real := 0.0
  /** Points of the fitted line (np.linspace(R_min, R_max, num=50)). */
  const FitPoints: nat := 50

  /** The two sieves have 133 bins covering [0.015, 2.01) and 597 bins covering [0.015, 3). */
  lemma {:induction false} BinsOfFractal()
    ensures BinCount(FitMin, FitMax, FitStep) == 133
    ensures Edge(FitMin, FitStep, 133) == 2.01
    ensures BinCount(PlotMin, PlotMax, PlotStep) == 597
    ensures Edge(PlotMin, PlotStep, 597) == 3.0
  {
    assert Edge(FitMin, FitStep, 132) < FitMax;
    assert !(Edge(FitMin, FitStep, 133) < FitMax);
    assert Edge(PlotMin, PlotStep, 596) < PlotMax;
    assert !(Edge(PlotMin, PlotStep, 597) < PlotMax);
  }

  // ---------------------------------------------------------------------------
  // Flipped edges and the running count from the largest size down

  /** The sieve's edge row, largest edge first. */
  function FlippedEdges(lo: real, step: real, n: nat): (e: seq<real>)
    ensures |e| == n
  {
    Flip(EdgeRow(lo, step, n))
  }

  /** After np.flip, entry k is the edge of bin n - 1 - k, so the edges strictly decrease. */
  lemma {:induction false} FlippedEdgesShape(lo: real, step: real, n: nat)
    requires step > 0.0
    ensures forall k :: 0 <= k < n ==> FlippedEdges(lo, step, n)[k] == Edge(lo, step, n - 1 - k)
    ensures forall i, j :: 0 <= i < j < n ==> FlippedEdges(lo, step, n)[i] > FlippedEdges(lo, step, n)[j]
  {
    forall k | 0 <= k < n ensures FlippedEdges(lo, step, n)[k] == Edge(lo, step, n - 1 - k) {
      FlipAt(EdgeRow(lo, step, n), k);
    }
    forall i, j | 0 <= i < j < n ensures FlippedEdges(lo, step, n)[i] > FlippedEdges(lo, step, n)[j] {
      EdgeOrder(lo, step, n - 1 - j, n - 1 - i);
    }
  }

  /** cum = np.cumsum(np.flip(sum_vol)). */
  function CumCounts(D: seq<real>, lo: real, step: real, n: nat): (cum: seq<real>)
    ensures |cum| == n
  {
    CumSum(Flip(Row(D, Ones(|D|), lo, step, n)))
  }

  /** Entry i of the running count is the number of diameters in [Edge(n - 1 - i), Edge(n)):
      the particles in the bins whose edge is at least the i-th flipped edge. */
  lemma {:induction false} CumCountsAt(D: seq<real>, lo: real, step: real, n: nat, i: int)
    requires step > 0.0
    requires 0 <= i < n
    ensures CumCounts(D, lo, step, n)[i] == CountIn(D, Edge(lo, step, n - 1 - i), Edge(lo, step, n)) as real
  {
    var row := Row(D, Ones(|D|), lo, step, n);
    CumSumAt(Flip(row), i);
    FlipPrefix(row, i + 1);
    SumFlip(row[n - 1 - i..]);
    RowSuffixSum(D, Ones(|D|), lo, step, n - 1 - i, n);
    TotalOfOnes(D, Edge(lo, step, n - 1 - i), Edge(lo, step, n));
  }

  /** The running count never decreases and ends at the number of diameters in the range
      the bins cover. */
  lemma {:induction false} CumCountsShape(D: seq<real>, lo: real, step: real, n: nat)
    requires step > 0.0
    ensures forall i, j :: 0 <= i <= j < n ==> CumCounts(D, lo, step, n)[i] <= CumCounts(D, lo, step, n)[j]
    ensures n > 0 ==> CumCounts(D, lo, step, n)[n - 1] == CountIn(D, lo, Edge(lo, step, n)) as real
  {
    var row := Row(D, Ones(|D|), lo, step, n);
    RowNonNegative(D, Ones(|D|), lo, step, n);
    forall k | 0 <= k < n ensures Flip(row)[k] >= 0.0 {
      FlipAt(row, k);
    }
    CumSumMonotone(Flip(row));
    SumFlip(row);
    CountRowSum(D, lo, step, n);
  }

  // ---------------------------------------------------------------------------
  // Undefined entries and logarithms

  /** Exact reals stored in a float array. */
  function Finites(s: seq<real>): (r: seq<Float>)
    ensures |r| == |s|
  {
    seq(|s|, i requires 0 <= i < |s| => Finite(s[i]))
  }

  function MaskZero(x: Float): Float
  {
    if x == Finite(0.0) then NaN else x
  }

  /** a[a == 0] = np.nan on a whole array. */
  function Masked(s: seq<Float>): (r: seq<Float>)
    ensures |r| == |s|
    ensures forall i :: 0 <= i < |s| ==> (r[i] == NaN <==> s[i] == Finite(0.0) || s[i] == NaN)
    ensures forall i :: 0 <= i < |s| && r[i] != NaN ==> r[i] == s[i]
  {
    seq(|s|, i requires 0 <= i < |s| => MaskZero(s[i]))
  }

  /** The masked write in place: exactly the zero entries become NaN, all others are kept. */
  method MaskZeros(a: array<Float>)
    modifies a
    ensures a[..] == Masked(old(a[..]))
  {
    for i := 0 to a.Length
      invariant forall k :: 0 <= k < i ==> a[k] == MaskZero(old(a[k]))
      invariant forall k :: i <= k < a.Length ==> a[k] == old(a[k])
    {
      if a[i] == Finite(0.0) {
        a[i] := NaN;
      }
    }
  }

  /** np.log10 on one float: NaN stays NaN, a positive value maps through log10, and a
      non-positive value has no real logarithm. */
  function Log10Of(log10: real -> real, x: Float): (r: Float)
    ensures r.Finite? <==> x.Finite? && x.val > 0.0
    ensures r.Finite? ==> r.val == log10(x.val)
  {
    match x
    case NaN => NaN
    case Finite(v) => if v > 0.0 then Finite(log10(v)) else NaN
  }

  /** np.where(cum != 0, np.log10(cum), 0) on one entry (NaN != 0 holds). */
  function WhereLog(log10: real -> real, x: Float): (r: Float)
    ensures r.Finite? <==> x.Finite? && x.val >= 0.0
    ensures x.Finite? && x.val > 0.0 ==> r.val == log10(x.val)
    ensures x == Finite(0.0) ==> r == Finite(0.0)
  {
    if x == Finite(0.0) then Finite(0.0) else Log10Of(log10, x)
  }

  function LogAll(log10: real -> real, s: seq<Float>): (r: seq<Float>)
    ensures |r| == |s|
  {
    seq(|s|, i requires 0 <= i < |s| => Log10Of(log10, s[i]))
  }

  function WhereLogAll(log10: real -> real, s: seq<Float>): (r: seq<Float>)
    ensures |r| == |s|
  {
    seq(|s|, i requires 0 <= i < |s| => WhereLog(log10, s[i]))
  }

  /** x = np.log10(bins) after masking the zero edges. */
  function LogEdges(lo: real, step: real, n: nat, log10: real -> real): (x: seq<Float>)
    ensures |x| == n
  {
    LogAll(log10, Masked(Finites(FlippedEdges(lo, step, n))))
  }

  /** y = np.where(cum != 0, np.log10(cum), 0) after masking the zero counts. */
  function LogCounts(D: seq<real>, lo: real, step: real, n: nat, log10: real -> real): (y: seq<Float>)
    ensures |y| == n
  {
    WhereLogAll(log10, Masked(Finites(CumCounts(D, lo, step, n))))
  }

  /** With a positive first edge no edge is zero, so x[k] is log10 of the edge of bin n - 1 - k. */
  lemma {:induction false} LogEdgesAt(lo: real, step: real, n: nat, log10: real -> real)
    requires lo > 0.0 && step > 0.0
    ensures forall k :: 0 <= k < n ==> LogEdges(lo, step, n, log10)[k] == Finite(log10(Edge(lo, step, n - 1 - k)))
  {
    FlippedEdgesShape(lo, step, n);
    forall k | 0 <= k < n ensures LogEdges(lo, step, n, log10)[k] == Finite(log10(Edge(lo, step, n - 1 - k))) {
      EdgeOrder(lo, step, 0, n - 1 - k);
      assert Edge(lo, step, 0) == lo;
    }
  }

  /** y[i] is undefined exactly when no diameter lies in [Edge(n - 1 - i), Edge(n)), and is
      log10 of that count otherwise. */
  lemma {:induction false} LogCountsAt(D: seq<real>, lo: real, step: real, n: nat, log10: real -> real, i: int)
    requires step > 0.0
    requires 0 <= i < n
    ensures CountIn(D, Edge(lo, step, n - 1 - i), Edge(lo, step, n)) == 0 ==> LogCounts(D, lo, step, n, log10)[i] == NaN
    ensures CountIn(D, Edge(lo, step, n - 1 - i), Edge(lo, step, n)) > 0 ==>
      LogCounts(D, lo, step, n, log10)[i] == Finite(log10(CountIn(D, Edge(lo, step, n - 1 - i), Edge(lo, step, n)) as real))
  {
    CumCountsAt(D, lo, step, n, i);
  }

  /** The undefined counts come first: once a bin from the top holds a diameter, every
      smaller flipped edge has a defined count too. */
  lemma {:induction false} UndefinedCountsLead(D: seq<real>, lo: real, step: real, n: nat, log10: real -> real, i: int, j: int)
    requires step > 0.0
    requires 0 <= i <= j < n
    requires LogCounts(D, lo, step, n, log10)[j] == NaN
    ensures LogCounts(D, lo, step, n, log10)[i] == NaN
  {
    CumCountsShape(D, lo, step, n);
    CumCountsAt(D, lo, step, n, i);
    CumCountsAt(D, lo, step, n, j);
    LogCountsAt(D, lo, step, n, log10, i);
    LogCountsAt(D, lo, step, n, log10, j);
  }

  /** Sieve, flip, running count, masking and logarithms: the (x, y) series of
      fractal_dimension and of the scatter plot. */
  method LogLogSeries(D: seq<real>, V: seq<real>, lo: real, hi: real, step: real, log10: real -> real)
    returns (x: seq<Float>, y: seq<Float>)
    requires step > 0.0
    requires |V| == |D|
    ensures x == LogEdges(lo, step, BinCount(lo, hi, step), log10)
    ensures y == LogCounts(D, lo, step, BinCount(lo, hi, step), log10)
  {
    var freqVol, sumVol, grainsizes, bins := ClastSieve(D, V, lo, hi, step);
    var n := |bins|;
    var edges := Flip(bins);
    var cum := CumSum(Flip(sumVol));
    var edgeArray := new Float[n](k requires 0 <= k < n => Finite(edges[k]));
    var cumArray := new Float[n](k requires 0 <= k < n => Finite(cum[k]));
    assert edgeArray[..] == Finites(FlippedEdges(lo, step, n));
    assert cumArray[..] == Finites(CumCounts(D, lo, step, n));
    MaskZeros(edgeArray);
    MaskZeros(cumArray);
    x := LogAll(log10, edgeArray[..]);
    y := WhereLogAll(log10, cumArray[..]);
  }

  // ---------------------------------------------------------------------------
  // Window filter and the fitted line

  /** value <= R_min or value >= R_max; both comparisons are false for NaN, so NaN stays. */
  predicate Outside(x: Float, rMin: real, rMax: real): (out: bool)
    ensures x.NaN? ==> !out
    ensures x.Finite? && rMin < x.val < rMax ==> !out
  {
    x.Finite? && (x.val <= rMin || x.val >= rMax)
  }

  function InWindow(rMin: real, rMax: real): Float -> bool
  {
    x => !Outside(x, rMin, rMax)
  }

  /** The loop collecting indexs: every index whose point is outside the window, ascending. */
  method OutsideWindow(x: seq<Float>, rMin: real, rMax: real) returns (indexs: seq<int>)
    ensures forall k :: 0 <= k < |indexs| ==> 0 <= indexs[k] < |x| && Outside(x[indexs[k]], rMin, rMax)
    ensures forall i :: 0 <= i < |x| && Outside(x[i], rMin, rMax) ==> i in indexs
    ensures forall k, l :: 0 <= k < l < |indexs| ==> indexs[k] < indexs[l]
  {
    indexs := [];
    for index := 0 to |x|
      invariant forall k :: 0 <= k < |indexs| ==> 0 <= indexs[k] < index && Outside(x[indexs[k]], rMin, rMax)
      invariant forall i :: 0 <= i < index && Outside(x[i], rMin, rMax) ==> i in indexs
      invariant forall k, l :: 0 <= k < l < |indexs| ==> indexs[k] < indexs[l]
    {
      if Outside(x[index], rMin, rMax) {
        indexs := indexs + [index];
      }
    }
  }

  /** The indices np.delete removes. */
  function WindowDrop(x: seq<Float>, rMin: real, rMax: real): set<int>
  {
    set i | 0 <= i < |x| && Outside(x[i], rMin, rMax)
  }

  /** Deleting the window's outside indices from x and y keeps them paired: the surviving
      points are exactly the points inside the window (or undefined), in their order. */
  lemma {:induction false} WindowLockstep(x: seq<Float>, y: seq<Float>, rMin: real, rMax: real)
    requires |x| == |y|
    ensures |Delete(x, WindowDrop(x, rMin, rMax))| == |Delete(y, WindowDrop(x, rMin, rMax))|
    ensures Zip(Delete(x, WindowDrop(x, rMin, rMax)), Delete(y, WindowDrop(x, rMin, rMax)))
      == Filter(Zip(x, y), InWindow(rMin, rMax))
  {
    DeleteInLockstep(x, y, WindowDrop(x, rMin, rMax), InWindow(rMin, rMax));
  }

  /** The fitted line's value at x. */
  function LineAt(m: real, c: real, x: real): real
  {
    m * x + c
  }

  /** The line part of fractal_dimension's result: num points x_fit from rMin to rMax with
      even spacing, every y_fit on the line m x + c, x_center the midpoint of the window and
      y_center the line's value there. */
  predicate LineFit(xFit: seq<real>, yFit: seq<real>, xCenter: real, yCenter: real,
                    rMin: real, rMax: real, num: nat, m: real, c: real)
  {
    && num >= 2
    && |xFit| == num && |yFit| == num
    && xFit[0] == rMin && xFit[num - 1] == rMax
    && (forall j :: 0 <= j < num - 1 ==> xFit[j + 1] - xFit[j] == (rMax - rMin) / ((num - 1) as real))
    && (forall j :: 0 <= j < num ==> yFit[j] == LineAt(m, c, xFit[j]))
    && xCenter == (rMin + rMax) / 2.0
    && yCenter == LineAt(m, c, xCenter)
  }

  /** Packs the line facts, stated one by one, into LineFit. */
  lemma {:induction false} LineFitIntro(xFit: seq<real>, yFit: seq<real>, xCenter: real, yCenter: real,
                                        rMin: real, rMax: real, num: nat, m: real, c: real)
    requires num >= 2
    requires |xFit| == num && |yFit| == num
    requires xFit[0] == rMin && xFit[num - 1] == rMax
    requires forall j :: 0 <= j < num - 1 ==> xFit[j + 1] - xFit[j] == (rMax - rMin) / ((num - 1) as real)
    requires forall j :: 0 <= j < num ==> yFit[j] == LineAt(m, c, xFit[j])
    requires xCenter == (rMin + rMax) / 2.0
    requires yCenter == LineAt(m, c, xCenter)
    ensures LineFit(xFit, yFit, xCenter, yCenter, rMin, rMax, num, m, c)
  {
  }

  /** x_fit = np.linspace(R_min, R_max, num), y_fit = p(x_fit) and their averages. */
  method FitLine(rMin: real, rMax: real, num: nat, m: real, c: real)
    returns (xFit: seq<real>, yFit: seq<real>, xCenter: real, yCenter: real)
    requires num >= 2
    ensures |xFit| == |yFit| == num
    ensures xFit[0] == rMin && xFit[num - 1] == rMax
    ensures forall j :: 0 <= j < num - 1 ==> xFit[j + 1] - xFit[j] == (rMax - rMin) / ((num - 1) as real)
    ensures forall j :: 0 <= j < num ==> yFit[j] == LineAt(m, c, xFit[j])
    ensures xCenter == (rMin + rMax) / 2.0
    ensures yCenter == LineAt(m, c, xCenter)
  {
    xFit := Linspace(rMin, rMax, num);
    yFit := PolyLine(m, c, xFit);
    LinspaceShape(rMin, rMax, num);
    LinspaceMean(rMin, rMax, num);
    LineMean(m, c, xFit);
    xCenter := Mean(xFit);
    yCenter := Mean(yFit);
  }

  /** What fractal_dimension hands on: the windowed points polyfit receives, the line
      x_fit / y_fit, its centre, and the slope m. */
  datatype FractalFit = FractalFit(
    x: seq<Float>, y: seq<Float>,
    xFit: seq<real>, yFit: seq<real>,
    xCenter: real, yCenter: real,
    slope: real)

  /** x and y are the series on the fit sieve with the points outside the window
      (rMin, rMax) deleted from both together. */
  predicate WindowedFrom(x: seq<Float>, y: seq<Float>, D: seq<real>, rMin: real, rMax: real, log10: real -> real)
  {
    && |x| == |y|
    && Zip(x, y) == Filter(Zip(LogEdges(FitMin, FitStep, BinCount(FitMin, FitMax, FitStep), log10),
                               LogCounts(D, FitMin, FitStep, BinCount(FitMin, FitMax, FitStep), log10)),
                           InWindow(rMin, rMax))
  }

  /** The points fractal_dimension hands to polyfit. */
  method WindowedSeries(D: seq<real>, V: seq<real>, rMin: real, rMax: real, log10: real -> real)
    returns (x: seq<Float>, y: seq<Float>)
    requires |V| == |D|
    ensures WindowedFrom(x, y, D, rMin, rMax, log10)
  {
    var xAll, yAll := LogLogSeries(D, V, FitMin, FitMax, FitStep, log10);
    var indexs := OutsideWindow(xAll, rMin, rMax);
    var drop := set k | 0 <= k < |indexs| :: indexs[k];
    assert drop == WindowDrop(xAll, rMin, rMax);
    WindowLockstep(xAll, yAll, rMin, rMax);
    x, y := Delete(xAll, drop), Delete(yAll, drop);
  }

  /** fractal_dimension(_df, R_min, R_max) with the fitted coefficients (m, c) given. */
  method FractalDimension(D: seq<real>, V: seq<real>, rMin: real, rMax: real, log10: real -> real, m: real, c: real)
    returns (fit: FractalFit)
    requires |V| == |D|
    ensures WindowedFrom(fit.x, fit.y, D, rMin, rMax, log10)
    ensures LineFit(fit.xFit, fit.yFit, fit.xCenter, fit.yCenter, rMin, rMax, FitPoints, m, c)
    ensures fit.slope == m
  {
    var x, y := WindowedSeries(D, V, rMin, rMax, log10);
    var xFit, yFit, xCenter, yCenter := FitLine(rMin, rMax, FitPoints, m, c);
    LineFitIntro(xFit, yFit, xCenter, yCenter, rMin, rMax, FitPoints, m, c);
    fit := FractalFit(x, y, xFit, yFit, xCenter, yCenter, m);
  }

  /** The whole of fractal_plot: the scatter series on the fine sieve and the fit over the
      window [-1, 0], whose centre is at x = -0.5. */
  method FractalPlotData(D: seq<real>, V: seq<real>, log10: real -> real, m: real, c: real)
    returns (plotX: seq<Float>, plotY: seq<Float>, fit: FractalFit)
    requires |V| == |D|
    ensures plotX == LogEdges(PlotMin, PlotStep, BinCount(PlotMin, PlotMax, PlotStep), log10)
    ensures plotY == LogCounts(D, PlotMin, PlotStep, BinCount(PlotMin, PlotMax, PlotStep), log10)
    ensures WindowedFrom(fit.x, fit.y, D, WindowMin, WindowMax, log10)
    ensures LineFit(fit.xFit, fit.yFit, fit.xCenter, fit.yCenter, WindowMin, WindowMax, FitPoints, m, c)
    ensures fit.xCenter == -0.5 && fit.yCenter == LineAt(m, c, -0.5)
    ensures fit.slope == m
  {
    plotX, plotY := LogLogSeries(D, V, PlotMin, PlotMax, PlotStep, log10);
    fit := FractalDimension(D, V, WindowMin, WindowMax, log10, m, c);
  }
}
