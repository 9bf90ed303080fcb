# Blob3D_fractsed grain-size sieve and cumulative curves, in Dafny

This project models the grain-size pipeline of Blob3D_fractsed over exact reals.

- **The clast sieve** (`clastsieve`). It sorts each particle's diameter into half-open bins `[edge, edge + step)`. The lower edges come from `np.arange(_min, _max, step)`. Per bin it returns:
  - the summed volumes,
  - the particle count,
  - the summed diameters,
  - the edges.
- **The cumulative-volume curve of `cumvol_fit`**, in five steps:
  - threshold truncation of one or two particle tables;
  - the overlap-window counts and their ratio;
  - the scale-and-add merge of the sieved rows;
  - removal of bins holding fewer than five clasts;
  - `normalize(cumsum(vol))`.
- **The log-log series of `fractal_plot`**, in five steps:
  - flipping the sieve output so the largest size comes first;
  - the running count N(>d);
  - masking zero edges and zero counts as NaN;
  - the window filter that deletes points from x and y together;
  - the fitted line on 50 `linspace` points and its centre.

The files are:

- `array_ops.dfy` (module `ArrayOps`): the numpy whole-array operations used. These are `Sum`, `CumSum`, `Flip`, `Delete` (np.delete), `MinOf`/`MaxOf`, `Linspace`, `PolyLine` (poly1d evaluation) and `Mean`. A float entry is `Float = Finite(val) | NaN`. `Delete` is compared with an independent reference `Filter` over zipped pairs.
- `sieve.dfy` (module `Sieve`): `clastsieve`. The source has it verbatim in both files, so it is modelled once.
  - `ClastSieve` is the imperative method. Its nested loop fills three fresh arrays per particle (`SortClast`) and adds them into the running totals (`AddInto`).
  - It is proved against the specification rows `Row(D, W, lo, step, n)`: per bin, the total weight of the particles in `[Edge(b), Edge(b) + step)`.
  - `BinCount` is `len(np.arange(lo, hi, step))`.
- `cumvol_fit.dfy` (module `CumvolFit`): the pipeline of `cumvol_fit` up to the curve fits.
  - `CurveOf` is the specification.
  - `CumvolCurve` is the method that follows the source statement by statement and is proved equal to it.
- `fractal_plot.dfy` (module `FractalPlot`): `fractal_dimension` and the top-level scatter series of `fractal_plot`.
  - `MaskZeros` is the in-place masked write on an array.
  - `OutsideWindow` is the loop that appends to `indexs`.

Edges are the exact reals `_min + i * step`. `np.log10` is a parameter `log10: real -> real`. The coefficients `(m, c)` returned by `np.polyfit` are inputs.

Where the code and its doc comments disagree, the model follows the code:
- The first table keeps `r <= threshold` and the second keeps `r_2 > threshold`.
- The **first** table's rows are multiplied by the ratio.
- The overlap counts run over the untruncated diameters.
- The first table is truncated even when there is no second table.
- The diameter row of the sieve is a **sum** of the in-bin diameters, not a last write.
- The bin count is `ceil((_max - _min) / step)`, not its floor.

## Model

| member | source | states |
|---|---|---|
| Sieve.EdgeRow | src/Blob3D_fractsed/_cumvol_fit.py:76 | the edge row `np.arange(_min, _max, step)` of length N, entry i being `_min + i*step`; EdgesIncrease proves it strictly increasing |
| Sieve.BinCount | src/Blob3D_fractsed/_cumvol_fit.py:76 | the number of bins is exactly the number of non-negative i with `_min + i*step < _max` (the length of `np.arange`) |
| Sieve.BinOf | src/Blob3D_fractsed/_cumvol_fit.py:90-91 | every diameter has exactly one bin index b with `edge[b] <= v < edge[b] + step`; a value equal to a lower edge belongs to that bin |
| Sieve.CoveredRange | src/Blob3D_fractsed/_cumvol_fit.py:87-96 | a diameter lands in one of the N bins iff it lies in `[_min, _min + N*step)`, so values outside contribute nothing |
| Sieve.EdgeOrder | src/Blob3D_fractsed/_cumvol_fit.py:76 | with step > 0 the edges are ordered like their indices (both strict and non-strict, both directions) |
| Sieve.EdgesIncrease | src/Blob3D_fractsed/_cumvol_fit.py:76 | the edge row is strictly increasing |
| Sieve.TotalOfOnes | src/Blob3D_fractsed/_cumvol_fit.py:93 | summing the unit weight `1` of the count row over an interval gives the number of diameters in it |
| Sieve.IntervalSplit | src/Blob3D_fractsed/_cumvol_fit.py:87-96 | adjacent size intervals add up, so no particle is counted twice |
| Sieve.IntervalTotalStep | src/Blob3D_fractsed/_cumvol_fit.py:87-96 | helper: one unfolding of the interval total, one more particle adding its weight when its diameter lies in the interval; RowAdvance uses it for the outer loop |
| Sieve.IntervalEmpty | src/Blob3D_fractsed/_cumvol_fit.py:91 | an interval whose upper end does not exceed its lower end holds no weight |
| Sieve.IntervalTotalNonNegative | src/Blob3D_fractsed/_cumvol_fit.py:87-96 | non-negative weights give a non-negative interval total |
| Sieve.RowOfNone | src/Blob3D_fractsed/_cumvol_fit.py:79 | with no particles every row is the all-zero row of `np.zeros` |
| Sieve.Row | src/Blob3D_fractsed/_cumvol_fit.py:87-96 | the specification of a sieved row: N entries, bin b holding the total weight of the particles in `[edge[b], edge[b] + step)`; RowSum, RowSuffixSum and CountRowCounts state what it adds up to |
| Sieve.RowSum | src/Blob3D_fractsed/_cumvol_fit.py:87-96 | conservation: a sieved row adds up to the total weight of the particles in the covered range |
| Sieve.RowSuffixSum | src/Blob3D_fractsed/_cumvol_fit.py:87-96 | the bins from a to N together hold exactly the weight of `[edge[a], edge[N])` |
| Sieve.RowNonNegative | src/Blob3D_fractsed/_cumvol_fit.py:87-96 | non-negative weights give non-negative bin totals |
| Sieve.CountRowSum | src/Blob3D_fractsed/_cumvol_fit.py:93 | the count row adds up to the number of diameters in the covered range |
| Sieve.CountRowCounts | src/Blob3D_fractsed/_cumvol_fit.py:93 | each entry of the count row is the number of diameters in that bin |
| Sieve.Placed | src/Blob3D_fractsed/_cumvol_fit.py:88-94 | one particle's row `_itt_[k]`: as long as the edge row, with the weight in every column whose bin contains the diameter and 0 elsewhere; SortClast builds it and RowAdvance sums it into Row |
| Sieve.SortClast | src/Blob3D_fractsed/_cumvol_fit.py:88-94 | the inner loop produces fresh rows holding the volume, 1 and the diameter in every matching bin column and 0 elsewhere |
| Sieve.AddInto | src/Blob3D_fractsed/_cumvol_fit.py:96 | `np.add` into the totals adds the particle's row column by column and changes nothing else |
| Sieve.AddClast | src/Blob3D_fractsed/_cumvol_fit.py:87-96 | one pass of the outer loop adds the particle's three rows into the three running totals |
| Sieve.RowAdvance | src/Blob3D_fractsed/_cumvol_fit.py:87-96 | adding particle k's row to the totals of the first k particles gives the totals of the first k + 1 |
| Sieve.ClastSieve | src/Blob3D_fractsed/_cumvol_fit.py:59-106 | the four rows have length N; the edges are `_min + i*step`; volume, count and diameter rows are the per-bin sums; the count row counts per bin; each row is conserved over the covered range; the copy in the fractal module (`_fractual_plot.py:28-78`) is the same routine |
| ArrayOps.SumConcat | src/Blob3D_fractsed/_cumvol_fit.py:172 | the sum of a concatenation is the sum of the parts |
| ArrayOps.SumNonNegative | src/Blob3D_fractsed/_cumvol_fit.py:172 | an array of non-negative entries has a non-negative sum |
| ArrayOps.CumSum | src/Blob3D_fractsed/_cumvol_fit.py:172 | `np.cumsum`: as long as its input and ending at the input's sum; CumSumAt, CumSumDifference and CumSumMonotone give its entries |
| ArrayOps.CumSumAt | src/Blob3D_fractsed/_cumvol_fit.py:172 | entry i of `np.cumsum` is the sum of the first i + 1 entries |
| ArrayOps.CumSumDifference | src/Blob3D_fractsed/_cumvol_fit.py:172 | the first difference of the running sum gives the input back |
| ArrayOps.CumSumMonotone | src/Blob3D_fractsed/_cumvol_fit.py:172 | with non-negative entries the running sum never decreases and ends at the total |
| ArrayOps.Flip | src/Blob3D_fractsed/_fractual_plot.py:93-95 | `np.flip`: as long as its input; FlipAt gives its entries and FlipFlip shows it is its own inverse |
| ArrayOps.FlipAt | src/Blob3D_fractsed/_fractual_plot.py:93-95 | entry i of `np.flip(s)` is `s[len - 1 - i]` |
| ArrayOps.FlipFlip | src/Blob3D_fractsed/_fractual_plot.py:93-95 | flipping twice gives the array back |
| ArrayOps.FlipPrefix | src/Blob3D_fractsed/_fractual_plot.py:93-96 | the first k entries of the flipped array are the last k entries, flipped |
| ArrayOps.SumFlip | src/Blob3D_fractsed/_fractual_plot.py:93-96 | flipping does not change the sum |
| ArrayOps.Delete | src/Blob3D_fractsed/_cumvol_fit.py:117-118 | `np.delete` never lengthens an array and keeps only entries of the original |
| ArrayOps.Filter | src/Blob3D_fractsed/_cumvol_fit.py:116-118 | the reference filter keeps only pairs whose key passes, each drawn from the input |
| ArrayOps.DeleteInLockstep | src/Blob3D_fractsed/_cumvol_fit.py:116-118 | deleting the failing-key indices from two parallel arrays leaves them the same length, and their pairs are exactly the passing pairs, in order |
| ArrayOps.DeleteAll | src/Blob3D_fractsed/_cumvol_fit.py:163-167 | everything is deleted iff every index is in the index set |
| ArrayOps.DeleteIncreasing | src/Blob3D_fractsed/_cumvol_fit.py:167 | deleting entries of a strictly increasing array keeps it strictly increasing |
| ArrayOps.DeleteNonNegative | src/Blob3D_fractsed/_cumvol_fit.py:166 | deleting entries keeps a non-negative array non-negative |
| ArrayOps.MinOf | src/Blob3D_fractsed/_cumvol_fit.py:108 | `np.min` is an element of the array and at most every element |
| ArrayOps.MaxOf | src/Blob3D_fractsed/_cumvol_fit.py:108 | `np.max` is an element of the array and at least every element |
| ArrayOps.Linspace | src/Blob3D_fractsed/_fractual_plot.py:117 | `np.linspace(a, b, num)` with its endpoint: num points; LinspaceShape and LinspaceMean give their ends, spacing and mean |
| ArrayOps.LinspaceShape | src/Blob3D_fractsed/_fractual_plot.py:117 | `np.linspace(a, b, num)` starts at a, ends at b, and its consecutive points are (b - a)/(num - 1) apart |
| ArrayOps.LinspaceMean | src/Blob3D_fractsed/_fractual_plot.py:117-119 | the mean of the linspace points is (a + b)/2 |
| ArrayOps.PolyLine | src/Blob3D_fractsed/_fractual_plot.py:115-118 | `np.poly1d([m, c])` applied to x_fit: one value per point; SumPolyLine and LineMean state its sum and average |
| ArrayOps.Mean | src/Blob3D_fractsed/_fractual_plot.py:119-120 | `np.average`; LinspaceMean and LineMean prove the two averages `fractal_dimension` takes are the window midpoint and the line's value there |
| ArrayOps.SumPolyLine | src/Blob3D_fractsed/_fractual_plot.py:115-118 | the values of the line m x + c add up to m times the sum of the points plus c times their number |
| ArrayOps.LineMean | src/Blob3D_fractsed/_fractual_plot.py:118-120 | the average of the line's values is the line's value at the average point |
| CumvolFit.BinsOfCumvol | src/Blob3D_fractsed/_cumvol_fit.py:120-126 | the sieve `(0.01, 5, 0.015)` has 333 bins; the last starts at 4.99 and the covered range `[0.01, 5.005)` reaches past 5 |
| CumvolFit.OverlapCount | src/Blob3D_fractsed/_cumvol_fit.py:129-132 | the value of the counter after the loop; OverlapCountIsWindowSize proves it is the size of the window's index set and CountOverlap that the loop computes it |
| CumvolFit.OverlapCountIsWindowSize | src/Blob3D_fractsed/_cumvol_fit.py:129-132 | the overlap count is the number of indices with `c_min < value <= c_max` |
| CumvolFit.CountOverlap | src/Blob3D_fractsed/_cumvol_fit.py:129-143 | the counting loop returns the overlap count; it serves both the first table (lines 129-132) and the second (lines 140-143) |
| CumvolFit.OverlapRatio | src/Blob3D_fractsed/_cumvol_fit.py:145 | when overlap_value > 0 the ratio is non-negative and ratio times overlap_value is overlap_comp_value |
| CumvolFit.AboveThreshold | src/Blob3D_fractsed/_cumvol_fit.py:116 | `r_under_threshold` is exactly the set of indices whose diameter fails the keep-key `<= threshold`; with the same threshold it and the second table's deletion list split the index range between them with no overlap |
| CumvolFit.AtMostThreshold | src/Blob3D_fractsed/_cumvol_fit.py:149 | `r2_over_threshold` is exactly the set of indices whose diameter fails the keep-key `> threshold` |
| CumvolFit.KeepAtMost | src/Blob3D_fractsed/_cumvol_fit.py:116-118 | the first table stays aligned and keeps exactly its (diameter, volume) pairs with diameter <= threshold, in order |
| CumvolFit.KeepAbove | src/Blob3D_fractsed/_cumvol_fit.py:149-151 | the second table stays aligned and keeps exactly its pairs with diameter > threshold, in order |
| CumvolFit.CountedTotal | src/Blob3D_fractsed/_cumvol_fit.py:93 | the counted table's range total is the number of its diameters in the covered range |
| CumvolFit.Merge | src/Blob3D_fractsed/_cumvol_fit.py:156-161 | `np.add(vol * ratio, vol_2)`: as long as its inputs; MergeTotal and MergeNonNegative give its sum and sign, and MergedVolume applies it to two sieved tables |
| CumvolFit.MergeTotal | src/Blob3D_fractsed/_cumvol_fit.py:156-161 | the merged row adds up to ratio times the first row's total plus the second's; nothing is renormalised |
| CumvolFit.MergedVolumeTotal | src/Blob3D_fractsed/_cumvol_fit.py:154-161 | merging two sieved tables gives ratio times the first range total plus the second |
| CumvolFit.MergedVolume | src/Blob3D_fractsed/_cumvol_fit.py:154-161 | a merged row has N bins and adds up to ratio times the first table's range total plus the second's |
| CumvolFit.MergeNonNegative | src/Blob3D_fractsed/_cumvol_fit.py:156-161 | with a non-negative ratio and rows, every merged bin is non-negative |
| CumvolFit.MergedRows | src/Blob3D_fractsed/_cumvol_fit.py:115-161 | the rows are undefined exactly when a second table is present and overlap_value is 0; otherwise both rows have N bins |
| CumvolFit.SingleConservation | src/Blob3D_fractsed/_cumvol_fit.py:115-126 | with one table, the volume row adds up to the volume of the clasts at most the threshold in the covered range, and the count row to their number |
| CumvolFit.PairVolumeConservation | src/Blob3D_fractsed/_cumvol_fit.py:140-161 | with two tables, the merged volume row adds up to ratio times the first table's kept volume plus the second table's kept volume, both over the covered range |
| CumvolFit.PairCountConservation | src/Blob3D_fractsed/_cumvol_fit.py:140-161 | the same for the merged count row, with clast counts |
| CumvolFit.MergedVolumesNonNegative | src/Blob3D_fractsed/_cumvol_fit.py:115-161 | non-negative input volumes give a non-negative merged volume row |
| CumvolFit.Normalize | src/Blob3D_fractsed/_cumvol_fit.py:107-108 | `normalize(data)`: as long as its input; NormalizeRange and NormalizeSorted give its range, ends and order |
| CumvolFit.RescaledRange | src/Blob3D_fractsed/_cumvol_fit.py:107-108 | one normalised entry is NaN when max == min; otherwise it lies in [0, 1], with 0 at the minimum and 1 at the maximum |
| CumvolFit.RescaledOrder | src/Blob3D_fractsed/_cumvol_fit.py:107-108 | normalising keeps the order of two values |
| CumvolFit.NormalizeRange | src/Blob3D_fractsed/_cumvol_fit.py:107-108 | a constant array normalises to all NaN; otherwise every entry lies in [0, 1], the minimum maps to 0 and the maximum to 1, and order is kept |
| CumvolFit.NormalizeSorted | src/Blob3D_fractsed/_cumvol_fit.py:107-108 | a non-decreasing array normalises to all NaN when last == first, and otherwise to a non-decreasing sequence in [0, 1] from 0 to 1 |
| CumvolFit.NormalizedCumulative | src/Blob3D_fractsed/_cumvol_fit.py:171-173 | for non-negative volumes, `normalize(cumsum(vol))` is all NaN when last == first cumsum; otherwise it starts at 0, ends at 1, stays in [0, 1] and never decreases |
| CumvolFit.LowCount | src/Blob3D_fractsed/_cumvol_fit.py:164 | `low_count` is exactly the set of bins whose count fails the key `>= 5` that FinishShape filters with |
| CumvolFit.Finish | src/Blob3D_fractsed/_cumvol_fit.py:163-173 | helper: low-count removal and the curve can yield a curve or the empty-array failure, never the overlap failure; FinishShape states what the curve is |
| CumvolFit.FinishShape | src/Blob3D_fractsed/_cumvol_fit.py:163-173 | the curve is empty iff no bin has five clasts. Otherwise vol and bins lose exactly the bins with count < 5, in lockstep and in order; Rx stays strictly increasing, has the length of Ry, and Ry is all NaN or a normalised non-decreasing curve from 0 to 1 |
| CumvolFit.FinishOnEdges | src/Blob3D_fractsed/_cumvol_fit.py:163-173 | with the sieve's own edges, every Rx value is a bin edge, in increasing order, and Ry is all NaN or normalised from 0 to 1 |
| CumvolFit.CurveOf | src/Blob3D_fractsed/_cumvol_fit.py:115-173 | the pipeline fails with the division by zero exactly when a second table is present and overlap_value is 0 |
| CumvolFit.CurveShape | src/Blob3D_fractsed/_cumvol_fit.py:115-173 | for non-negative volumes, a curve has Rx and Ry of equal positive length; Rx consists of edges of the 333 bins in increasing order, and Ry is all NaN or a normalised non-decreasing curve from 0 to 1 |
| CumvolFit.CumvolCurve | src/Blob3D_fractsed/_cumvol_fit.py:115-173 | the statement-by-statement pipeline computes `CurveOf` and fails exactly when a second table is present and overlap_value is 0 |
| FractalPlot.BinsOfFractal | src/Blob3D_fractsed/_fractual_plot.py:89-132 | the fit sieve `(0.015, 2, 0.015)` has 133 bins covering `[0.015, 2.01)`, and the plot sieve `(0.015, 3, 0.005)` has 597 bins covering `[0.015, 3)` |
| FractalPlot.FlippedEdgesShape | src/Blob3D_fractsed/_fractual_plot.py:95 | after `np.flip`, entry k is the edge of bin N - 1 - k, and the edges strictly decrease |
| FractalPlot.CumCounts | src/Blob3D_fractsed/_fractual_plot.py:93-96 | `cum = np.cumsum(np.flip(num))`: one entry per bin; CumCountsAt and CumCountsShape state what each entry counts |
| FractalPlot.CumCountsAt | src/Blob3D_fractsed/_fractual_plot.py:94-96 | entry i of `cumsum(flip(num))` is the number of diameters in `[bins[i], Edge(N))`, i.e. in the bins whose edge is at least `bins[i]` |
| FractalPlot.CumCountsShape | src/Blob3D_fractsed/_fractual_plot.py:94-96 | the running count never decreases and ends at the total in-range count |
| FractalPlot.Masked | src/Blob3D_fractsed/_fractual_plot.py:98-99 | an entry becomes NaN iff it was 0 (or already NaN); every other entry is unchanged |
| FractalPlot.MaskZeros | src/Blob3D_fractsed/_fractual_plot.py:98-99 | the masked write on the array leaves it equal to the masked contents of its old contents |
| FractalPlot.Log10Of | src/Blob3D_fractsed/_fractual_plot.py:101 | `np.log10` of an entry is defined exactly for a finite positive value, where it is log10 of it; NaN stays NaN |
| FractalPlot.WhereLog | src/Blob3D_fractsed/_fractual_plot.py:102 | `np.where(cum != 0, np.log10(cum), 0)` of an entry is defined exactly for a finite non-negative value: 0 at a zero count, log10 of a positive one |
| FractalPlot.LogEdges | src/Blob3D_fractsed/_fractual_plot.py:93-101 | the x series, one entry per bin; LogEdgesAt gives each entry |
| FractalPlot.LogCounts | src/Blob3D_fractsed/_fractual_plot.py:93-102 | the y series, one entry per bin; LogCountsAt and UndefinedCountsLead give each entry and where the NaN entries lie |
| FractalPlot.LogEdgesAt | src/Blob3D_fractsed/_fractual_plot.py:98-101 | with a positive first edge no edge is masked, and x[k] is log10 of the edge of bin N - 1 - k |
| FractalPlot.LogCountsAt | src/Blob3D_fractsed/_fractual_plot.py:96-102 | y[i] is NaN iff no diameter lies in `[bins[i], Edge(N))`, and otherwise it is log10 of that count |
| FractalPlot.UndefinedCountsLead | src/Blob3D_fractsed/_fractual_plot.py:96-102 | the NaN counts form a prefix: if y[j] is NaN then so is every y[i] with i <= j |
| FractalPlot.LogLogSeries | src/Blob3D_fractsed/_fractual_plot.py:93-102 | the sieve, flip, cumsum, masking and logarithms compute the specified series `LogEdges` and `LogCounts` |
| FractalPlot.Outside | src/Blob3D_fractsed/_fractual_plot.py:108 | the test `value <= R_min or value >= R_max`: false for NaN, because NaN compares false, and false strictly inside the window |
| FractalPlot.OutsideWindow | src/Blob3D_fractsed/_fractual_plot.py:106-109 | `indexs` holds exactly the indices with a finite x <= R_min or x >= R_max, in increasing order |
| FractalPlot.WindowLockstep | src/Blob3D_fractsed/_fractual_plot.py:110-111 | deleting those indices from x and y leaves equal lengths; the surviving pairs are exactly the pairs whose x is inside the window or NaN, in order |
| FractalPlot.WindowedSeries | src/Blob3D_fractsed/_fractual_plot.py:93-111 | the points handed to polyfit are exactly the window-filtered pairs of the fit series |
| FractalPlot.FitLine | src/Blob3D_fractsed/_fractual_plot.py:115-120 | x_fit has num points from R_min to R_max, evenly spaced; `y_fit[j] = m x_fit[j] + c`; x_center is (R_min + R_max)/2 and y_center is the line's value at x_center |
| FractalPlot.FractalDimension | src/Blob3D_fractsed/_fractual_plot.py:80-123 | the points handed to polyfit are exactly the window-filtered pairs of the fit series (`WindowedFrom`); x_fit / y_fit are 50 evenly spaced points from R_min to R_max on the line m x + c, centred at the window midpoint and the line's value there (`LineFit`); the slope is m |
| FractalPlot.FractalPlotData | src/Blob3D_fractsed/_fractual_plot.py:125-154 | the scatter series is the log-log series of the plot sieve; the fit is FractalDimension's over the window (-1, 0): its points are the window-filtered fit series, its 50 line points run from -1 to 0 evenly spaced on m x + c, its centre is -0.5 with `y_center = m(-0.5) + c`, and its slope is m |

## Left out

- Dataframe I/O: the pandas column selection and the `'Side contact' == 0` filter. Each table is given as two already-filtered sequences of equal length.
- The curve fits (Rosin-Rammler, generalised gamma), `scipy.optimize.curve_fit`, `gamma`, `gammainc`, `gengamma`, and the SSE, mean and variance values (`_cumvol_fit.py:175-209`). These are foreign nonlinear solvers over floating point.
- All plotting and printing, in both files.
- `np.log10`, which is a parameter of the model.
- `np.polyfit`: its coefficients `(m, c)` are inputs, and NaN values reaching it are not modelled.
- `round(m, 3)`.
- FractalPlot.FractalDimension: returns the slope m as given, without the rounding to three decimals.
- Floating-point rounding of `np.arange` edges and of the arithmetic. Edges are exact reals `_min + i*step`, and integer widths do not arise.
- Sieve.ClastSieve: requires `step > 0` and equal-length diameter and volume arrays. Every call site passes a positive constant and two columns of one table.
- The source calls `clastsieve` once per returned row with the same arguments. Being deterministic, these calls are modelled as one call.
- FractalPlot.Log10Of: a non-positive input maps to NaN rather than `-inf` or a warning. After masking, no zero reaches a logarithm.
- The other files of the repository: `_stereonetplot.py`, `_clastshape_zingg_plot.py` and `_shape_factor_plot.py`.
