# spectral-tools, modelled in Dafny

This project models the sample-list core of the spectral-tools library. A spectrum is an
immutable list of `(coordinate, intensity)` lines, sorted by coordinate, that is read
through one of three interpolation strategies. The project models:

- the interpolation registry and its strategies `none`, `point` and `line`, which run over
  the data framed by sentinels at -inf and +inf;
- the `Spectrum` container: a stable sort on construction, `get_value`, `maximum`, the
  `x_values` and `intensities` projections, `resample`, the midpoint-rule `integrate` and
  the pointwise operators `+`, `-` and `*`;
- the exact-type guard `check_types`, through which `resample` and the operators go;
- `SpectrumConstructor`: mutable class-level configuration with validating setters, the
  linear and progressive grids, and instantiation;
- `SpectrumFilter`, an order-preserving pointwise map;
- the electromagnetic specialisations: the band table, `get_intensity_in_band`,
  `relative_visual_intensity`, the band-range setter, the black-body constructor's
  Wien-law range and temperature guard, and the Rayleigh scattering filter.

Modules follow the source files:

| module | source |
|---|---|
| `Outcomes` | Python exceptions as `Failure` values |
| `TypeCheck` | `tools/typechecker.py` |
| `Interpolation` | `spectral/interpolation.py` |
| `LineSort` | the stable sort in `Spectrum.__init__` |
| `Spectra` | `spectral/spectrum.py`, except `integrate` |
| `Integration` | `integrate` and `_yield_integrated_bins` |
| `Constructors` | `spectral/constructor.py` |
| `Filters` | `spectral/filter.py` |
| `Blackbody` | `spectral/blackbody.py` |

Coordinates and intensities are Dafny `real`s. The interpolation sentinels use an
extended coordinate, `NegInf | Fin(r) | PosInf`. The subtraction in `point` yields a
`Float` that can be NaN (`inf - inf`), and every comparison with NaN is false, as in
IEEE arithmetic. At +inf the bracket is the last sample and the +inf sentinel: `x1 - x` is
NaN, so `point` returns `y0`, the last real sample, whose intensity the sentinel repeats.
At -inf the bracket is the -inf sentinel and the first sample: `x - x0` is NaN, so `point`
returns the sentinel's `y0`, which is the first sample's intensity.

Each exception the code raises becomes `Failure(e)`, where `e` is one of TypeError,
ValueError, IndexError, KeyError, NotImplementedError or ZeroDivisionError.

Where the code loops or changes state, the model is imperative and is proved equal to a
specification function:

- the three strategy scans;
- the in-place stable sort on an array;
- the operator loop;
- the bin-summing loop;
- the progressive-grid accumulation;
- the Rayleigh cross-section loop;
- the registry and constructor objects, whose setters change their fields.

The properties are proved about those specification functions.

The model follows the code where the library's documentation says otherwise:

- `point` breaks a tie (a query exactly half-way) in favour of the upper sample, because
  its test is `x1 - x <= x - x0`. The documentation does not say how ties are broken.
- `none` returns the first sample at or above the query, because the scan passes a sample
  only while `x > x1`. Its docstring says "greater than".
- `available_methods` lists the names in registration order, `none`, `point`, `line`,
  which is the order of the class body. The module docstring shows `('line', 'none', 'point')`.
- The operators combine the pairs that `zip` forms. Two spectra of different lengths whose
  shared prefix has matching coordinates therefore combine into a spectrum as long as the
  shorter one, instead of raising.
- `set_precision` has no upper bound, although its docstring mentions 1000.
- `set_spectral_range_by_bands` raises its ValueError for unknown names only when a second
  band is given and neither name is known. An unknown first band with no second band, or
  with an unknown one, fails when `band1, band2 = None` is unpacked. An unknown first band
  with a known second band fails when `band1[0]` subscripts `None`. Both failures are
  TypeErrors.
- The docstring of `_define_spectral_range` gives the lower gate coefficient as 0.312; the
  code's `_spectrum_gate` is 0.156. It also says the visible window is checked when
  `_ignore_visual` is enabled; the code checks it when `_ignore_visual` is not set.
- A lower or upper integration bound of `0` is falsy, so it is replaced by the first or
  last coordinate.

## Model

| member | source | states |
|---|---|---|
| Outcomes.MapResults | spectral/spectrum.py:125-128 | Collecting per-item results, as `Pool.map` and `starmap` do. It succeeds exactly when every call succeeds, and then holds one value per input in input order. A failure carries the error of some call. |
| TypeCheck.CheckTypes | tools/typechecker.py:17-21 | Equal concrete types give exactly `f(owner, other, args)`; different types give TypeError. |
| TypeCheck.MismatchNeverCallsOperation | tools/typechecker.py:18-20 | On a type mismatch the outcome is TypeError whatever the wrapped operation is, so the operation is never consulted. |
| TypeCheck.ExtraArgumentsNotInspected | tools/typechecker.py:17-21 | Only the first two arguments are checked. The outcome with extra arguments `args` equals the outcome with any other extra arguments, once `args` is built into the operation. So the guard never looks at them, whether or not the types match. |
| Interpolation.AddEndpoints | spectral/interpolation.py:112-117 | An empty list is an IndexError. Otherwise the result has n+2 points: (-inf, first intensity), every sample unchanged and in order, then (+inf, last intensity). |
| Interpolation.UnframeAddEndpoints | spectral/interpolation.py:113-117 | Removing the two sentinels gives back the data set exactly, so framing does not modify the samples. |
| Interpolation.BracketFrom | spectral/interpolation.py:125-129 | The scan stops at the first framed point at or above the query, and every point it passes lies below the query. The +inf sentinel guarantees that it stops. |
| Interpolation.Bracket | spectral/interpolation.py:137-139 | The upper end k of the bracket lies in 1..n+1. Point k is not below the query, and every real point before it is below. |
| Interpolation.BracketIs | spectral/interpolation.py:137-139 | The bracket is the only index with that characterisation. |
| Interpolation.InterpolateWith | spectral/interpolation.py:104-110 | An unregistered name is a ValueError, decided before the data is looked at. A registered name on empty data is an IndexError. The call succeeds exactly when neither applies. |
| Interpolation.Registry.constructor | spectral/interpolation.py:24-36 | After the three declarations the registry maps "none", "point" and "line" to their strategies, and its names are in that order. |
| Interpolation.Registry.Register | spectral/interpolation.py:27-36 | The decorator stores the strategy under its name. A new name is appended to the key order; a name already present keeps its place. Names stay distinct. |
| Interpolation.Registry.AvailableMethods | spectral/interpolation.py:53-60 | `available_methods` holds every registered name and nothing else, each once. |
| Interpolation.StandardMethods | spectral/interpolation.py:53-60 | The standard registry offers exactly `line`, `none` and `point`, the same names as the registration order. |
| Interpolation.NoneScan | spectral/interpolation.py:119-130 | The `none` loop, which reassigns `y1` at each step, returns the intensity of the first framed point at or above the query. |
| Interpolation.PointScan | spectral/interpolation.py:132-147 | The `point` loop over consecutive pairs returns the specified nearest-sample value. |
| Interpolation.LineScan | spectral/interpolation.py:149-164 | The `line` loop returns the bracket's common intensity, or the straight line through the bracket at the query. |
| Interpolation.FramedQuery | spectral/interpolation.py:104-110 | A registered name on non-empty data evaluates its strategy on the framed data. |
| Interpolation.BracketAt | spectral/interpolation.py:125-129 | A finite query's bracket ends at the first sample that is not below it. |
| Interpolation.InfiniteQueries | spectral/interpolation.py:113-117 | For every strategy, a query at -inf gives the first intensity and a query at +inf the last. |
| Interpolation.SampleQuery | spectral/interpolation.py:119-164 | For every strategy, a query exactly at a stored coordinate gives the stored intensity of the first sample at that coordinate. |
| Interpolation.StrictlySortedQueries | spectral/tests/interpolation_tests.py:31-32 | With strictly increasing coordinates, every strategy reproduces every stored sample. |
| Interpolation.NoneIsCeiling | spectral/interpolation.py:121-130 | `none` answers with the first sample whose coordinate is at or above the query. |
| Interpolation.NoneAboveAll | spectral/interpolation.py:121-130 | `none` answers a query above every sample with the last intensity, taken from the +inf sentinel. |
| Interpolation.PointIsNearest | spectral/interpolation.py:134-147 | On sorted data, `point` returns the intensity of a sample whose coordinate is nearest the query among all samples. |
| Interpolation.NearestSample | spectral/interpolation.py:134-147 | Names that sample, whether the query is below the first sample, above the last, or between two samples. |
| Interpolation.GapSample | spectral/interpolation.py:139-145 | Inside a finite bracket, `point` picks the nearer of its two samples, and that sample is nearest overall. |
| Interpolation.PointTieGoesUp | spectral/interpolation.py:141-144 | A query exactly half-way between two distinct consecutive coordinates gives the upper sample's intensity. |
| Interpolation.LineValueAt | spectral/interpolation.py:156-162 | In a finite bracket, `line` returns y0 when y0 == y1, and otherwise y0 + (y1 - y0)(x - x0)/(x1 - x0). |
| Interpolation.LineWithinBracket | spectral/interpolation.py:156-162 | The `line` value always lies between the two bracketing intensities. |
| Interpolation.LineThroughMidpoint | spectral/interpolation.py:161 | The line formula at the middle of the bracket is the mean of the two intensities. |
| Interpolation.LineMidpoint | spectral/interpolation.py:151-164 | `line`, queried half-way between two distinct consecutive coordinates, gives the mean of their intensities. |
| Interpolation.InterpolationBounded | spectral/interpolation.py:119-164 | For every strategy and query the answer stays within any bounds of the stored intensities, so non-negative data gives non-negative answers. |
| LineSort.InsertSorted | spectral/spectrum.py:38 | Inserting into a sorted list keeps it sorted, adds one element, and adds nothing else. |
| LineSort.InsertPermutes | spectral/spectrum.py:38 | Insertion adds exactly the new element to the multiset. |
| LineSort.InsertStable | spectral/spectrum.py:38 | Insertion places the element after every element with an equal coordinate. |
| LineSort.InsertPosition | spectral/spectrum.py:38 | The element lands just above the last element not larger than it, with every larger element after it. |
| LineSort.SortByXSorted | spectral/spectrum.py:38 | The sort orders the lines by coordinate. |
| LineSort.SortByXPermutes | spectral/spectrum.py:38 | The sort is a permutation. |
| LineSort.SortByXStable | spectral/spectrum.py:38 | The sort is stable: lines with the same coordinate keep their input order. |
| LineSort.SortByXKeepsSorted | spectral/spectrum.py:38 | Sorted input is left exactly as it is. |
| LineSort.ShiftUp | spectral/spectrum.py:38 | The inner pass moves every element larger than the new one up one slot, changes nothing else, and reports the free slot. |
| LineSort.InsertAt | spectral/spectrum.py:38 | One pass of the in-place sort turns the array prefix into the insertion of the next element and leaves the rest alone. |
| LineSort.SortInPlace | spectral/spectrum.py:37-38 | The in-place sort of the copied list leaves exactly the stable sort of the input. |
| Spectra.MakeSpectrum | spectral/spectrum.py:36-40 | A constructed spectrum holds a sorted (by its type), stable permutation of the given lines, with the given interpolation and type. |
| Spectra.MakeSpectrumOfSorted | spectral/spectrum.py:36-40 | Lines that are already sorted are stored exactly as given. |
| Spectra.NewSpectrum | spectral/spectrum.py:36-40 | Copying into an array and sorting in place gives that spectrum. |
| Spectra.GetValue | spectral/spectrum.py:42-52 | Reading succeeds exactly when the spectrum's interpolation is registered and it has a line. An unknown interpolation is a ValueError; an empty spectrum is an IndexError. |
| Spectra.MaxIndex | spectral/spectrum.py:74-84 | `max(key=intensity)` picks a line whose intensity is at least every other, and the first such line on ties. |
| Spectra.Maximum | spectral/spectrum.py:74-84 | `maximum` is a stored line of greatest intensity, with no interpolation: the first such line, the one `max` picks. An empty spectrum is a ValueError. |
| Spectra.XValues | spectral/spectrum.py:86-94 | One coordinate per line, in stored order. |
| Spectra.Intensities | spectral/spectrum.py:96-104 | One intensity per line, in stored order. |
| Spectra.Zip | spectral/spectrum.py:129 | `zip` stops at the shorter input and pairs equal positions. |
| Spectra.ZipProjections | spectral/spectrum.py:86-104 | Zipping `x_values` with `intensities` reproduces the lines in stored order. |
| Spectra.ResampleOnto | spectral/spectrum.py:106-130 | With matching types and a readable `self`: the result has exactly `other`'s coordinates, each carrying `self.get_value` there, and keeps `self`'s interpolation and type. |
| Spectra.ResampleUnreadable | spectral/spectrum.py:125-126 | When `self` cannot be read at all, resampling onto a non-empty spectrum raises the same error. |
| Spectra.ResampleMixedKinds | spectral/spectrum.py:106-107 | Resampling between a plain and an electromagnetic spectrum is a TypeError. |
| Spectra.Pointwise | spectral/spectrum.py:174-179 | One combined line per zipped pair, at the first operand's coordinate. |
| Spectra.Combine | spectral/spectrum.py:158-225 | The operator loop (appending to `new_lines`, raising at the first mismatch) computes `Arith`. |
| Spectra.ArithOutcome | spectral/spectrum.py:158-225 | Different types give TypeError, checked first. A coordinate mismatch among zipped pairs gives ValueError. Otherwise the result has the pointwise lines, `min(len)` of them, with the first operand's interpolation and type. |
| Spectra.AddSelfDoubles | spectral/spectrum.py:174-180 | `s + s` keeps the coordinates and doubles every intensity. |
| Spectra.SubSelfIsZero | spectral/spectrum.py:197-203 | `s - s` is zero everywhere, so its maximum intensity is 0. |
| Spectra.MulSelfSquaresMaximum | spectral/spectrum.py:219-225 | For non-negative data, the maximum intensity of `s * s` is the square of the maximum intensity of `s`. |
| Integration.Integral | spectral/spectrum.py:140-146 | A bound that is missing and cannot be defaulted (empty spectrum) is an IndexError. Bounds with x0 > x1 are a ValueError. |
| Integration.BinsFromSkip | spectral/spectrum.py:147-149 | A bin whose right end is below the lower bound is skipped. |
| Integration.BinsFromFail | spectral/spectrum.py:150-153 | A failing read of a bin's midpoint is raised, even for the bin that ends the scan. |
| Integration.BinsFromStop | spectral/spectrum.py:153-155 | The scan stops, without adding, at the first bin whose right end reaches the upper bound. |
| Integration.BinsFromAdd | spectral/spectrum.py:150-156 | Otherwise the bin adds `get_value(midpoint) * width` to the rest of the scan. |
| Integration.SumBins | spectral/spectrum.py:147-156 | The generator loop with its running sum computes `BinsFrom`. |
| Integration.Integrate | spectral/spectrum.py:54-72 | `integrate` (default the bounds, check them, sum the bins) computes `Integral`. |
| Integration.SelectedPastUpper | spectral/spectrum.py:154-155 | On sorted lines, nothing at or after the first bin past the upper bound is selected. |
| Integration.BinsFromSelected | spectral/spectrum.py:147-156 | On sorted lines read by a reader that never fails, the scan sums exactly the bins whose right end lies in `[x0, x1)`. |
| Integration.SelectedUpToLast | spectral/spectrum.py:140-156 | Between the first and last coordinates, the selected bins are every bin except the last. |
| Integration.ReaderNeverFails | spectral/spectrum.py:153 | A spectrum with a registered interpolation and a line can be read at every coordinate. |
| Integration.DefaultBoundsDropLastBin | spectral/spectrum.py:140-156 | With default bounds, the integral sums every bin but the one that ends at the last line. |
| Integration.ZeroBoundIsDefault | spectral/spectrum.py:140-143 | A bound of 0 behaves exactly like a missing bound. |
| Integration.SelectedNonNegative | spectral/spectrum.py:147-156 | Non-negative heights over sorted lines give a non-negative sum. |
| Integration.IntegralSelected | spectral/spectrum.py:54-72 | For a readable spectrum and any bounds, once defaulted and ordered, the integral is the sum of the bins whose right end lies in `[lo, hi)`. |
| Integration.SelectedWithin | spectral/spectrum.py:147-156 | With non-negative heights, a window that takes in every bin another window takes in sums to at least as much. |
| Integration.ReaderNonNegative | spectral/spectrum.py:42-52 | Non-negative samples read non-negative at every coordinate, under every registered strategy. |
| Integration.IntegralNonNegative | spectral/spectrum.py:54-72 | Integrating non-negative data never gives a negative result. |
| Constructors.SumRangePositive | spectral/constructor.py:105 | `sum(range(p))` is positive for p >= 2, so the progressive step is well defined. |
| Constructors.SumRangeClosedForm | spectral/constructor.py:105 | `sum(range(n)) = n(n-1)/2`, a triangular number. |
| Constructors.LinearGridShape | spectral/constructor.py:115-117 | The linear grid has p points, starts at `w_min`, increases strictly and stays below `w_max` (half-open). |
| Constructors.ProgressiveGridEnds | spectral/constructor.py:104-109 | The progressive grid has p points, starts at `w_min` and ends exactly at `w_max`. |
| Constructors.ProgressiveGap | spectral/constructor.py:108 | The gap below point i is `k * i`, positive on a non-empty range. |
| Constructors.ProgressiveGridGaps | spectral/constructor.py:104-109 | On a non-empty range the step k is positive, the gap before point i is `k * i` (so gaps strictly grow), and the points increase strictly. |
| Constructors.AccumulateStep | spectral/constructor.py:108 | One `s += k * i` step moves the running coordinate on by one triangular term. |
| Constructors.ProgressiveDivision | spectral/constructor.py:104-109 | The accumulation loop emits exactly the progressive grid. |
| Constructors.BuildShape | spectral/constructor.py:91-96 | On a strictly increasing grid where the model function never fails, the spectrum has one line `(v, func(v))` per grid point, in grid order, with interpolation `'point'` and the class's type. |
| Constructors.BuildFails | spectral/constructor.py:95-96 | A model function that fails at some grid point makes construction fail with one of its errors. |
| Constructors.AbstractBuildFails | spectral/constructor.py:30-45 | The abstract base cannot build over a non-empty grid: NotImplementedError. |
| Constructors.SpectrumConstructor.constructor | spectral/constructor.py:25-28 | A constructor class starts with its class-level precision, range, progressive flag, type and model function. |
| Constructors.SpectrumConstructor.SetPrecision | spectral/constructor.py:47-65 | Below 2 is a ValueError and changes nothing. Otherwise the truncated integer is stored, with no upper bound, and nothing else changes. |
| Constructors.SpectrumConstructor.SetSpectralRange | spectral/constructor.py:67-89 | `band1 >= band2` is a ValueError and changes nothing. Otherwise the range becomes `(band1, band2)` and nothing else changes. |
| Constructors.SpectrumConstructor.Wavelist | spectral/constructor.py:98-118 | `_wavelist` has exactly `_precision` points, starts at `w_min` and increases strictly, in both modes. |
| Constructors.SpectrumConstructor.Waves | spectral/constructor.py:111-118 | The grid as instantiation computes it, including the accumulation loop, is `_wavelist`. |
| Constructors.SpectrumConstructor.Construct | spectral/constructor.py:120-125 | `__new__` samples the model function over the grid and builds the spectrum that `Build` specifies. |
| Filters.FilterLines | spectral/filter.py:78-82 | Without a filter spectrum, one `None` per line. With one, the lines are the resampled filter, and any error is `resample`'s. |
| Filters.ResampledFilterLines | spectral/filter.py:78-80 | A readable filter of the same type gives one filter line per line, at that line's coordinate, carrying the filter's value there. |
| Filters.Pairs | spectral/filter.py:83 | Each line is paired with its filter line, as far as both lists go. |
| Filters.MappedValues | spectral/filter.py:83-87 | When every call succeeds, `starmap` collects `_func(line i, filter line i, args)` in order. |
| Filters.MapLinesShape | spectral/filter.py:83-89 | The output has the input's coordinates, count and order, its interpolation and type, and intensity i equal to `_func` on line i and filter line i. |
| Filters.ProcessShape | spectral/filter.py:68-89 | The same for `_process`, with the filter lines it fetches. |
| Filters.NoFilterPassesNone | spectral/filter.py:81-83 | Without a filter spectrum every call receives `None` as its filter line. |
| Filters.FilterOfOtherKind | spectral/filter.py:78-79 | A filter spectrum of another concrete type is rejected by `resample` with TypeError. |
| Filters.AbstractFilterFails | spectral/filter.py:64-65 | The abstract base filter fails with NotImplementedError on any spectrum that has a line. |
| Blackbody.Lookup | spectral/blackbody.py:105 | `dict.get` finds a range exactly when some entry has the name, and the range it returns is that entry's. |
| Blackbody.BandsTile | spectral/blackbody.py:31-57 | Every band is a non-empty range, the names are distinct, and each band ends where the next begins. |
| Blackbody.LookupFinds | spectral/blackbody.py:105 | Looking up an entry's name returns that entry's range when no earlier entry has the name. |
| Blackbody.BandAt | spectral/blackbody.py:31-57 | A band's name finds its range. |
| Blackbody.GammaBand | spectral/blackbody.py:32 | GAMMA is `(0, 0.01 nm)`. |
| Blackbody.ExtremeUltravioletBand | spectral/blackbody.py:35 | EUV is `(10 nm, 100 nm)`. |
| Blackbody.NearUltravioletBand | spectral/blackbody.py:38 | NUV is `(300 nm, 380 nm)`. |
| Blackbody.VisibleBand | spectral/blackbody.py:39 | VIS is `(380 nm, 750 nm)`. |
| Blackbody.NearInfraredBand | spectral/blackbody.py:40 | NIR is `(750 nm, 1400 nm)`. |
| Blackbody.IntensityInBand | spectral/blackbody.py:59-69 | An unknown name is a KeyError. Otherwise the result is `integrate(band start, band end)`. |
| Blackbody.GammaStartsAtFirstLine | spectral/blackbody.py:69 | GAMMA starts at 0, a falsy bound, so its integral starts at the spectrum's first coordinate. |
| Blackbody.VisibleIntensity | spectral/blackbody.py:69 | The VIS intensity is the integral from 380 nm to 750 nm. |
| Blackbody.RelativeVisualIntensityNonNegative | spectral/blackbody.py:71-78 | For non-negative data the visible share, whenever it is defined (a non-zero total), is non-negative. |
| Blackbody.QuotientAtMostOne | spectral/blackbody.py:78 | A non-negative part of a positive whole, divided by the whole, lies in `[0, 1]`. |
| Blackbody.VisibleWithinWhole | spectral/blackbody.py:71-78 | For non-negative data whose last coordinate is at least 750 nm, both integrals succeed and the visible one lies between 0 and the whole one. |
| Blackbody.RelativeVisualIntensityAtMostOne | spectral/blackbody.py:71-78 | The documented range `[0, 1]` of the share holds for non-negative data whose last coordinate is at least 750 nm. |
| Blackbody.ShortSpectrumReadsOne | spectral/interpolation.py:132-147 | A spectrum whose samples are all 1 reads 1 everywhere. |
| Blackbody.ShortSpectrumVisible | spectral/blackbody.py:69 | Samples of 1 at 300, 400 and 500 nm give a VIS intensity of 200 nm: the bins ending at 400 nm and 500 nm. |
| Blackbody.ShortSpectrumWhole | spectral/spectrum.py:54-72 | The same samples integrate to 100 nm with default bounds: the bin ending at 500 nm, the last coordinate, is dropped. |
| Blackbody.ShortSpectrumShareIsTwo | spectral/blackbody.py:71-78 | For those samples the relative visual intensity is 2, outside its documented range. |
| Blackbody.RangeByBandsCases | spectral/blackbody.py:105-121 | A known `band1` alone, or with an unknown `band2`, gives that band's range. Two known bands give `(band1 start, band2 end)`, or ValueError when that is not a range. Two unknown names are a ValueError. An unknown `band1` otherwise is a TypeError. |
| Blackbody.SetSpectralRangeByBands | spectral/blackbody.py:85-121 | The setter stores that range on success. On failure it leaves the range alone. It never touches precision or scale. |
| Blackbody.DefineSpectralRangeShape | spectral/blackbody.py:222-252 | For T > 0 the range is proper. It is the gate around Wien's peak `(0.156, 7.8) * WIEN_C / T`, widened, only for 1199 < T < 250000 with `ignore_visual` unset, to reach at least from 300 nm to 1400 nm. It never narrows the gate. |
| Blackbody.RangesFromBands | spectral/blackbody.py:190-193 | The visible window is from the start of NUV to the end of NIR, and the black-body default range is from the start of EUV to the end of NIR. |
| Blackbody.BlackbodyConstructor.constructor | spectral/blackbody.py:185-194 | Black-body defaults: 200 points, progressive, range from the start of EUV to the end of NIR, electromagnetic type, visual widening on. |
| Blackbody.BlackbodyConstructor.New | spectral/blackbody.py:254-260 | T <= 1 is a ValueError before any range is set. Otherwise the derived range is installed, which cannot fail, and the spectrum is built over the new grid. |
| Blackbody.RayleighTransfer | spectral/blackbody.py:295-323 | The cross-section loop computes `y0 * max(0, 1 - sigma_total * molecules)`. With a material at wavelength 0 the division by `w**4` is a ZeroDivisionError. |
| Blackbody.CrossSectionNonNegative | spectral/blackbody.py:320-321 | With a non-negative constant, every cross-section `v^2 k ((n^2-1)/(n^2+2))^2 / w^4` is non-negative. |
| Blackbody.SigmaTotalNonNegative | spectral/blackbody.py:318-322 | With non-negative abundances, `sigma_total` is non-negative. |
| Blackbody.TransmittedBounds | spectral/blackbody.py:323 | The clamped share of a non-negative intensity lies in `[0, y0]`, and below `y0` when `y0 > 0` and `sigma * molecules > 0`. |
| Blackbody.RayleighBounds | spectral/blackbody.py:315-323 | With non-negative intensity, abundances and molecule count, the Rayleigh output lies in `[0, y0]`, strictly below it when anything scatters. |
| Blackbody.RayleighFilterAttenuates | spectral/blackbody.py:325-328 | On positive wavelengths and non-negative data, the filter keeps every coordinate and never raises an intensity. |

## Left out

- Blackbody.IntensityInBand and Blackbody.RelativeVisualIntensity: take a spectrum of
  either type. The source defines them as methods of `ElectromagneticSpectrum` only, so
  calling them on another spectrum type is an AttributeError that the model does not have.
- Process pools in `resample` and `_process` are modelled as a sequential, order-preserving
  map. When several calls fail, the model reports the first failing item's error;
  `Pool.map` reports the error of one failing item.
- Floating point is modelled as `real`. Rounding, overflow and float equality are not
  modelled; the infinities of the sentinels and the NaN of `inf - inf` are.
- `BlackbodySpectrumConstructor._func` (the Planck law, using `math.exp` with an overflow
  cap) is transcendental. It is the constructor's model-function parameter `planck`.
- `PhotoAbsoprtion._func` multiplies by `math.exp(-molecules * sigma)`, which is
  transcendental and not modelled at all.
- `RayleighFilter._k = 200000 * 24 * pi**3` is transcendental. It is the parameter `k`,
  assumed non-negative where bounds are proved.
- Blackbody.RayleighBounds: is stated only for a non-zero wavelength. At wavelength 0 the
  output is a ZeroDivisionError when there is a material, and `y0 * max(0, 1)` otherwise,
  as `Rayleigh` defines.
- Materials' `refractive_index` and `v` are parameters (a function and a number).
  `spectral/mock_material.py` is not part of this model.
- `spectral/color_tools.py`, `tools/classproperty.py`, `spectral/__init__.py` and the
  example scripts are not part of this model.
- Python's class-attribute inheritance: each constructor class is one Dafny object with
  its own fields. A setter called on a base class, seen through a subclass that does not
  shadow the attribute, is not modelled.
- Calling a strategy directly (`Interpolation.none(...)`) goes through the registration
  wrapper's `f.__func__`, which fails on a plain function. Only the dispatch through
  `interpolate` is modelled.
- `check_types` also passes keyword arguments through. The model bundles all extra
  arguments into one value.
- Operands that are not spectra at all (`s + 42`) are not modelled. The type guard is
  modelled between the two spectrum types, `Spectrum` and `ElectromagneticSpectrum`.
- `if filter_spectrum:` is true for every spectrum object, since `Spectrum` defines neither
  `__len__` nor `__bool__`. The model resamples whenever a filter spectrum is given.
- Filters.MapLinesShape: states the output only when every call of the filter's function
  succeeds. A failing call fails the whole map, as `Outcomes.MapResults` states.
- Constructors.BuildShape: is stated for strictly increasing grids, which both grid modes
  produce (`SpectrumConstructor.Wavelist`).
- Interpolation.PointIsNearest: is stated for sorted data, which is the only shape a
  constructed spectrum has.

## Findings

| source | as written | input that shows it | evidently intended | confidence | as-written member | corrected member |
|---|---|---|---|---|---|---|
| spectral/blackbody.py:71-78 | `relative_visual_intensity` divides the VIS integral by the default-bounds integral. The default upper bound is the last coordinate, and `_yield_integrated_bins` stops before the bin that ends there (spectral/spectrum.py:153-155). The VIS integral, which has its own upper bound of 750 nm, keeps that bin. | Samples `(300 nm, 1)`, `(400 nm, 1)`, `(500 nm, 1)` with `point` interpolation: the VIS integral is 200 nm, the whole integral 100 nm, the share 2.0. | A share in `[0, 1]`, as the docstring says. It holds when the data reach at least 750 nm, the end of VIS, and that is proved for non-negative data. | not executed | Blackbody.ShortSpectrumShareIsTwo | Blackbody.RelativeVisualIntensityAtMostOne |
