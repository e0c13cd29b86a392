/**
 * `Spectrum.integrate`: a midpoint-rule sum over the bins between
 * consecutive lines. A bin is named by its right-hand line `j`; its width is
 * the coordinate step from line `j - 1` and its height the spectrum's value,
 * read through its interpolation, at the middle of that step. Bins whose
 * right end lies below the lower bound are skipped, and the scan stops at
 * the first bin whose right end reaches the upper bound.
 */
module Integration {
  import opened Outcomes
  import opened Interpolation
  import opened Spectra

  /** Python truthiness of a bound: a missing bound and a bound of 0 both count as not given. */
  predicate Falsy(b: Option<real>) {
    b.None? || b.value == 0.0
  }

  /** The lower bound after defaulting: the first coordinate, which an empty spectrum does not have. */
  function LowerBound(s: Spectrum, x0: Option<real>): Result<real> {
    if !Falsy(x0) then Success(x0.value)
    else if |s.lines| == 0 then Failure(IndexError)
    else Success(s.lines[0].x)
  }

  /** The upper bound after defaulting: the last coordinate. */
  function UpperBound(s: Spectrum, x1: Option<real>): Result<real> {
    if !Falsy(x1) then Success(x1.value)
    else if |s.lines| == 0 then Failure(IndexError)
    else Success(s.lines[|s.lines| - 1].x)
  }

  /** `get_value` of a spectrum, as a function of a finite coordinate. */
  function Reader(s: Spectrum): real -> Result<real> {
    x => GetValue(s, Fin(x))
  }

  /** The area of a bin: its height times its width. */
  function Area(height: real, width: real): real {
    height * width
  }

  lemma AreaNonNegative(height: real, width: real)
    requires height >= 0.0 && width >= 0.0
    ensures Area(height, width) >= 0.0
  {
  }

  /** The middle of the bin ending at line `j`. */
  function Midpoint(lines: seq<Line>, j: nat): real
    requires 1 <= j < |lines|
  {
    var w0, w := lines[j - 1].x, lines[j].x;
    w0 + (w - w0) * 0.5
  }

  /**
   * The sum the generator feeds, from bin `j` on, reading heights with
   * `read`. The height of a bin is read before the stop test, so a read that
   * fails is raised even for the bin that ends the scan.
   */
  function BinsFrom(lines: seq<Line>, read: real -> Result<real>, lo: real, hi: real, j: nat): Result<real>
    requires j >= 1
    decreases |lines| - j
  {
    if j >= |lines| then
      Success(0.0)
    else if lines[j].x < lo then
      BinsFrom(lines, read, lo, hi, j + 1)
    else
      var v :- read(Midpoint(lines, j));
      if lines[j].x >= hi then
        Success(0.0)
      else
        var rest :- BinsFrom(lines, read, lo, hi, j + 1);
        Success(Area(v, lines[j].x - lines[j - 1].x) + rest)
  }

  /** `integrate(x0, x1)`. */
  function Integral(s: Spectrum, x0: Option<real>, x1: Option<real>): (r: Result<real>)
    ensures LowerBound(s, x0).Failure? || UpperBound(s, x1).Failure? ==> r == Failure(IndexError)
    ensures (LowerBound(s, x0).Success? && UpperBound(s, x1).Success? &&
             LowerBound(s, x0).value > UpperBound(s, x1).value) ==> r == Failure(ValueError)
  {
    var lo :- LowerBound(s, x0);
    var hi :- UpperBound(s, x1);
    if lo > hi then Failure(ValueError) else BinsFrom(s.lines, Reader(s), lo, hi, 1)
  }

  /** The scan skips a bin whose right end lies below the lower bound. */
  lemma BinsFromSkip(lines: seq<Line>, read: real -> Result<real>, lo: real, hi: real, j: nat)
    requires 1 <= j < |lines| && lines[j].x < lo
    ensures BinsFrom(lines, read, lo, hi, j) == BinsFrom(lines, read, lo, hi, j + 1)
  {
  }

  /** The scan raises whatever reading a bin's height raises. */
  lemma BinsFromFail(lines: seq<Line>, read: real -> Result<real>, lo: real, hi: real, j: nat, v: Result<real>)
    requires 1 <= j < |lines| && lo <= lines[j].x
    requires v == read(Midpoint(lines, j)) && v.Failure?
    ensures BinsFrom(lines, read, lo, hi, j) == Failure(v.error)
  {
  }

  /** The scan stops at the first bin whose right end reaches the upper bound. */
  lemma BinsFromStop(lines: seq<Line>, read: real -> Result<real>, lo: real, hi: real, j: nat, v: Result<real>)
    requires 1 <= j < |lines| && lo <= lines[j].x && hi <= lines[j].x
    requires v == read(Midpoint(lines, j)) && v.Success?
    ensures BinsFrom(lines, read, lo, hi, j) == Success(0.0)
  {
  }

  /** Otherwise the bin's area is added to the rest of the scan. */
  lemma BinsFromAdd(lines: seq<Line>, read: real -> Result<real>, lo: real, hi: real, j: nat, v: Result<real>)
    requires 1 <= j < |lines| && lo <= lines[j].x < hi
    requires v == read(Midpoint(lines, j)) && v.Success?
    ensures BinsFrom(lines, read, lo, hi, j)
            == AddTo(Area(v.value, lines[j].x - lines[j - 1].x), BinsFrom(lines, read, lo, hi, j + 1))
  {
  }

  /** Adds a running total to a partial sum, keeping a failure as it is. */
  function AddTo(total: real, r: Result<real>): Result<real> {
    if r.Failure? then r else Success(total + r.value)
  }

  lemma AddToZero(r: Result<real>)
    ensures AddTo(0.0, r) == r
  {
  }

  lemma AddToShift(total: real, a: real, r: Result<real>)
    ensures AddTo(total, AddTo(a, r)) == AddTo(total + a, r)
  {
  }

  /**
   * The generator and `sum` together, once the bounds are settled: scan the
   * bins, skip those below the lower bound, read each height with `read`
   * (the spectrum's `get_value`), stop at the upper bound and accumulate.
   */
  method SumBins(lines: seq<Line>, read: real -> Result<real>, lo: real, hi: real) returns (r: Result<real>)
    ensures r == BinsFrom(lines, read, lo, hi, 1)
  {
    var n := |lines|;
    var total := 0.0;
    var j := 1;
    AddToZero(BinsFrom(lines, read, lo, hi, 1));
    while j < n
      invariant j >= 1
      invariant BinsFrom(lines, read, lo, hi, 1) == AddTo(total, BinsFrom(lines, read, lo, hi, j))
      decreases n - j
    {
      var w := lines[j].x;
      if w < lo {
        BinsFromSkip(lines, read, lo, hi, j);
        j := j + 1;
      } else {
        var w0 := lines[j - 1].x;
        var dw := w - w0;
        var wAvg := w0 + dw * 0.5;
        assert wAvg == Midpoint(lines, j);
        var v := read(wAvg);
        if v.Failure? {
          BinsFromFail(lines, read, lo, hi, j, v);
          return Failure(v.error);
        }
        if w >= hi {
          BinsFromStop(lines, read, lo, hi, j, v);
          break;
        }
        BinsFromAdd(lines, read, lo, hi, j, v);
        AddToShift(total, Area(v.value, dw), BinsFrom(lines, read, lo, hi, j + 1));
        total := total + Area(v.value, dw);
        j := j + 1;
      }
    }
    return Success(total);
  }

  /** `integrate(x0, x1)`: default the bounds, check them, then sum the bins. */
  method Integrate(s: Spectrum, x0: Option<real>, x1: Option<real>) returns (r: Result<real>)
    ensures r == Integral(s, x0, x1)
  {
    var n := |s.lines|;
    var lo, hi;
    if !Falsy(x0) {
      lo := x0.value;
    } else if n == 0 {
      return Failure(IndexError);
    } else {
      lo := s.lines[0].x;
    }
    if !Falsy(x1) {
      hi := x1.value;
    } else if n == 0 {
      return Failure(IndexError);
    } else {
      hi := s.lines[n - 1].x;
    }
    if lo > hi {
      return Failure(ValueError);
    }
    r := SumBins(s.lines, Reader(s), lo, hi);
  }

  /** The area of the bin ending at line `j`, for a reader that never fails. */
  function Bin(lines: seq<Line>, read: real -> Result<real>, j: nat): real
    requires 1 <= j < |lines| && forall x :: read(x).Success?
  {
    Area(read(Midpoint(lines, j)).value, lines[j].x - lines[j - 1].x)
  }

  /** The areas of the bins from `j` on whose right end lies in `[lo, hi)`. */
  function Selected(lines: seq<Line>, read: real -> Result<real>, lo: real, hi: real, j: nat): real
    requires j >= 1 && forall x :: read(x).Success?
    decreases |lines| - j
  {
    if j >= |lines| then 0.0
    else (if lo <= lines[j].x < hi then Bin(lines, read, j) else 0.0) + Selected(lines, read, lo, hi, j + 1)
  }

  /** The areas of the bins `j <= k < e`. */
  function BinTotal(lines: seq<Line>, read: real -> Result<real>, j: nat, e: nat): real
    requires 1 <= j && e <= |lines| && forall x :: read(x).Success?
    decreases e - j
  {
    if j >= e then 0.0 else Bin(lines, read, j) + BinTotal(lines, read, j + 1, e)
  }

  lemma {:induction false} SelectedPastUpper(lines: seq<Line>, read: real -> Result<real>, lo: real, hi: real, j: nat)
    requires j >= 1 && forall x :: read(x).Success?
    requires Sorted(lines) && (j < |lines| ==> lines[j].x >= hi)
    ensures Selected(lines, read, lo, hi, j) == 0.0
    decreases |lines| - j
  {
    if j < |lines| {
      if j + 1 < |lines| {
        assert lines[j].x <= lines[j + 1].x;
      }
      SelectedPastUpper(lines, read, lo, hi, j + 1);
    }
  }

  /**
   * With a reader that never fails, the scan of sorted lines adds up exactly
   * the bins whose right end lies in `[lo, hi)`: sorting is what makes
   * stopping at the first bin past `hi` lose nothing.
   */
  lemma {:induction false} BinsFromSelected(lines: seq<Line>, read: real -> Result<real>, lo: real, hi: real, j: nat)
    requires j >= 1 && forall x :: read(x).Success?
    requires Sorted(lines)
    ensures BinsFrom(lines, read, lo, hi, j) == Success(Selected(lines, read, lo, hi, j))
    decreases |lines| - j
  {
    if j < |lines| {
      if lines[j].x < lo {
        BinsFromSelected(lines, read, lo, hi, j + 1);
      } else if lines[j].x >= hi {
        SelectedPastUpper(lines, read, lo, hi, j);
      } else {
        BinsFromSelected(lines, read, lo, hi, j + 1);
      }
    }
  }

  lemma {:induction false} SelectedUpToLast(lines: seq<Line>, read: real -> Result<real>, j: nat)
    requires 1 <= j && |lines| >= 2 && forall x :: read(x).Success?
    requires Sorted(lines) && lines[|lines| - 2].x < lines[|lines| - 1].x
    ensures Selected(lines, read, lines[0].x, lines[|lines| - 1].x, j) == BinTotal(lines, read, j, |lines| - 1)
    decreases |lines| - j
  {
    var n := |lines|;
    if j < n {
      assert lines[0].x <= lines[j].x;
      if j < n - 1 {
        assert lines[j].x <= lines[n - 2].x;
      }
      SelectedUpToLast(lines, read, j + 1);
    }
  }

  /** A spectrum with a registered interpolation and at least one line can be read everywhere. */
  lemma ReaderNeverFails(s: Spectrum)
    requires s.interpolation in Registered && |s.lines| > 0
    ensures forall x :: Reader(s)(x).Success?
  {
  }

  /**
   * With both bounds left to their defaults, the bin ending at the last
   * line is not counted: its right end equals the upper bound.
   */
  lemma DefaultBoundsDropLastBin(s: Spectrum)
    requires |s.lines| >= 2 && s.interpolation in Registered
    requires s.lines[|s.lines| - 2].x < s.lines[|s.lines| - 1].x
    ensures forall x :: Reader(s)(x).Success?
    ensures Integral(s, None, None) == Success(BinTotal(s.lines, Reader(s), 1, |s.lines| - 1))
  {
    ReaderNeverFails(s);
    BinsFromSelected(s.lines, Reader(s), s.lines[0].x, s.lines[|s.lines| - 1].x, 1);
    SelectedUpToLast(s.lines, Reader(s), 1);
  }

  /** A bound of 0 is treated as if it had not been given. */
  lemma ZeroBoundIsDefault(s: Spectrum, x0: Option<real>, x1: Option<real>)
    ensures Integral(s, Some(0.0), x1) == Integral(s, None, x1)
    ensures Integral(s, x0, Some(0.0)) == Integral(s, x0, None)
  {
  }

  /** Non-negative heights over sorted lines give a non-negative sum of selected bins. */
  lemma {:induction false} SelectedNonNegative(lines: seq<Line>, read: real -> Result<real>, lo: real, hi: real, j: nat)
    requires j >= 1 && forall x :: read(x).Success? && read(x).value >= 0.0
    requires Sorted(lines)
    ensures Selected(lines, read, lo, hi, j) >= 0.0
    decreases |lines| - j
  {
    if j < |lines| {
      SelectedNonNegative(lines, read, lo, hi, j + 1);
      assert lines[j - 1].x <= lines[j].x;
      AreaNonNegative(read(Midpoint(lines, j)).value, lines[j].x - lines[j - 1].x);
    }
  }

  /**
   * With any bounds, once they are settled and ordered, integrating a
   * readable spectrum adds up exactly the bins whose right end lies between
   * them: the lower bound included, the upper bound excluded.
   */
  lemma IntegralSelected(s: Spectrum, x0: Option<real>, x1: Option<real>)
    requires s.interpolation in Registered && |s.lines| > 0
    ensures forall x :: Reader(s)(x).Success?
    ensures LowerBound(s, x0).Success? && UpperBound(s, x1).Success?
    ensures LowerBound(s, x0).value <= UpperBound(s, x1).value ==>
              Integral(s, x0, x1) == Success(Selected(s.lines, Reader(s), LowerBound(s, x0).value, UpperBound(s, x1).value, 1))
  {
    ReaderNeverFails(s);
    BinsFromSelected(s.lines, Reader(s), LowerBound(s, x0).value, UpperBound(s, x1).value, 1);
  }

  /**
   * For non-negative heights, selecting with a window that takes in every bin
   * another window takes in gives at least as much.
   */
  lemma {:induction false} SelectedWithin(lines: seq<Line>, read: real -> Result<real>, lo1: real, hi1: real, lo2: real, hi2: real, j: nat)
    requires j >= 1 && forall x :: read(x).Success? && read(x).value >= 0.0
    requires Sorted(lines)
    requires forall k :: j <= k < |lines| && lo1 <= lines[k].x < hi1 ==> lo2 <= lines[k].x < hi2
    ensures Selected(lines, read, lo1, hi1, j) <= Selected(lines, read, lo2, hi2, j)
    decreases |lines| - j
  {
    if j < |lines| {
      SelectedWithin(lines, read, lo1, hi1, lo2, hi2, j + 1);
      assert lines[j - 1].x <= lines[j].x;
      AreaNonNegative(read(Midpoint(lines, j)).value, lines[j].x - lines[j - 1].x);
    }
  }

  /** Non-negative samples read non-negative everywhere. */
  lemma ReaderNonNegative(s: Spectrum)
    requires s.interpolation in Registered && |s.lines| > 0
    requires forall i :: 0 <= i < |s.lines| ==> s.lines[i].y >= 0.0
    ensures forall x :: Reader(s)(x).Success? && Reader(s)(x).value >= 0.0
  {
    var top := s.lines[MaxIndex(s.lines)].y;
    forall x
      ensures Reader(s)(x).Success? && Reader(s)(x).value >= 0.0
    {
      InterpolationBounded(s.lines, Fin(x), s.interpolation, 0.0, top);
    }
  }

  /** Integrating non-negative data never gives a negative result. */
  lemma IntegralNonNegative(s: Spectrum, x0: Option<real>, x1: Option<real>)
    requires s.interpolation in Registered
    requires forall i :: 0 <= i < |s.lines| ==> s.lines[i].y >= 0.0
    ensures Integral(s, x0, x1).Success? ==> Integral(s, x0, x1).value >= 0.0
  {
    if Integral(s, x0, x1).Success? && |s.lines| > 0 {
      var lo, hi := LowerBound(s, x0).value, UpperBound(s, x1).value;
      ReaderNonNegative(s);
      BinsFromSelected(s.lines, Reader(s), lo, hi, 1);
      SelectedNonNegative(s.lines, Reader(s), lo, hi, 1);
    }
  }
}
