/**
 * `SpectrumConstructor`: class-level configuration (number of points,
 * spectral range, whether the grid is progressive) changed in place by
 * validating setters, and instantiation, which samples the class's model
 * function over the configured grid and wraps the samples in a spectrum.
 * An instance of the Dafny class stands for one Python constructor class.
 */
module Constructors {
  import opened Outcomes
  import opened Interpolation
  import opened Spectra

  /** The base class's default range, 100 nm to 1400 nm, in metres. */
  const DefaultRange: (real, real) := (0.0000001, 0.0000014)

  /** The base class's default number of grid points. */
  const DefaultPrecision: int := 100

  /** `_func` of the abstract base class: calling it raises NotImplementedError. */
  function AbstractFunc<A>(x: real, args: A): Result<real> {
    Failure(NotImplementedError)
  }

  /** The evenly spaced grid: `w_min + step * i` for `i` below `p`, with `step = dw / p`. */
  function LinearGrid(wMin: real, wMax: real, p: nat): seq<real>
    requires p >= 1
  {
    var step := (wMax - wMin) / (p as real);
    seq(p, i requires 0 <= i < p => wMin + step * (i as real))
  }

  /** `sum(range(n))`. */
  function SumRange(n: nat): nat {
    if n == 0 then 0 else SumRange(n - 1) + (n - 1)
  }

  /** The progressive grid as the accumulation `s += k * i` leaves it: point `i` is `w_min + k * (0 + 1 + ... + i)`. */
  function ProgressiveGrid(wMin: real, wMax: real, p: nat): seq<real>
    requires p >= 2
  {
    var k := ProgressiveStep(wMin, wMax, p);
    seq(p, i requires 0 <= i < p => Accumulated(wMin, k, i + 1))
  }

  /** The running coordinate after `n` steps of `s += k * i`: `w_min + k * sum(range(n))`. */
  function Accumulated(wMin: real, k: real, n: nat): real {
    wMin + k * (SumRange(n) as real)
  }

  /** `k = dw / sum(range(p))`, the unit by which the gaps grow. */
  function ProgressiveStep(wMin: real, wMax: real, p: nat): real
    requires p >= 2
  {
    SumRangePositive(p);
    (wMax - wMin) / (SumRange(p) as real)
  }

  lemma {:induction false} SumRangePositive(p: nat)
    requires p >= 2
    ensures SumRange(p) > 0
    decreases p
  {
    if p > 2 {
      SumRangePositive(p - 1);
    }
  }

  /** The closed form: `sum(range(n)) = n (n - 1) / 2`, a triangular number. */
  lemma {:induction false} SumRangeClosedForm(n: nat)
    ensures 2 * SumRange(n) == n * (n - 1)
    decreases n
  {
    if n > 0 {
      SumRangeClosedForm(n - 1);
    }
  }

  lemma StepMonotone(step: real, i: real, j: real)
    requires step > 0.0 && i < j
    ensures step * i < step * j
  {
  }

  /**
   * The linear grid has `p` points, starts at `w_min`, increases strictly
   * and stays below `w_max`: the range is half-open.
   */
  lemma LinearGridShape(wMin: real, wMax: real, p: nat)
    requires p >= 1 && wMin < wMax
    ensures |LinearGrid(wMin, wMax, p)| == p
    ensures LinearGrid(wMin, wMax, p)[0] == wMin
    ensures forall i, j :: 0 <= i < j < p ==> LinearGrid(wMin, wMax, p)[i] < LinearGrid(wMin, wMax, p)[j]
    ensures forall i :: 0 <= i < p ==> LinearGrid(wMin, wMax, p)[i] < wMax
  {
    var g := LinearGrid(wMin, wMax, p);
    var step := (wMax - wMin) / (p as real);
    assert step > 0.0;
    forall i, j | 0 <= i < j < p
      ensures g[i] < g[j]
    {
      calc {
        g[i];
        wMin + step * (i as real);
      < { StepMonotone(step, i as real, j as real); }
        wMin + step * (j as real);
        g[j];
      }
    }
    forall i | 0 <= i < p
      ensures g[i] < wMax
    {
      calc {
        g[i];
        wMin + step * (i as real);
      < { StepMonotone(step, i as real, p as real); }
        wMin + step * (p as real);
        wMax;
      }
    }
  }

  /** The progressive grid starts at `w_min` and ends exactly at `w_max`. */
  lemma ProgressiveGridEnds(wMin: real, wMax: real, p: nat)
    requires p >= 2
    ensures |ProgressiveGrid(wMin, wMax, p)| == p
    ensures ProgressiveGrid(wMin, wMax, p)[0] == wMin
    ensures ProgressiveGrid(wMin, wMax, p)[p - 1] == wMax
  {
    SumRangePositive(p);
    var k := ProgressiveStep(wMin, wMax, p);
    var n := SumRange(p) as real;
    assert SumRange(1) == 0;
    assert ProgressiveGrid(wMin, wMax, p)[0] == wMin + k * 0.0;
    assert ProgressiveGrid(wMin, wMax, p)[p - 1] == wMin + k * n;
    assert k * n == wMax - wMin;
  }

  /**
   * The gap before point `i` of the progressive grid is `k * i`, so on a
   * non-empty range the gaps grow strictly and the points increase strictly.
   */
  lemma ProgressiveGridGaps(wMin: real, wMax: real, p: nat)
    requires p >= 2 && wMin < wMax
    ensures ProgressiveStep(wMin, wMax, p) > 0.0
    ensures forall i, j :: 0 <= i && j == i + 1 && j < p ==>
              ProgressiveGrid(wMin, wMax, p)[j] - ProgressiveGrid(wMin, wMax, p)[i]
              == ProgressiveStep(wMin, wMax, p) * (j as real)
    ensures forall i, j :: 0 <= i < j < p ==> ProgressiveGrid(wMin, wMax, p)[i] < ProgressiveGrid(wMin, wMax, p)[j]
  {
    ProgressiveStepPositive(wMin, wMax, p);
    ProgressiveGapsGrow(wMin, wMax, p);
    ProgressiveIncreasing(wMin, wMax, p);
  }

  lemma ProgressiveGapsGrow(wMin: real, wMax: real, p: nat)
    requires p >= 2
    ensures forall i, j :: 0 <= i && j == i + 1 && j < p ==>
              ProgressiveGrid(wMin, wMax, p)[j] - ProgressiveGrid(wMin, wMax, p)[i]
              == ProgressiveStep(wMin, wMax, p) * (j as real)
  {
    forall i, j | 0 <= i && j == i + 1 && j < p
      ensures ProgressiveGrid(wMin, wMax, p)[j] - ProgressiveGrid(wMin, wMax, p)[i]
              == ProgressiveStep(wMin, wMax, p) * (j as real)
    {
      ProgressiveGap(wMin, wMax, p, j);
    }
  }

  lemma ProgressiveIncreasing(wMin: real, wMax: real, p: nat)
    requires p >= 2 && wMin < wMax
    ensures forall i, j :: 0 <= i < j < p ==> ProgressiveGrid(wMin, wMax, p)[i] < ProgressiveGrid(wMin, wMax, p)[j]
  {
    var g := ProgressiveGrid(wMin, wMax, p);
    forall i, j | 0 <= i && j == i + 1 && j < p
      ensures g[i] < g[j]
    {
      ProgressiveGap(wMin, wMax, p, j);
    }
    ProgressiveStrictlyIncreasing(g);
  }

  lemma ProgressiveStepPositive(wMin: real, wMax: real, p: nat)
    requires p >= 2 && wMin < wMax
    ensures ProgressiveStep(wMin, wMax, p) > 0.0
  {
    SumRangePositive(p);
  }

  /** The gap below point `i` of the progressive grid is `i` steps wide, so positive on a non-empty range. */
  lemma ProgressiveGap(wMin: real, wMax: real, p: nat, i: nat)
    requires p >= 2 && 1 <= i < p
    ensures ProgressiveGrid(wMin, wMax, p)[i] - ProgressiveGrid(wMin, wMax, p)[i - 1]
            == ProgressiveStep(wMin, wMax, p) * (i as real)
    ensures wMin < wMax ==> ProgressiveGrid(wMin, wMax, p)[i - 1] < ProgressiveGrid(wMin, wMax, p)[i]
  {
    var k := ProgressiveStep(wMin, wMax, p);
    var a := SumRange(i) as real;
    assert ProgressiveGrid(wMin, wMax, p)[i] == wMin + k * (a + i as real);
    assert ProgressiveGrid(wMin, wMax, p)[i - 1] == wMin + k * a;
    if wMin < wMax {
      ProgressiveStepPositive(wMin, wMax, p);
      assert k * (i as real) > 0.0;
    }
  }

  /**
   * `_create_progressive_division`: the running coordinate `s` starts at
   * `w_min` and grows by `k * i` before each point is emitted.
   */
  method ProgressiveDivision(wMin: real, wMax: real, p: nat) returns (waves: seq<real>)
    requires p >= 2
    ensures waves == ProgressiveGrid(wMin, wMax, p)
  {
    var k := ProgressiveStep(wMin, wMax, p);
    var s := wMin;
    waves := [];
    var i := 0;
    while i < p
      invariant 0 <= i <= p
      invariant s == Accumulated(wMin, k, i)
      invariant |waves| == i
      invariant forall j :: 0 <= j < i ==> waves[j] == Accumulated(wMin, k, j + 1)
    {
      AccumulateStep(wMin, k, i);
      s := s + k * (i as real);
      waves := waves + [s];
      i := i + 1;
    }
  }

  /** One step of the accumulation. */
  lemma AccumulateStep(wMin: real, k: real, i: nat)
    ensures Accumulated(wMin, k, i) + k * (i as real) == Accumulated(wMin, k, i + 1)
  {
    assert SumRange(i + 1) as real == SumRange(i) as real + i as real;
  }

  /** Zip the grid with the model function's values, then build a spectrum with the default interpolation. */
  function Build<A>(grid: seq<real>, func: (real, A) -> Result<real>, args: A, kind: Kind): Result<Spectrum> {
    var ys :- MapResults(grid, x => func(x, args));
    Success(MakeSpectrum(Zip(grid, ys), DefaultInterpolation, kind))
  }

  /**
   * On a strictly increasing grid where the model function never fails,
   * the spectrum has one line `(v, func(v))` per grid point, in grid order,
   * with the default interpolation.
   */
  lemma BuildShape<A>(grid: seq<real>, func: (real, A) -> Result<real>, args: A, kind: Kind)
    requires forall i, j :: 0 <= i < j < |grid| ==> grid[i] < grid[j]
    requires forall i :: 0 <= i < |grid| ==> func(grid[i], args).Success?
    ensures Build(grid, func, args, kind).Success?
    ensures var s := Build(grid, func, args, kind).value;
            && s.interpolation == DefaultInterpolation && s.kind == kind
            && |s.lines| == |grid|
            && forall i :: 0 <= i < |grid| ==> s.lines[i] == Line(grid[i], func(grid[i], args).value)
  {
    var ys := MapResults(grid, x => func(x, args)).value;
    var z := Zip(grid, ys);
    assert Sorted(z);
    MakeSpectrumOfSorted(z, DefaultInterpolation, kind);
  }

  /** A model function that fails makes the construction fail with one of its errors. */
  lemma BuildFails<A>(grid: seq<real>, func: (real, A) -> Result<real>, args: A, kind: Kind, i: nat)
    requires i < |grid| && func(grid[i], args).Failure?
    ensures Build(grid, func, args, kind).Failure?
    ensures exists j :: 0 <= j < |grid| && func(grid[j], args) == Failure(Build(grid, func, args, kind).error)
  {
    assert (x => func(x, args))(grid[i]).Failure?;
  }

  /** The abstract base cannot produce a spectrum over a non-empty grid. */
  lemma AbstractBuildFails<A>(grid: seq<real>, args: A, kind: Kind)
    requires |grid| > 0
    ensures Build(grid, AbstractFunc, args, kind) == Failure(NotImplementedError)
  {
    BuildFails(grid, AbstractFunc, args, kind, 0);
  }

  class SpectrumConstructor<A> {
    /** `_precision`: the number of grid points. */
    var precision: int
    /** `_spectrum_range`: `(w_min, w_max)`. */
    var spectrumRange: (real, real)
    /** `progressive_scale`. */
    var progressiveScale: bool
    /** `_spectrum_type`. */
    const kind: Kind
    /** `_func`: the model function, given a coordinate and the instantiation arguments. */
    const func: (real, A) -> Result<real>

    /** What the setters maintain: at least two points and a non-empty range. */
    ghost predicate Valid()
      reads this
    {
      precision >= 2 && spectrumRange.0 < spectrumRange.1
    }

    /** A constructor class with its class-level defaults. */
    constructor (kind: Kind, func: (real, A) -> Result<real>, precision: int, spectrumRange: (real, real), progressiveScale: bool)
      requires precision >= 2 && spectrumRange.0 < spectrumRange.1
      ensures Valid()
      ensures this.kind == kind && this.func == func
      ensures this.precision == precision && this.spectrumRange == spectrumRange
      ensures this.progressiveScale == progressiveScale
    {
      this.kind := kind;
      this.func := func;
      this.precision := precision;
      this.spectrumRange := spectrumRange;
      this.progressiveScale := progressiveScale;
    }

    /** `set_precision`: below 2 is a ValueError; otherwise the number is truncated to an integer and stored. */
    method SetPrecision(p: real) returns (r: Result<()>)
      requires Valid()
      modifies this
      ensures Valid()
      ensures p < 2.0 ==> r == Failure(ValueError) && precision == old(precision)
      ensures p >= 2.0 ==> r == Success(()) && precision == p.Floor
      ensures spectrumRange == old(spectrumRange) && progressiveScale == old(progressiveScale)
    {
      if p < 2.0 {
        return Failure(ValueError);
      }
      precision := p.Floor;
      return Success(());
    }

    /** `set_spectral_range`: a range that is empty or reversed is a ValueError; otherwise it is stored. */
    method SetSpectralRange(band1: real, band2: real) returns (r: Result<()>)
      requires Valid()
      modifies this
      ensures Valid()
      ensures band1 >= band2 ==> r == Failure(ValueError) && spectrumRange == old(spectrumRange)
      ensures band1 < band2 ==> r == Success(()) && spectrumRange == (band1, band2)
      ensures precision == old(precision) && progressiveScale == old(progressiveScale)
    {
      if band1 >= band2 {
        return Failure(ValueError);
      }
      spectrumRange := (band1, band2);
      return Success(());
    }

    /** `_wavelist`: the progressive or the linear grid over the configured range. */
    function Wavelist(): (g: seq<real>)
      requires Valid()
      reads this
      ensures |g| == precision
      ensures g[0] == spectrumRange.0
      ensures forall i, j :: 0 <= i < j < |g| ==> g[i] < g[j]
    {
      var (wMin, wMax) := spectrumRange;
      if progressiveScale then
        ProgressiveGridEnds(wMin, wMax, precision);
        ProgressiveGridGaps(wMin, wMax, precision);
        ProgressiveGrid(wMin, wMax, precision)
      else
        LinearGridShape(wMin, wMax, precision);
        LinearGrid(wMin, wMax, precision)
    }

    /** The grid as instantiation computes it, with the progressive accumulation loop. */
    method Waves() returns (waves: seq<real>)
      requires Valid()
      ensures waves == Wavelist()
    {
      var (wMin, wMax) := spectrumRange;
      if progressiveScale {
        waves := ProgressiveDivision(wMin, wMax, precision);
      } else {
        waves := LinearGrid(wMin, wMax, precision);
      }
    }

    /** `__new__`: sample the model function over the grid and build a spectrum of the class's type. */
    method Construct(args: A) returns (r: Result<Spectrum>)
      requires Valid()
      ensures r == Build(Wavelist(), func, args, kind)
    {
      var waves := Waves();
      var ys := MapResults(waves, x => func(x, args));
      if ys.Failure? {
        return Failure(ys.error);
      }
      var s := NewSpectrum(Zip(waves, ys.value), DefaultInterpolation, kind);
      return Success(s);
    }
  }

  /** Consecutive increase of a sequence gives increase between any two of its points. */
  lemma {:induction false} ProgressiveStrictlyIncreasing(g: seq<real>)
    requires forall i, j :: 0 <= i && j == i + 1 && j < |g| ==> g[i] < g[j]
    ensures forall i, j :: 0 <= i < j < |g| ==> g[i] < g[j]
    decreases |g|
  {
    if |g| > 1 {
      var h := g[..|g| - 1];
      ProgressiveStrictlyIncreasing(h);
      forall i, j | 0 <= i < j < |g|
        ensures g[i] < g[j]
      {
        if j < |g| - 1 {
          assert h[i] < h[j];
        } else if i < |g| - 2 {
          assert h[i] < h[|g| - 2];
        }
      }
    }
  }
}
