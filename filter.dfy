/**
 * `SpectrumFilter`: an order-preserving pointwise map over the lines of a
 * spectrum. When a filter spectrum is given it is first resampled onto the
 * processed spectrum's coordinates, and each call of the filter's function
 * sees the processed line, the matching filter line (or nothing) and the
 * extra arguments. The process pool is modelled as the sequential map that
 * collects its results in input order.
 */
module Filters {
  import opened Outcomes
  import opened Interpolation
  import opened Spectra

  /** `_func` of the abstract base class: calling it raises NotImplementedError. */
  function AbstractFilterFunc<A>(line: Line, filterLine: Option<Line>, args: A): Result<real> {
    Failure(NotImplementedError)
  }

  /**
   * The filter lines handed to the function: the filter spectrum resampled
   * onto `s`, or `None` for every line when there is no filter spectrum.
   */
  function FilterLines(s: Spectrum, filter: Option<Spectrum>): (r: Result<seq<Option<Line>>>)
    ensures filter.None? ==> r.Success? && |r.value| == |s.lines| && forall i :: 0 <= i < |r.value| ==> r.value[i].None?
    ensures filter.Some? ==> r.Success? == Resample(filter.value, s).Success?
    ensures filter.Some? && r.Failure? ==> r.error == Resample(filter.value, s).error
  {
    if filter.None? then
      Success(seq(|s.lines|, i => None))
    else
      var resampled :- Resample(filter.value, s);
      Success(seq(|resampled.lines|, i requires 0 <= i < |resampled.lines| => Some(resampled.lines[i])))
  }

  /**
   * With a filter spectrum of the same type that can be read, filter line
   * `i` sits at line `i`'s coordinate and carries the filter's value there.
   */
  lemma ResampledFilterLines(s: Spectrum, f: Spectrum)
    requires f.kind == s.kind && f.interpolation in Registered && |f.lines| > 0
    ensures FilterLines(s, Some(f)).Success?
    ensures |FilterLines(s, Some(f)).value| == |s.lines|
    ensures forall i :: 0 <= i < |s.lines| ==>
              FilterLines(s, Some(f)).value[i] == Some(Line(s.lines[i].x, GetValue(f, Fin(s.lines[i].x)).value))
  {
    ResampleOnto(f, s);
    var r := Resample(f, s).value;
    assert |XValues(r.lines)| == |XValues(s.lines)|;
    forall i | 0 <= i < |s.lines|
      ensures r.lines[i].x == s.lines[i].x
    {
      assert XValues(r.lines)[i] == XValues(s.lines)[i];
    }
  }

  /** Each line paired with its filter line, as far as both lists go (`zip`). */
  function Pairs(s: Spectrum, points: seq<Option<Line>>): (r: seq<(Line, Option<Line>)>)
    ensures |r| == Min(|s.lines|, |points|)
    ensures forall i :: 0 <= i < |r| ==> r[i] == (s.lines[i], points[i])
  {
    var n := Min(|s.lines|, |points|);
    seq(n, i requires 0 <= i < n => (s.lines[i], points[i]))
  }

  /** The function with the extra arguments bound, as `starmap` calls it. */
  function Bound<A>(func: (Line, Option<Line>, A) -> Result<real>, args: A): ((Line, Option<Line>)) -> Result<real> {
    (p: (Line, Option<Line>)) => func(p.0, p.1, args)
  }

  /** The pool's `starmap` and the rebuild: apply the function to each line and its filter line, keep the coordinates. */
  function MapLines<A>(func: (Line, Option<Line>, A) -> Result<real>, s: Spectrum,
                       points: seq<Option<Line>>, args: A): Result<Spectrum>
  {
    var ys :- MapResults(Pairs(s, points), Bound(func, args));
    Success(MakeSpectrum(Zip(XValues(s.lines), ys), s.interpolation, s.kind))
  }

  /** `_process`: fetch the filter lines, then map. */
  function Process<A>(func: (Line, Option<Line>, A) -> Result<real>, s: Spectrum,
                      filter: Option<Spectrum>, args: A): Result<Spectrum>
  {
    var points :- FilterLines(s, filter);
    MapLines(func, s, points, args)
  }

  /**
   * With one filter line per line and a function that succeeds on every
   * line, the output has the input's coordinates in the input's order, its
   * interpolation and its type, and intensity `i` is the function's value on
   * line `i` and filter line `i`.
   */
  lemma MapLinesShape<A>(func: (Line, Option<Line>, A) -> Result<real>, s: Spectrum,
                         points: seq<Option<Line>>, args: A)
    requires |points| == |s.lines|
    requires forall i :: 0 <= i < |s.lines| ==> func(s.lines[i], points[i], args).Success?
    ensures MapLines(func, s, points, args).Success?
    ensures var r := MapLines(func, s, points, args).value;
            && r.interpolation == s.interpolation && r.kind == s.kind
            && |r.lines| == |s.lines|
            && forall i :: 0 <= i < |s.lines| ==> r.lines[i] == Line(s.lines[i].x, func(s.lines[i], points[i], args).value)
  {
    var ys := MappedValues(func, s, points, args);
    var z := Zip(XValues(s.lines), ys);
    ZipKeepsOrder(s, ys);
    MakeSpectrumOfSorted(z, s.interpolation, s.kind);
    var r := MakeSpectrum(z, s.interpolation, s.kind);
    assert MapLines(func, s, points, args) == Success(r);
    forall i | 0 <= i < |s.lines|
      ensures r.lines[i] == Line(s.lines[i].x, func(s.lines[i], points[i], args).value)
    {
      assert r.lines[i] == z[i];
    }
  }

  /** New intensities on a spectrum's own coordinates are still in order. */
  lemma ZipKeepsOrder(s: Spectrum, ys: seq<real>)
    requires |ys| == |s.lines|
    ensures Sorted(Zip(XValues(s.lines), ys))
  {
    var z := Zip(XValues(s.lines), ys);
    assert forall i :: 0 <= i < |z| ==> z[i].x == s.lines[i].x;
  }

  /** The values `starmap` collects when every call succeeds. */
  lemma MappedValues<A>(func: (Line, Option<Line>, A) -> Result<real>, s: Spectrum,
                        points: seq<Option<Line>>, args: A) returns (ys: seq<real>)
    requires |points| == |s.lines|
    requires forall i :: 0 <= i < |s.lines| ==> func(s.lines[i], points[i], args).Success?
    ensures MapResults(Pairs(s, points), Bound(func, args)) == Success(ys)
    ensures |ys| == |s.lines|
    ensures forall i :: 0 <= i < |s.lines| ==> ys[i] == func(s.lines[i], points[i], args).value
  {
    var pairs := Pairs(s, points);
    var g := Bound(func, args);
    assert forall i :: 0 <= i < |pairs| ==> g(pairs[i]) == func(s.lines[i], points[i], args);
    ys := MapResults(pairs, g).value;
  }

  /** The same, stated for `_process` with the filter lines it fetches. */
  lemma ProcessShape<A>(func: (Line, Option<Line>, A) -> Result<real>, s: Spectrum,
                        filter: Option<Spectrum>, args: A)
    requires FilterLines(s, filter).Success? && |FilterLines(s, filter).value| == |s.lines|
    requires forall i :: 0 <= i < |s.lines| ==> func(s.lines[i], FilterLines(s, filter).value[i], args).Success?
    ensures Process(func, s, filter, args).Success?
    ensures var r := Process(func, s, filter, args).value;
            && r.interpolation == s.interpolation && r.kind == s.kind
            && |r.lines| == |s.lines|
            && forall i :: 0 <= i < |s.lines| ==>
                 r.lines[i] == Line(s.lines[i].x, func(s.lines[i], FilterLines(s, filter).value[i], args).value)
  {
    MapLinesShape(func, s, FilterLines(s, filter).value, args);
  }

  /** Without a filter spectrum every call receives no filter line. */
  lemma NoFilterPassesNone<A>(func: (Line, Option<Line>, A) -> Result<real>, s: Spectrum, args: A)
    requires forall i :: 0 <= i < |s.lines| ==> func(s.lines[i], None, args).Success?
    ensures Process(func, s, None, args).Success?
    ensures var r := Process(func, s, None, args).value;
            && |r.lines| == |s.lines|
            && forall i :: 0 <= i < |s.lines| ==> r.lines[i] == Line(s.lines[i].x, func(s.lines[i], None, args).value)
  {
    ProcessShape(func, s, None, args);
  }

  /** A filter spectrum of another type is rejected by `resample` with a TypeError. */
  lemma FilterOfOtherKind<A>(func: (Line, Option<Line>, A) -> Result<real>, s: Spectrum, f: Spectrum, args: A)
    requires f.kind != s.kind
    ensures Process(func, s, Some(f), args) == Failure(TypeError)
  {
    ResampleMixedKinds(f, s);
  }

  /** The abstract base filter fails on any spectrum that has a line. */
  lemma AbstractFilterFails<A>(s: Spectrum, args: A)
    requires |s.lines| > 0
    ensures Process(AbstractFilterFunc, s, None, args) == Failure(NotImplementedError)
  {
    var pairs := Pairs(s, FilterLines(s, None).value);
    assert Bound(AbstractFilterFunc, args)(pairs[0]).Failure?;
  }
}
