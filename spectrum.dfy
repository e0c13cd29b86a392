/**
 * The `Spectrum` container: an immutable, coordinate-sorted tuple of
 * (coordinate, intensity) lines together with the name of the interpolation
 * strategy used to read values between them. Its binary operations go
 * through the exact-type guard, so the concrete class of a spectrum is part
 * of the value.
 */
module Spectra {
  import opened Outcomes
  import opened Interpolation
  import opened LineSort
  import opened TypeCheck

  /** The concrete Python class of a spectrum: `Spectrum` or its subclass `ElectromagneticSpectrum`. */
  datatype Kind = Plain | Electromagnetic

  /** Lines in ascending order of coordinate, the only shape a constructed spectrum has. */
  type SortedLines = s: seq<Line> | Sorted(s) witness []

  datatype Spectrum = Spectrum(lines: SortedLines, interpolation: string, kind: Kind)

  /** The interpolation a spectrum gets when none is named. */
  const DefaultInterpolation: string := "point"

  function KindOf(s: Spectrum): Kind {
    s.kind
  }

  /**
   * `type(self)(lines, interpolation=...)`: the lines are stably sorted by
   * coordinate and frozen.
   */
  function MakeSpectrum(lines: seq<Line>, interpolation: string, kind: Kind): (s: Spectrum)
    ensures multiset(s.lines) == multiset(lines)
    ensures forall k :: WithX(s.lines, k) == WithX(lines, k)
    ensures s.interpolation == interpolation && s.kind == kind
  {
    SortByXSorted(lines);
    SortByXPermutes(lines);
    SortByXStable(lines);
    Spectrum(SortByX(lines), interpolation, kind)
  }

  /** Lines that already are in order are stored exactly as given. */
  lemma MakeSpectrumOfSorted(lines: seq<Line>, interpolation: string, kind: Kind)
    requires Sorted(lines)
    ensures MakeSpectrum(lines, interpolation, kind).lines == lines
  {
    SortByXKeepsSorted(lines);
  }

  /**
   * `Spectrum.__init__`: the lines are copied into a fresh list, sorted in
   * place and frozen.
   */
  method NewSpectrum(lines: seq<Line>, interpolation: string, kind: Kind) returns (s: Spectrum)
    ensures s == MakeSpectrum(lines, interpolation, kind)
  {
    var a := new Line[|lines|](i requires 0 <= i < |lines| => lines[i]);
    assert a[..] == lines;
    SortInPlace(a);
    SortByXSorted(lines);
    s := Spectrum(a[..], interpolation, kind);
  }

  /** `get_value`: the spectrum's own interpolation strategy applied to its lines. */
  function GetValue(s: Spectrum, x: Ext): (r: Result<real>)
    ensures r.Success? <==> s.interpolation in Registered && |s.lines| > 0
    ensures s.interpolation !in Registered ==> r == Failure(ValueError)
    ensures s.interpolation in Registered && |s.lines| == 0 ==> r == Failure(IndexError)
  {
    Interpolate(s.lines, x, s.interpolation)
  }

  /**
   * The index `max(lines, key=intensity)` picks: a line of greatest
   * intensity, the first one on ties.
   */
  function MaxIndex(lines: seq<Line>): (m: nat)
    requires |lines| > 0
    ensures m < |lines|
    ensures forall i :: 0 <= i < |lines| ==> lines[i].y <= lines[m].y
    ensures forall i :: 0 <= i < m ==> lines[i].y < lines[m].y
    decreases |lines|
  {
    if |lines| == 1 then
      0
    else
      var m := MaxIndex(lines[..|lines| - 1]);
      if lines[|lines| - 1].y > lines[m].y then |lines| - 1 else m
  }

  /** `maximum`: the stored line of greatest intensity, without interpolation; `max` of nothing is a ValueError. */
  function Maximum(s: Spectrum): (r: Result<Line>)
    ensures r.Failure? <==> |s.lines| == 0
    ensures r.Failure? ==> r.error == ValueError
    ensures r.Success? ==> r.value in s.lines && r.value == s.lines[MaxIndex(s.lines)]
    ensures r.Success? ==> forall i :: 0 <= i < |s.lines| ==> s.lines[i].y <= r.value.y
  {
    if |s.lines| == 0 then Failure(ValueError) else Success(s.lines[MaxIndex(s.lines)])
  }

  /** `x_values`: the coordinates in stored order. */
  function XValues(lines: seq<Line>): (xs: seq<real>)
    ensures |xs| == |lines|
    ensures forall i :: 0 <= i < |lines| ==> xs[i] == lines[i].x
  {
    seq(|lines|, i requires 0 <= i < |lines| => lines[i].x)
  }

  /** `intensities`: the intensities in stored order. */
  function Intensities(lines: seq<Line>): (ys: seq<real>)
    ensures |ys| == |lines|
    ensures forall i :: 0 <= i < |lines| ==> ys[i] == lines[i].y
  {
    seq(|lines|, i requires 0 <= i < |lines| => lines[i].y)
  }

  /** Python's `zip` of coordinates and intensities, which stops at the shorter input. */
  function Zip(xs: seq<real>, ys: seq<real>): (lines: seq<Line>)
    ensures |lines| == Min(|xs|, |ys|)
    ensures forall i :: 0 <= i < |lines| ==> lines[i] == Line(xs[i], ys[i])
  {
    seq(Min(|xs|, |ys|), i requires 0 <= i < Min(|xs|, |ys|) => Line(xs[i], ys[i]))
  }

  /** Zipping the two projections gives back the lines in stored order. */
  lemma ZipProjections(lines: seq<Line>)
    ensures Zip(XValues(lines), Intensities(lines)) == lines
  {
  }

  /** The body of `resample`, once the types have matched. */
  function ResampleUnchecked(self: Spectrum, other: Spectrum, u: ()): Result<Spectrum> {
    var xs := XValues(other.lines);
    var ys :- MapResults(xs, (x: real) => GetValue(self, Fin(x)));
    Success(MakeSpectrum(Zip(xs, ys), self.interpolation, self.kind))
  }

  /**
   * `resample`: `self` read at each of `other`'s coordinates, as a spectrum
   * of `self`'s type and interpolation.
   */
  function Resample(self: Spectrum, other: Spectrum): Result<Spectrum> {
    CheckTypes(KindOf, ResampleUnchecked, self, other, ())
  }

  /**
   * A successful resample has exactly `other`'s coordinates, each carrying
   * `self`'s interpolated value there, and keeps `self`'s interpolation and
   * type.
   */
  lemma ResampleOnto(self: Spectrum, other: Spectrum)
    requires self.kind == other.kind
    requires self.interpolation in Registered && |self.lines| > 0
    ensures Resample(self, other).Success?
    ensures var r := Resample(self, other).value;
            && r.interpolation == self.interpolation && r.kind == self.kind
            && XValues(r.lines) == XValues(other.lines)
            && forall i :: 0 <= i < |r.lines| ==> r.lines[i].y == GetValue(self, Fin(other.lines[i].x)).value
  {
    var xs := XValues(other.lines);
    var ys := MapResults(xs, (x: real) => GetValue(self, Fin(x))).value;
    var z := Zip(xs, ys);
    assert forall i :: 0 <= i < |z| ==> z[i].x == other.lines[i].x;
    assert Sorted(z);
    MakeSpectrumOfSorted(z, self.interpolation, self.kind);
  }

  /** When `self` cannot be read at all, resampling onto a non-empty spectrum fails the same way. */
  lemma ResampleUnreadable(self: Spectrum, other: Spectrum)
    requires self.kind == other.kind && |other.lines| > 0
    requires GetValue(self, NegInf).Failure?
    ensures Resample(self, other) == Failure(GetValue(self, NegInf).error)
  {
    var xs := XValues(other.lines);
    assert GetValue(self, Fin(xs[0])).Failure?;
  }

  /** Resampling between a plain and an electromagnetic spectrum is a type mismatch. */
  lemma ResampleMixedKinds(self: Spectrum, other: Spectrum)
    requires self.kind != other.kind
    ensures Resample(self, other) == Failure(TypeError)
  {
  }

  /** The three arithmetic operators. */
  datatype Op = Add | Sub | Mul

  /** The intensity each operator produces; subtraction is clamped at zero. */
  function ApplyOp(op: Op, y1: real, y2: real): real {
    match op
    case Add => y1 + y2
    case Sub => if y1 - y2 >= 0.0 then y1 - y2 else 0.0
    case Mul => y1 * y2
  }

  /** Whether the zipped pairs of two line lists share their coordinates. */
  predicate CoordsMatch(a: seq<Line>, b: seq<Line>) {
    forall i :: 0 <= i < |a| && i < |b| ==> a[i].x == b[i].x
  }

  /** The lines the operator loop appends: one per zipped pair, at the first operand's coordinate. */
  function Pointwise(op: Op, a: seq<Line>, b: seq<Line>): (r: seq<Line>)
    ensures |r| == Min(|a|, |b|)
    ensures forall i :: 0 <= i < |r| ==> r[i] == Line(a[i].x, ApplyOp(op, a[i].y, b[i].y))
  {
    seq(Min(|a|, |b|), i requires 0 <= i < Min(|a|, |b|) => Line(a[i].x, ApplyOp(op, a[i].y, b[i].y)))
  }

  /** The body of `__add__`, `__sub__` and `__mul__` once the types have matched. */
  function ArithUnchecked(a: Spectrum, b: Spectrum, op: Op): Result<Spectrum> {
    if !CoordsMatch(a.lines, b.lines) then
      Failure(ValueError)
    else
      Success(MakeSpectrum(Pointwise(op, a.lines, b.lines), a.interpolation, a.kind))
  }

  /** `a + b`, `a - b` and `a * b`. */
  function Arith(op: Op, a: Spectrum, b: Spectrum): Result<Spectrum> {
    CheckTypes(KindOf, ArithUnchecked, a, b, op)
  }

  /**
   * The operator loop: walk the zipped pairs, raise ValueError at the first
   * coordinate mismatch, otherwise append the combined line and finally
   * build a spectrum of the first operand's type and interpolation.
   */
  method Combine(op: Op, a: Spectrum, b: Spectrum) returns (r: Result<Spectrum>)
    ensures r == Arith(op, a, b)
  {
    if a.kind != b.kind {
      return Failure(TypeError);
    }
    var newLines: seq<Line> := [];
    var i := 0;
    while i < |a.lines| && i < |b.lines|
      invariant i <= |a.lines| && i <= |b.lines|
      invariant forall j :: 0 <= j < i ==> a.lines[j].x == b.lines[j].x
      invariant |newLines| == i
      invariant forall j :: 0 <= j < i ==> newLines[j] == Line(a.lines[j].x, ApplyOp(op, a.lines[j].y, b.lines[j].y))
    {
      if a.lines[i].x != b.lines[i].x {
        return Failure(ValueError);
      }
      newLines := newLines + [Line(a.lines[i].x, ApplyOp(op, a.lines[i].y, b.lines[i].y))];
      i := i + 1;
    }
    assert newLines == Pointwise(op, a.lines, b.lines);
    var s := NewSpectrum(newLines, a.interpolation, a.kind);
    return Success(s);
  }

  /**
   * The outcome of an operator: TypeError on a type mismatch (checked
   * first), ValueError on a coordinate mismatch among the zipped pairs,
   * otherwise one combined line per zipped pair at the first operand's
   * coordinates, with its type and interpolation.
   */
  lemma ArithOutcome(op: Op, a: Spectrum, b: Spectrum)
    ensures a.kind != b.kind ==> Arith(op, a, b) == Failure(TypeError)
    ensures a.kind == b.kind && !CoordsMatch(a.lines, b.lines) ==> Arith(op, a, b) == Failure(ValueError)
    ensures a.kind == b.kind && CoordsMatch(a.lines, b.lines) ==>
              && Arith(op, a, b).Success?
              && Arith(op, a, b).value.interpolation == a.interpolation
              && Arith(op, a, b).value.kind == a.kind
              && Arith(op, a, b).value.lines == Pointwise(op, a.lines, b.lines)
  {
    if a.kind == b.kind && CoordsMatch(a.lines, b.lines) {
      var p := Pointwise(op, a.lines, b.lines);
      assert Sorted(p) by {
        forall i, j | 0 <= i < j < |p|
          ensures p[i].x <= p[j].x
        {
          assert p[i].x == a.lines[i].x && p[j].x == a.lines[j].x;
        }
      }
      MakeSpectrumOfSorted(p, a.interpolation, a.kind);
    }
  }

  /** `s + s` doubles every intensity and keeps the coordinates. */
  lemma AddSelfDoubles(s: Spectrum)
    ensures Arith(Add, s, s).Success?
    ensures |Arith(Add, s, s).value.lines| == |s.lines|
    ensures forall i :: 0 <= i < |s.lines| ==>
              Arith(Add, s, s).value.lines[i] == Line(s.lines[i].x, 2.0 * s.lines[i].y)
  {
    ArithOutcome(Add, s, s);
  }

  /** `s - s` is zero everywhere, so its maximum intensity is zero. */
  lemma SubSelfIsZero(s: Spectrum)
    requires |s.lines| > 0
    ensures Arith(Sub, s, s).Success?
    ensures |Arith(Sub, s, s).value.lines| == |s.lines|
    ensures forall i :: 0 <= i < |s.lines| ==> Arith(Sub, s, s).value.lines[i] == Line(s.lines[i].x, 0.0)
    ensures Maximum(Arith(Sub, s, s).value) == Success(Line(s.lines[0].x, 0.0))
  {
    ArithOutcome(Sub, s, s);
    var r := Arith(Sub, s, s).value;
    assert r.lines == Pointwise(Sub, s.lines, s.lines);
  }

  function Square(y: real): real {
    y * y
  }

  lemma SquareMonotone(y: real, m: real)
    requires 0.0 <= y <= m
    ensures Square(y) <= Square(m)
  {
    assert y * y <= y * m;
    assert y * m <= m * m;
  }

  /** Squaring non-negative intensities squares the greatest one. */
  lemma MaxOfSquares(a: seq<Line>, b: seq<Line>)
    requires |a| == |b| > 0
    requires forall i :: 0 <= i < |a| ==> a[i].y >= 0.0
    requires forall i :: 0 <= i < |a| ==> b[i].y == Square(a[i].y)
    ensures b[MaxIndex(b)].y == Square(a[MaxIndex(a)].y)
  {
    var m := MaxIndex(a);
    var q := MaxIndex(b);
    SquareMonotone(a[q].y, a[m].y);
  }

  /** For non-negative data the greatest intensity of `s * s` is the square of the greatest intensity of `s`. */
  lemma MulSelfSquaresMaximum(s: Spectrum)
    requires |s.lines| > 0
    requires forall i :: 0 <= i < |s.lines| ==> s.lines[i].y >= 0.0
    ensures Arith(Mul, s, s).Success? && Maximum(Arith(Mul, s, s).value).Success?
    ensures Maximum(Arith(Mul, s, s).value).value.y == Square(Maximum(s).value.y)
  {
    ArithOutcome(Mul, s, s);
    var r := Arith(Mul, s, s).value;
    assert r.lines == Pointwise(Mul, s.lines, s.lines);
    assert forall i :: 0 <= i < |s.lines| ==> r.lines[i].y == Square(s.lines[i].y);
    MaxOfSquares(s.lines, r.lines);
  }
}
