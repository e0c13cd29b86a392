/**
 * Interpolation over a data set of (coordinate, intensity) samples sorted by
 * coordinate. The data set is first framed by two sentinels, one at -infinity
 * carrying the first intensity and one at +infinity carrying the last, so that
 * every query resolves. Three strategies are registered by name: "none" (the
 * first sample at or above the query), "point" (the nearer of the two samples
 * around the query) and "line" (linear interpolation between them).
 */
module Interpolation {
  import opened Outcomes

  /** A coordinate on the real line extended by the two infinities. */
  datatype Ext = NegInf | Fin(r: real) | PosInf

  /** Strict order on extended coordinates: Python's `a < b` on floats that are not NaN. */
  predicate Less(a: Ext, b: Ext) {
    match a
    case NegInf => !b.NegInf?
    case Fin(p) => (b.Fin? && p < b.r) || b.PosInf?
    case PosInf => false
  }

  /** The outcome of a float subtraction, which is NaN for `inf - inf`. */
  datatype Float = NaN | Num(e: Ext)

  function Minus(a: Ext, b: Ext): Float {
    match (a, b)
    case (Fin(p), Fin(q)) => Num(Fin(p - q))
    case (PosInf, PosInf) => NaN
    case (NegInf, NegInf) => NaN
    case (PosInf, _) => Num(PosInf)
    case (NegInf, _) => Num(NegInf)
    case (Fin(_), PosInf) => Num(NegInf)
    case (Fin(_), NegInf) => Num(PosInf)
  }

  /** Float comparison `a <= b`, which is false as soon as either side is NaN. */
  predicate AtMost(a: Float, b: Float) {
    a.Num? && b.Num? && !Less(b.e, a.e)
  }

  /** A sample of a data set: (coordinate, intensity). */
  datatype Line = Line(x: real, y: real)

  /** Samples in ascending order of coordinate, as `interpolate` expects them. */
  predicate Sorted(values: seq<Line>) {
    forall i, j :: 0 <= i < j < |values| ==> values[i].x <= values[j].x
  }

  /** A sample of a framed data set, whose coordinate may be a sentinel. */
  datatype Point = Point(x: Ext, y: real)

  /** The shape `_add_endpoints` produces: sentinels around finite samples. */
  predicate Framed(f: seq<Point>) {
    && |f| >= 3
    && f[0] == Point(NegInf, f[1].y)
    && f[|f| - 1] == Point(PosInf, f[|f| - 2].y)
    && forall i :: 0 < i < |f| - 1 ==> f[i].x.Fin?
  }

  /**
   * `_add_endpoints`: a new list with (-inf, first intensity) in front, the
   * samples unchanged in the middle and (+inf, last intensity) at the end.
   * Indexing the first sample of an empty list raises IndexError.
   */
  function AddEndpoints(values: seq<Line>): (r: Result<seq<Point>>)
    ensures r.Failure? <==> |values| == 0
    ensures r.Failure? ==> r.error == IndexError
    ensures r.Success? ==> Framed(r.value) && |r.value| == |values| + 2
    ensures r.Success? ==> r.value[0] == Point(NegInf, values[0].y)
    ensures r.Success? ==> r.value[|values| + 1] == Point(PosInf, values[|values| - 1].y)
    ensures r.Success? ==> forall i :: 0 <= i < |values| ==>
              r.value[i + 1] == Point(Fin(values[i].x), values[i].y)
  {
    if |values| == 0 then
      Failure(IndexError)
    else
      var middle := seq(|values|, i requires 0 <= i < |values| => Point(Fin(values[i].x), values[i].y));
      Success([Point(NegInf, values[0].y)] + middle + [Point(PosInf, values[|values| - 1].y)])
  }

  /** Drops the sentinels of a framed data set again. */
  function Unframe(f: seq<Point>): seq<Line>
    requires Framed(f)
  {
    seq(|f| - 2, i requires 0 <= i < |f| - 2 => Line(f[i + 1].x.r, f[i + 1].y))
  }

  /** Framing leaves the samples themselves untouched. */
  lemma UnframeAddEndpoints(values: seq<Line>)
    requires |values| > 0
    ensures AddEndpoints(values).Success?
    ensures Unframe(AddEndpoints(values).value) == values
  {
  }

  /**
   * The scan position shared by the three strategies: the first index from
   * `i` on whose coordinate is not below the query. A framed data set ends at
   * +inf, so the scan always stops.
   */
  function BracketFrom(f: seq<Point>, x: Ext, i: nat): (k: nat)
    requires 1 <= i < |f| && f[|f| - 1].x == PosInf
    ensures i <= k < |f|
    ensures !Less(f[k].x, x)
    ensures forall j :: i <= j < k ==> Less(f[j].x, x)
    decreases |f| - i
  {
    if Less(f[i].x, x) then BracketFrom(f, x, i + 1) else i
  }

  /** The upper end `k` of the bracket `f[k - 1], f[k]` that holds the query. */
  function Bracket(f: seq<Point>, x: Ext): (k: nat)
    requires Framed(f)
    ensures 1 <= k < |f|
    ensures !Less(f[k].x, x)
    ensures forall j :: 1 <= j < k ==> Less(f[j].x, x)
  {
    BracketFrom(f, x, 1)
  }

  /** The bracket is determined by its characterisation. */
  lemma BracketIs(f: seq<Point>, x: Ext, k: nat)
    requires Framed(f) && 1 <= k < |f|
    requires !Less(f[k].x, x)
    requires forall j :: 1 <= j < k ==> Less(f[j].x, x)
    ensures Bracket(f, x) == k
  {
    var b := Bracket(f, x);
    assert !Less(f[b].x, x);
  }

  /** Inside the bracket the query lies strictly above the lower sample, unless that is the -inf sentinel. */
  lemma BracketBelow(f: seq<Point>, x: Ext)
    requires Framed(f)
    ensures Bracket(f, x) > 1 ==> Less(f[Bracket(f, x) - 1].x, x)
  {
  }

  /** Strategy `none`: the intensity of the first framed sample (after the -inf one) at or above the query. */
  function NoneValue(f: seq<Point>, x: Ext): real
    requires Framed(f)
  {
    f[Bracket(f, x)].y
  }

  /**
   * Strategy `point`: the upper sample when `x1 - x <= x - x0` in float
   * arithmetic, the lower one otherwise; a tie therefore goes to the upper.
   */
  function PointValue(f: seq<Point>, x: Ext): real
    requires Framed(f)
  {
    var k := Bracket(f, x);
    if AtMost(Minus(f[k].x, x), Minus(x, f[k - 1].x)) then f[k].y else f[k - 1].y
  }

  /** The straight line through (x0, y0) and (x1, y1), evaluated at x. */
  function LineThrough(x0: real, y0: real, x1: real, y1: real, x: real): real
    requires x0 != x1
  {
    y0 + (y1 - y0) * (x - x0) / (x1 - x0)
  }

  /**
   * Strategy `line`: equal bracket intensities are returned as they are;
   * otherwise the bracket is finite and the straight line through it is
   * evaluated at the query.
   */
  function LineValue(f: seq<Point>, x: Ext): real
    requires Framed(f)
  {
    var k := Bracket(f, x);
    var y0, y1 := f[k - 1].y, f[k].y;
    if y0 == y1 then
      y0
    else
      BracketBelow(f, x);
      LineThrough(f[k - 1].x.r, y0, f[k].x.r, y1, x.r)
  }

  /** The registered interpolation algorithms. */
  datatype Method = NoInterpolation | PointSampling | LinearInterpolation

  function Evaluate(m: Method, f: seq<Point>, x: Ext): real
    requires Framed(f)
  {
    match m
    case NoInterpolation => NoneValue(f, x)
    case PointSampling => PointValue(f, x)
    case LinearInterpolation => LineValue(f, x)
  }

  /** The registry as it stands once the three strategies have registered themselves. */
  const Registered: map<string, Method> :=
    map["none" := NoInterpolation, "point" := PointSampling, "line" := LinearInterpolation]

  /** The order in which the strategies register, which is the order of `available_methods`. */
  const RegistrationOrder: seq<string> := ["none", "point", "line"]

  /**
   * `Interpolation.interpolate` over a registry: an unregistered name is
   * rejected before the data set is touched; then the data set is framed and
   * the named strategy evaluated.
   */
  function InterpolateWith(methods: map<string, Method>, values: seq<Line>, x: Ext, name: string): (r: Result<real>)
    ensures r.Success? <==> name in methods && |values| > 0
    ensures name !in methods ==> r == Failure(ValueError)
    ensures name in methods && |values| == 0 ==> r == Failure(IndexError)
  {
    if name !in methods then
      Failure(ValueError)
    else
      var f :- AddEndpoints(values);
      Success(Evaluate(methods[name], f, x))
  }

  /** `Interpolation.interpolate` with the standard registry. */
  function Interpolate(values: seq<Line>, x: Ext, name: string): Result<real> {
    InterpolateWith(Registered, values, x, name)
  }

  /**
   * The registry `_methods`, filled in place as each strategy is declared.
   * `names` keeps the registration order, which is the order of the dict's keys.
   */
  class Registry {
    var methods: map<string, Method>
    var names: seq<string>

    ghost predicate Valid()
      reads this
    {
      && (forall i, j :: 0 <= i < j < |names| ==> names[i] != names[j])
      && (forall n :: n in methods <==> n in names)
    }

    /** The registry after the declarations of `none`, `point` and `line` have run. */
    constructor ()
      ensures Valid()
      ensures methods == Registered && names == RegistrationOrder
    {
      methods := map[];
      names := [];
      new;
      DistinctNames();
      Register("none", NoInterpolation);
      Register("point", PointSampling);
      Register("line", LinearInterpolation);
    }

    /** The registration decorator: the strategy is stored under its name. */
    method Register(name: string, m: Method)
      requires Valid()
      modifies this
      ensures Valid()
      ensures methods == old(methods)[name := m]
      ensures names == if name in old(methods) then old(names) else old(names) + [name]
    {
      if name !in methods {
        names := names + [name];
      }
      methods := methods[name := m];
    }

    /** `available_methods`: every registered name, each once, in registration order. */
    function AvailableMethods(): (r: seq<string>)
      reads this
      requires Valid()
      ensures forall n :: n in r <==> n in methods
      ensures forall i, j :: 0 <= i < j < |r| ==> r[i] != r[j]
    {
      names
    }

    /** `interpolate` dispatching through this registry. */
    function Interpolate(values: seq<Line>, x: Ext, name: string): Result<real>
      reads this
    {
      InterpolateWith(methods, values, x, name)
    }
  }

  /** The three strategy names differ ("none" and "line" only in their letters). */
  lemma DistinctNames()
    ensures "none" != "point" && "none" != "line" && "point" != "line"
  {
    assert "none"[0] != "line"[0];
  }

  /** The standard registry offers exactly "none", "point" and "line". */
  lemma StandardMethods()
    ensures forall n :: n in Registered <==> n in {"line", "none", "point"}
    ensures forall n :: n in Registered <==> n in RegistrationOrder
  {
  }

  /**
   * Strategy `none` as the source writes it: a scan from the first real
   * sample that keeps the current intensity and stops at the first
   * coordinate not below the query.
   */
  method NoneScan(values: seq<Point>, x: Ext) returns (y: real)
    requires Framed(values)
    ensures y == NoneValue(values, x)
  {
    var i := 1;
    while true
      invariant 1 <= i < |values|
      invariant forall j :: 1 <= j < i ==> Less(values[j].x, x)
      decreases |values| - i
    {
      y := values[i].y;
      if !Less(values[i].x, x) {
        break;
      }
      i := i + 1;
    }
    BracketIs(values, x, i);
  }

  /** Strategy `point` as the source writes it: a scan over consecutive pairs. */
  method PointScan(values: seq<Point>, x: Ext) returns (y: real)
    requires Framed(values)
    ensures y == PointValue(values, x)
  {
    var n := 0;
    while true
      invariant 0 <= n < |values| - 1
      invariant forall j :: 1 <= j <= n ==> Less(values[j].x, x)
      decreases |values| - n
    {
      var x0, y0 := values[n].x, values[n].y;
      var x1, y1 := values[n + 1].x, values[n + 1].y;
      if !Less(x1, x) {
        BracketIs(values, x, n + 1);
        if AtMost(Minus(x1, x), Minus(x, x0)) {
          y := y1;
        } else {
          y := y0;
        }
        return;
      }
      n := n + 1;
    }
  }

  /** Strategy `line` as the source writes it: a scan over consecutive pairs. */
  method LineScan(values: seq<Point>, x: Ext) returns (y: real)
    requires Framed(values)
    ensures y == LineValue(values, x)
  {
    var n := 0;
    while true
      invariant 0 <= n < |values| - 1
      invariant forall j :: 1 <= j <= n ==> Less(values[j].x, x)
      decreases |values| - n
    {
      var x0, y0 := values[n].x, values[n].y;
      var x1, y1 := values[n + 1].x, values[n + 1].y;
      if !Less(x1, x) {
        BracketIs(values, x, n + 1);
        if y0 == y1 {
          return y0;
        }
        BracketBelow(values, x);
        y := y0 + (y1 - y0) * (x.r - x0.r) / (x1.r - x0.r);
        return;
      }
      n := n + 1;
    }
  }

  /** A registered strategy on a non-empty data set is evaluated on the framed data. */
  lemma FramedQuery(values: seq<Line>, x: Ext, name: string)
    requires name in Registered && |values| > 0
    ensures Interpolate(values, x, name) == Success(Evaluate(Registered[name], AddEndpoints(values).value, x))
  {
  }

  /** The bracket of a finite query ends at the first sample not below it. */
  lemma BracketAt(values: seq<Line>, x: real, j: nat)
    requires j < |values| && x <= values[j].x
    requires forall i :: 0 <= i < j ==> values[i].x < x
    ensures Bracket(AddEndpoints(values).value, Fin(x)) == j + 1
  {
    var f := AddEndpoints(values).value;
    forall i | 1 <= i < j + 1
      ensures Less(f[i].x, Fin(x))
    {
      assert f[i].x == Fin(values[i - 1].x);
    }
    BracketIs(f, Fin(x), j + 1);
  }

  /** For every registered strategy, a query at -inf gives the first intensity and one at +inf the last. */
  lemma InfiniteQueries(values: seq<Line>, name: string)
    requires name in Registered && |values| > 0
    ensures Interpolate(values, NegInf, name) == Success(values[0].y)
    ensures Interpolate(values, PosInf, name) == Success(values[|values| - 1].y)
  {
    var f := AddEndpoints(values).value;
    BracketIs(f, NegInf, 1);
    BracketIs(f, PosInf, |f| - 1);
  }

  /**
   * For every registered strategy, a query exactly at a stored coordinate
   * gives the intensity of the first sample stored at that coordinate.
   */
  lemma SampleQuery(values: seq<Line>, name: string, j: nat)
    requires name in Registered && j < |values|
    requires forall i :: 0 <= i < j ==> values[i].x < values[j].x
    ensures Interpolate(values, Fin(values[j].x), name) == Success(values[j].y)
  {
    var f := AddEndpoints(values).value;
    var x := Fin(values[j].x);
    forall i | 1 <= i < j + 1
      ensures Less(f[i].x, x)
    {
      assert f[i].x == Fin(values[i - 1].x);
    }
    BracketIs(f, x, j + 1);
    if j > 0 && values[j - 1].y != values[j].y {
      var x0, x1 := values[j - 1].x, values[j].x;
      var y0, y1 := values[j - 1].y, values[j].y;
      assert (y1 - y0) * (x1 - x0) / (x1 - x0) == y1 - y0;
      assert LineThrough(x0, y0, x1, y1, x1) == y1;
    }
  }

  /** With strictly increasing coordinates every stored sample is reproduced exactly. */
  lemma StrictlySortedQueries(values: seq<Line>, name: string)
    requires name in Registered
    requires forall i, j :: 0 <= i < j < |values| ==> values[i].x < values[j].x
    ensures forall j :: 0 <= j < |values| ==>
              Interpolate(values, Fin(values[j].x), name) == Success(values[j].y)
  {
    forall j | 0 <= j < |values|
      ensures Interpolate(values, Fin(values[j].x), name) == Success(values[j].y)
    {
      SampleQuery(values, name, j);
    }
  }

  /** Strategy `none` answers with the first sample whose coordinate is not below the query. */
  lemma NoneIsCeiling(values: seq<Line>, x: real, j: nat)
    requires j < |values| && x <= values[j].x
    requires forall i :: 0 <= i < j ==> values[i].x < x
    ensures Interpolate(values, Fin(x), "none") == Success(values[j].y)
  {
    BracketAt(values, x, j);
  }

  /** Strategy `none` answers a query above every sample with the last intensity. */
  lemma NoneAboveAll(values: seq<Line>, x: real)
    requires |values| > 0
    requires forall i :: 0 <= i < |values| ==> values[i].x < x
    ensures Interpolate(values, Fin(x), "none") == Success(values[|values| - 1].y)
  {
    var f := AddEndpoints(values).value;
    forall i | 1 <= i < |f| - 1
      ensures Less(f[i].x, Fin(x))
    {
      assert f[i].x == Fin(values[i - 1].x);
    }
    BracketIs(f, Fin(x), |f| - 1);
  }

  function Dist(a: real, b: real): real {
    if a <= b then b - a else a - b
  }

  /** Below every sample, the first one is the nearest. */
  lemma FirstIsNearest(values: seq<Line>, x: real)
    requires Sorted(values) && |values| > 0 && x <= values[0].x
    ensures forall i :: 0 <= i < |values| ==> Dist(values[0].x, x) <= Dist(values[i].x, x)
  {
  }

  /** Above every sample, the last one is the nearest. */
  lemma LastIsNearest(values: seq<Line>, x: real)
    requires Sorted(values) && |values| > 0 && values[|values| - 1].x < x
    ensures forall i :: 0 <= i < |values| ==> Dist(values[|values| - 1].x, x) <= Dist(values[i].x, x)
  {
  }

  /** Between two consecutive samples, every sample is at least as far as one of them. */
  lemma GapIsNearest(values: seq<Line>, x: real, a: nat)
    requires Sorted(values) && a + 1 < |values| && values[a].x < x <= values[a + 1].x
    ensures forall i :: 0 <= i < |values| ==>
              x - values[a].x <= Dist(values[i].x, x) || values[a + 1].x - x <= Dist(values[i].x, x)
  {
  }

  /**
   * On sorted data, strategy `point` answers with the intensity of a sample
   * whose coordinate is nearest to the query among all samples.
   */
  lemma PointIsNearest(values: seq<Line>, x: real)
    requires Sorted(values) && |values| > 0
    ensures exists j :: 0 <= j < |values| && Interpolate(values, Fin(x), "point") == Success(values[j].y)
              && forall i :: 0 <= i < |values| ==> Dist(values[j].x, x) <= Dist(values[i].x, x)
  {
    FramedQuery(values, Fin(x), "point");
    var j := NearestSample(values, x);
  }

  /** The sample whose intensity strategy `point` returns, and its nearness. */
  lemma NearestSample(values: seq<Line>, x: real) returns (j: nat)
    requires Sorted(values) && |values| > 0
    ensures j < |values| && PointValue(AddEndpoints(values).value, Fin(x)) == values[j].y
    ensures forall i :: 0 <= i < |values| ==> Dist(values[j].x, x) <= Dist(values[i].x, x)
  {
    var f := AddEndpoints(values).value;
    var k := Bracket(f, Fin(x));
    var n := |values|;
    if k == 1 {
      FirstIsNearest(values, x);
      j := 0;
    } else if k == n + 1 {
      assert f[n].x == Fin(values[n - 1].x);
      LastIsNearest(values, x);
      j := n - 1;
    } else {
      j := GapSample(values, x, k);
    }
  }

  /** Inside a finite bracket strategy `point` picks the nearer of its two samples, the upper one on a tie. */
  lemma GapSample(values: seq<Line>, x: real, k: nat) returns (j: nat)
    requires Sorted(values) && 1 < k < |values| + 1 && Bracket(AddEndpoints(values).value, Fin(x)) == k
    ensures j < |values| && PointValue(AddEndpoints(values).value, Fin(x)) == values[j].y
    ensures forall i :: 0 <= i < |values| ==> Dist(values[j].x, x) <= Dist(values[i].x, x)
  {
    var f := AddEndpoints(values).value;
    assert f[k - 1].x == Fin(values[k - 2].x) && f[k].x == Fin(values[k - 1].x);
    BracketBelow(f, Fin(x));
    GapIsNearest(values, x, k - 2);
    if values[k - 1].x - x <= x - values[k - 2].x {
      j := k - 1;
    } else {
      j := k - 2;
    }
  }

  /** Strategy `point` breaks a tie (query exactly half-way) in favour of the upper sample. */
  lemma PointTieGoesUp(values: seq<Line>, j: nat)
    requires Sorted(values) && 0 < j < |values| && values[j - 1].x < values[j].x
    ensures Interpolate(values, Fin((values[j - 1].x + values[j].x) / 2.0), "point") == Success(values[j].y)
  {
    MidpointBracket(values, j);
  }

  /** The middle of two consecutive distinct coordinates lies in the bracket that ends at the upper one. */
  lemma MidpointBracket(values: seq<Line>, j: nat)
    requires Sorted(values) && 0 < j < |values| && values[j - 1].x < values[j].x
    ensures Bracket(AddEndpoints(values).value, Fin((values[j - 1].x + values[j].x) / 2.0)) == j + 1
  {
    var x := (values[j - 1].x + values[j].x) / 2.0;
    forall i | 0 <= i < j
      ensures values[i].x < x
    {
      assert values[i].x <= values[j - 1].x;
    }
    BracketAt(values, x, j);
  }

  predicate Between(v: real, a: real, b: real) {
    (a <= v <= b) || (b <= v <= a)
  }

  lemma ScaledWithin(a: real, u: real, d: real)
    requires 0.0 < u <= d
    ensures Between(a * u / d, 0.0, a)
  {
    var t := u / d;
    assert 0.0 < t <= 1.0;
    assert a * u / d == a * t;
    if a >= 0.0 {
      assert a * t <= a * 1.0;
    } else {
      assert a * t >= a * 1.0;
    }
  }

  /** Strategy `line` never leaves the range spanned by the two intensities around the query. */
  lemma LineWithinBracket(f: seq<Point>, x: Ext)
    requires Framed(f)
    ensures Between(LineValue(f, x), f[Bracket(f, x) - 1].y, f[Bracket(f, x)].y)
  {
    var k := Bracket(f, x);
    var y0, y1 := f[k - 1].y, f[k].y;
    if y0 != y1 {
      BracketBelow(f, x);
      var x0, x1 := f[k - 1].x.r, f[k].x.r;
      ScaledWithin(y1 - y0, x.r - x0, x1 - x0);
    }
  }

  lemma LineThroughMidpoint(x0: real, y0: real, x1: real, y1: real)
    requires x0 < x1
    ensures LineThrough(x0, y0, x1, y1, (x0 + x1) / 2.0) == (y0 + y1) / 2.0
  {
    var d := x1 - x0;
    assert (x0 + x1) / 2.0 - x0 == d / 2.0;
    assert (y1 - y0) * (d / 2.0) / d == (y1 - y0) / 2.0;
  }

  /** Strategy `line` in a finite bracket, named by its two samples. */
  lemma LineValueAt(f: seq<Point>, x: Ext, k: nat, x0: real, y0: real, x1: real, y1: real)
    requires Framed(f) && 1 <= k < |f| && Bracket(f, x) == k && x0 < x1
    requires f[k - 1] == Point(Fin(x0), y0) && f[k] == Point(Fin(x1), y1)
    ensures LineValue(f, x) == if y0 == y1 then y0 else LineThrough(x0, y0, x1, y1, x.r)
  {
  }

  /** Strategy `line` at the middle of two consecutive samples gives the mean of their intensities. */
  lemma LineMidpoint(values: seq<Line>, j: nat)
    requires Sorted(values) && 0 < j < |values| && values[j - 1].x < values[j].x
    ensures Interpolate(values, Fin((values[j - 1].x + values[j].x) / 2.0), "line")
            == Success((values[j - 1].y + values[j].y) / 2.0)
  {
    FramedQuery(values, Fin((values[j - 1].x + values[j].x) / 2.0), "line");
    LineValueAtMidpoint(values, j);
  }

  lemma LineValueAtMidpoint(values: seq<Line>, j: nat)
    requires Sorted(values) && 0 < j < |values| && values[j - 1].x < values[j].x
    ensures AddEndpoints(values).Success?
    ensures LineValue(AddEndpoints(values).value, Fin((values[j - 1].x + values[j].x) / 2.0))
            == (values[j - 1].y + values[j].y) / 2.0
  {
    MidpointBracket(values, j);
    LineAtMidpoint(AddEndpoints(values).value, j + 1, values[j - 1].x, values[j - 1].y, values[j].x, values[j].y);
  }

  /** Strategy `line` at the middle of a finite bracket gives the mean of its two intensities. */
  lemma LineAtMidpoint(f: seq<Point>, k: nat, x0: real, y0: real, x1: real, y1: real)
    requires Framed(f) && 1 <= k < |f| && x0 < x1 && Bracket(f, Fin((x0 + x1) / 2.0)) == k
    requires f[k - 1] == Point(Fin(x0), y0) && f[k] == Point(Fin(x1), y1)
    ensures LineValue(f, Fin((x0 + x1) / 2.0)) == (y0 + y1) / 2.0
  {
    LineValueAt(f, Fin((x0 + x1) / 2.0), k, x0, y0, x1, y1);
    LineThroughMidpoint(x0, y0, x1, y1);
  }

  /**
   * Whatever the strategy and the query, the answer lies within the range of
   * the stored intensities; in particular non-negative data give
   * non-negative answers.
   */
  lemma InterpolationBounded(values: seq<Line>, x: Ext, name: string, lo: real, hi: real)
    requires name in Registered && |values| > 0
    requires forall i :: 0 <= i < |values| ==> lo <= values[i].y <= hi
    ensures Interpolate(values, x, name).Success?
    ensures lo <= Interpolate(values, x, name).value <= hi
  {
    var f := AddEndpoints(values).value;
    assert forall i :: 0 <= i < |f| ==> lo <= f[i].y <= hi by {
      forall i | 0 <= i < |f|
        ensures lo <= f[i].y <= hi
      {
        if 0 < i < |f| - 1 {
          assert f[i].y == values[i - 1].y;
        }
      }
    }
    LineWithinBracket(f, x);
  }
}
