/**
 * The electromagnetic specialisations: the table of named spectral bands
 * and the band integral of `ElectromagneticSpectrum`, the band-range setter
 * of `ElectromagneticSpectrumConstructor`, the black-body constructor's
 * Wien-law range and temperature guard, and the Rayleigh scattering filter.
 * Lengths are in metres.
 */
module Blackbody {
  import opened Outcomes
  import opened Interpolation
  import opened Spectra
  import opened Integration
  import opened Constructors
  import opened Filters

  const Nm: real := 0.000000001
  const Mm: real := 0.001
  const Km: real := 1000.0

  /** `ElectromagneticSpectrum.bands`, in the dictionary's order: name and (shortest, longest) wavelength. */
  const Bands: seq<(string, (real, real))> := [
    ("GAMMA", (0.0, 0.01 * Nm)),
    ("HX", (0.01 * Nm, 0.1 * Nm)),
    ("SX", (0.1 * Nm, 10.0 * Nm)),
    ("EUV", (10.0 * Nm, 100.0 * Nm)),
    ("FUV", (100.0 * Nm, 200.0 * Nm)),
    ("MUV", (200.0 * Nm, 300.0 * Nm)),
    ("NUV", (300.0 * Nm, 380.0 * Nm)),
    ("VIS", (380.0 * Nm, 750.0 * Nm)),
    ("NIR", (750.0 * Nm, 1400.0 * Nm)),
    ("SIR", (1400.0 * Nm, 3000.0 * Nm)),
    ("MIR", (3000.0 * Nm, 8000.0 * Nm)),
    ("LIR", (8000.0 * Nm, 15000.0 * Nm)),
    ("FIR", (15000.0 * Nm, 100000.0 * Nm)),
    ("THF", (0.1 * Mm, 1.0 * Mm)),
    ("EHF", (1.0 * Mm, 10.0 * Mm)),
    ("SHF", (10.0 * Mm, 100.0 * Mm)),
    ("UHF", (100.0 * Mm, 1.0)),
    ("VHF", (1.0, 10.0)),
    ("HF", (10.0, 100.0)),
    ("MF", (100.0, 1.0 * Km)),
    ("LF", (1.0 * Km, 10.0 * Km)),
    ("VLF", (10.0 * Km, 100.0 * Km)),
    ("ULF", (100.0 * Km, 1000.0 * Km)),
    ("SLF", (1000.0 * Km, 10000.0 * Km)),
    ("ELF", (10000.0 * Km, 100000.0 * Km))
  ]

  /** Dictionary lookup in a table of named ranges; `None` for a name that is not there. */
  function Lookup(table: seq<(string, (real, real))>, name: string): (r: Option<(real, real)>)
    ensures r.Some? <==> exists i :: 0 <= i < |table| && table[i].0 == name
    ensures r.Some? ==> exists i :: 0 <= i < |table| && table[i] == (name, r.value)
    decreases |table|
  {
    if |table| == 0 then
      None
    else if table[0].0 == name then
      Some(table[0].1)
    else
      var r := Lookup(table[1..], name);
      assert forall i :: 1 <= i < |table| ==> table[i] == table[1..][i - 1];
      r
  }

  /** `bands.get(name)`. */
  function BandRange(name: string): Option<(real, real)> {
    Lookup(Bands, name)
  }

  /**
   * Every band is a non-empty range, the bands have distinct names, and they
   * tile the wavelength axis: each band ends where the next begins.
   */
  lemma BandsTile()
    ensures forall i :: 0 <= i < |Bands| ==> Bands[i].1.0 < Bands[i].1.1
    ensures forall i :: 0 <= i < |Bands| - 1 ==> Bands[i].1.1 == Bands[i + 1].1.0
    ensures forall i, j :: 0 <= i < j < |Bands| ==> Bands[i].0 != Bands[j].0
  {
  }

  /** Looking up an entry's name finds that entry when no earlier entry has the same name. */
  lemma {:induction false} LookupFinds(table: seq<(string, (real, real))>, i: nat)
    requires i < |table|
    requires forall a :: 0 <= a < i ==> table[a].0 != table[i].0
    ensures Lookup(table, table[i].0) == Some(table[i].1)
    decreases i
  {
    if i > 0 {
      assert table[1..][i - 1] == table[i];
      LookupFinds(table[1..], i - 1);
    }
  }

  /** A band's name finds its range when no earlier band has that name. */
  lemma BandAt(i: nat, name: string)
    requires i < |Bands| && Bands[i].0 == name
    requires forall a :: 0 <= a < i ==> Bands[a].0 != name
    ensures BandRange(name) == Some(Bands[i].1)
  {
    LookupFinds(Bands, i);
  }

  /** The ranges of the bands the black-body constructor and the visible share are built from. */
  lemma GammaBand()
    ensures BandRange("GAMMA") == Some((0.0, 0.01 * Nm))
  {
  }

  lemma ExtremeUltravioletBand()
    ensures BandRange("EUV") == Some((10.0 * Nm, 100.0 * Nm))
  {
    BandAt(3, "EUV");
  }

  lemma NearUltravioletBand()
    ensures BandRange("NUV") == Some((300.0 * Nm, 380.0 * Nm))
  {
    BandAt(6, "NUV");
  }

  lemma VisibleBand()
    ensures BandRange("VIS") == Some((380.0 * Nm, 750.0 * Nm))
  {
    BandAt(7, "VIS");
  }

  lemma NearInfraredBand()
    ensures BandRange("NIR") == Some((750.0 * Nm, 1400.0 * Nm))
  {
    BandAt(8, "NIR");
  }

  /** `get_intensity_in_band`: the integral over the named band; an unknown name is a KeyError. */
  function IntensityInBand(s: Spectrum, name: string): (r: Result<real>)
    ensures BandRange(name).None? ==> r == Failure(KeyError)
    ensures BandRange(name).Some? ==>
              r == Integral(s, Some(BandRange(name).value.0), Some(BandRange(name).value.1))
  {
    match BandRange(name)
    case None => Failure(KeyError)
    case Some((lo, hi)) => Integral(s, Some(lo), Some(hi))
  }

  /**
   * The band that starts at wavelength 0 has a falsy lower bound, so its
   * integral starts at the spectrum's first coordinate.
   */
  lemma GammaStartsAtFirstLine(s: Spectrum)
    ensures IntensityInBand(s, "GAMMA") == Integral(s, None, Some(0.01 * Nm))
  {
    GammaBand();
  }

  /** `relative_visual_intensity`: the visible band's share of the whole integral; a zero whole is a ZeroDivisionError. */
  function RelativeVisualIntensity(s: Spectrum): Result<real> {
    var vis :- IntensityInBand(s, "VIS");
    var total :- Integral(s, None, None);
    if total == 0.0 then Failure(ZeroDivisionError) else Success(vis / total)
  }

  lemma VisibleIntensity(s: Spectrum)
    ensures IntensityInBand(s, "VIS") == Integral(s, Some(380.0 * Nm), Some(750.0 * Nm))
  {
    VisibleBand();
  }

  /** A non-negative quantity divided by a positive one is non-negative. */
  lemma QuotientNonNegative(x: real, y: real)
    requires x >= 0.0 && y > 0.0
    ensures x / y >= 0.0
  {
  }

  /** For non-negative data the visible share is never negative. */
  lemma RelativeVisualIntensityNonNegative(s: Spectrum)
    requires s.interpolation in Registered
    requires forall i :: 0 <= i < |s.lines| ==> s.lines[i].y >= 0.0
    ensures RelativeVisualIntensity(s).Success? ==> RelativeVisualIntensity(s).value >= 0.0
  {
    var vis := IntensityInBand(s, "VIS");
    var total := Integral(s, None, None);
    VisibleIntensity(s);
    IntegralNonNegative(s, Some(380.0 * Nm), Some(750.0 * Nm));
    IntegralNonNegative(s, None, None);
    if vis.Success? && total.Success? && total.value != 0.0 {
      QuotientNonNegative(vis.value, total.value);
    }
  }

  /** A positive quantity no larger than a positive whole is at most the whole's share, 1. */
  lemma QuotientAtMostOne(x: real, y: real)
    requires 0.0 <= x <= y && y > 0.0
    ensures 0.0 <= x / y <= 1.0
  {
    assert x / y * y == x;
  }

  /**
   * The share is within 0 and 1 for non-negative data that reaches the end of
   * the visible band.
   */
  lemma RelativeVisualIntensityAtMostOne(s: Spectrum)
    requires s.interpolation in Registered
    requires forall i :: 0 <= i < |s.lines| ==> s.lines[i].y >= 0.0
    requires |s.lines| > 0 && s.lines[|s.lines| - 1].x >= 750.0 * Nm
    ensures RelativeVisualIntensity(s).Success? ==> 0.0 <= RelativeVisualIntensity(s).value <= 1.0
  {
    VisibleWithinWhole(s);
    var vis, total := IntensityInBand(s, "VIS").value, Integral(s, None, None).value;
    if total != 0.0 {
      QuotientAtMostOne(vis, total);
    }
  }

  /**
   * Under the same conditions the visible integral is at most the whole one:
   * every bin it adds, its right end below 750 nm, is also a bin of the whole
   * integral, whose right ends run up to but not including the last
   * coordinate.
   */
  lemma VisibleWithinWhole(s: Spectrum)
    requires s.interpolation in Registered
    requires forall i :: 0 <= i < |s.lines| ==> s.lines[i].y >= 0.0
    requires |s.lines| > 0 && s.lines[|s.lines| - 1].x >= 750.0 * Nm
    ensures IntensityInBand(s, "VIS").Success? && Integral(s, None, None).Success?
    ensures 0.0 <= IntensityInBand(s, "VIS").value <= Integral(s, None, None).value
  {
    var lines, read := s.lines, Reader(s);
    var first, last := lines[0].x, lines[|lines| - 1].x;
    ReaderNonNegative(s);
    VisibleIntensity(s);
    BinsFromSelected(lines, read, 380.0 * Nm, 750.0 * Nm, 1);
    BinsFromSelected(lines, read, first, last, 1);
    forall k | 1 <= k < |lines| && 380.0 * Nm <= lines[k].x < 750.0 * Nm
      ensures first <= lines[k].x < last
    {
      assert lines[0].x <= lines[k].x;
    }
    SelectedWithin(lines, read, 380.0 * Nm, 750.0 * Nm, first, last, 1);
    SelectedNonNegative(lines, read, 380.0 * Nm, 750.0 * Nm, 1);
  }

  /** Three equal samples from 300 nm to 500 nm, read by nearest sample. */
  const ShortSpectrum: Spectrum :=
    Spectrum([Line(300.0 * Nm, 1.0), Line(400.0 * Nm, 1.0), Line(500.0 * Nm, 1.0)], "point", Electromagnetic)

  /**
   * A spectrum that stops inside the visible band has a share of 2: the
   * visible integral adds the bins ending at 400 nm and 500 nm, while the
   * whole integral stops before the bin ending at its last coordinate.
   */
  lemma ShortSpectrumShareIsTwo()
    ensures RelativeVisualIntensity(ShortSpectrum) == Success(2.0)
  {
    ShortSpectrumVisible();
    ShortSpectrumWhole();
  }

  /** Every sample of the short spectrum is 1, so it reads 1 everywhere. */
  lemma ShortSpectrumReadsOne()
    ensures forall x :: Reader(ShortSpectrum)(x) == Success(1.0)
  {
    var s := ShortSpectrum;
    forall x
      ensures Reader(s)(x) == Success(1.0)
    {
      InterpolationBounded(s.lines, Fin(x), s.interpolation, 1.0, 1.0);
    }
  }

  /** Over the visible band the short spectrum adds the bins ending at 400 nm and 500 nm. */
  lemma ShortSpectrumVisible()
    ensures IntensityInBand(ShortSpectrum, "VIS") == Success(0.0000002)
  {
    var s := ShortSpectrum;
    var lines, read := s.lines, Reader(s);
    ShortSpectrumReadsOne();
    VisibleIntensity(s);
    BinsFromSelected(lines, read, 380.0 * Nm, 750.0 * Nm, 1);
    assert Bin(lines, read, 1) == 100.0 * Nm;
    assert Bin(lines, read, 2) == 100.0 * Nm;
    assert Selected(lines, read, 380.0 * Nm, 750.0 * Nm, 3) == 0.0;
    assert Selected(lines, read, 380.0 * Nm, 750.0 * Nm, 2) == 100.0 * Nm;
    assert Selected(lines, read, 380.0 * Nm, 750.0 * Nm, 1) == 200.0 * Nm;
  }

  /** Over its own range the short spectrum adds only the bin ending at 400 nm. */
  lemma ShortSpectrumWhole()
    ensures Integral(ShortSpectrum, None, None) == Success(0.0000001)
  {
    var s := ShortSpectrum;
    var lines, read := s.lines, Reader(s);
    ShortSpectrumReadsOne();
    BinsFromSelected(lines, read, 300.0 * Nm, 500.0 * Nm, 1);
    assert Bin(lines, read, 1) == 100.0 * Nm;
    assert Selected(lines, read, 300.0 * Nm, 500.0 * Nm, 3) == 0.0;
    assert Selected(lines, read, 300.0 * Nm, 500.0 * Nm, 2) == 0.0;
    assert Selected(lines, read, 300.0 * Nm, 500.0 * Nm, 1) == 100.0 * Nm;
  }

  /** The outcome of `set_spectral_range_by_bands(band1, band2)`; an empty `band2` counts as not given. */
  function RangeByBands(band1: string, band2: Option<string>): Result<(real, real)> {
    var r1 := BandRange(band1);
    var given2 := band2.Some? && band2.value != "";
    var r2 := if given2 then BandRange(band2.value) else None;
    if given2 && r1.None? && r2.None? then
      Failure(ValueError)
    else if r1.None? then
      Failure(TypeError)
    else
      var b1 := r1.value.0;
      var b2 := if r2.None? then r1.value.1 else r2.value.1;
      if b1 >= b2 then Failure(ValueError) else Success((b1, b2))
  }

  /**
   * The band setter's cases: a known `band1` alone (or with an unknown
   * `band2`) gives that band's range; two known bands give
   * `(band1 start, band2 end)` or a ValueError when that is not a range;
   * two unknown names are a ValueError; an unknown `band1` otherwise fails
   * when its missing range is unpacked, a TypeError.
   */
  lemma RangeByBandsCases(band1: string, band2: Option<string>)
    ensures var given2 := band2.Some? && band2.value != "";
            var r1, r2 := BandRange(band1), if given2 then BandRange(band2.value) else None;
            && (r1.Some? && r2.None? ==> RangeByBands(band1, band2) == Success(r1.value))
            && (r1.Some? && r2.Some? && r1.value.0 < r2.value.1 ==>
                  RangeByBands(band1, band2) == Success((r1.value.0, r2.value.1)))
            && (r1.Some? && r2.Some? && r1.value.0 >= r2.value.1 ==> RangeByBands(band1, band2) == Failure(ValueError))
            && (given2 && r1.None? && r2.None? ==> RangeByBands(band1, band2) == Failure(ValueError))
            && (r1.None? && !(given2 && r2.None?) ==> RangeByBands(band1, band2) == Failure(TypeError))
  {
    if BandRange(band1).Some? {
      BandsTile();
      var i :| 0 <= i < |Bands| && Bands[i] == (band1, BandRange(band1).value);
      assert BandRange(band1).value.0 < BandRange(band1).value.1;
    }
  }

  /** The setter writes the constructor's range only when the bands give a range. */
  method SetSpectralRangeByBands<A>(c: SpectrumConstructor<A>, band1: string, band2: Option<string>)
    returns (r: Result<()>)
    requires c.Valid()
    modifies c
    ensures c.Valid()
    ensures RangeByBands(band1, band2).Success? ==>
              r == Success(()) && c.spectrumRange == RangeByBands(band1, band2).value
    ensures RangeByBands(band1, band2).Failure? ==>
              r == Failure(RangeByBands(band1, band2).error) && c.spectrumRange == old(c.spectrumRange)
    ensures c.precision == old(c.precision) && c.progressiveScale == old(c.progressiveScale)
  {
    var range := RangeByBands(band1, band2);
    if range.Failure? {
      return Failure(range.error);
    }
    c.spectrumRange := range.value;
    return Success(());
  }

  /** Wien's displacement constant in m K. */
  const WienC: real := 0.0028977729
  /** `spectrum_gate`: the range around the peak wavelength, as multiples of it. */
  const GateLow: real := 0.156
  const GateHigh: real := 7.8
  /** `visual_t_gate`: the temperatures (K) for which the visible window is added. */
  const VisualTLow: real := 1199.0
  const VisualTHigh: real := 250000.0
  /** `visible_range`: from the start of NUV to the end of NIR. */
  const VisibleLow: real := 300.0 * Nm
  const VisibleHigh: real := 1400.0 * Nm
  /** `_spectrum_range`: the constructor's default range, from the start of EUV to the end of NIR. */
  const DefaultBlackbodyRange: (real, real) := (10.0 * Nm, 1400.0 * Nm)

  /** The visible window and the default range are the spans of the bands they are read from. */
  lemma RangesFromBands()
    ensures BandRange("NUV").Some? && BandRange("NIR").Some? && BandRange("EUV").Some?
    ensures VisibleLow == BandRange("NUV").value.0 && VisibleHigh == BandRange("NIR").value.1
    ensures DefaultBlackbodyRange == (BandRange("EUV").value.0, BandRange("NIR").value.1)
  {
    ExtremeUltravioletBand();
    NearUltravioletBand();
    NearInfraredBand();
  }

  /**
   * `_define_spectral_range`: the gate around Wien's peak wavelength,
   * widened to take in the visible window for temperatures inside the
   * visual gate unless `ignoreVisual` is set.
   */
  function DefineSpectralRange(temperature: real, ignoreVisual: bool): (real, real)
    requires temperature != 0.0
  {
    var wienMax := WienC / temperature;
    var w0, w1 := wienMax * GateLow, wienMax * GateHigh;
    if !ignoreVisual && VisualTLow < temperature < VisualTHigh then
      (if w0 > VisibleLow then VisibleLow else w0, if w1 < VisibleHigh then VisibleHigh else w1)
    else
      (w0, w1)
  }

  /**
   * For a positive temperature the derived range is a proper range. Without
   * widening it is exactly the gate around Wien's peak; with widening it
   * contains both that gate and the visible window, and nothing more.
   */
  lemma DefineSpectralRangeShape(temperature: real, ignoreVisual: bool)
    requires temperature > 0.0
    ensures var (w0, w1) := DefineSpectralRange(temperature, ignoreVisual);
            var wienMax := WienC / temperature;
            && w0 < w1
            && w0 <= wienMax * GateLow && w1 >= wienMax * GateHigh
            && (ignoreVisual || !(VisualTLow < temperature < VisualTHigh) ==>
                  w0 == wienMax * GateLow && w1 == wienMax * GateHigh)
            && (!ignoreVisual && VisualTLow < temperature < VisualTHigh ==>
                  && w0 <= VisibleLow && w1 >= VisibleHigh
                  && (w0 == VisibleLow || w0 == wienMax * GateLow)
                  && (w1 == VisibleHigh || w1 == wienMax * GateHigh))
  {
    var wienMax := WienC / temperature;
    assert wienMax > 0.0;
    assert wienMax * GateLow < wienMax * GateHigh;
  }

  /** `BlackbodySpectrumConstructor`: an electromagnetic constructor whose range follows the temperature. */
  class BlackbodyConstructor {
    /** The inherited configuration: 200 points from the start of EUV to the end of NIR, progressive. */
    const base: SpectrumConstructor<real>
    /** `ignore_visual`. */
    var ignoreVisual: bool

    ghost predicate Valid()
      reads this, base
    {
      base.Valid() && base.kind == Electromagnetic
    }

    /** The class with its defaults; `planck` is its model function of wavelength and temperature. */
    constructor (planck: (real, real) -> Result<real>)
      ensures Valid() && fresh(base)
      ensures base.precision == 200 && base.spectrumRange == DefaultBlackbodyRange
      ensures base.progressiveScale && base.func == planck && !ignoreVisual
    {
      base := new SpectrumConstructor(Electromagnetic, planck, 200, DefaultBlackbodyRange, true);
      ignoreVisual := false;
    }

    /**
     * `__new__(temperature)`: a temperature of at most 1 K is a ValueError
     * and leaves the range alone; otherwise the derived range is installed
     * (which cannot fail, the range being proper) and a spectrum is built.
     */
    method New(temperature: real) returns (r: Result<Spectrum>)
      requires Valid()
      modifies base
      ensures Valid()
      ensures temperature <= 1.0 ==> r == Failure(ValueError) && base.spectrumRange == old(base.spectrumRange)
      ensures temperature > 1.0 ==>
                && base.spectrumRange == DefineSpectralRange(temperature, ignoreVisual)
                && r == Build(base.Wavelist(), base.func, temperature, Electromagnetic)
      ensures base.precision == old(base.precision) && base.progressiveScale == old(base.progressiveScale)
    {
      if temperature <= 1.0 {
        return Failure(ValueError);
      }
      DefineSpectralRangeShape(temperature, ignoreVisual);
      var (w0, w1) := DefineSpectralRange(temperature, ignoreVisual);
      var installed := base.SetSpectralRange(w0, w1);
      assert installed.Success?;
      r := base.Construct(temperature);
    }
  }

  /** A scattering material: refractive index as a function of wavelength and temperature, and molecule volume. */
  datatype Material = Material(refractiveIndex: (real, real) -> real, v: real)

  /** `(mat_abundances, molecules, t)`. */
  datatype RayleighArgs = RayleighArgs(abundances: seq<(Material, real)>, molecules: real, temperature: real)

  function Sq(a: real): real {
    a * a
  }

  lemma SqPositive(a: real)
    requires a != 0.0
    ensures Sq(a) > 0.0
  {
    if a > 0.0 {
      calc {
        Sq(a);
        a * a;
      >
        0.0;
      }
    } else {
      calc {
        Sq(a);
        (-a) * (-a);
      >
        0.0;
      }
    }
  }

  lemma SqNonNegative(a: real)
    ensures Sq(a) >= 0.0
  {
    if a != 0.0 {
      SqPositive(a);
    }
  }

  lemma ProductNonNegative(a: real, b: real)
    requires a >= 0.0 && b >= 0.0
    ensures a * b >= 0.0
  {
  }

  /**
   * A material's scattering cross-section at wavelength `w`:
   * `v^2 k ((n^2 - 1) / (n^2 + 2))^2 / w^4`, where `k` stands for the
   * filter's constant `200000 * 24 * pi^3`.
   */
  function CrossSection(m: Material, w: real, t: real, k: real): real
    requires w != 0.0
  {
    var n2 := Sq(m.refractiveIndex(w, t));
    SqNonNegative(m.refractiveIndex(w, t));
    SqPositive(w);
    SqPositive(Sq(w));
    Sq(m.v) * k * Sq((n2 - 1.0) / (n2 + 2.0)) / Sq(Sq(w))
  }

  /** `sigma_total`: the abundance-weighted sum of cross-sections, in list order. */
  function SigmaTotal(mats: seq<(Material, real)>, w: real, t: real, k: real): real
    requires w != 0.0
    decreases |mats|
  {
    if |mats| == 0 then 0.0
    else SigmaTotal(mats[..|mats| - 1], w, t, k) + CrossSection(mats[|mats| - 1].0, w, t, k) * mats[|mats| - 1].1
  }

  /** `y0 * max(0., 1. - sigma_total * molecules)`. */
  function Transmitted(y: real, sigma: real, molecules: real): real {
    var f := 1.0 - sigma * molecules;
    y * (if f >= 0.0 then f else 0.0)
  }

  /**
   * `RayleighFilter._func`: the intensity scaled by `max(0, 1 - sigma *
   * molecules)`; with any material at wavelength 0 the division by `w^4` is
   * a ZeroDivisionError.
   */
  function Rayleigh(line: Line, filterLine: Option<Line>, args: RayleighArgs, k: real): Result<real> {
    if |args.abundances| > 0 && line.x == 0.0 then
      Failure(ZeroDivisionError)
    else
      var sigma := if line.x == 0.0 then 0.0 else SigmaTotal(args.abundances, line.x, args.temperature, k);
      Success(Transmitted(line.y, sigma, args.molecules))
  }

  /** The same with the accumulation loop over the materials. */
  method RayleighTransfer(line: Line, filterLine: Option<Line>, args: RayleighArgs, k: real) returns (r: Result<real>)
    ensures r == Rayleigh(line, filterLine, args, k)
  {
    var w := line.x;
    var mats := args.abundances;
    if |mats| > 0 && w == 0.0 {
      return Failure(ZeroDivisionError);
    }
    var sigma := 0.0;
    if w != 0.0 {
      SqPositive(w);
      SqPositive(Sq(w));
      var w4 := Sq(Sq(w));
      var i := 0;
      while i < |mats|
        invariant 0 <= i <= |mats|
        invariant sigma == SigmaTotal(mats[..i], w, args.temperature, k)
      {
        var n2 := Sq(mats[i].0.refractiveIndex(w, args.temperature));
        SqNonNegative(mats[i].0.refractiveIndex(w, args.temperature));
        var mod := Sq(mats[i].0.v) * k * Sq((n2 - 1.0) / (n2 + 2.0)) / w4;
        assert mats[..i + 1][..i] == mats[..i];
        sigma := sigma + mod * mats[i].1;
        i := i + 1;
      }
      assert mats[..|mats|] == mats;
    }
    r := Success(Transmitted(line.y, sigma, args.molecules));
  }

  /** With a non-negative constant every cross-section is non-negative. */
  lemma CrossSectionNonNegative(m: Material, w: real, t: real, k: real)
    requires w != 0.0 && k >= 0.0
    ensures CrossSection(m, w, t, k) >= 0.0
  {
    var n2 := Sq(m.refractiveIndex(w, t));
    SqNonNegative(m.refractiveIndex(w, t));
    var q := (n2 - 1.0) / (n2 + 2.0);
    SqNonNegative(m.v);
    SqNonNegative(q);
    SqPositive(w);
    SqPositive(Sq(w));
    ProductNonNegative(Sq(m.v), k);
    ProductNonNegative(Sq(m.v) * k, Sq(q));
    QuotientNonNegative(Sq(m.v) * k * Sq(q), Sq(Sq(w)));
  }

  /** With non-negative abundances the total cross-section is non-negative. */
  lemma {:induction false} SigmaTotalNonNegative(mats: seq<(Material, real)>, w: real, t: real, k: real)
    requires w != 0.0 && k >= 0.0
    requires forall i :: 0 <= i < |mats| ==> mats[i].1 >= 0.0
    ensures SigmaTotal(mats, w, t, k) >= 0.0
    decreases |mats|
  {
    if |mats| > 0 {
      SigmaTotalNonNegative(mats[..|mats| - 1], w, t, k);
      CrossSectionNonNegative(mats[|mats| - 1].0, w, t, k);
      ProductNonNegative(CrossSection(mats[|mats| - 1].0, w, t, k), mats[|mats| - 1].1);
    }
  }

  /** Scaling a non-negative value by a factor in [0, 1] keeps it in [0, value]; a factor below 1 lowers a positive value. */
  lemma ScaleWithinUnit(y: real, g: real)
    requires y >= 0.0 && 0.0 <= g <= 1.0
    ensures 0.0 <= y * g <= y
    ensures y > 0.0 && g < 1.0 ==> y * g < y
  {
    ProductNonNegative(y, g);
    ProductNonNegative(y, 1.0 - g);
    assert y - y * g == y * (1.0 - g);
    if y > 0.0 && g < 1.0 {
      assert y * (1.0 - g) > 0.0;
    }
  }

  /** The transmitted share of a non-negative intensity is between none and all of it, and less than all when anything scatters. */
  lemma TransmittedBounds(y: real, sigma: real, molecules: real)
    requires y >= 0.0 && sigma >= 0.0 && molecules >= 0.0
    ensures 0.0 <= Transmitted(y, sigma, molecules) <= y
    ensures y > 0.0 && sigma * molecules > 0.0 ==> Transmitted(y, sigma, molecules) < y
  {
    ProductNonNegative(sigma, molecules);
    var f := 1.0 - sigma * molecules;
    var g := if f >= 0.0 then f else 0.0;
    ScaleWithinUnit(y, g);
    if y > 0.0 && sigma * molecules > 0.0 {
      calc {
        Transmitted(y, sigma, molecules);
        y * g;
      < { ScaleWithinUnit(y, g); }
        y;
      }
    }
  }

  /**
   * With non-negative intensity, abundances and molecule count the scattered
   * intensity lies between 0 and the original; it is strictly lower when
   * the intensity is positive and some scattering takes place.
   */
  lemma RayleighBounds(line: Line, filterLine: Option<Line>, args: RayleighArgs, k: real)
    requires line.x != 0.0 && line.y >= 0.0 && k >= 0.0 && args.molecules >= 0.0
    requires forall i :: 0 <= i < |args.abundances| ==> args.abundances[i].1 >= 0.0
    ensures Rayleigh(line, filterLine, args, k).Success?
    ensures 0.0 <= Rayleigh(line, filterLine, args, k).value <= line.y
    ensures line.y > 0.0 && SigmaTotal(args.abundances, line.x, args.temperature, k) * args.molecules > 0.0 ==>
              Rayleigh(line, filterLine, args, k).value < line.y
  {
    var sigma := SigmaTotal(args.abundances, line.x, args.temperature, k);
    SigmaTotalNonNegative(args.abundances, line.x, args.temperature, k);
    TransmittedBounds(line.y, sigma, args.molecules);
  }

  /** `RayleighFilter(spectrum, mat_abundances, molecules, temperature)`: the filter applied without a filter spectrum. */
  function RayleighFilter(s: Spectrum, args: RayleighArgs, k: real): Result<Spectrum> {
    Process((l: Line, f: Option<Line>, a: RayleighArgs) => Rayleigh(l, f, a, k), s, None, args)
  }

  /**
   * On a spectrum of positive wavelengths and non-negative intensities the
   * filter keeps every coordinate and never raises an intensity.
   */
  lemma RayleighFilterAttenuates(s: Spectrum, args: RayleighArgs, k: real)
    requires k >= 0.0 && args.molecules >= 0.0
    requires forall i :: 0 <= i < |args.abundances| ==> args.abundances[i].1 >= 0.0
    requires forall i :: 0 <= i < |s.lines| ==> s.lines[i].x > 0.0 && s.lines[i].y >= 0.0
    ensures RayleighFilter(s, args, k).Success?
    ensures |RayleighFilter(s, args, k).value.lines| == |s.lines|
    ensures forall i :: 0 <= i < |s.lines| ==>
              && RayleighFilter(s, args, k).value.lines[i].x == s.lines[i].x
              && 0.0 <= RayleighFilter(s, args, k).value.lines[i].y <= s.lines[i].y
  {
    var func := (l: Line, f: Option<Line>, a: RayleighArgs) => Rayleigh(l, f, a, k);
    forall i | 0 <= i < |s.lines|
      ensures func(s.lines[i], None, args).Success?
      ensures 0.0 <= func(s.lines[i], None, args).value <= s.lines[i].y
    {
      RayleighBounds(s.lines[i], None, args, k);
    }
    NoFilterPassesNone(func, s, args);
  }
}
