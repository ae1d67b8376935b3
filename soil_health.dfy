/**
 * The soil view's decision logic (src/components/SoilAnalysis.tsx): the
 * per-parameter health classifier with its range table, the two colour
 * mappings of its result, the progress-bar percentages and the conditions
 * under which the two pieces of soil advice are shown.
 */
module SoilHealth {
  import opened Domain

  /** The five measured soil parameters. */
  datatype Parameter = Ph | Organic | Nitrogen | Phosphorus | Potassium

  /** The four health bands, from best to worst. */
  datatype Band = Excellent | Good | Moderate | Poor

  /** Position of a band in the order the classifier tries them (best first). */
  function Rank(b: Band): nat
  {
    match b
    case Excellent => 0
    case Good => 1
    case Moderate => 2
    case Poor => 3
  }

  /** A closed interval of readings; both ends are inclusive. */
  datatype Interval = Interval(lo: real, hi: real) {
    predicate Contains(v: real) { lo <= v <= hi }
    predicate Within(outer: Interval) { outer.lo <= lo && hi <= outer.hi }
  }

  /** The band intervals for one parameter, one entry per band. */
  datatype RangeTable = RangeTable(excellent: Interval, good: Interval, moderate: Interval, poor: Interval) {
    /** Each band's interval lies inside that of the next worse band. */
    predicate Nested()
    {
      excellent.Within(good) && good.Within(moderate) && moderate.Within(poor)
    }

    /**
     * Whether the classifier's test for band `b` passes for `v`. `Poor` is
     * the fall-through and has no test: its interval is never looked at.
     */
    predicate Admits(b: Band, v: real)
    {
      match b
      case Excellent => excellent.Contains(v)
      case Good => good.Contains(v)
      case Moderate => moderate.Contains(v)
      case Poor => true
    }
  }

  /** The constant range table of the classifier, for each parameter. */
  function Ranges(p: Parameter): (t: RangeTable)
    ensures t.Nested()
    ensures t.poor.lo == 0.0 < t.poor.hi
  {
    match p
    case Ph => RangeTable(Interval(6.5, 7.5), Interval(6.0, 8.0), Interval(5.5, 8.5), Interval(0.0, 14.0))
    case Organic => RangeTable(Interval(3.0, 5.0), Interval(2.0, 6.0), Interval(1.0, 7.0), Interval(0.0, 10.0))
    case Nitrogen => RangeTable(Interval(40.0, 60.0), Interval(30.0, 70.0), Interval(20.0, 80.0), Interval(0.0, 100.0))
    case Phosphorus => RangeTable(Interval(20.0, 30.0), Interval(15.0, 35.0), Interval(10.0, 40.0), Interval(0.0, 50.0))
    case Potassium => RangeTable(Interval(150.0, 200.0), Interval(120.0, 220.0), Interval(100.0, 250.0), Interval(0.0, 300.0))
  }

  /**
   * The classifier over one range table: tests excellent, then good, then
   * moderate, and falls through to poor. The result is the best band whose
   * test passes.
   */
  function Classify(t: RangeTable, v: real): (b: Band)
    ensures t.Admits(b, v)
    ensures forall c: Band :: Rank(c) < Rank(b) ==> !t.Admits(c, v)
  {
    if t.excellent.Contains(v) then Excellent
    else if t.good.Contains(v) then Good
    else if t.moderate.Contains(v) then Moderate
    else Poor
  }

  /** `getSoilHealthStatus(value, type)`: total over every real reading. */
  function SoilHealthStatus(v: real, p: Parameter): (b: Band)
    ensures b == Excellent <==> Ranges(p).excellent.Contains(v)
    ensures b == Good <==> !Ranges(p).excellent.Contains(v) && Ranges(p).good.Contains(v)
    ensures b == Moderate <==>
              !Ranges(p).excellent.Contains(v) && !Ranges(p).good.Contains(v) && Ranges(p).moderate.Contains(v)
    ensures b != Poor <==> Ranges(p).moderate.Contains(v)
  {
    Classify(Ranges(p), v)
  }

  /** The classifier never reads the `poor` entry of its table. */
  lemma PoorEntryNeverConsulted(t: RangeTable, other: Interval, v: real)
    ensures Classify(t.(poor := other), v) == Classify(t, v)
  {
  }

  /**
   * For any nested table the bands are cumulative: the result is at least as
   * good as band `b` exactly when the reading lies in `b`'s interval.
   */
  lemma NestedBandsAreCumulative(t: RangeTable, v: real, b: Band)
    requires t.Nested()
    requires b != Poor
    ensures Rank(Classify(t, v)) <= Rank(b) <==> t.Admits(b, v)
  {
  }

  /** Readings outside even the `poor` interval, negative or absurd ones, are still classified. */
  lemma OutOfDomainReadingsArePoor(v: real, p: Parameter)
    requires v < 0.0 || v > Ranges(p).poor.hi
    ensures SoilHealthStatus(v, p) == Poor
  {
  }

  /** The measured reading of parameter `p` in a sample. */
  function Reading(s: SoilData, p: Parameter): real
  {
    match p
    case Ph => s.ph
    case Organic => s.organicContent
    case Nitrogen => s.nitrogen
    case Phosphorus => s.phosphorus
    case Potassium => s.potassium
  }

  /**
   * How the two colour switches read a status string: one of the four band
   * names, or no band for any other string.
   */
  function StatusBand(status: string): (b: Option<Band>)
    ensures b == None <==> status !in {"excellent", "good", "moderate", "poor"}
  {
    if status == "excellent" then Some(Excellent)
    else if status == "good" then Some(Good)
    else if status == "moderate" then Some(Moderate)
    else if status == "poor" then Some(Poor)
    else None
  }

  /** The status string `getSoilHealthStatus` returns for a band. */
  function BandName(b: Band): (name: string)
    ensures StatusBand(name) == Some(b)
  {
    match b
    case Excellent => "excellent"
    case Good => "good"
    case Moderate => "moderate"
    case Poor => "poor"
  }

  const UnknownStatusColor := "text-gray-600 bg-gray-50"
  const UnknownProgressColor := "bg-gray-500"

  /** `getStatusColor(status)`: badge colour classes; unknown strings get grey. */
  function StatusColor(status: string): (c: string)
    ensures c == UnknownStatusColor <==> StatusBand(status) == None
  {
    if status == "excellent" then "text-green-600 bg-green-50"
    else if status == "good" then "text-blue-600 bg-blue-50"
    else if status == "moderate" then "text-yellow-600 bg-yellow-50"
    else if status == "poor" then "text-red-600 bg-red-50"
    else UnknownStatusColor
  }

  /** `getProgressColor(status)`: bar colour class; unknown strings get grey. */
  function ProgressColor(status: string): (c: string)
    ensures c == UnknownProgressColor <==> StatusBand(status) == None
  {
    if status == "excellent" then "bg-green-500"
    else if status == "good" then "bg-blue-500"
    else if status == "moderate" then "bg-yellow-500"
    else if status == "poor" then "bg-red-500"
    else UnknownProgressColor
  }

  /**
   * Both colour mappings tell the four bands apart, and neither reaches its
   * grey default for a status the classifier produced.
   */
  lemma ColoursSeparateBands(b: Band, c: Band)
    ensures b != c ==> StatusColor(BandName(b)) != StatusColor(BandName(c))
    ensures b != c ==> ProgressColor(BandName(b)) != ProgressColor(BandName(c))
    ensures StatusColor(BandName(b)) != UnknownStatusColor
    ensures ProgressColor(BandName(b)) != UnknownProgressColor
  {
  }

  /**
   * The full scale of the progress bar of each parameter. It coincides with
   * the top of that parameter's `poor` interval.
   */
  function ScaleMax(p: Parameter): (m: real)
    ensures m > 0.0
    ensures m == Ranges(p).poor.hi
  {
    match p
    case Ph => 14.0
    case Organic => 10.0
    case Nitrogen => 100.0
    case Phosphorus => 50.0
    case Potassium => 300.0
  }

  /** The progress-bar value of a reading: reading / scale * 100. */
  function ProgressValue(v: real, p: Parameter): (pct: real)
    ensures 0.0 <= v <= ScaleMax(p) ==> 0.0 <= pct <= 100.0
    ensures pct * ScaleMax(p) == v * 100.0
  {
    (v / ScaleMax(p)) * 100.0
  }

  /** The progress value is monotone in the reading. */
  lemma ProgressMonotone(v: real, w: real, p: Parameter)
    requires v <= w
    ensures ProgressValue(v, p) <= ProgressValue(w, p)
  {
  }

  /** The pH advice block is rendered when the pH status is not excellent. */
  function ShowsPhAdvice(s: SoilData): (shown: bool)
    ensures shown <==> s.ph < 6.5 || 7.5 < s.ph
  {
    SoilHealthStatus(s.ph, Ph) != Excellent
  }

  /** The organic-content advice block is rendered when its status is not excellent. */
  function ShowsOrganicAdvice(s: SoilData): (shown: bool)
    ensures shown <==> s.organicContent < 3.0 || 5.0 < s.organicContent
  {
    SoilHealthStatus(s.organicContent, Organic) != Excellent
  }

  /** Worked readings, including the inclusive edge at 8.5. */
  lemma ClassifierExamples()
    ensures SoilHealthStatus(7.0, Ph) == Excellent
    ensures SoilHealthStatus(6.2, Ph) == Good
    ensures SoilHealthStatus(5.7, Ph) == Moderate
    ensures SoilHealthStatus(2.0, Ph) == Poor
    ensures SoilHealthStatus(8.5, Ph) == Moderate && SoilHealthStatus(8.51, Ph) == Poor
    ensures SoilHealthStatus(-1.0, Nitrogen) == Poor && SoilHealthStatus(1000.0, Potassium) == Poor
  {
  }
}
