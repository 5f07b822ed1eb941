/**
 * The water-quality threshold classifier: a constant table of inclusive
 * `safe` and `caution` bands for five parameters, and `getColorClass`,
 * which labels one parsed value with the CSS class of its tier.
 */
module Standards {
  import opened Wrappers

  /** An inclusive numeric range: `v` lies in it when `min <= v <= max`. */
  datatype Band = Band(min: real, max: real)

  /** The bands of one parameter; a value outside both is unsafe. */
  datatype Standard = Standard(safe: Band, caution: Band)

  /** The standards table, keyed by the parameter names its callers pass. */
  const WaterQualityStandards: map<string, Standard> := map[
    "temperature"     := Standard(Band(10.0, 25.0), Band(5.0, 30.0)),
    "dissolvedOxygen" := Standard(Band(6.0, 14.0), Band(4.0, 6.0)),
    "pH"              := Standard(Band(6.5, 8.5), Band(6.0, 9.0)),
    "conductivity"    := Standard(Band(0.0, 300.0), Band(300.0, 500.0)),
    "bod"             := Standard(Band(0.0, 3.0), Band(3.0, 6.0))
  ]

  /** The result of `parseFloat`: `None` is NaN, which fails every comparison. */
  type Number = Option<real>

  /** Both inclusive comparisons of the source succeed; never true of NaN. */
  predicate InBand(v: Number, b: Band)
  {
    v.Some? && b.min <= v.value && v.value <= b.max
  }

  /**
   * The CSS class of a value: empty for an unknown parameter, otherwise
   * exactly one of the three tiers, the safe band taking precedence over
   * the caution band where the two share an endpoint.
   */
  function GetColorClass(parameter: string, value: Number): (r: string)
    ensures r == "" <==> parameter !in WaterQualityStandards
    ensures parameter in WaterQualityStandards ==> r in {"safe", "caution", "unsafe"}
    ensures parameter in WaterQualityStandards ==>
      var s := WaterQualityStandards[parameter];
      && (r == "safe" <==> InBand(value, s.safe))
      && (r == "caution" <==> !InBand(value, s.safe) && InBand(value, s.caution))
      && (r == "unsafe" <==> !InBand(value, s.safe) && !InBand(value, s.caution))
  {
    if parameter !in WaterQualityStandards then ""
    else
      var s := WaterQualityStandards[parameter];
      if InBand(value, s.safe) then "safe"
      else if InBand(value, s.caution) then "caution"
      else "unsafe"
  }

  /** NaN fails every comparison, so it falls through to `unsafe`. */
  lemma NaNIsUnsafe(parameter: string)
    requires parameter in WaterQualityStandards
    ensures GetColorClass(parameter, None) == "unsafe"
  {
  }

  /** Temperature: caution on both sides of the safe band. */
  lemma TemperatureClasses(v: real)
    ensures GetColorClass("temperature", Some(v)) == "safe" <==> 10.0 <= v <= 25.0
    ensures GetColorClass("temperature", Some(v)) == "caution" <==>
      (5.0 <= v < 10.0 || 25.0 < v <= 30.0)
    ensures GetColorClass("temperature", Some(v)) == "unsafe" <==> (v < 5.0 || 30.0 < v)
  {
  }

  /**
   * Dissolved oxygen: the shared endpoint 6 is safe, so caution is the
   * half-open [4, 6); above 14 mg/L is unsafe as well as below 4.
   */
  lemma DissolvedOxygenClasses(v: real)
    ensures GetColorClass("dissolvedOxygen", Some(v)) == "safe" <==> 6.0 <= v <= 14.0
    ensures GetColorClass("dissolvedOxygen", Some(v)) == "caution" <==> 4.0 <= v < 6.0
    ensures GetColorClass("dissolvedOxygen", Some(v)) == "unsafe" <==> (v < 4.0 || 14.0 < v)
  {
  }

  /** pH: caution on both sides of the safe band. */
  lemma PHClasses(v: real)
    ensures GetColorClass("pH", Some(v)) == "safe" <==> 6.5 <= v <= 8.5
    ensures GetColorClass("pH", Some(v)) == "caution" <==> (6.0 <= v < 6.5 || 8.5 < v <= 9.0)
    ensures GetColorClass("pH", Some(v)) == "unsafe" <==> (v < 6.0 || 9.0 < v)
  {
  }

  /**
   * Conductivity: the shared endpoint 300 is safe, caution is (300, 500];
   * a negative reading is unsafe.
   */
  lemma ConductivityClasses(v: real)
    ensures GetColorClass("conductivity", Some(v)) == "safe" <==> 0.0 <= v <= 300.0
    ensures GetColorClass("conductivity", Some(v)) == "caution" <==> 300.0 < v <= 500.0
    ensures GetColorClass("conductivity", Some(v)) == "unsafe" <==> (v < 0.0 || 500.0 < v)
  {
  }

  /** BOD: the shared endpoint 3 is safe, caution is (3, 6]. */
  lemma BodClasses(v: real)
    ensures GetColorClass("bod", Some(v)) == "safe" <==> 0.0 <= v <= 3.0
    ensures GetColorClass("bod", Some(v)) == "caution" <==> 3.0 < v <= 6.0
    ensures GetColorClass("bod", Some(v)) == "unsafe" <==> (v < 0.0 || 6.0 < v)
  {
  }

  /** Boundary and interior examples of the inclusive bands. */
  lemma ClassifierExamples()
    ensures GetColorClass("temperature", Some(25.0)) == "safe"
    ensures GetColorClass("temperature", Some(25.01)) == "caution"
    ensures GetColorClass("dissolvedOxygen", Some(6.0)) == "safe"
    ensures GetColorClass("dissolvedOxygen", Some(5.0)) == "caution"
    ensures GetColorClass("dissolvedOxygen", Some(3.0)) == "unsafe"
    ensures GetColorClass("conductivity", Some(300.0)) == "safe"
    ensures GetColorClass("bod", Some(3.0)) == "safe"
    ensures GetColorClass("Temperature", Some(20.0)) == ""
  {
  }
}
