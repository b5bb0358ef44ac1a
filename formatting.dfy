/**
 * How one telemetry value is rendered on the wearable: the unit factors,
 * the precision tiers of distances and elevation, and the exact
 * integer arithmetic of durations. Decimal rendering of a real ("%.1f" and
 * its kin) is left to a Renderer supplied by the caller.
 */
module Formatting {
  import opened Text
  import opened Telemetry

  /** What a display slot shows (MyAppSettings.ParameterType; NOTHING is NoValue). */
  datatype ParameterType =
    | Speed | Distance | AvgSpeed | AvgMovingSpeed
    | TotalMovingTime | TotalTimeFromStart | TotalTime
    | NoValue | DistanceToStart | ElevationGain

  /** Positive numbers, for the slot count. */
  type Positive = n: int | n > 0 witness 1

  /** The number of display slots (MyAppSettings.numFields); only its positivity is known here. */
  const NumFields: Positive

  // Unit conversion factors.
  const MPS_TO_KMH: real := 3.6
  const MPS_TO_MPH: real := 2.23694
  const M_TO_KM: real := 0.001
  const M_TO_MILE: real := 1.0 / 1609.344
  const M_TO_FEET: real := 3.28084
  const KM_TO_MILES: real := 1000.0 / 1609.344

  /** Java's `/` on longs, truncating toward zero. */
  function JavaDiv(a: int, b: int): (q: int)
    requires b > 0
    ensures a >= 0 ==> b * q <= a < b * q + b
    ensures a < 0 ==> b * q - b < a <= b * q
  {
    if a >= 0 then a / b else -((-a) / b)
  }

  /** Java's `%` on longs: the remainder takes the sign of the dividend. */
  function JavaRem(a: int, b: int): (r: int)
    requires b > 0
    ensures a == b * JavaDiv(a, b) + r
    ensures a >= 0 ==> 0 <= r < b
    ensures a < 0 ==> -b < r <= 0
  {
    a - b * JavaDiv(a, b)
  }

  /** Whole seconds in a duration of ms milliseconds. */
  function Seconds(ms: int): int
  {
    JavaDiv(ms, 1000)
  }

  /**
   * The clock fields of a duration on the custom app. Past 3599 s: whole
   * hours and the minutes in [0, 59] of the rest. Otherwise: minutes and
   * seconds that add up to the whole seconds, both in [0, 59] for a
   * non-negative duration and both non-positive for a negative one.
   */
  function CustomClock(ms: int): (fields: seq<int>)
    ensures |fields| == 2
    ensures var t := Seconds(ms);
      if t > 3599 then
        fields[0] >= 1 && 0 <= fields[1] < 60 && 3600 * fields[0] + 60 * fields[1] <= t < 3600 * fields[0] + 60 * fields[1] + 60
      else
        && 60 * fields[0] + fields[1] == t
        && (t >= 0 ==> 0 <= fields[0] < 60 && 0 <= fields[1] < 60)
        && (t < 0 ==> fields[0] <= 0 && -60 < fields[1] <= 0)
  {
    var t := Seconds(ms);
    if t > 3599 then [JavaDiv(t, 3600), JavaDiv(JavaRem(t, 3600), 60)]
    else [JavaDiv(t, 60), JavaRem(t, 60)]
  }

  /**
   * The clock fields of the elapsed time on the sports app: past 3599 s
   * hours, minutes and seconds, otherwise minutes and seconds; in both
   * forms the fields add up to the whole seconds of the duration.
   */
  function SportsClock(ms: int): (fields: seq<int>)
    ensures var t := Seconds(ms);
      if t > 3599 then
        |fields| == 3 && fields[0] >= 1 && 0 <= fields[1] < 60 && 0 <= fields[2] < 60
        && 3600 * fields[0] + 60 * fields[1] + fields[2] == t
      else
        && |fields| == 2 && 60 * fields[0] + fields[1] == t
        && (t >= 0 ==> 0 <= fields[0] < 60 && 0 <= fields[1] < 60)
        && (t < 0 ==> fields[0] <= 0 && -60 < fields[1] <= 0)
  {
    var t := Seconds(ms);
    if t > 3599 then [JavaDiv(t, 3600), JavaDiv(JavaRem(t, 3600), 60), JavaRem(t, 60)]
    else [JavaDiv(t, 60), JavaRem(t, 60)]
  }

  /** The texts of the clock fields, each as "%02d". */
  function PaddedFields(fields: seq<int>): (ts: seq<string>)
    ensures |ts| == |fields|
  {
    seq(|fields|, i requires 0 <= i < |fields| => Pad2(fields[i]))
  }

  /** Clock fields joined by ':'. */
  function ClockText(fields: seq<int>): string
  {
    Join(PaddedFields(fields), ':')
  }

  /** The precision of a converted distance on the custom app. */
  function DistancePlaces(v: real): nat
  {
    if v > 100.0 then 0 else 1
  }

  /** The precision of the converted total distance on the sports app. */
  function SportsDistancePlaces(v: real): nat
  {
    if v > 100.0 then 0 else if v > 10.0 then 1 else 2
  }

  /** A rendered slot: a real with a number of decimals, clock fields, or the placeholder "-". */
  datatype Rendering = Decimal(value: real, places: nat) | Clock(fields: seq<int>) | Placeholder

  /** The converted elevation gain, compacted to thousands with 2 decimals above 1000. */
  function ElevationRendering(e: real): Rendering
  {
    if e > 1000.0 then Decimal(e / 1000.0, 2) else Decimal(e, 0)
  }

  function SpeedFactor(metric: bool): real
  {
    if metric then MPS_TO_KMH else MPS_TO_MPH
  }

  function DistanceFactor(metric: bool): real
  {
    if metric then M_TO_KM else M_TO_MILE
  }

  /** One slot of the custom app, as the switch of updateMyApp renders it. */
  function SlotRendering(t: ParameterType, d: SportsData, metric: bool): Rendering
  {
    match t
    case Speed => Decimal(d.speed * SpeedFactor(metric), 1)
    case Distance =>
      var v := d.distance * DistanceFactor(metric);
      Decimal(v, DistancePlaces(v))
    case AvgSpeed => Decimal(d.avgSpeed * SpeedFactor(metric), 1)
    case AvgMovingSpeed => Decimal(d.avgMovingSpeed * SpeedFactor(metric), 1)
    case TotalMovingTime => Clock(CustomClock(d.totalMovingTime))
    case TotalTimeFromStart => Clock(CustomClock(d.totalTimeFromStart))
    case TotalTime => Clock(CustomClock(d.totalTime))
    case NoValue => Placeholder
    case DistanceToStart =>
      var v := d.distanceToStart * DistanceFactor(metric);
      Decimal(v, DistancePlaces(v))
    case ElevationGain => ElevationRendering(d.elevationGain * (if metric then 1.0 else M_TO_FEET))
  }

  /**
   * The text services the model does not define: String.format of a real
   * with a given number of decimals, and the label of a parameter type
   * (ParameterType.getPebbleString).
   */
  datatype Renderer = Renderer(decimal: (real, nat) -> string, pebbleName: ParameterType -> string)

  /** No text the renderer produces contains the slot separator ';'. */
  ghost predicate SeparatorFree(r: Renderer)
  {
    && (forall v: real, p: nat :: ';' !in r.decimal(v, p))
    && (forall t: ParameterType :: ';' !in r.pebbleName(t))
  }

  /** The text of a rendered slot. */
  function RenderText(x: Rendering, r: Renderer): string
  {
    match x
    case Decimal(v, p) => r.decimal(v, p)
    case Clock(fields) => ClockText(fields)
    case Placeholder => "-"
  }

  /** The value tokens of the custom app, one per slot in slot order. */
  function SlotTexts(slots: seq<ParameterType>, d: SportsData, metric: bool, r: Renderer): (ts: seq<string>)
    ensures |ts| == |slots|
  {
    seq(|slots|, i requires 0 <= i < |slots| => RenderText(SlotRendering(slots[i], d, metric), r))
  }

  /** The label tokens of the custom app, one per slot in slot order. */
  function SlotLabels(slots: seq<ParameterType>, r: Renderer): (ts: seq<string>)
    ensures |ts| == |slots|
  {
    seq(|slots|, i requires 0 <= i < |slots| => r.pebbleName(slots[i]))
  }

  /** The sports app's total distance, in km or miles. */
  function SportsDistance(d: SportsData, metric: bool): real
  {
    var km := d.distance * M_TO_KM;
    if metric then km else km * KM_TO_MILES
  }

  // ---- Properties ----

  /** The clock text reads back, field by field, as the clock fields. */
  lemma ClockTextRoundTrip(fields: seq<int>)
    requires |fields| >= 1
    requires forall i :: 0 <= i < |fields| ==> fields[i] >= 0
    ensures |Split(ClockText(fields), ':')| == |fields|
    ensures forall i :: 0 <= i < |fields| ==>
      AllDigits(Split(ClockText(fields), ':')[i]) && ParseNat(Split(ClockText(fields), ':')[i]) == fields[i]
  {
    var ts := PaddedFields(fields);
    SplitJoin(ts, ':');
    forall i | 0 <= i < |fields|
      ensures AllDigits(ts[i]) && ParseNat(ts[i]) == fields[i]
    {
      Pad2RoundTrip(fields[i]);
    }
  }

  /** The boundary of the two clock forms: 3599000 ms is 59:59, 3600000 ms is 01:00 in hours. */
  lemma ClockBoundary()
    ensures CustomClock(3599000) == [59, 59]
    ensures CustomClock(3600000) == [1, 0]
    ensures SportsClock(3600000) == [1, 0, 0]
  {
  }

  /** 5000000 ms is past the hour, so it reads 01:23 (hours:minutes). */
  lemma ClockExample()
    ensures ClockText(CustomClock(5000000)) == "01:23"
  {
    assert CustomClock(5000000) == [1, 23];
    assert Digits(1) == "1" && Digits(2) == "2" && Digits(3) == "3";
    assert Digits(23) == Digits(2) + [DigitChar(3)] == "23";
    assert Pad2(1) == "01" && Pad2(23) == "23";
    assert PaddedFields([1, 23]) == ["01", "23"];
  }

  /**
   * The custom app's two tiers: a converted distance above 100 gets no
   * decimals, anything else (100.0 included) one; a larger distance never
   * gets more decimals.
   */
  lemma DistanceTiers(v: real, w: real)
    ensures v <= w ==> DistancePlaces(w) <= DistancePlaces(v)
    ensures DistancePlaces(v) == 0 <==> v > 100.0
    ensures DistancePlaces(v) == 1 <==> v <= 100.0
    ensures DistancePlaces(100.0) == 1
  {
  }

  /** The sports app's three tiers never give a larger distance more decimals. */
  lemma SportsDistanceTiers(v: real, w: real)
    ensures v <= w ==> SportsDistancePlaces(w) <= SportsDistancePlaces(v)
    ensures SportsDistancePlaces(v) <= 2
    ensures SportsDistancePlaces(v) == 0 <==> v > 100.0
    ensures SportsDistancePlaces(v) == 2 <==> v <= 10.0
  {
  }

  /**
   * Elevation compaction: the shown value times its scale (1000 with two
   * decimals, 1 with none) is the elevation, and a compact value exceeds 1.
   */
  lemma ElevationScale(e: real)
    ensures ElevationRendering(e).Decimal?
    ensures ElevationRendering(e).places == 2 <==> e > 1000.0
    ensures ElevationRendering(e).places == 2 ==> ElevationRendering(e).value * 1000.0 == e && ElevationRendering(e).value > 1.0
    ensures ElevationRendering(e).places == 0 ==> ElevationRendering(e).value == e
    ensures ElevationRendering(e).places == 0 || ElevationRendering(e).places == 2
  {
  }

  /**
   * The kinds of slot the switch produces: the placeholder exactly for
   * NOTHING, a two-field clock exactly for the three durations, one decimal
   * for the three speeds and at most one for the two distances.
   */
  lemma SlotKinds(t: ParameterType, d: SportsData, metric: bool)
    ensures SlotRendering(t, d, metric).Placeholder? <==> t == NoValue
    ensures SlotRendering(t, d, metric).Clock? <==> t == TotalMovingTime || t == TotalTimeFromStart || t == TotalTime
    ensures SlotRendering(t, d, metric).Clock? ==> |SlotRendering(t, d, metric).fields| == 2
    ensures t == Speed || t == AvgSpeed || t == AvgMovingSpeed ==>
      SlotRendering(t, d, metric).Decimal? && SlotRendering(t, d, metric).places == 1
    ensures t == Distance || t == DistanceToStart ==>
      SlotRendering(t, d, metric).Decimal? && SlotRendering(t, d, metric).places <= 1
  {
  }

  /** Examples of slot renderings: 5.0 m/s is 18.0 km/h; 150000 m is 150 km; NOTHING is "-". */
  lemma SlotExamples(d: SportsData, r: Renderer)
    ensures d.speed == 5.0 ==> SlotRendering(Speed, d, true) == Decimal(18.0, 1)
    ensures d.distance == 150000.0 ==> SlotRendering(Distance, d, true) == Decimal(150.0, 0)
    ensures RenderText(SlotRendering(NoValue, d, true), r) == "-"
  {
  }

  /** Java's `%02d` text of clock fields never contains ';'. */
  lemma ClockTextAvoidsSeparator(fields: seq<int>)
    ensures ';' !in ClockText(fields)
  {
    var ts := PaddedFields(fields);
    forall i | 0 <= i < |ts| ensures ';' !in ts[i] {
      assert ts[i] == Pad2(fields[i]);
    }
    JoinAvoids(ts, ':', ';');
  }

  /**
   * The custom payload has one value token and one label token per slot:
   * splitting the joined strings on ';' gives back exactly the slot tokens,
   * in slot order, provided the renderer keeps ';' out of its texts.
   */
  lemma CustomTokens(slots: seq<ParameterType>, d: SportsData, metric: bool, r: Renderer)
    requires |slots| >= 1 && SeparatorFree(r)
    ensures Split(Join(SlotTexts(slots, d, metric, r), ';'), ';') == SlotTexts(slots, d, metric, r)
    ensures Split(Join(SlotLabels(slots, r), ';'), ';') == SlotLabels(slots, r)
    ensures |Split(Join(SlotTexts(slots, d, metric, r), ';'), ';')| == |Split(Join(SlotLabels(slots, r), ';'), ';')| == |slots|
  {
    var ts := SlotTexts(slots, d, metric, r);
    forall i | 0 <= i < |ts| ensures ';' !in ts[i] {
      var x := SlotRendering(slots[i], d, metric);
      if x.Clock? {
        ClockTextAvoidsSeparator(x.fields);
      }
    }
    SplitJoin(ts, ';');
    SplitJoin(SlotLabels(slots, r), ';');
  }
}
