/**
 * The messages the bridge hands to the wearable's SDK: keyed dictionaries in
 * two shapes (the custom multi-slot app, the native sports app), and the
 * counter that decides how often the slot labels are resent.
 */
module Wearable {
  import opened Wrappers
  import opened Text
  import opened Reconciler
  import opened Telemetry
  import opened Formatting

  /** The application a message is addressed to: the native sports app or the configured alternative one. */
  datatype AppUuid = SportsUuid | Alternative(uuid: string)

  // Keys of the custom app's dictionary.
  const MSG_SET_VALUES: int := 0x1
  const MSG_SET_NAMES: int := 0x2
  const MSG_SET_CURRENTSTATE: int := 0x3
  const MSG_SET_DESIREDSTATE: int := 0x4

  /**
   * Keys of the sports app's dictionary. They are integer constants of the
   * wearable's SDK whose values this model does not fix: nothing here assumes
   * that they differ from the custom app's keys, and only where a property
   * needs it that they differ from each other (SportsKeysDistinct).
   */
  const SPORTS_TIME_KEY: int
  const SPORTS_DISTANCE_KEY: int
  const SPORTS_DATA_KEY: int
  const SPORTS_UNITS_KEY: int
  const SPORTS_LABEL_KEY: int

  /** Both shapes use one dictionary type with integer keys. */
  type Key = int

  /** The sports app's byte constants for the units and label fields. */
  datatype SportsCode = UnitsMetric | UnitsImperial | DataSpeed

  /** A dictionary value: addInt8, addUint8 or addString. */
  datatype Value = Int8(n: int) | Uint8(c: SportsCode) | Str(s: string)

  /** One call of sendDataToPebble. */
  datatype Message = Message(app: AppUuid, data: map<Key, Value>)

  /** The acknowledgement processCommand sends: both states as bytes. */
  function StatePayload(current: TrackingState, desired: TrackingState): (m: map<Key, Value>)
    ensures CustomShape(m)
    ensures m.Keys == {MSG_SET_CURRENTSTATE, MSG_SET_DESIREDSTATE}
    ensures m[MSG_SET_CURRENTSTATE] == m[MSG_SET_DESIREDSTATE] <==> current == desired
  {
    map[MSG_SET_CURRENTSTATE := Int8(current.Code()), MSG_SET_DESIREDSTATE := Int8(desired.Code())]
  }

  /** The custom app's telemetry message, with the labels when they are due. */
  function CustomPayload(values: string, names: Option<string>, current: TrackingState, desired: TrackingState): (m: map<Key, Value>)
    ensures CustomShape(m)
    ensures var ack := StatePayload(current, desired); forall k :: k in ack ==> k in m && m[k] == ack[k]
    ensures MSG_SET_NAMES in m <==> names.Some?
  {
    var labelled: map<Key, Value> := if names.Some? then map[MSG_SET_NAMES := Str(names.value)] else map[];
    labelled[MSG_SET_VALUES := Str(values)] + StatePayload(current, desired)
  }

  /** The sports app's telemetry message: elapsed time, units, label, distance and speed. */
  function SportsPayload(d: SportsData, metric: bool, r: Renderer): (m: map<Key, Value>)
    ensures SportsShape(m)
    ensures m.Keys == {SPORTS_TIME_KEY, SPORTS_UNITS_KEY, SPORTS_LABEL_KEY, SPORTS_DISTANCE_KEY, SPORTS_DATA_KEY}
  {
    // Added in the order of the source; a later key that coincides with an
    // earlier one overwrites it, as a dictionary does.
    var distance := SportsDistance(d, metric);
    map[SPORTS_TIME_KEY := Str(ClockText(SportsClock(d.totalTime))),
        SPORTS_UNITS_KEY := Uint8(if metric then UnitsMetric else UnitsImperial),
        SPORTS_LABEL_KEY := Uint8(DataSpeed),
        SPORTS_DISTANCE_KEY := Str(r.decimal(distance, SportsDistancePlaces(distance))),
        SPORTS_DATA_KEY := Str(r.decimal(d.speed * SpeedFactor(metric), 1))]
  }

  /** Only the custom app's four keys. */
  predicate CustomShape(m: map<Key, Value>)
  {
    m.Keys <= {MSG_SET_VALUES, MSG_SET_NAMES, MSG_SET_CURRENTSTATE, MSG_SET_DESIREDSTATE}
  }

  /** Only the sports app's five keys. */
  predicate SportsShape(m: map<Key, Value>)
  {
    m.Keys <= {SPORTS_TIME_KEY, SPORTS_UNITS_KEY, SPORTS_LABEL_KEY, SPORTS_DISTANCE_KEY, SPORTS_DATA_KEY}
  }

  /** The five sports keys are pairwise different, as the SDK defines them. */
  predicate SportsKeysDistinct()
  {
    |{SPORTS_TIME_KEY, SPORTS_UNITS_KEY, SPORTS_LABEL_KEY, SPORTS_DISTANCE_KEY, SPORTS_DATA_KEY}| == 5
  }

  /**
   * One connected dispatch of the custom app: the labels go along exactly
   * when the counter is positive, and the counter then drops by one.
   */
  function Dispatch(counter: int): (step: Step)
    ensures step.includeNames <==> counter > 0
    ensures counter - 1 <= step.next <= counter
    ensures step.next < counter <==> step.includeNames
  {
    if counter > 0 then Step(true, counter - 1) else Step(false, counter)
  }

  /** What one dispatch does with the counter. */
  datatype Step = Step(includeNames: bool, next: int)

  /** The counter after k connected dispatches. */
  function CounterAfter(counter: int, k: nat): int
    decreases k
  {
    if k == 0 then counter else Dispatch(CounterAfter(counter, k - 1)).next
  }

  // ---- Properties ----

  /**
   * With pairwise different sports keys, the sports message holds five
   * entries and each key carries the value the source adds under it. The
   * speed, added last, is there whatever the keys are.
   */
  lemma SportsPayloadContents(d: SportsData, metric: bool, r: Renderer)
    ensures var m := SportsPayload(d, metric, r);
      m[SPORTS_DATA_KEY] == Str(r.decimal(d.speed * SpeedFactor(metric), 1))
    ensures SportsKeysDistinct() ==>
      var m := SportsPayload(d, metric, r);
      var distance := SportsDistance(d, metric);
      && m[SPORTS_TIME_KEY] == Str(ClockText(SportsClock(d.totalTime)))
      && m[SPORTS_UNITS_KEY] == Uint8(if metric then UnitsMetric else UnitsImperial)
      && m[SPORTS_LABEL_KEY] == Uint8(DataSpeed)
      && m[SPORTS_DISTANCE_KEY] == Str(r.decimal(distance, SportsDistancePlaces(distance)))
      && |m.Keys| == 5
  {
    var m := SportsPayload(d, metric, r);
    if SportsKeysDistinct() {
      assert m.Keys == {SPORTS_TIME_KEY, SPORTS_UNITS_KEY, SPORTS_LABEL_KEY, SPORTS_DISTANCE_KEY, SPORTS_DATA_KEY};
    }
  }

  /**
   * The custom message carries the values, both state codes, and the labels
   * exactly when they are given.
   */
  lemma CustomPayloadContents(values: string, names: Option<string>, current: TrackingState, desired: TrackingState)
    ensures var m := CustomPayload(values, names, current, desired);
      && m[MSG_SET_VALUES] == Str(values)
      && m[MSG_SET_CURRENTSTATE] == Int8(current.Code())
      && m[MSG_SET_DESIREDSTATE] == Int8(desired.Code())
      && (MSG_SET_NAMES in m <==> names.Some?)
      && (names.Some? ==> m[MSG_SET_NAMES] == Str(names.value))
      && |m.Keys| == (if names.Some? then 4 else 3)
  {
    var m := CustomPayload(values, names, current, desired);
    if names.Some? {
      assert m.Keys == {MSG_SET_NAMES, MSG_SET_VALUES, MSG_SET_CURRENTSTATE, MSG_SET_DESIREDSTATE};
    } else {
      assert m.Keys == {MSG_SET_VALUES, MSG_SET_CURRENTSTATE, MSG_SET_DESIREDSTATE};
    }
  }

  /**
   * The sports message's elapsed time reads back as hours, minutes and
   * seconds (or minutes and seconds below an hour) that add up to the whole
   * seconds of a non-negative total time.
   */
  lemma SportsTimeReadsBack(d: SportsData, metric: bool, r: Renderer)
    requires SportsKeysDistinct()
    requires d.totalTime >= 0
    ensures var text := SportsPayload(d, metric, r)[SPORTS_TIME_KEY].s;
      var parts := Split(text, ':');
      var t := d.totalTime / 1000;
      && (forall i :: 0 <= i < |parts| ==> AllDigits(parts[i]))
      && (t >= 3600 ==> |parts| == 3 && 3600 * ParseNat(parts[0]) + 60 * ParseNat(parts[1]) + ParseNat(parts[2]) == t)
      && (t < 3600 ==> |parts| == 2 && 60 * ParseNat(parts[0]) + ParseNat(parts[1]) == t)
  {
    SportsPayloadContents(d, metric, r);
    ClockTextRoundTrip(SportsClock(d.totalTime));
  }

  /** From a non-negative counter c, k dispatches leave max(c - k, 0). */
  lemma {:induction false} CounterAfterValue(c: int, k: nat)
    requires c >= 0
    ensures CounterAfter(c, k) == if k <= c then c - k else 0
    decreases k
  {
    if k > 0 {
      CounterAfterValue(c, k - 1);
    }
  }

  /**
   * The resend schedule: after the counter is set to c, dispatch number k
   * (counting from 0) carries the labels exactly when k < c; the counter
   * never goes below 0. With c = 5, the first five carry them and the sixth
   * onward do not.
   */
  lemma ResendSchedule(c: int, k: nat)
    requires c >= 0
    ensures Dispatch(CounterAfter(c, k)).includeNames <==> k < c
    ensures CounterAfter(c, k) >= 0
  {
    CounterAfterValue(c, k);
  }
}
