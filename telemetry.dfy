/**
 * The telemetry snapshot (the bridge's SportsData holder) and the two ways it
 * is filled from the tracking service's content provider: priming the
 * odometer once at start-up and refreshing the snapshot on every tick.
 */
module Telemetry {
  import opened Wrappers

  /** A location fix; time in epoch milliseconds, speed in m/s. */
  datatype Location = Location(time: int, hasSpeed: bool, speed: real, altitude: real, bearing: real)

  /** A track's statistics; times in milliseconds, distances in meters, speeds in m/s. */
  datatype TripStatistics = TripStatistics(
    startTime: int, stopTime: int, maxElevation: real,
    averageMovingSpeed: real, averageSpeed: real,
    movingTime: int, totalTime: int,
    totalDistance: real, totalElevationGain: real)

  datatype Track = Track(id: int, statistics: TripStatistics)

  /**
   * What the content provider answers at the moment of a call: the last valid
   * fix, the last track, the first valid fix of a track, and all tracks.
   * None stands for a null answer.
   */
  datatype ProviderData = ProviderData(
    lastValidTrackPoint: Option<Location>,
    lastTrack: Option<Track>,
    firstValidTrackPoint: int -> Option<Location>,
    allTracks: seq<Track>)

  /**
   * The snapshot the bridge keeps between ticks. `elevationGain` is the one
   * value behind both the total-elevation setter and the elevation-gain getter.
   */
  datatype SportsData = SportsData(
    odometer: real, fakeStartTime: int,
    distanceToStart: real, altitude: real,
    startTime: int, stopTime: int, maxAltitude: real,
    avgMovingSpeed: real, avgSpeed: real, bearing: real,
    totalMovingTime: int, totalTime: int, totalTimeFromStart: int,
    distance: real, elevationGain: real,
    speed: real, locationTime: int)

  /** A fresh snapshot: every field at its zero default. */
  const EmptySportsData: SportsData :=
    SportsData(0.0, 0, 0.0, 0.0, 0, 0, 0.0, 0.0, 0.0, 0.0, 0, 0, 0, 0.0, 0.0, 0.0, 0)

  /**
   * A fix's speed is shown only if it comes less than this many milliseconds
   * after the fix time stored by the last refresh that had a fix (0 before any).
   */
  const SPEED_WINDOW_MS: int := 10000

  /** The gated speed of a fix, given the stored time of the last fix a refresh saw. */
  function GatedSpeed(fix: Location, previousTime: int): (speed: real)
    ensures speed == 0.0 || speed == fix.speed
    ensures fix.time - previousTime >= SPEED_WINDOW_MS ==> speed == 0.0
    ensures !fix.hasSpeed ==> speed == 0.0
    ensures fix.hasSpeed && fix.time - previousTime < SPEED_WINDOW_MS ==> speed == fix.speed
  {
    if fix.time - SPEED_WINDOW_MS < previousTime && fix.hasSpeed then fix.speed else 0.0
  }

  /** The total distance of the tracks, summed front to back. */
  function SumDistance(tracks: seq<Track>): (total: real)
    ensures (forall k :: 0 <= k < |tracks| ==> tracks[k].statistics.totalDistance >= 0.0) ==> total >= 0.0
    decreases |tracks|
  {
    if tracks == [] then 0.0
    else SumDistance(tracks[..|tracks| - 1]) + tracks[|tracks| - 1].statistics.totalDistance
  }

  /** The total distance of two runs of tracks is the sum of their totals. */
  lemma {:induction false} SumDistanceAppend(a: seq<Track>, b: seq<Track>)
    ensures SumDistance(a + b) == SumDistance(a) + SumDistance(b)
    decreases |b|
  {
    if b == [] {
      assert a + b == a;
    } else {
      var b' := b[..|b| - 1];
      assert (a + b)[..|a + b| - 1] == a + b';
      SumDistanceAppend(a, b');
    }
  }

  /** With no negative track distance, the running total never decreases. */
  lemma {:induction false} SumDistanceMonotone(tracks: seq<Track>, i: nat, j: nat)
    requires i <= j <= |tracks|
    requires forall k :: 0 <= k < |tracks| ==> tracks[k].statistics.totalDistance >= 0.0
    ensures SumDistance(tracks[..i]) <= SumDistance(tracks[..j])
    decreases j - i
  {
    if i < j {
      SumDistanceMonotone(tracks, i, j - 1);
      assert tracks[..j][..j - 1] == tracks[..j - 1];
    }
  }

  /**
   * initSportsData's effect on the snapshot: nothing if there is no last
   * track (the call dereferences it); otherwise the fake start time is taken
   * from it and, when there is at least one track, the odometer becomes the
   * total distance of all tracks.
   */
  function Primed(d: SportsData, p: ProviderData): (primed: SportsData)
    ensures primed.(odometer := d.odometer, fakeStartTime := d.fakeStartTime) == d
    ensures p.lastTrack.Some? ==> primed.fakeStartTime == p.lastTrack.value.statistics.startTime
    ensures p.lastTrack.None? ==> primed == d
  {
    match p.lastTrack
    case None => d
    case Some(last) =>
      var started := d.(fakeStartTime := last.statistics.startTime);
      if p.allTracks == [] then started else started.(odometer := SumDistance(p.allTracks))
  }

  /**
   * updateSportsData's effect on the snapshot, with `now` the wall clock and
   * `distanceTo` the geodesic distance between two fixes. A null last track
   * changes nothing; a null last fix changes at most the distance to start,
   * which is reset before the fix is first dereferenced.
   */
  function Refresh(d: SportsData, p: ProviderData, now: int, distanceTo: (Location, Location) -> real): (next: SportsData)
    ensures next.odometer == d.odometer && next.fakeStartTime == d.fakeStartTime
    ensures p.lastTrack.Some? && p.lastValidTrackPoint.Some? ==> next.locationTime == p.lastValidTrackPoint.value.time
    ensures p.lastTrack.None? ==> next == d
  {
    match p.lastTrack
    case None => d
    case Some(track) =>
      var start := p.firstValidTrackPoint(track.id);
      match p.lastValidTrackPoint
      case None => if start.None? then d.(distanceToStart := 0.0) else d
      case Some(fix) =>
        var s := track.statistics;
        d.(distanceToStart := if start.Some? then distanceTo(fix, start.value) else 0.0,
           altitude := fix.altitude,
           startTime := s.startTime,
           stopTime := s.stopTime,
           maxAltitude := s.maxElevation,
           avgMovingSpeed := s.averageMovingSpeed,
           avgSpeed := s.averageSpeed,
           bearing := fix.bearing,
           totalMovingTime := s.movingTime,
           totalTime := s.totalTime,
           totalTimeFromStart := now - s.startTime,
           distance := s.totalDistance,
           elevationGain := s.totalElevationGain,
           speed := GatedSpeed(fix, d.locationTime),
           locationTime := fix.time)
  }

  // ---- Properties ----

  /** Priming with at least one track sets the odometer to the sum over all tracks. */
  lemma PrimedOdometer(d: SportsData, p: ProviderData)
    ensures p.lastTrack.Some? && p.allTracks != [] ==> Primed(d, p).odometer == SumDistance(p.allTracks)
    ensures p.lastTrack.None? || p.allTracks == [] ==> Primed(d, p).odometer == d.odometer
  {
  }

  /**
   * A refresh with a fix reports the speed gated against the stored fix
   * time, so a fix that comes 10 s or more after it shows speed 0.
   */
  lemma RefreshGatesSpeed(d: SportsData, p: ProviderData, now: int, distanceTo: (Location, Location) -> real)
    requires p.lastTrack.Some? && p.lastValidTrackPoint.Some?
    ensures var fix := p.lastValidTrackPoint.value;
      && Refresh(d, p, now, distanceTo).speed == GatedSpeed(fix, d.locationTime)
      && (fix.time - d.locationTime >= SPEED_WINDOW_MS ==> Refresh(d, p, now, distanceTo).speed == 0.0)
  {
  }

  /** Two refreshes on the same fix: the second one compares the fix with itself and keeps its speed. */
  lemma RefreshSameFixTwice(d: SportsData, p: ProviderData, now: int, distanceTo: (Location, Location) -> real)
    requires p.lastTrack.Some? && p.lastValidTrackPoint.Some?
    ensures var fix := p.lastValidTrackPoint.value;
      Refresh(Refresh(d, p, now, distanceTo), p, now, distanceTo).speed == (if fix.hasSpeed then fix.speed else 0.0)
  {
  }

  /**
   * Missing data: without a fix only the distance to start may change, and
   * only to 0.
   */
  lemma RefreshMissingData(d: SportsData, p: ProviderData, now: int, distanceTo: (Location, Location) -> real)
    ensures p.lastValidTrackPoint.None? ==>
      Refresh(d, p, now, distanceTo) == d || Refresh(d, p, now, distanceTo) == d.(distanceToStart := 0.0)
  {
  }
}
