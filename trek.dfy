/** The stored trek record (the `treks` table row). */
module TrekData {
  import opened Options
  import opened Geo

  /**
   * One finished trek. The storage-assigned `id` is 0 until stored; the
   * route, stored as a JSON array of `[lat, lng]` pairs, is kept here as the
   * sequence of points it encodes.
   */
  datatype Trek = Trek(
    id: int,
    userUid: string,
    startTime: int,        // epoch millis
    endTime: int,          // epoch millis
    distanceKm: real,
    durationSeconds: int,
    avgSpeedMps: real,
    route: seq<GeoPoint>,
    isManualEntry: bool,
    startLocationName: Option<string>,
    endLocationName: Option<string>,
    startLat: Option<real>,
    startLng: Option<real>,
    endLat: Option<real>,
    endLng: Option<real>)

  /**
   * The average speed of a trek is consistent with its distance and
   * duration: metres per second when the duration is positive, 0 otherwise.
   */
  ghost predicate SpeedConsistent(t: Trek) {
    && (t.durationSeconds > 0 ==> t.avgSpeedMps * t.durationSeconds as real == t.distanceKm * 1000.0)
    && (t.durationSeconds <= 0 ==> t.avgSpeedMps == 0.0)
  }
}
