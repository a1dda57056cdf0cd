/**
 * The trek recording session (`TrekViewModel`): a tracking flag, the route
 * points in arrival order, the accumulated distance, the last reported
 * speed and the elapsed-seconds counter driven by a once-a-second timer,
 * plus the building of the records handed to the trek repository.
 *
 * Clock readings are `now` parameters. Every record handed to the
 * repository is appended to the ghost log `saved`.
 */
module Tracking {
  import opened Options
  import opened Geo
  import opened TrekData

  /** Average speed in m/s from kilometres and seconds, 0 for no positive duration. */
  function AvgSpeed(distanceKm: real, durationSeconds: int): (r: real)
    ensures durationSeconds > 0 ==> r * durationSeconds as real == distanceKm * 1000.0
    ensures durationSeconds <= 0 ==> r == 0.0
    ensures distanceKm >= 0.0 ==> r >= 0.0
  {
    if durationSeconds > 0 then (distanceKm * 1000.0) / durationSeconds as real else 0.0
  }

  /**
   * The record of a recorded trek: its duration is the tick counter (not the
   * clock difference), its route the recorded points in order, and it
   * carries none of the manual-entry fields.
   */
  function GpsTrek(uid: string, startTime: int, endTime: int, distanceKm: real,
                   elapsed: nat, points: seq<GeoPoint>): (t: Trek)
    ensures SpeedConsistent(t)
    ensures t.userUid == uid && t.startTime == startTime && t.endTime == endTime
    ensures t.distanceKm == distanceKm && t.durationSeconds == elapsed && t.route == points
    ensures !t.isManualEntry && t.startLocationName.None? && t.endLocationName.None?
    ensures t.startLat.None? && t.startLng.None? && t.endLat.None? && t.endLng.None?
  {
    Trek(0, uid, startTime, endTime, distanceKm, elapsed, AvgSpeed(distanceKm, elapsed),
         points, false, None, None, None, None, None, None)
  }

  /**
   * The record of a manually entered trek: it starts now and ends the given
   * number of seconds later, its route is the start point then the end
   * point, and it keeps the endpoint names and coordinates.
   */
  function ManualTrek(uid: string, now: int,
                      startName: string, startLat: real, startLng: real,
                      endName: string, endLat: real, endLng: real,
                      distanceKm: real, durationSeconds: int): (t: Trek)
    ensures SpeedConsistent(t)
    ensures t.userUid == uid && t.startTime == now
    ensures t.endTime - t.startTime == durationSeconds * 1000
    ensures t.distanceKm == distanceKm && t.durationSeconds == durationSeconds
    ensures t.route == [GeoPoint(startLat, startLng), GeoPoint(endLat, endLng)]
    ensures t.isManualEntry
    ensures t.startLocationName == Some(startName) && t.endLocationName == Some(endName)
    ensures t.startLat == Some(startLat) && t.startLng == Some(startLng)
    ensures t.endLat == Some(endLat) && t.endLng == Some(endLng)
  {
    Trek(0, uid, now, now + durationSeconds * 1000, distanceKm, durationSeconds,
         AvgSpeed(distanceKm, durationSeconds),
         [GeoPoint(startLat, startLng), GeoPoint(endLat, endLng)],
         true, Some(startName), Some(endName),
         Some(startLat), Some(startLng), Some(endLat), Some(endLng))
  }

  class TrekSession {
    /** The geodesic used for every leg. */
    const dist: Metric

    var isTracking: bool
    /** Whether the timer job exists (it is launched and cancelled with tracking). */
    var timerRunning: bool
    var points: seq<GeoPoint>
    var distance: real
    var speed: real
    var elapsed: nat
    var startTime: int
    var uid: string
    /** Every record handed to the trek repository, in order. */
    ghost var saved: seq<Trek>

    /**
     * The timer runs exactly while tracking, and the distance is always the
     * length of the recorded route.
     */
    ghost predicate Valid()
      reads this
    {
      && timerRunning == isTracking
      && distance == PathLength(dist, points)
    }

    constructor (dist: Metric)
      ensures Valid() && this.dist == dist
      ensures !isTracking && points == [] && distance == 0.0 && speed == 0.0
      ensures elapsed == 0 && startTime == 0 && uid == "" && saved == []
    {
      this.dist := dist;
      isTracking, timerRunning := false, false;
      points, distance, speed := [], 0.0, 0.0;
      elapsed, startTime, uid := 0, 0, "";
      saved := [];
    }

    /** Binds the session to the signed-in user. */
    method SetUser(u: string)
      modifies this`uid
      ensures uid == u
    {
      uid := u;
    }

    /**
     * Starts a new trek: nothing happens while already tracking; otherwise
     * the route, distance, speed and counter are reset, the start is stamped
     * and the timer is launched.
     */
    method StartTracking(now: int)
      requires Valid()
      modifies this
      ensures Valid()
      ensures old(isTracking) ==> unchanged(this)
      ensures !old(isTracking) ==>
        && isTracking && timerRunning
        && points == [] && distance == 0.0 && speed == 0.0 && elapsed == 0
        && startTime == now
        && uid == old(uid) && saved == old(saved)
    {
      if isTracking {
        return;
      }
      points := [];
      distance := 0.0;
      speed := 0.0;
      elapsed := 0;
      startTime := now;
      isTracking := true;
      timerRunning := true;
    }

    /**
     * One pass of the timer loop, a second after the previous one: while
     * the timer runs the counter goes up by one; nothing else changes.
     */
    method Tick()
      requires Valid()
      modifies this`elapsed
      ensures Valid()
      ensures elapsed == if timerRunning then old(elapsed) + 1 else old(elapsed)
    {
      if timerRunning && isTracking {
        elapsed := elapsed + 1;
      }
    }

    /**
     * The timer loop for `seconds` seconds of wall-clock time with nothing
     * else happening: one increment per second while tracking, none when
     * not tracking.
     */
    method RunTimer(seconds: nat)
      requires Valid()
      modifies this`elapsed
      ensures Valid()
      ensures elapsed == if isTracking then old(elapsed) + seconds else old(elapsed)
    {
      var n := 0;
      while n < seconds && timerRunning && isTracking
        invariant 0 <= n <= seconds
        invariant Valid()
        invariant elapsed == old(elapsed) + n
        invariant !isTracking ==> n == 0
      {
        Tick();
        n := n + 1;
      }
    }

    /**
     * Records a location fix, whether or not tracking is on: the distance
     * grows by the leg from the last point (if any), the speed becomes the
     * fix's speed and the position is appended.
     */
    method AddPoint(fix: Fix)
      requires Valid()
      modifies this`points, this`distance, this`speed
      ensures Valid()
      ensures points == old(points) + [fix.position]
      ensures distance == if old(points) == [] then old(distance)
                          else old(distance) + dist(old(points)[|old(points)| - 1], fix.position)
      ensures old(distance) <= distance
      ensures speed == fix.speed
    {
      PathLengthSnoc(dist, points, fix.position);
      if points != [] {
        var prev := points[|points| - 1];
        distance := distance + dist(prev, fix.position);
      }
      speed := fix.speed;
      points := points + [fix.position];
    }

    /**
     * Stops tracking: nothing happens when not tracking; otherwise tracking
     * ends and the timer is cancelled, and then, with at least two points,
     * the trek is saved. The route and statistics stay as they were.
     */
    method StopTracking(now: int)
      requires Valid()
      modifies this`isTracking, this`timerRunning, this`saved
      ensures Valid()
      ensures !old(isTracking) ==> unchanged(this)
      ensures old(isTracking) ==>
        && !isTracking && !timerRunning
        && saved == old(saved) + (if |points| >= 2 && uid != ""
                                  then [GpsTrek(uid, startTime, now, distance, elapsed, points)]
                                  else [])
    {
      if !isTracking {
        return;
      }
      isTracking := false;
      timerRunning := false;
      if |points| >= 2 {
        SaveTrek(now);
      }
    }

    /**
     * Hands the recorded trek to the repository, unless no user is signed
     * in. Only called once the timer is cancelled, so the duration read is
     * final.
     */
    method SaveTrek(now: int)
      requires !timerRunning
      modifies this`saved
      ensures saved == old(saved) + (if uid != ""
                                     then [GpsTrek(uid, startTime, now, distance, elapsed, points)]
                                     else [])
    {
      if uid == "" {
        return;
      }
      var trek := GpsTrek(uid, startTime, now, distance, elapsed, points);
      saved := saved + [trek];
    }

    /**
     * Hands a manually entered trek to the repository, unless no user is
     * signed in. The recording state is not touched.
     */
    method SaveManualTrek(startName: string, startLat: real, startLng: real,
                          endName: string, endLat: real, endLng: real,
                          distanceKm: real, durationSeconds: int, now: int)
      modifies this`saved
      ensures saved == old(saved) + (if uid != ""
                                     then [ManualTrek(uid, now, startName, startLat, startLng,
                                                      endName, endLat, endLng, distanceKm, durationSeconds)]
                                     else [])
    {
      if uid == "" {
        return;
      }
      var trek := ManualTrek(uid, now, startName, startLat, startLng,
                             endName, endLat, endLng, distanceKm, durationSeconds);
      saved := saved + [trek];
    }

    /**
     * Discards the current trek: route, distance, speed and counter are
     * reset, tracking ends and the timer is cancelled. The start stamp, the
     * user and the saved records are kept.
     */
    method ClearTrek()
      requires Valid()
      modifies this`points, this`distance, this`speed, this`elapsed, this`isTracking, this`timerRunning
      ensures Valid()
      ensures points == [] && distance == 0.0 && speed == 0.0 && elapsed == 0
      ensures !isTracking && !timerRunning
    {
      points := [];
      distance := 0.0;
      speed := 0.0;
      elapsed := 0;
      isTracking := false;
      timerRunning := false;
    }
  }

  /**
   * What a caller can conclude from the session's contracts alone: one point
   * gives no record, ticks do not touch the distance, a second stop does
   * nothing, and a fix arriving after the stop changes the session but not
   * the record already saved.
   */
  method StopScenarios(dist: Metric, a: Fix, b: Fix, t0: int, t1: int)
  {
    var vm := new TrekSession(dist);
    vm.SetUser("uid");
    vm.StartTracking(t0);
    vm.AddPoint(a);
    vm.Tick();
    vm.StopTracking(t1);
    assert vm.saved == [];

    vm.StartTracking(t0);
    vm.AddPoint(a);
    vm.Tick();
    vm.AddPoint(b);
    vm.Tick();
    assert vm.distance == dist(a.position, b.position);
    vm.StopTracking(t1);
    assert |vm.saved| == 1;
    var trek := vm.saved[0];
    assert trek.route == [a.position, b.position] && trek.durationSeconds == 2;
    assert trek.distanceKm == dist(a.position, b.position);

    vm.StopTracking(t1);
    assert vm.saved == [trek];
    vm.AddPoint(b);
    assert |vm.points| == 3 && vm.saved == [trek];
  }
}
