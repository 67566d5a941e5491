/** The live GPS tracker: a throttled update gate, the bounded path trail and
    the start/stop lifecycle of the position watch. The module-level globals
    of the tracker become the fields of one `Tracker` object. */
module GpsTracking {
  import opened Wrappers
  import opened Trail
  import opened Throttle

  /** The `coords` of a platform position: degrees and an accuracy in metres. */
  datatype Coords = Coords(latitude: real, longitude: real, accuracy: real)

  /** A position delivered by the location stream; `coords` may be missing. */
  datatype Position = Position(coords: Option<Coords>, timestamp: int)

  /** A point on the ground plane of the scene. */
  datatype WorldPoint = WorldPoint(x: real, z: real)

  /** A trail vertex: the world point lifted to the fixed trail height. */
  datatype Vector3 = Vector3(x: real, y: real, z: real)

  /** The pin marker: where it stands and whether it is shown. */
  datatype Marker = Marker(position: WorldPoint, visible: bool)

  /** The accuracy ring: its centre, its radius (the scale of a unit disc)
      and whether it is shown. */
  datatype Ring = Ring(position: WorldPoint, radius: real, visible: bool)

  /** The "gps_position_updated" event: the raw position and the clock
      reading taken when the event was built. */
  datatype Notification = PositionUpdated(position: Position, timestamp: int)

  /** The colour scheme of the status line: neutral, active or inactive. */
  datatype Tone = Neutral | Active | Inactive

  datatype StatusLine = StatusLine(message: string, tone: Tone)

  /** The options handed to the platform when a watch is opened. */
  datatype PositionOptions = PositionOptions(enableHighAccuracy: bool, timeout: int, maximumAge: int)

  /** The part of the tracker configuration the core reads. */
  datatype Config = Config(
    minUpdateInterval: int,
    maxPathPoints: nat,
    showAccuracyRing: bool,
    showPath: bool,
    useHighAccuracy: bool,
    calibrationFactor: real)

  /** The configuration the tracker ships with. */
  const DefaultConfig := Config(1000, 500, true, true, true, 0.6163)

  /** Height of every trail vertex above the ground plane. */
  const PathHeight: real := 1.0

  /** Timeout and maximum cached age requested for every watch, in ms. */
  const WatchTimeout := 20000
  const WatchMaximumAge := 0

  /** Error codes of the platform's position error. */
  const PermissionDenied := 1
  const PositionUnavailable := 2
  const Timeout := 3

  /** The geodesic projection from (latitude, longitude) to the scene plane,
      fixed once the tracker is built. */
  type Projector = (real, real) -> WorldPoint

  /** The update gate's malformed-fix test: a position must exist and have coordinates. */
  predicate WellFormed(position: Option<Position>)
  {
    position.Some? && position.value.coords.Some?
  }

  /** A fix is accepted when it is well formed and passes the throttle. */
  predicate AcceptsFix(position: Option<Position>, last: int, now: int, interval: int)
  {
    WellFormed(position) && !WithinWindow(last, now, interval)
  }

  function Locate(project: Projector, p: Position): WorldPoint
    requires p.coords.Some?
  {
    project(p.coords.value.latitude, p.coords.value.longitude)
  }

  function PathPoint(w: WorldPoint): Vector3
  {
    Vector3(w.x, PathHeight, w.z)
  }

  function AccuracyRadius(c: Coords, cfg: Config): real
  {
    c.accuracy * cfg.calibrationFactor * 0.1
  }

  predicate AllLocated(ns: seq<Notification>)
  {
    forall i :: 0 <= i < |ns| ==> ns[i].position.coords.Some?
  }

  /** The trail vertex of every broadcast position, in broadcast order. */
  function TrailPoints(project: Projector, ns: seq<Notification>): (r: seq<Vector3>)
    requires AllLocated(ns)
    ensures |r| == |ns|
  {
    if ns == [] then []
    else TrailPoints(project, ns[..|ns| - 1]) + [PathPoint(Locate(project, ns[|ns| - 1].position))]
  }

  /** The i-th trail vertex is the vertex of the i-th broadcast position. */
  lemma {:induction false} TrailPointsAt(project: Projector, ns: seq<Notification>, i: nat)
    requires AllLocated(ns) && i < |ns|
    ensures TrailPoints(project, ns)[i] == PathPoint(Locate(project, ns[i].position))
    decreases |ns|
  {
    if i < |ns| - 1 {
      var prefix := ns[..|ns| - 1];
      assert prefix[i] == ns[i];
      TrailPointsAt(project, prefix, i);
    }
  }

  /** Broadcasting one more located position adds exactly its vertex to the
      end of the broadcast trail. */
  lemma TrailPointsSnoc(project: Projector, ns: seq<Notification>, n: Notification)
    requires AllLocated(ns) && n.position.coords.Some?
    ensures AllLocated(ns + [n])
    ensures TrailPoints(project, ns + [n]) == TrailPoints(project, ns) + [PathPoint(Locate(project, n.position))]
  {
    assert (ns + [n])[..|ns|] == ns;
  }

  /** The broadcast-trail invariant survives one accepted fix: pushing the
      new vertex onto the last `max` vertices of the history gives the last
      `max` vertices of the extended history. */
  lemma TrailFollowsBroadcasts(project: Projector, ns: seq<Notification>, n: Notification, trail: seq<Vector3>, max: nat)
    requires AllLocated(ns) && n.position.coords.Some?
    requires trail == LastN(TrailPoints(project, ns), max)
    ensures AllLocated(ns + [n])
    ensures PushTrail(trail, PathPoint(Locate(project, n.position)), max) == LastN(TrailPoints(project, ns + [n]), max)
  {
    TrailPointsSnoc(project, ns, n);
    PushTrailKeepsLastN(TrailPoints(project, ns), PathPoint(Locate(project, n.position)), max);
  }

  /** The status message for a position error code; an unrecognised code
      falls back to the generic message. */
  function ErrorMessage(code: int): (msg: string)
    ensures code == PermissionDenied ==> msg == "GPS permission denied"
    ensures code == PositionUnavailable ==> msg == "GPS position unavailable"
    ensures code == Timeout ==> msg == "GPS request timeout"
    ensures msg == "GPS Error" <==> code !in {PermissionDenied, PositionUnavailable, Timeout}
  {
    if code == PermissionDenied then "GPS permission denied"
    else if code == PositionUnavailable then "GPS position unavailable"
    else if code == Timeout then "GPS request timeout"
    else "GPS Error"
  }

  /** The position carried by the latest broadcast, if any. */
  function LastBroadcast(ns: seq<Notification>): Option<Position>
  {
    if ns == [] then None else Some(ns[|ns| - 1].position)
  }

  /** How the display and the trail follow the broadcast history `ns`: the
      last position is the last one broadcast, the trail holds the vertices of
      the most recent broadcasts (when the path is enabled), the path is shown
      once it has two vertices, and the marker and ring stand at the last
      position. */
  predicate DisplayFollows(cfg: Config, project: Projector, ns: seq<Notification>, lastPosition: Option<Position>,
                           trail: seq<Vector3>, pathVisible: bool, marker: Marker, ring: Ring)
  {
    && AllLocated(ns)
    && lastPosition == LastBroadcast(ns)
    && trail == (if cfg.showPath then LastN(TrailPoints(project, ns), cfg.maxPathPoints) else [])
    && (pathVisible <==> |trail| > 1)
    && (lastPosition.Some? ==> marker.position == Locate(project, lastPosition.value))
    && (marker.visible ==> lastPosition.Some?)
    && (cfg.showAccuracyRing && lastPosition.Some? ==>
          ring.position == marker.position && ring.radius == AccuracyRadius(lastPosition.value.coords.value, cfg))
    && (ring.visible ==> cfg.showAccuracyRing && lastPosition.Some?)
  }

  /** An accepted fix keeps the display in step with the broadcast history:
      broadcasting `p`, moving the marker (and the ring) to it and pushing its
      vertex onto the trail restores `DisplayFollows`. */
  lemma AcceptKeepsDisplay(cfg: Config, project: Projector, ns: seq<Notification>, lastPosition: Option<Position>,
                           trail: seq<Vector3>, pathVisible: bool, marker: Marker, ring: Ring,
                           p: Position, dispatchNow: int)
    requires DisplayFollows(cfg, project, ns, lastPosition, trail, pathVisible, marker, ring)
    requires p.coords.Some?
    ensures var w := Locate(project, p);
            var trail' := if cfg.showPath then PushTrail(trail, PathPoint(w), cfg.maxPathPoints) else trail;
            DisplayFollows(cfg, project, ns + [PositionUpdated(p, dispatchNow)], Some(p),
                           trail', pathVisible || |trail'| > 1, Marker(w, true),
                           if cfg.showAccuracyRing then Ring(w, AccuracyRadius(p.coords.value, cfg), true) else ring)
  {
    var w := Locate(project, p);
    var n := PositionUpdated(p, dispatchNow);
    if cfg.showPath {
      TrailFollowsBroadcasts(project, ns, n, trail, cfg.maxPathPoints);
      PushTrailFifo(trail, PathPoint(w), cfg.maxPathPoints);
    } else {
      TrailPointsSnoc(project, ns, n);
    }
  }

  class Tracker {
    const cfg: Config
    const project: Projector

    /** Arrival time of the last accepted fix; 0 after load and after each start. */
    var lastGpsUpdateTime: int
    var lastPosition: Option<Position>
    var watchId: Option<int>

    var gpsMarker: Marker
    var gpsAccuracyRing: Ring
    var pathVisible: bool
    var gpsPathPoints: seq<Vector3>
    /** The status line, absent until it is first shown. */
    var status: Option<StatusLine>

    /** Every "position updated" event broadcast so far, in order. */
    ghost var notifications: seq<Notification>
    /** Arrival times of the fixes accepted since load or the last start. */
    ghost var sessionAccepts: seq<int>
    /** The watches the platform holds open for this tracker. */
    ghost var openWatches: set<int>
    /** The options of the last watch opened. */
    ghost var requestedOptions: Option<PositionOptions>

    ghost predicate Valid()
      reads this
      ensures Valid() ==> |gpsPathPoints| <= cfg.maxPathPoints
    {
      && DisplayFollows(cfg, project, notifications, lastPosition, gpsPathPoints, pathVisible, gpsMarker, gpsAccuracyRing)
      // accepted fixes of this session are spaced by the interval, counting from the reset value 0
      && Spaced(0, sessionAccepts, cfg.minUpdateInterval)
      && LastOr(0, sessionAccepts) == lastGpsUpdateTime
      // at most one watch is open, and it is the one the tracker holds
      && openWatches == (if watchId.Some? then {watchId.value} else {})
    }

    /** Module load and marker setup: nothing shown, no watch, empty trail. */
    constructor (cfg: Config, project: Projector, panelPresent: bool)
      ensures Valid()
      ensures this.cfg == cfg && this.project == project
      ensures lastGpsUpdateTime == 0 && lastPosition == None && watchId == None
      ensures gpsMarker == Marker(WorldPoint(0.0, 0.0), false)
      ensures gpsAccuracyRing == Ring(WorldPoint(0.0, 0.0), 1.0, false)
      ensures gpsPathPoints == [] && !pathVisible
      // the controls, and with them the first status line, are only added to an existing navigation panel
      ensures status == if panelPresent then Some(StatusLine("GPS controls initialized", Neutral)) else None
      ensures notifications == [] && sessionAccepts == [] && openWatches == {} && requestedOptions == None
    {
      this.cfg := cfg;
      this.project := project;
      lastGpsUpdateTime := 0;
      lastPosition := None;
      watchId := None;
      gpsMarker := Marker(WorldPoint(0.0, 0.0), false);
      gpsAccuracyRing := Ring(WorldPoint(0.0, 0.0), 1.0, false);
      pathVisible := false;
      gpsPathPoints := [];
      if panelPresent {
        status := Some(StatusLine("GPS controls initialized", Neutral));
      } else {
        status := None;
      }
      notifications := [];
      sessionAccepts := [];
      openWatches := {};
      requestedOptions := None;
    }

    /** The new state after an accepted fix `p` that arrived at `now` and was
        broadcast with the clock reading `dispatchNow`. */
    twostate predicate Recorded(p: Position, now: int, dispatchNow: int)
      requires p.coords.Some?
      reads this
    {
      var w := Locate(project, p);
      && lastGpsUpdateTime == now
      && sessionAccepts == old(sessionAccepts) + [now]
      && lastPosition == Some(p)
      && notifications == old(notifications) + [PositionUpdated(p, dispatchNow)]
      && gpsMarker == Marker(w, true)
      && gpsAccuracyRing == (if cfg.showAccuracyRing
                             then Ring(w, AccuracyRadius(p.coords.value, cfg), true)
                             else old(gpsAccuracyRing))
      && gpsPathPoints == (if cfg.showPath
                           then PushTrail(old(gpsPathPoints), PathPoint(w), cfg.maxPathPoints)
                           else old(gpsPathPoints))
      && pathVisible == (old(pathVisible) || |gpsPathPoints| > 1)
      && watchId == old(watchId) && openWatches == old(openWatches)
      && requestedOptions == old(requestedOptions)
    }

    /** Every field but the status line keeps its value. */
    twostate predicate OnlyStatusChanged()
      reads this
    {
      && lastGpsUpdateTime == old(lastGpsUpdateTime) && sessionAccepts == old(sessionAccepts)
      && lastPosition == old(lastPosition) && notifications == old(notifications)
      && gpsMarker == old(gpsMarker) && gpsAccuracyRing == old(gpsAccuracyRing)
      && gpsPathPoints == old(gpsPathPoints) && pathVisible == old(pathVisible)
      && watchId == old(watchId) && openWatches == old(openWatches)
      && requestedOptions == old(requestedOptions)
    }

    /** Appends the vertex of `worldPos` to the trail, dropping the oldest
        vertex when the trail grows past its capacity, and shows the path once
        it has two vertices. */
    method UpdateGPSPath(worldPos: WorldPoint)
      requires |gpsPathPoints| <= cfg.maxPathPoints
      modifies this`gpsPathPoints, this`pathVisible
      ensures gpsPathPoints == PushTrail(old(gpsPathPoints), PathPoint(worldPos), cfg.maxPathPoints)
      ensures |gpsPathPoints| <= cfg.maxPathPoints
      ensures cfg.maxPathPoints > 0 ==> gpsPathPoints[|gpsPathPoints| - 1] == PathPoint(worldPos)
      ensures pathVisible == (old(pathVisible) || |gpsPathPoints| > 1)
    {
      PushTrailFifo(gpsPathPoints, PathPoint(worldPos), cfg.maxPathPoints);
      gpsPathPoints := gpsPathPoints + [PathPoint(worldPos)];
      if |gpsPathPoints| > cfg.maxPathPoints {
        gpsPathPoints := gpsPathPoints[1..];
      }
      if |gpsPathPoints| > 1 {
        pathVisible := true;
      }
    }

    /** The update gate: a malformed fix, or one arriving within the throttle
        window of the last accepted fix, changes nothing; any other fix is
        recorded by `AcceptFix`. */
    method UpdateGPSMarker(position: Option<Position>, now: int, dispatchNow: int)
      requires Valid()
      modifies this
      ensures Valid()
      ensures if AcceptsFix(position, old(lastGpsUpdateTime), now, cfg.minUpdateInterval)
              then Recorded(position.value, now, dispatchNow) && status == old(status)
              else unchanged(this)
    {
      if !WellFormed(position) {
        return;
      }
      if WithinWindow(lastGpsUpdateTime, now, cfg.minUpdateInterval) {
        return;
      }
      AcceptFix(position.value, now, dispatchNow);
    }

    /** The accepted branch of the gate: records the time and the fix,
        broadcasts it, places the marker and the ring, and extends the trail. */
    method AcceptFix(p: Position, now: int, dispatchNow: int)
      requires Valid()
      requires p.coords.Some? && !WithinWindow(lastGpsUpdateTime, now, cfg.minUpdateInterval)
      modifies this
      ensures Valid()
      ensures Recorded(p, now, dispatchNow) && status == old(status)
    {
      SpacedSnoc(0, sessionAccepts, now, cfg.minUpdateInterval);
      AcceptKeepsDisplay(cfg, project, notifications, lastPosition, gpsPathPoints, pathVisible,
                         gpsMarker, gpsAccuracyRing, p, dispatchNow);
      RecordFix(p, now, dispatchNow);
      var c := p.coords.value;
      var worldPos := project(c.latitude, c.longitude);
      PlaceMarker(worldPos, c);
      if cfg.showPath {
        UpdateGPSPath(worldPos);
      }
    }

    /** Takes `now` as the new throttle reference, stores the fix and
        broadcasts it with the clock reading `dispatchNow`. */
    method RecordFix(p: Position, now: int, dispatchNow: int)
      modifies this`lastGpsUpdateTime, this`sessionAccepts, this`lastPosition, this`notifications
      ensures lastGpsUpdateTime == now && sessionAccepts == old(sessionAccepts) + [now]
      ensures lastPosition == Some(p)
      ensures notifications == old(notifications) + [PositionUpdated(p, dispatchNow)]
    {
      lastGpsUpdateTime := now;
      sessionAccepts := sessionAccepts + [now];
      lastPosition := Some(p);
      notifications := notifications + [PositionUpdated(p, dispatchNow)];
    }

    /** Moves the marker to `worldPos` and shows it; when the ring is enabled,
        centres it there too, scales it to the fix's accuracy and shows it. */
    method PlaceMarker(worldPos: WorldPoint, c: Coords)
      modifies this`gpsMarker, this`gpsAccuracyRing
      ensures gpsMarker == Marker(worldPos, true)
      ensures gpsAccuracyRing == if cfg.showAccuracyRing
                                 then Ring(worldPos, AccuracyRadius(c, cfg), true)
                                 else old(gpsAccuracyRing)
    {
      gpsMarker := Marker(worldPos, true);
      if cfg.showAccuracyRing {
        gpsAccuracyRing := Ring(worldPos, AccuracyRadius(c, cfg), true);
      }
    }

    /** The watch's success callback: shows the active status, then runs the
        update gate. */
    method OnPositionFix(position: Option<Position>, now: int, dispatchNow: int)
      requires Valid()
      modifies this
      ensures Valid()
      ensures status == Some(StatusLine("GPS Active", Active))
      ensures if AcceptsFix(position, old(lastGpsUpdateTime), now, cfg.minUpdateInterval)
              then Recorded(position.value, now, dispatchNow)
              else OnlyStatusChanged()
    {
      status := Some(StatusLine("GPS Active", Active));
      UpdateGPSMarker(position, now, dispatchNow);
    }

    /** The watch's error callback: reports the classified error and leaves
        the watch, the throttle and the display as they are. */
    method OnPositionError(code: int)
      requires Valid()
      modifies this`status
      ensures Valid()
      ensures status == Some(StatusLine(ErrorMessage(code), Inactive))
    {
      status := Some(StatusLine(ErrorMessage(code), Inactive));
    }

    /** Starts tracking. Without a geolocation service only the status line
        changes. Otherwise any open watch is released, the throttle clock is
        reset and a new watch, with handle `handle` from the platform, is
        opened; the trail and the display are kept. */
    method StartGPSTracking(geolocationAvailable: bool, handle: int)
      requires Valid()
      modifies this
      ensures Valid()
      ensures !geolocationAvailable ==>
        status == Some(StatusLine("Geolocation not supported", Inactive)) && OnlyStatusChanged()
      ensures geolocationAvailable ==>
        && status == Some(StatusLine("Starting GPS...", Neutral))
        && watchId == Some(handle) && openWatches == {handle}
        && requestedOptions == Some(PositionOptions(cfg.useHighAccuracy, WatchTimeout, WatchMaximumAge))
        && lastGpsUpdateTime == 0 && sessionAccepts == []
        && lastPosition == old(lastPosition) && notifications == old(notifications)
        && gpsMarker == old(gpsMarker) && gpsAccuracyRing == old(gpsAccuracyRing)
        && gpsPathPoints == old(gpsPathPoints) && pathVisible == old(pathVisible)
      // after a start, every fix arriving at or after one interval past 0 passes the throttle
      ensures geolocationAvailable ==>
        forall t :: t >= cfg.minUpdateInterval ==> !WithinWindow(lastGpsUpdateTime, t, cfg.minUpdateInterval)
    {
      if !geolocationAvailable {
        status := Some(StatusLine("Geolocation not supported", Inactive));
        return;
      }
      status := Some(StatusLine("Starting GPS...", Neutral));
      if watchId.Some? {
        openWatches := openWatches - {watchId.value};
      }
      requestedOptions := Some(PositionOptions(cfg.useHighAccuracy, WatchTimeout, WatchMaximumAge));
      lastGpsUpdateTime := 0;
      sessionAccepts := [];
      watchId := Some(handle);
      openWatches := openWatches + {handle};
    }

    /** Stops tracking when a watch is open: releases it and hides the marker
        and the accuracy ring, keeping the trail. Without a watch it does
        nothing, so a second stop is a no-op. */
    method StopGPSTracking()
      requires Valid()
      modifies this
      ensures Valid()
      ensures old(watchId).None? ==> unchanged(this)
      ensures old(watchId).Some? ==>
        && watchId == None && openWatches == {}
        && gpsMarker == old(gpsMarker).(visible := false)
        && gpsAccuracyRing == old(gpsAccuracyRing).(visible := false)
        && status == Some(StatusLine("GPS Stopped", Inactive))
        && lastGpsUpdateTime == old(lastGpsUpdateTime) && sessionAccepts == old(sessionAccepts)
        && requestedOptions == old(requestedOptions)
        && lastPosition == old(lastPosition) && notifications == old(notifications)
        && gpsPathPoints == old(gpsPathPoints) && pathVisible == old(pathVisible)
    {
      if watchId.Some? {
        openWatches := openWatches - {watchId.value};
        watchId := None;
        gpsMarker := gpsMarker.(visible := false);
        gpsAccuracyRing := gpsAccuracyRing.(visible := false);
        status := Some(StatusLine("GPS Stopped", Inactive));
      }
    }
  }

  /** One session driven through the gate: the second of two fixes 400 ms
      apart is dropped, and a fix exactly one interval after the last
      accepted one is accepted. */
  method ThrottleScenario(project: Projector, c: Coords) returns (trailLength: nat, lastUpdate: int)
    ensures trailLength == 2 && lastUpdate == 6000
  {
    var t := new Tracker(DefaultConfig, project, true);
    var p := Some(Position(Some(c), 0));
    t.StartGPSTracking(true, 7);
    assert t.lastGpsUpdateTime == 0 && t.gpsPathPoints == [];
    t.OnPositionFix(p, 5000, 5000);
    assert t.lastGpsUpdateTime == 5000 && |t.gpsPathPoints| == 1;
    t.OnPositionFix(p, 5400, 5401);
    assert t.lastGpsUpdateTime == 5000 && |t.gpsPathPoints| == 1;
    t.OnPositionFix(p, 6000, 6000);
    trailLength := |t.gpsPathPoints|;
    lastUpdate := t.lastGpsUpdateTime;
  }

  /** A stream error only reports itself: tracking stays active and the next
      fix is processed as usual. */
  method ErrorScenario(project: Projector, c: Coords) returns (tracking: bool, trailLength: nat, shown: bool)
    ensures tracking && trailLength == 1 && shown
  {
    var t := new Tracker(DefaultConfig, project, true);
    var p := Some(Position(Some(c), 0));
    t.StartGPSTracking(true, 7);
    t.OnPositionError(Timeout);
    assert t.watchId == Some(7) && t.status == Some(StatusLine("GPS request timeout", Inactive));
    t.OnPositionFix(p, 5000, 5000);
    tracking := t.watchId.Some?;
    trailLength := |t.gpsPathPoints|;
    shown := t.gpsMarker.visible;
  }

  /** Stopping twice and restarting: the second stop changes nothing, the
      trail survives both, and after the restart a fix only 100 ms after the
      last accepted one is accepted, because the throttle clock was reset. */
  method RestartScenario(project: Projector, c: Coords) returns (trailLength: nat, tracking: bool)
    ensures trailLength == 2 && !tracking
  {
    var t := new Tracker(DefaultConfig, project, true);
    var p := Some(Position(Some(c), 0));
    t.StartGPSTracking(true, 7);
    t.OnPositionFix(p, 5000, 5000);
    t.StopGPSTracking();
    t.StopGPSTracking();
    assert t.watchId == None && |t.gpsPathPoints| == 1 && !t.gpsMarker.visible;
    t.StartGPSTracking(true, 8);
    t.OnPositionFix(p, 5100, 5100);
    assert t.gpsMarker.visible && |t.notifications| == 2;
    t.StopGPSTracking();
    trailLength := |t.gpsPathPoints|;
    tracking := t.watchId.Some?;
  }
}
