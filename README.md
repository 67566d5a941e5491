# Live GPS tracker: a verified model

This project models the live-tracking core of the GPS tracker in
`Sample-map-main/gpsTracker.js`. The tracker has three parts:

- **The update gate** (`updateGPSMarker`). It drops a fix with no position or
  no coordinates. It drops a fix that arrives less than `minUpdateInterval`
  milliseconds after the last accepted fix. It accepts any other fix: it records
  the arrival time and the position, broadcasts a `gps_position_updated` event,
  moves the marker and the accuracy ring, and extends the trail.
- **The trail** (`updateGPSPath`). This is a bounded FIFO buffer of path
  vertices. It appends the new vertex and drops the oldest one once the
  buffer holds more than `maxPathPoints` vertices.
- **The watch lifecycle** (`startGPSTracking`, `stopGPSTracking` and the two
  watch callbacks). A start releases any open watch, resets the throttle clock
  to 0 and opens a new watch. A stop runs only while a watch is open. It
  releases the watch and hides the marker and the ring, but keeps the trail.
  A stream error sets a status message and leaves tracking active.

The module-level globals of the tracker are the fields of the class
`GpsTracking.Tracker`. The methods change those fields in place. The trail
`gpsPathPoints`, which the source changes with `push` and `shift`, is a `seq`
field that `UpdateGPSPath` reassigns.

- The clock `Date.now()` is read twice in the source, once for the throttle
  and once for the event. So it becomes two parameters: `now` and
  `dispatchNow`.
- The geodesic projection `geoToWorld` is a total function
  `project: (real, real) -> WorldPoint`, fixed when the tracker is built.
- The watch handle returned by the platform is a parameter of
  `StartGPSTracking`.
- Whether the page has a navigation panel, which decides whether the
  controls and their first status line are added, is the `panelPresent`
  parameter of the constructor.
- Ghost fields keep four histories:
  - every event broadcast (`notifications`);
  - the arrival times accepted since the last start (`sessionAccepts`);
  - the watches the platform holds open (`openWatches`);
  - the options of the last watch opened (`requestedOptions`).

The invariant `Tracker.Valid` ties the state to these histories:

- The last position is the last one broadcast.
- With the path enabled, the trail is exactly the vertices of the most recent
  `maxPathPoints` broadcasts. So the trail never exceeds its capacity.
- The path is shown once the trail has two vertices.
- The marker stands at the projection of the last position, and the ring
  follows it.
- The arrival times of the session are spaced by at least the interval, and
  the last of them is the throttle clock.
- At most one watch is open, and it is the one the tracker holds.

Two consequences of the gate:

- Within one throttle window the *first* fix that arrives is kept. The later
  fixes are dropped, not queued, because the gate compares against the last
  *accepted* time.
- Accepted fixes whose arrival times span `E` milliseconds number at most
  `E / minUpdateInterval + 1` (`Throttle.AcceptedCountBound`). The `+ 1` is
  needed: two fixes exactly one interval apart are both accepted.

Spacing holds within a session only. A start resets the clock to 0, so the
first fix after a restart is accepted however soon it follows the previous
accepted fix. `GpsTracking.RestartScenario` shows this.

Files:

- `wrappers.dfy`: `Option`.
- `trail.dfy`: the bounded FIFO buffer.
- `throttle.dfy`: the gate predicate and spacing.
- `gps_tracker.dfy`: the entities, the error classification and the tracker
  class.

## Model

| member | source | states |
|---|---|---|
| Trail.LastN | Sample-map-main/gpsTracker.js:259-264 | the window of the newest vertices is as long as the history, capped at the capacity |
| Trail.LastNIsSuffix | Sample-map-main/gpsTracker.js:259-264 | that window is the suffix of the history, so it holds the newest vertices in arrival order |
| Trail.PushTrail | Sample-map-main/gpsTracker.js:259-264 | one push-then-shift step: the trail grows by one below capacity and keeps its length at capacity; `PushTrailFifo` and `PushTrailKeepsLastN` state its contents |
| Trail.PushTrailFifo | Sample-map-main/gpsTracker.js:259-264 | pushing below capacity appends; pushing onto a full buffer drops the first element and appends; a buffer within capacity stays within capacity; the new vertex is last |
| Trail.PushTrailKeepsLastN | Sample-map-main/gpsTracker.js:257-264 | pushing onto the newest `n` vertices of a history gives the newest `n` vertices of the extended history, so the buffer always holds exactly the newest `maxPathPoints` vertices |
| Throttle.WithinWindow | Sample-map-main/gpsTracker.js:175 | the drop test of the gate, `now - last < minUpdateInterval`; `SpacedSnoc`, `SpacedStep`, `SpacedPairs` and `AcceptedCountBound` state what accepting only times outside it implies |
| Throttle.SpacedSnoc | Sample-map-main/gpsTracker.js:174-179 | accepting a time that passes the gate against the latest accepted time keeps the session spaced |
| Throttle.SpacedStep | Sample-map-main/gpsTracker.js:174-179 | any two consecutive accepted times are at least `minUpdateInterval` apart, and the first is at least one interval after the reset value |
| Throttle.SpacedPairs | Sample-map-main/gpsTracker.js:174-179 | accepted times `i <= j` of one session lie at least `j - i` intervals apart |
| Throttle.SpacedSpan | Sample-map-main/gpsTracker.js:174-179 | the k-th accepted time lies at least k+1 intervals after the reference time |
| Throttle.AcceptedCountBound | Sample-map-main/gpsTracker.js:174-179 | accepted times are non-decreasing (every earlier one is at most every later one), and at most one is accepted per whole interval after the first: `count - 1 <= elapsed / interval` |
| GpsTracking.WellFormed | Sample-map-main/gpsTracker.js:171 | the malformed-fix test, a position with coordinates; `UpdateGPSMarker` leaves all state unchanged when it fails |
| GpsTracking.PathPoint | Sample-map-main/gpsTracker.js:259 | the trail vertex `(x, 1, z)` of a world point; `TrailPointsAt` and `UpdateGPSPath` state that each vertex pushed is this one |
| GpsTracking.AccuracyRadius | Sample-map-main/gpsTracker.js:238 | the ring scale, accuracy times calibration factor times 0.1; `UpdateGPSMarker` and `AcceptKeepsDisplay` state the ring takes this radius on an accepted fix |
| GpsTracking.AcceptsFix | Sample-map-main/gpsTracker.js:171-178 | the accept decision of the gate, a well-formed fix outside the throttle window; `UpdateGPSMarker` and `OnPositionFix` give the recorded state exactly when it holds and no change otherwise |
| GpsTracking.Locate | Sample-map-main/gpsTracker.js:225-227 | `geoToWorld` applied to the fix's latitude and longitude; `Recorded`, `DisplayFollows` and `TrailPointsAt` place the marker, the ring and the trail vertex at this point |
| GpsTracking.ErrorMessage | Sample-map-main/gpsTracker.js:304-321 | codes 1, 2 and 3 map to the permission-denied, unavailable and timeout messages; "GPS Error" is returned exactly when the code is none of these |
| GpsTracking.TrailPoints | Sample-map-main/gpsTracker.js:245-259 | the broadcast trail has one vertex per broadcast |
| GpsTracking.TrailPointsAt | Sample-map-main/gpsTracker.js:227-259 | the i-th vertex is the position of the i-th broadcast fix, projected and lifted to height 1 |
| GpsTracking.TrailPointsSnoc | Sample-map-main/gpsTracker.js:245-259 | one more broadcast adds exactly its vertex at the end |
| GpsTracking.TrailFollowsBroadcasts | Sample-map-main/gpsTracker.js:245-264 | the trail invariant survives an accepted fix: the pushed buffer is the newest `maxPathPoints` vertices of the extended broadcast history |
| GpsTracking.AcceptKeepsDisplay | Sample-map-main/gpsTracker.js:184-272 | an accepted fix keeps the display in step with the history: last position, trail, path visibility, marker and ring |
| GpsTracking.Tracker.Valid | Sample-map-main/gpsTracker.js:170-272 | the invariant implies that the trail never exceeds `maxPathPoints` |
| GpsTracking.Tracker.constructor | Sample-map-main/gpsTracker.js:75-168 | after setup, nothing is shown and there is no watch, no fix and no trail; the throttle clock is 0; the status line reads "GPS controls initialized" when the navigation panel exists (lines 383-389, 457), and no status is shown otherwise |
| GpsTracking.Tracker.UpdateGPSPath | Sample-map-main/gpsTracker.js:257-273 | the trail becomes the FIFO push of the new vertex `(x, 1, z)`; capacity is kept; the new vertex is last; the path is shown from two vertices on, and is never hidden here |
| GpsTracking.Tracker.UpdateGPSMarker | Sample-map-main/gpsTracker.js:170-252 | a malformed fix or one within the throttle window changes nothing, including the throttle clock. An accepted fix sets the clock to `now`, records the position, appends exactly one event, places and shows the marker, places the ring (when enabled) with radius accuracy times calibration times 0.1, and pushes the vertex (when the path is enabled). The invariant is kept. |
| GpsTracking.Tracker.AcceptFix | Sample-map-main/gpsTracker.js:179-248 | the accepted branch of the gate: from a valid state and a fix outside the window, the new state is exactly the recorded one (clock, history, event, marker, ring, trail) and the invariant is kept |
| GpsTracking.Tracker.RecordFix | Sample-map-main/gpsTracker.js:179-203 | the clock becomes `now`, the session's accepted times gain `now`, the last position becomes the fix, and exactly one event with that fix is appended |
| GpsTracking.Tracker.PlaceMarker | Sample-map-main/gpsTracker.js:232-243 | the marker moves to the projected point and is shown; with the ring enabled the ring is centred there, scaled to the accuracy radius and shown, and otherwise left as it was |
| GpsTracking.Tracker.OnPositionFix | Sample-map-main/gpsTracker.js:299-302 | the status shows "GPS Active", then the fix goes through the gate as above |
| GpsTracking.Tracker.OnPositionError | Sample-map-main/gpsTracker.js:304-321 | only the status line changes, to the classified message in the inactive tone; the watch, the throttle and the display are kept |
| GpsTracking.Tracker.StartGPSTracking | Sample-map-main/gpsTracker.js:276-330 | without geolocation, only the status changes. Otherwise the old watch is released and exactly the new handle is open. The options are (high accuracy as configured, 20000, 0). The clock is 0, so any fix at or after one interval passes the throttle. The trail and the display are kept. |
| GpsTracking.Tracker.StopGPSTracking | Sample-map-main/gpsTracker.js:332-341 | with no watch, nothing changes, so a second stop is a no-op. Otherwise the watch is released and cleared, the marker and ring are hidden, and the status reads "GPS Stopped". The trail, the clock and the last position are kept. |
| GpsTracking.ThrottleScenario | Sample-map-main/gpsTracker.js:170-252 | in one session, a fix 400 ms after an accepted one is dropped and a fix exactly one interval after it is accepted: the trail ends with two vertices and the clock at 6000 |
| GpsTracking.ErrorScenario | Sample-map-main/gpsTracker.js:297-321 | after a timeout error the watch is still open, the status reads "GPS request timeout", and the next fix is accepted and shown |
| GpsTracking.RestartScenario | Sample-map-main/gpsTracker.js:276-341 | a second stop does nothing, both stops keep the trail, and after a restart a fix 100 ms after the last accepted one is accepted; the trail ends with two vertices and no watch open |

## Left out

- `geoToWorld` (lines 49-73): its haversine and bearing arithmetic is not
  modelled. The model takes it as an arbitrary deterministic `project`
  function, fixed at construction, so a later change to the
  `calibrationFactor` global is not seen by the projection.
- Floating point: coordinates, world points and the ring radius are exact
  reals, so rounding is not modelled.
- three.js objects: geometry, materials, render order, the pulse animation
  and the X-ray `depthTest` toggles (lines 75-168, 428-452, 461-486) are not
  modelled. Only the positions, visibility flags and ring scale that the core
  sets are kept.
- Status line styling: `showGPSStatus` (lines 343-373) styles the DOM, and is
  modelled only as the message and its tone.
- DOM and UI: `addGPSControls`, `updateGPSInfoDisplay` and their listeners
  (lines 375-458) are not modelled, apart from the navigation-panel check
  and the first status line, which the constructor's `panelPresent` models.
- Logging: the `console` calls and the `window.lastPosition` mirror
  (line 190) are not modelled.
- Navigation hook: the `window.navigationSystem` / `visualizePath` call
  (lines 210-223) goes to a collaborator that is not part of this model.
  The `isActive()` call at line 210 is outside any `try`. The model assumes
  it returns normally. If it threw, the source would stop after setting the
  clock and the last position and dispatching the event, without moving the
  marker or extending the trail.
- Re-entrant listeners: `dispatchEvent` runs its listeners synchronously. The
  model assumes no listener calls back into the tracker (start, stop or a
  fix) while the event is being dispatched, so an accepted update is
  modelled as one atomic step.
- Event dispatch: `CustomEvent` and `document.dispatchEvent` are modelled as
  appending to the ghost log `notifications`. The `try`/`catch` around it has
  no failing path in the model.
- Platform watch: `navigator.geolocation.watchPosition` and `clearWatch` are
  platform I/O. They are modelled as the `handle` parameter and the ghost set
  `openWatches`. The availability test is the `geolocationAvailable` parameter.
- Page hooks: the `beforeunload` handler and the load hook (lines 488-496)
  are not modelled.
- Use before setup: the model assumes `setupGPSMarker` has run, which in the
  source happens at page load. A fix handled before that would fail on the
  missing marker.
- `MAPPING-main/Project/app.js`: scene, camera, lighting and model-loading
  glue, with no tracker logic. It is not part of this model.
- GpsTracking.Tracker.UpdateGPSMarker: the event's timestamp is the separate
  reading `dispatchNow`, because the source reads the clock again when it
  builds the event. The model does not tie `dispatchNow` to `now`.
