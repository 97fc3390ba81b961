# Drone control station, modelled in Dafny

This project models the Cevheri-Software Control-station: a ground station for one
drone. It has five parts.

- **Vehicle controller.** It connects to the vehicle, arms it, takes off and enters
  offboard mode. It records each stage in a shared health entry. Its telemetry loops
  overwrite the shared position, velocity and battery records.
- **Back ends.** A Flask back end and a FastAPI back end each keep a `drone_data`
  store. Each has velocity, battery and camera endpoints and a mock generator that
  drains the battery.
- **Web front end.** It has a compass and attitude panel, a mission map, a battery
  panel and an install prompt for the progressive web app.
- **Service worker.** It precaches the app shell, serves from the cache, deletes
  stale caches, shows push notifications, handles notification clicks and syncs
  offline data.
- **Video viewers.** A Qt viewer and an OpenCV viewer each probe four GStreamer
  pipelines. Each runs a capture loop that gives up after 30 failed reads in a row,
  and counts frames per second. The Qt viewer has start, stop, port and fullscreen
  controls. The OpenCV viewer has keyboard commands and a process exit code.

Each file is one module:

| file | models |
|---|---|
| `wrappers.dfy` | the `Option` type |
| `drone_controller.dfy` | `api/drone_controller.py` |
| `mock_battery.dfy` | the battery drain shared by both mock generators |
| `flask_handler.dfy` | `api/drone_handler.py` |
| `api_index.dfy` | `api/index.py` |
| `compass.dfy` | `app/components/Compass.tsx` |
| `leaflet_map.dfy` | `app/components/LeafletMapComponent.tsx` |
| `battery_status.dfy` | `app/components/BatteryStatus.tsx` |
| `pwa_installer.dfy` | `app/components/PWAInstaller.tsx` |
| `service_worker.dfy` | `public/sw.js` |
| `capture.dfy` | what the two viewers share: the candidate pipelines, probing, one read, the FPS counter |
| `video_viewer.dfy` | `video_viewer.py` |
| `simple_video_viewer.dfy` | `simple_video_viewer.py` |

Objects whose fields the source updates become classes:

- the controller and its shared state;
- both stores;
- the compass state and the install prompt;
- the service worker's cache storage;
- the capture thread, the Qt window and the OpenCV viewer.

Each method is tied by its `ensures` to a pure function of the old state and the
inputs. The properties are proved as lemmas about those functions.

Everything the source gets from outside is a parameter:

- the vehicle SDK's outcomes;
- the clock;
- random draws;
- network responses;
- what `cap.read()` and `cv2.waitKey` return;
- whether a capture opened;
- the browser's permission answers.

## Model

| member | source | states |
|---|---|---|
| DroneController.HealthAfterConnect | api/drone_controller.py:17-42 | success writes "connected"; a timeout writes "timeout"; an exception writes "error"; a stream that runs out writes nothing |
| DroneController.FirstDecided | api/drone_controller.py:20-37 | the index of the first event that decides the wait: every earlier event is a disconnected state within 30 s |
| DroneController.ConnectDecidedBy | api/drone_controller.py:20-37 | if the first deciding event is at k, the outcome of `_connect` is that event's decision |
| DroneController.ConnectRunsOut | api/drone_controller.py:20-37 | a stream of undecided states only makes `_connect` fall off its end |
| DroneController.ConnectOutcomeIsFirstDecision | api/drone_controller.py:17-42 | `_connect` gives the decision of the first deciding event: connected (even after the timeout) is success, disconnected after 30 s is a timeout, an exception is an error; with no such event it returns None |
| DroneController.ConnectFailureHealth | api/drone_controller.py:28-41 | when the first deciding event is a disconnected state (necessarily past 30 s), `run` ends with "timeout" and no further request; when it is an exception, with "error"; when it is a connected state, arming follows; with no deciding event the entry is unchanged |
| DroneController.OffboardOutcome | api/drone_controller.py:57-70 | offboard is enabled iff both SDK calls return; an OffboardError from either, with `start` called only after `set_position_ned` returned, gives False |
| DroneController.RunSpec | api/drone_controller.py:147-180 | no arm without a connection; takeoff iff connected and armed; offboard only after a successful takeoff; the mission starts iff every stage succeeded; the final health entry for each failing stage |
| DroneController.PositionRecordOf | api/drone_controller.py:88-101 | latitude, longitude and absolute altitude go to `lat`, `lon`, `abs_alt` |
| DroneController.VelocityRecordOf | api/drone_controller.py:103-115 | north, east, down go to x, y, z |
| DroneController.BatteryRecordOf | api/drone_controller.py:117-129 | level and voltage come from the sample; the temperature is always 25.0 |
| DroneController.Controller.constructor | api/drone_controller.py:6-15 | on a fresh `shared_state`, every entry starts absent, the altitude is the given one, and no request has been made |
| DroneController.Controller.Connect | api/drone_controller.py:17-42 | the loop returns `ConnectOutcome` and writes the matching health entry |
| DroneController.Controller.ArmAndTakeoff | api/drone_controller.py:44-55 | success iff arm and takeoff both return; takeoff is requested only after arm returned; health becomes "flying" or "takeoff_error" |
| DroneController.Controller.EnableOffboard | api/drone_controller.py:57-70 | the hold position (0, 0, -altitude, yaw 0) is sent before start; an OffboardError writes "offboard_error"; any other exception leaves health and escapes |
| DroneController.Controller.Run | api/drone_controller.py:147-180 | the requests issued and the final health equal `RunSpec`; an escaping exception writes "error" |
| DroneController.Controller.PositionTelemetry | api/drone_controller.py:88-101 | after the loop the shared position is the record of the last sample, or unchanged when there was none |
| DroneController.Controller.VelocityTelemetry | api/drone_controller.py:103-115 | the shared velocity is the record of the last sample |
| DroneController.Controller.BatteryTelemetry | api/drone_controller.py:117-129 | the shared battery record is the record of the last sample |
| MockBattery.DrainedLevel | api/drone_handler.py:85 | `max(0, level - 0.1)`: never negative; a non-negative level never rises; above 0.1 it falls by exactly 0.1 |
| MockBattery.DrainedAfterSteps | api/index.py:123-136 | from a non-negative level, n steps give `max(0, level - n/10)` |
| MockBattery.DrainedAfterEmpties | api/index.py:123-136 | once n/10 reaches the level, the level is 0 |
| FlaskHandler.FirstMissing | api/drone_handler.py:21-28 | the first listed field the body lacks, which is the key the KeyError names; none iff all fields are present |
| FlaskHandler.Pick | api/drone_handler.py:21-25 | the stored record has exactly the listed keys, with the posted values |
| FlaskHandler.Accept | api/drone_handler.py:18-28 | stored iff the body is an object with every field; a non-object body raises an uncaught TypeError; a missing field gives 400 "Missing field: 'k'" for the first missing k |
| FlaskHandler.NumericValue | api/drone_handler.py:85 | a stored level can be used in the subtraction iff it is a number or a boolean |
| FlaskHandler.Store.constructor | api/drone_handler.py:10-14 | the initial velocity, battery and camera records |
| FlaskHandler.Store.HandleVelocity | api/drone_handler.py:16-31 | a GET returns the record; a POST stores exactly x, y, z or answers as `Accept` says without storing |
| FlaskHandler.Store.HandleBattery | api/drone_handler.py:33-48 | the same for level, voltage and temperature |
| FlaskHandler.Store.HandleCamera | api/drone_handler.py:50-74 | no 'frame' file gives 400 "No frame provided"; an empty name gives 400 "Empty frame"; a failed save gives 500 with the message; only a successful save replaces the record |
| FlaskHandler.Store.MockStep | api/drone_handler.py:76-89 | velocity is replaced first; the battery level is drained; a non-numeric stored level raises and leaves the battery record as it was |
| FlaskHandler.VelocityRoundTrip | api/drone_handler.py:16-31 | a POST with x, y, z and an extra key, then a GET, returns exactly the posted three |
| ApiIndex.FrameName | api/index.py:92 | the file name is "frame_" + stamp + ".jpg", and the stamp can be read back from it |
| ApiIndex.FrameNameInjective | api/index.py:92 | distinct stamps give distinct file names |
| ApiIndex.CameraReplyFor | api/index.py:86-99 | success iff the name is present and non-empty and the write succeeds; an empty name gives 400 "Empty frame"; a failed write gives 500 |
| ApiIndex.Store.constructor | api/index.py:13-17 | the initial records |
| ApiIndex.Store.PostVelocity | api/index.py:62-65 | the record is replaced wholesale |
| ApiIndex.Store.GetVelocity | api/index.py:68-70 | returns the stored record |
| ApiIndex.Store.PostBattery | api/index.py:74-77 | the record is replaced wholesale |
| ApiIndex.Store.GetBattery | api/index.py:80-82 | returns the stored record |
| ApiIndex.Store.PostCamera | api/index.py:86-99 | the reply is `CameraReplyFor`; the record changes only on success, to the new file name and time |
| ApiIndex.Store.GetCamera | api/index.py:102-104 | returns the stored record |
| ApiIndex.Store.MockStep | api/index.py:123-136 | the new velocity; the drained level, 12 V plus noise and 25 °C plus noise; the level stays non-negative and does not rise |
| ApiIndex.PostThenGet | api/index.py:62-82 | a GET after a POST returns what was posted |
| Compass.AttitudeView.constructor | app/components/Compass.tsx:17-22 | the attitude starts at all zeros |
| Compass.AttitudeView.OnAttitude | app/components/Compass.tsx:32-35 | an "attitude" event replaces all four fields |
| Compass.AngleBar | app/components/Compass.tsx:118-119 | the width is 0..100 and is 100 iff abs(angle)·scale ≥ 100; below 100 it equals abs(angle)·scale; a negative angle anchors the bar at the right end (margin + width = 100) |
| Compass.AngleBarSymmetric | app/components/Compass.tsx:118-119 | the width does not depend on the sign of the angle |
| Compass.BarsSaturate | app/components/Compass.tsx:118-153 | roll and pitch fill at 50°, yaw at 200° |
| Compass.Ticks | app/components/Compass.tsx:66-80 | twelve ticks, tick i as `TickAt(i)` |
| Compass.TickGeometry | app/components/Compass.tsx:66-80 | tick i is turned by 30·i degrees; exactly the ticks at 0, 90, 180, 270 degrees are the 12px cardinal ones; the others are 8px |
| LeafletMap.KindColourInjective | app/components/LeafletMapComponent.tsx:56-61 | the eight colours differ, so the fill tells both the kind and the completion |
| LeafletMap.CreateWaypointIcon | app/components/LeafletMapComponent.tsx:55-77 | the fill comes from the colour table; the label is the id; a completed waypoint has opacity 0.7 and the checkmark, a pending one opacity 1 and none |
| LeafletMap.CompletionChangesFill | app/components/LeafletMapComponent.tsx:55-77 | completing a waypoint always changes its fill |
| LeafletMap.WaypointMarkers | app/components/LeafletMapComponent.tsx:123-129 | one marker per waypoint, in order, at its position with its icon |
| LeafletMap.MissionPath | app/components/LeafletMapComponent.tsx:133 | one vertex per waypoint, in list order |
| LeafletMap.MissionPathThroughMarkers | app/components/LeafletMapComponent.tsx:123-133 | the route passes through the markers vertex by vertex |
| LeafletMap.MissionPolyline | app/components/LeafletMapComponent.tsx:131-138 | the planned route is always drawn through `MissionPath`, in green (#10B981), 2 px wide |
| LeafletMap.FlightPolyline | app/components/LeafletMapComponent.tsx:141-150 | the flown route is drawn iff it has two points or more, through exactly those points, in red (#EF4444), 3 px wide |
| LeafletMap.FlightPathDrawnFromTwoPoints | app/components/LeafletMapComponent.tsx:141-150 | an empty path or a single fix draws nothing; appending a point draws the line iff there was already one; a drawn flown line differs from the planned one in colour and weight |
| LeafletMap.RealTimeMarker | app/components/LeafletMapComponent.tsx:160-166 | shown iff there is a position, latitude and longitude are non-zero, and one of them differs from the map coordinates by more than 0.00001; it is at the reported position |
| BatteryStatus.BandOf | app/components/BatteryStatus.tsx:24-28 | green iff level > 50, yellow iff 20 < level ≤ 50, red iff level ≤ 20 |
| BatteryStatus.BandBoundaries | app/components/BatteryStatus.tsx:24-28 | 50 is yellow and 20 is red: each boundary belongs to the lower band |
| BatteryStatus.BandMonotone | app/components/BatteryStatus.tsx:24-28 | a higher level never falls in a worse band |
| BatteryStatus.BadgeAndBarAgree | app/components/BatteryStatus.tsx:43-49 | the badge's and the bar's conditional chains both follow the band rule |
| BatteryStatus.BarWidthPercent | app/components/BatteryStatus.tsx:42 | the width in percent equals the level, unclamped: inside 0..100 for a level in 0..100, outside it otherwise |
| BatteryStatus.BarWidthMonotone | app/components/BatteryStatus.tsx:42 | a higher level never gives a narrower bar |
| PwaInstaller.Next | app/components/PWAInstaller.tsx:23-57 | `beforeinstallprompt` keeps the event and shows the button; `appinstalled` clears both; an install click with a prompt uses the prompt up whatever the choice, and does nothing without one; Later only hides the button; every handler keeps "button ⇒ prompt" |
| PwaInstaller.Prompted | app/components/PWAInstaller.tsx:43-46 | an install click shows the kept prompt iff there is one |
| PwaInstaller.ReplayConsistent | app/components/PWAInstaller.tsx:6-57 | after any sequence of events the button is never shown without a prompt to use |
| PwaInstaller.InstallClickTwice | app/components/PWAInstaller.tsx:43-57 | a second install click does nothing |
| PwaInstaller.Installer.constructor | app/components/PWAInstaller.tsx:6-7 | no prompt and no button |
| PwaInstaller.Installer.OnBeforeInstallPrompt | app/components/PWAInstaller.tsx:23-27 | the new state is `Next` of the event |
| PwaInstaller.Installer.OnAppInstalled | app/components/PWAInstaller.tsx:32-36 | the new state is `Next` of the event |
| PwaInstaller.Installer.OnInstallClick | app/components/PWAInstaller.tsx:43-57 | the new state and the prompt shown are `Next` and `Prompted` |
| PwaInstaller.Installer.OnLaterClick | app/components/PWAInstaller.tsx:89 | the new state is `Next` of the click |
| PwaInstaller.PermissionNotification | app/components/PWAInstaller.tsx:60-71 | a notification is created iff the API exists and permission is granted, with the station's title and icon |
| ServiceWorker.IndexOf | public/sw.js:14 | the position of the first cache with the name |
| ServiceWorker.Open | public/sw.js:14 | `caches.open` returns the existing cache or adds an empty one at the end; names stay distinct |
| ServiceWorker.Replace | public/sw.js:17 | only the named cache changes; the names stay as they were |
| ServiceWorker.Without | public/sw.js:42-47 | exactly the caches whose names are not deleted remain, in order |
| ServiceWorker.WithoutTwice | public/sw.js:42-47 | deleting one set of names then another is deleting their union |
| ServiceWorker.WithoutNothing | public/sw.js:42-47 | deleting no names changes nothing |
| ServiceWorker.WithoutAll | public/sw.js:42-47 | deleting every name leaves no cache |
| ServiceWorker.WithoutAllBut | public/sw.js:42-47 | deleting every name but one leaves just that cache |
| ServiceWorker.StaleNames | public/sw.js:41-44 | a cache name is stale iff it is not "drone-control-v1" |
| ServiceWorker.NamesOf | public/sw.js:41 | the cache names, in order |
| ServiceWorker.DeleteStep | public/sw.js:43-45 | one more deletion extends the set of stale names deleted so far |
| ServiceWorker.StalePrefixOfNames | public/sw.js:41-47 | the stale names among the first n caches |
| ServiceWorker.StalePrefixOfAllNames | public/sw.js:41-47 | after all the caches, those are all the stale names |
| ServiceWorker.AddAll | public/sw.js:17 | every listed URL maps to its network response; no other entry changes |
| ServiceWorker.InstallEffect | public/sw.js:12-20 | install succeeds iff all six URLs are fetched with a storable response; on failure the cache is opened but nothing is stored (`addAll` is atomic); other caches are kept |
| ServiceWorker.MatchAll | public/sw.js:25-26 | a hit iff the request is a GET and some cache holds the URL; the answer comes from the first such cache |
| ServiceWorker.Fetch | public/sw.js:23-35 | a cache hit is served from the cache; otherwise the network answer; an error iff neither exists |
| ServiceWorker.InstalledThenActivatedServesPrecache | public/sw.js:12-51 | after a successful install and then activation, every precached URL is served from the cache with its installed response, online or not |
| ServiceWorker.OrDefault | public/sw.js:58-65 | the JavaScript `a \|\| b` default on strings: an absent or empty value gives the fallback |
| ServiceWorker.Push | public/sw.js:54-84 | a notification iff the push has data that parses as JSON; the title, body and URL have defaults, so none is empty; the two actions are "view" and "dismiss" |
| ServiceWorker.NotificationClick | public/sw.js:87-106 | the notification always closes; "view" opens the data URL or "/"; "dismiss" opens nothing; any other action opens "/" |
| ServiceWorker.SyncEffect | public/sw.js:116-140 | a POST happens iff offline data is stored and parses; the entry is deleted only after a resolved POST; otherwise the caches stay as `caches.open` left them |
| ServiceWorker.Worker.constructor | public/sw.js:1-9 | the cache storage the worker starts with |
| ServiceWorker.Worker.OnInstall | public/sw.js:12-20 | the new caches and the verdict are `InstallEffect` |
| ServiceWorker.Worker.OnActivate | public/sw.js:38-51 | the loop deletes every stale cache: exactly the caches named "drone-control-v1" remain |
| ServiceWorker.Worker.OnFetch | public/sw.js:23-35 | the response is `Fetch` on the current caches |
| ServiceWorker.Worker.OnSync | public/sw.js:109-113 | another tag does nothing; "drone-data-sync" runs `SyncEffect` |
| Capture.Decimal | video_viewer.py:47 | the port's decimal digits as an f-string prints them: all '0'..'9', denoting the port, with no leading zero |
| Capture.DecimalInjective | video_viewer.py:47 | different numbers print differently |
| Capture.UdpSourceInjective | video_viewer.py:47 | different ports give different `udpsrc` sources |
| Capture.Candidates | video_viewer.py:42-56 | four candidates in the order tried: three are "udpsrc port=<port>" followed by the viewer's decoder tail, the fourth is its test pattern |
| Capture.Probed | video_viewer.py:58-79 | probing stops right after the first candidate that opens and gives a frame; otherwise it tries all of them |
| Capture.ProbedUpToFirstWorking | video_viewer.py:58-70 | if the first working candidate is at k, exactly k+1 are probed |
| Capture.Selected | video_viewer.py:58-79 | the first candidate that works, or else the last (the test pattern) |
| Capture.Released | simple_video_viewer.py:45-71 | exactly the probed captures that the viewer releases, in increasing order |
| Capture.FpsStep | video_viewer.py:144-152 | a report iff a second has passed since the last one; it reports the count including this frame, then resets |
| Capture.ReadStep | video_viewer.py:106-128 | a good read resets the failures and counts the frame; a bad read counts a failure; the 30th in a row halts before a placeholder; a placeholder always shows 1..29 |
| Capture.GoodReadsAppend | video_viewer.py:108-110 | good reads are counted additively over concatenation |
| VideoViewer.CaptureLoop | video_viewer.py:103-132 | the loop ends when the reads run out (stopped), after 30 failures in a row, or when a read raises; every placeholder shows 1..29; every FPS report is positive |
| VideoViewer.LoopStep | video_viewer.py:103-132 | one non-halting read followed by the rest of the loop is the loop |
| VideoViewer.CaptureLoopCountsFrames | video_viewer.py:108-110 | the frame count grows by exactly the good reads consumed |
| VideoViewer.GaveUpAfterBadRun | video_viewer.py:113-119 | giving up takes the remaining 30 − failures bad reads in a row, from the start or right after a good read |
| VideoViewer.GaveUpAfterThirtyBad | video_viewer.py:103-119 | from a fresh loop, giving up means the last thirty reads consumed all failed |
| VideoViewer.ThreadRun | video_viewer.py:81-142 | the statuses begin "Initializing video capture..." and end "Video capture stopped"; a capture that raises or does not open changes only the statuses; an open one has "Video capture started", runs the loop, and leaves `running` set unless stopped |
| VideoViewer.VideoStreamThread.constructor | video_viewer.py:33-40 | not running, no frames, the FPS clock at the start time |
| VideoViewer.VideoStreamThread.SetupPipeline | video_viewer.py:42-79 | returns the selected one of the Qt viewer's candidates (its tails and the plain ball pattern); releases exactly the probes that opened and whose test read returned, in order; a capture whose test read raised is not released |
| VideoViewer.VideoStreamThread.CalculateFps | video_viewer.py:144-152 | the counter and reports follow `FpsStep` |
| VideoViewer.VideoStreamThread.Run | video_viewer.py:81-142 | the thread's new state is `ThreadRun` |
| VideoViewer.VideoStreamThread.Consume | video_viewer.py:106-128 | one read as `ReadStep`, on the thread's fields |
| VideoViewer.VideoStreamThread.Stream | video_viewer.py:103-132 | the `while self.running` loop ends as `CaptureLoop` says and leaves its counters and output |
| VideoViewer.VideoStreamThread.Stop | video_viewer.py:154-157 | clears `running` |
| VideoViewer.StartVideo | video_viewer.py:459-464 | a running stream is left alone; otherwise start is disabled and stop enabled; the ports are kept |
| VideoViewer.StopVideo | video_viewer.py:466-472 | a stopped stream is left alone; otherwise it stops, start is enabled, stop disabled and the "stopped" text shown |
| VideoViewer.ChangePortAsWritten | video_viewer.py:474-486 | the window shows the new port, but only a running stream gets a thread on it |
| VideoViewer.ChangePortWhileStoppedStreamsOldPort | video_viewer.py:474-486 | changing 5600 to 5601 while stopped, then starting, streams 5600 while the window shows 5601 |
| VideoViewer.ChangePort | video_viewer.py:474-486 | corrected: the thread always gets the new port; a running stream is restarted on it |
| VideoViewer.ToggleFullscreen | video_viewer.py:506-511 | only the window mode changes, and it flips |
| VideoViewer.ToggleTwice | video_viewer.py:506-511 | toggling twice restores the mode |
| VideoViewer.Initial | video_viewer.py:162-180 | the built window with its auto-start has opposite buttons and the thread on the window's port |
| VideoViewer.ControlsKeepInvariants | video_viewer.py:251-257 | start, stop, the corrected port change and fullscreen each keep the buttons opposite and the ports agreeing |
| VideoViewer.Truncate | video_viewer.py:452 | Python's `int()` truncates toward zero |
| VideoViewer.Uptime | video_viewer.py:452-455 | hours·3600 + minutes·60 + seconds is the whole seconds elapsed; minutes and seconds are in 0..59 |
| VideoViewer.Viewer.constructor | video_viewer.py:162-180 | the window state is `Initial` |
| VideoViewer.Viewer.OnStartVideo | video_viewer.py:459-464 | the new state is `StartVideo`; the invariant is kept |
| VideoViewer.Viewer.OnStopVideo | video_viewer.py:466-472 | the new state is `StopVideo`; the invariant is kept |
| VideoViewer.Viewer.OnChangePort | video_viewer.py:295-298 | for a port in the spin box's 1000..65535, the new state is the corrected `ChangePort` |
| VideoViewer.Viewer.OnToggleFullscreen | video_viewer.py:506-511 | the new state is `ToggleFullscreen` |
| SimpleVideoViewer.KeyCode | simple_video_viewer.py:182 | `waitKey(1) & 0xFF` is the low byte: 0..255, congruent to the raw value, equal to it when it is a byte |
| SimpleVideoViewer.NoKeyIsNoCommand | simple_video_viewer.py:182-199 | no key (-1) gives 255, which is none of q, f, s, h |
| SimpleVideoViewer.TurnStep | simple_video_viewer.py:149-199 | a read that raises, or the 30th failure, ends the turn before the key is read; 'q' quits; 'f' toggles fullscreen; each turn that reaches the key shows exactly one frame or placeholder |
| SimpleVideoViewer.Display | simple_video_viewer.py:149-199 | the loop handles at most one key per turn; if it is still running, every turn was used and every key handled; if it gave up or a read raised, the stopping turn's key is not handled |
| SimpleVideoViewer.DisplayQuitsAtFirstQ | simple_video_viewer.py:183-185 | the loop quits at the first 'q' it reads and nowhere else; when it did not quit, no handled key was 'q'; every placeholder shows 1..29 |
| SimpleVideoViewer.FlipsAppend | simple_video_viewer.py:188-196 | the parity of 'f' presses is additive over concatenation |
| SimpleVideoViewer.TwoPressesCancel | simple_video_viewer.py:188-196 | two 'f' presses in a row cancel out |
| SimpleVideoViewer.FullscreenParity | simple_video_viewer.py:147-196 | the final fullscreen flag is the initial one toggled once per 'f' handled |
| SimpleVideoViewer.Cleanup | simple_video_viewer.py:231-237 | `running` is cleared, a present capture is released, the windows are closed, nothing else changes |
| SimpleVideoViewer.RunSpec | simple_video_viewer.py:119-203 | returns False iff the capture did not open; quitting or giving up cleans up and returns True; a read that raises escapes without cleanup; the counters follow `Display` |
| SimpleVideoViewer.MainExitCode | simple_video_viewer.py:288-322 | 1 without GStreamer; otherwise 0 iff the viewer returned True or was interrupted |
| SimpleVideoViewer.ExitCodeOfRun | simple_video_viewer.py:312-322 | an opened viewer that returns exits 0, an unopened one 1, a raising one 1 |
| SimpleVideoViewer.DisplayStep | simple_video_viewer.py:149-199 | a non-stopping turn followed by the rest of the loop is the loop |
| SimpleVideoViewer.DroneVideoViewer.constructor | simple_video_viewer.py:16-27 | not running, no capture, windows open, zero counts |
| SimpleVideoViewer.DroneVideoViewer.SetupPipeline | simple_video_viewer.py:29-71 | returns the selected one of this viewer's candidates (its tails, with `sync=false`, and the 640x480 ball pattern); releases the probes that opened and whose test read returned, and also captures that did not open; a capture whose test read raised is not released |
| SimpleVideoViewer.DroneVideoViewer.CalculateFps | simple_video_viewer.py:73-82 | the counter follows `FpsStep` and a report sets `current_fps` |
| SimpleVideoViewer.DroneVideoViewer.TakeTurn | simple_video_viewer.py:149-199 | one turn as `TurnStep`, on the viewer's fields |
| SimpleVideoViewer.DroneVideoViewer.Loop | simple_video_viewer.py:145-199 | the loop ends as `Display` says and leaves its counters, FPS and output |
| SimpleVideoViewer.DroneVideoViewer.Run | simple_video_viewer.py:119-203 | the new state and the result are `RunSpec` |
| SimpleVideoViewer.DroneVideoViewer.CleanupNow | simple_video_viewer.py:231-237 | the new state is `Cleanup` |

## Left out

- The asyncio scheduling in `api/drone_controller.py` is left out. The telemetry
  tasks are modelled one loop at a time and their interleaving is not kept.
  `_telemetry_loop`'s `gather` is not modelled.
- `_mission_loop` is left out: it needs `atan2`, floating point and an endless
  loop. `Run` ends once the mission is started.
- Python's `round()` in the velocity and battery telemetry is not modelled
  (floating point). The records hold the values as received.
- The random draws of both mock generators are parameters. `time.sleep` and
  `asyncio.sleep` are left out.
- Request parsing by pydantic and FastAPI is left out: the FastAPI endpoints receive
  typed payloads. Flask's `get_json` is modelled as an already parsed JSON value.
- The Socket.IO `emit_loop`, the `connect` handler, the startup hook and
  `hello_world` in `api/index.py` are left out (network I/O).
- Qt widgets, OpenCV windows, GStreamer and `add_overlay` are left out; only what
  they show is kept. `save_screenshot`, `take_screenshot`, `show_help`,
  `show_about`, the menu bar and `closeEvent` are left out: they only write output.
- The uptime string's zero padding and the clock label are left out. `Uptime`
  keeps the arithmetic.
- In `Compass.tsx`, the heading arrow's rotation, the socket setup and the unused
  degree helper are left out. The static markup of every component is left out too.
- `ServiceWorker.Worker`: the browser's `registration`, `clients.openWindow` and
  `console` calls are left out. `waitUntil` is modelled as the handler running to
  completion.
- The Notification API of `PWAInstaller.tsx` is reduced to its answer, a parameter.
- `connect_qgc.py`, `GPSMap.tsx`, `VideoFeed.tsx`, `TelemetryData.tsx`,
  `SystemStatus.tsx`, both `page.tsx` files, `manifest.ts` and `layout.tsx` are not
  part of this model.
- `check_gstreamer`, `test_udp_stream` and `check_dependencies` run subprocesses
  and are replaced by their answers. `main` of `video_viewer.py`, which starts the
  Qt application, is not modelled.
- BatteryStatus: the ETA is the fixed text "00:22:15" in the component
  (`BatteryStatus.EtaLabel`). A linear time-remaining estimate does not exist in the
  code, so none is modelled.
- A waypoint track buffer, marking waypoints completed, a capability matrix and a
  message dispatcher are described for the repository, but no core file implements them.
  They are not modelled.
- MockBattery.DrainedAfterSteps: levels, voltages and all other Python floats and
  JavaScript numbers are exact reals. The equality `max(0, level - n/10)` holds for
  reals. Repeated IEEE subtraction of 0.1 accumulates rounding error that is not
  modelled; the same holds for `MockBattery.DrainedAfterEmpties`.
- PwaInstaller.Installer.OnInstallClick: `handleInstallClick` awaits `userChoice`
  between `prompt()` and clearing the two fields. The model takes the click and the
  answer as one step, so events that interleave during the await are not captured.
- Capture.Decimal: ports are `nat`. argparse would accept a negative `--port`, whose
  f-string has a minus sign; that case is not modelled.
- MockBattery.DrainedLevel: "never increases" holds only for non-negative levels.
  A negative stored level is raised to 0, as `max` does.
- VideoViewer.VideoStreamThread.Stop: the concurrent `stop()` from the window
  thread is not modelled. A stop is the reads running out (exit `Stopped`), and
  `wait()` is left out.
- VideoViewer.StartVideo: whether the started thread opens its capture is a
  parameter. The race between `start()` and the thread setting `running` is not
  modelled.
- VideoViewer.ThreadRun: the text of an exception is a parameter (`errorText`).
  Which exception `cv2` raises is not modelled.
- SimpleVideoViewer.DroneVideoViewer.Loop: a loop that has not ended when the turns
  run out is reported as `Pending`. `Run` then returns `StillRunning`.

## Findings

| source | as written | input that shows it | evidently intended | confidence | as-written member | corrected member |
|---|---|---|---|---|---|---|
| video_viewer.py:474-486 | `change_port` updates the window's port but replaces the video thread only while it is running | port 5600, stopped; change to 5601; press Start: the old thread starts again on 5600 while the label says 5601 | the next start streams the port the window shows | not executed | VideoViewer.ChangePortWhileStoppedStreamsOldPort | VideoViewer.ControlsKeepInvariants |

`VideoViewer.ChangePortAsWritten` models `change_port` as written.
`VideoViewer.ChangePort` is the corrected definition, and `VideoViewer.Viewer.OnChangePort`
uses it. `ControlsKeepInvariants` proves that it keeps the thread on the window's port.
