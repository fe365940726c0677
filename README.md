# Drowsiness detection: the page controllers and the detection loop

The repository is a drowsiness monitor in three parts:

- a Flask server (`app.py`) whose detection thread measures the eye aspect
  ratio and lip distance of every face the camera shows. It keeps a counter
  of consecutive closed-eye measurements and publishes a metrics record.
- a page controller driven by that server (`Static/script.js`). It starts
  and stops detection on the server, polls the metrics every second while
  running, and turns each reply into a status banner, an alert and a sound
  cue.
- a stand-alone page controller (`frontend/script.js`). It opens the local
  camera and fabricates a measurement on every animation frame, then
  classifies it against the user's thresholds.

Both controllers keep a feed of at most five alerts, an elapsed-time
readout and a settings record mirrored in the browser's local storage.

The model is written in Dafny, one module per concern:

| module | file | what it holds |
|---|---|---|
| `Optional` | `optional.dfy` | the `Option` type |
| `Metrics` | `metrics.dfy` | the metrics record, eye and yawn statuses, the status banners |
| `AlertFeed` | `alert_feed.dfy` | the alert list as a value, the JavaScript `includes` test, append with the five-alert bound, the duplicate check, the delayed removal of info alerts |
| `SessionClock` | `session_clock.dfy` | the `MM:SS` readout and a parser that reads it back |
| `SettingsStore` | `settings_store.dfy` | the settings record, its defaults, load (spread of the stored record), save |
| `DetectionServer` | `detection_server.dfy` | the eye-closure state machine of `detection_loop` as functions over frames; a `Server` class whose loop methods are proved against them; the `is_detecting` guard |
| `BackendUI` | `backend_ui.dfy` | banner precedence and alert/sound reaction to a metrics reply; a `Controller` class for `Static/script.js` |
| `SimulatedUI` | `simulated_ui.dfy` | the threshold classification of the simulator; a `Controller` class for `frontend/script.js` |

State that the JavaScript and Python code changes in place is modelled that way:

- The page controllers and the server are classes. Their methods update
  fields under `modifies` clauses.
- The alert container is a `seq<Alert>` field. Each alert carries an id that
  stands for its DOM node, so that an expiring info alert removes only its
  own node.
- Browser timers and camera streams are handles in sets of live intervals
  and live streams.
- Each method states its whole new state through pure functions over
  values: the server loop through `FaceStep`, `FrameStep` and `Run` over a
  `LoopState`, the pages through `Append`, `AppendUnlessShown`, `Measured`,
  `Saved` and `Load`.
- The lemmas prove what the code promises about those functions.

Nondeterministic inputs are parameters of the methods. These are:

- the server's answer to a start or stop request;
- a metrics reply, or its failure;
- whether the camera is granted;
- the two random draws of the simulator;
- the clock reading;
- each frame's face measurements.

## Model

| member | source | states |
|---|---|---|
| AlertFeed.IncludesIsSubstring | Static/script.js:284 | `includes` holds exactly when the message occurs at some offset of the alert's text (an independent definition of substring) |
| AlertFeed.Includes | Static/script.js:284 | definition: JavaScript `text.includes(pattern)`, tried at each offset from the front; IncludesIsSubstring proves it equal to the substring definition |
| AlertFeed.TextIncludesMessage | Static/script.js:289-294 | the text of an alert node (template whitespace, message, whitespace) always contains its own message, so a message already on screen is always recognised |
| AlertFeed.Append | Static/script.js:296-302 | definition: the new alert goes last, and the first (oldest) alert is dropped once there are more than five; AppendShape and AppendKeepsOrder state what it keeps |
| AlertFeed.AppendUnlessShown | Static/script.js:280-302 | definition: the feed is unchanged when some displayed alert's text contains the message, otherwise Append; AppendUnlessShownKeepsInvariants states what it keeps |
| AlertFeed.AppendAll | frontend/script.js:199-218 | definition: notices appended one after the other with consecutive ids; AppendAllKeepsIds and AppendAllConcat state its properties |
| AlertFeed.AppendShape | Static/script.js:296-302 | the new alert is the last one shown; the list grows by one until it holds five and then keeps its length; a list of at most five stays at most five |
| AlertFeed.AppendKeepsOrder | Static/script.js:296-301 | the alerts kept beside the new one are the newest old ones in their old order; on overflow exactly the oldest is gone |
| AlertFeed.AppendKeepsIds | Static/script.js:289-302 | appending a fresh node keeps node ids increasing from oldest to newest and below the next id, and keeps the five-alert bound |
| AlertFeed.AppendAllKeepsIds | frontend/script.js:199-218 | the same for a batch of alerts appended one after the other |
| AlertFeed.AppendAllConcat | frontend/script.js:83-114 | appending two batches in turn is appending their concatenation, with ids numbered on |
| AlertFeed.AppendUnlessShownKeepsInvariants | Static/script.js:280-302 | the duplicate-checked append keeps the ids ordered, the bound of five, and the property that no alert's message is visible in an older alert's text |
| AlertFeed.NoRepeatsMeansDistinctMessages | Static/script.js:282-287 | under the duplicate check no two displayed alerts carry the same message |
| AlertFeed.Remove | Static/script.js:305-310 | the expiry of an info alert never lengthens the feed; RemoveMembers, RemoveAt and RemoveAbsent state exactly what it keeps |
| AlertFeed.RemoveMembers | Static/script.js:305-310 | the expiry of an info alert keeps exactly the alerts with another node id |
| AlertFeed.RemoveAt | Static/script.js:305-310 | removing the node at position i leaves every other alert, in order |
| AlertFeed.RemoveAbsent | Static/script.js:307-309 | expiring a node that was already evicted changes nothing (the parent-node guard) |
| AlertFeed.RemoveKeepsIds | Static/script.js:305-310 | expiry keeps the ids ordered and below the next id |
| AlertFeed.RemoveKeepsNoRepeats | Static/script.js:305-310 | expiry keeps the no-repeated-message property |
| SessionClock.DecimalString | Static/script.js:209 | `toString` of a non-negative integer is a non-empty run of digits, a single one exactly when the number is below ten |
| SessionClock.PadStart2 | Static/script.js:209 | definition: JavaScript `padStart(2, '0')`; PaddedValue states its length and value |
| SessionClock.Format | Static/script.js:206-209 | definition: the `MM:SS` readout of elapsed milliseconds; ParseFormat and FormatInjective state what it shows |
| SessionClock.DecimalStringValue | Static/script.js:209 | the digits read back as the number |
| SessionClock.PaddedValue | Static/script.js:209 | `padStart(2, '0')` gives at least two digits with the same value |
| SessionClock.WholeSeconds | Static/script.js:206-208 | minutes times 60 plus seconds of the minute is the whole seconds elapsed |
| SessionClock.ParseFormat | Static/script.js:206-209 | the readout parses back to (elapsed div 60000, (elapsed mod 60000) div 1000); seconds are below 60, both fields have at least two digits, and they add up to the whole seconds elapsed |
| SessionClock.FormatInjective | Static/script.js:206-209 | two readouts are equal exactly when the same number of whole seconds has elapsed |
| SessionClock.MinutesOfWholeSeconds | Static/script.js:207-208 | the minutes and seconds fields are the quotient and remainder of the whole seconds by 60 |
| SettingsStore.Merge | Static/script.js:390 | the spread keeps every key of both records; stored keys win, every other key keeps its current value |
| SettingsStore.Load | Static/script.js:387-392 | no stored record leaves the settings as they are; a stored record is spread over them |
| SettingsStore.Saved | Static/script.js:347-350 | the three inputs overwrite their keys (the yawn threshold as a whole number); every other key stays |
| SettingsStore.MergeIdempotent | Static/script.js:390 | loading the same record twice is loading it once |
| SettingsStore.ReloadRestoresSaved | Static/script.js:365 | a fresh page that loads a record this controller saved gets exactly that record |
| SettingsStore.LoadAfterReset | Static/script.js:370-383 | after a reset (defaults, storage cleared) a later load keeps the defaults, which hold all three keys |
| SettingsStore.LoadKeepsComplete | Static/script.js:387-392 | loading never loses one of the three setting keys |
| SettingsStore.Below | frontend/script.js:200 | definition: JavaScript `x < setting`, false unless the setting holds a number; EyeFor states the classification through it |
| SettingsStore.Above | frontend/script.js:211 | definition: JavaScript `x > setting`, false unless the setting holds a number; YawnFor states the classification through it |
| DetectionServer.FaceStep | app.py:158-182 | a closed-eye face adds one to the counter and reports Drowsy exactly at 30 or more, Warning below, and the alarm is on exactly when it was already on or the counter has reached 30; an open-eye face resets the counter and the alarm and reports Normal; the yawn status is Yawning exactly above 20; the alert is counted only when the alarm turns on |
| DetectionServer.FaceSteps | app.py:143-191 | the faces of a frame leave the face-detected flag alone and never take back a printed alert |
| DetectionServer.FrameStep | app.py:119-195 | a dropped frame changes nothing; a frame sets face_detected to whether it has faces; a faceless frame keeps the counter and the alarm and reports No Face for both statuses |
| DetectionServer.Run | app.py:117-199 | definition: the loop over the frames read while detecting; CounterIsClosedRun, RunConsistent and the alarm lemmas state its properties |
| DetectionServer.ClosedRun | app.py:163-175 | reference count of the closed-eye measurements since the last open-eye one: all trailing measurements are closed and the one before them is open |
| DetectionServer.FaceStepsCounter | app.py:143-175 | over a frame's faces the counter follows the reference count |
| DetectionServer.CounterIsClosedRun | app.py:113-175 | COUNTER, started at 0, is the number of consecutive closed-eye measurements since the last open-eye one; faceless and dropped frames neither add to it nor reset it |
| DetectionServer.FaceStepsConsistent | app.py:163-175 | each face keeps the invariant: alarm on exactly while the counter is 30 or more, Drowsy only then |
| DetectionServer.RunConsistent | app.py:117-195 | the whole loop keeps that invariant |
| DetectionServer.DrowsyNeedsThirtyClosed | app.py:113-171 | from any metrics left by an earlier session, the eye status is Drowsy only after at least 30 consecutive closed-eye measurements, or when a stale Drowsy record was carried over and no frame has been captured since |
| DetectionServer.OneAlarmPerClosedRun | app.py:165-169 | while the eyes stay closed the alarm is raised at most once, and stays on once raised |
| DetectionServer.RunConcat | app.py:117-199 | running the loop over two stretches of frames in turn is running it over both |
| DetectionServer.OneAlarmPerClosedFrames | app.py:163-175 | from any state of the loop, over frames whose measured faces are all closed, the drowsiness alert is printed at most once, not at all if the alarm was already on, and the alarm stays on once raised |
| DetectionServer.OneAlarmPerClosedStretch | app.py:163-175 | mid-session, after any frames (for instance ending in an open-eye face), a stretch of closed-eye frames adds at most one printed alert |
| DetectionServer.OneAlarmPerClosedSession | app.py:113-169 | over a session in which every measured face was closed, the drowsiness alert is printed at most once |
| DetectionServer.Server.constructor | app.py:17-28 | detection off, no camera, the initial metrics record |
| DetectionServer.Server.StartDetection | app.py:229-243 | while detecting, the reply is the 'already running' error; otherwise the flag is set and the reply is success, or the spawn error's message |
| DetectionServer.Server.StopDetection | app.py:245-257 | the flag is cleared, the camera released, the reply is success whatever the state before |
| DetectionServer.Server.ProcessFace | app.py:143-182 | the in-place update of the counter, alarm and shared metrics for one face is FaceStep |
| DetectionServer.Server.ProcessFrame | app.py:119-195 | one pass of the loop over a frame is FrameStep |
| DetectionServer.Server.DetectionLoop | app.py:82-203 | a camera that cannot be opened leaves the metrics alone; otherwise counter, alarm, metrics and printed alerts end as Run from a fresh counter over the previous session's metrics; the camera ends released |
| BackendUI.BannerFor | Static/script.js:253-261 | the banner is no-face exactly without a face, drowsiness exactly with a face and Drowsy, yawning exactly with a face, not Drowsy and Yawning, active otherwise |
| BackendUI.ReactionFor | Static/script.js:245-250 | the sound plays exactly when Drowsy, with the danger alert; the yawn warning comes exactly when Yawning and not Drowsy; nothing otherwise |
| BackendUI.Post | Static/script.js:245-250 | definition: the feed after the optional alert of a metrics reply, through the duplicate check; UpdateMetrics states it is what the page shows |
| BackendUI.NoFaceFrameIsQuiet | app.py:193-195 | a faceless frame from the server reaches the page as the no-face banner, with no alert and no sound |
| BackendUI.PageAlarmFollowsServerCounter | app.py:163-171 | for a frame with faces the page sounds the alarm exactly when the last face is closed and COUNTER has reached 30, and shows the drowsiness banner exactly then |
| BackendUI.Controller.constructor | Static/script.js:2-16 | not running, empty feed, no timers; the settings are the defaults with the stored record loaded over them |
| BackendUI.Controller.AlreadyShown | Static/script.js:282-287 | the loop over the displayed alerts answers whether some alert's text contains the message |
| BackendUI.Controller.AddAlert | Static/script.js:280-312 | the feed becomes the duplicate-checked append; an info alert that is shown is scheduled to expire; the invariants hold |
| BackendUI.Controller.ExpireAlert | Static/script.js:305-310 | the feed loses that node only, and the invariants hold |
| BackendUI.Controller.VideoStreamError | Static/script.js:85-88 | a video error posts the stream-error danger alert |
| BackendUI.Controller.StartSessionTimer | Static/script.js:203-212 | a new live interval whose handle the controller keeps |
| BackendUI.Controller.StartMetricsPolling | Static/script.js:214-227 | likewise for the metrics poller |
| BackendUI.Controller.StartDetection | Static/script.js:91-132 | the info alert, then on success running with the active banner, start time and both timers, then the success alert; on any failure the danger alert and nothing else changes; a start from a stopped page leaves no orphan timer |
| BackendUI.Controller.StartAnswered | Static/script.js:103-131 | after the start request: on success the running session and the success alert, otherwise only the danger alert and nothing else changes |
| BackendUI.Controller.BeginSession | Static/script.js:105-123 | the success branch: running, active banner, start time, two fresh timers, then the success alert |
| BackendUI.Controller.OpenSession | Static/script.js:111-121 | the session state of the success branch; a start from a stopped page leaves every live timer owned |
| BackendUI.Controller.StopDetection | Static/script.js:134-170 | with a reply: not running, ready banner, both timers cleared and no longer live, the info alert; without one: only the danger alert |
| BackendUI.Controller.ClearTimers | Static/script.js:152-162 | both handles are dropped and their intervals are no longer live |
| BackendUI.Controller.ClockTick | Static/script.js:204-211 | with a (non-zero) start time the readout becomes the `MM:SS` of the time elapsed; without one nothing changes |
| BackendUI.Controller.UpdateMetrics | Static/script.js:229-262 | the banner is BannerFor of the reply; the feed gets the alert of ReactionFor; the alert sound setting is played exactly when Drowsy |
| BackendUI.Controller.PollTick | Static/script.js:215-219 | a tick while stopped sends nothing; a tick while running sends one metrics request |
| BackendUI.Controller.MetricsArrived | Static/script.js:219-225 | the answer to a pending request: a failed request changes nothing; a reply is shown as by UpdateMetrics whether or not the page is still running |
| BackendUI.Controller.SaveSettings | Static/script.js:347-368 | the settings become Saved of the inputs, storage holds exactly them, and the success alert is posted |
| BackendUI.Controller.ResetSettings | Static/script.js:370-385 | the settings are exactly the defaults, storage is cleared, the info alert is posted |
| BackendUI.Controller.LoadSettings | Static/script.js:387-392 | the settings become Load of the stored record |
| SimulatedUI.EyeFor | frontend/script.js:200-208 | Drowsy exactly when the EAR is below the EAR threshold setting, Normal otherwise |
| SimulatedUI.YawnFor | frontend/script.js:211-218 | Yawning exactly when the distance is above the yawn threshold setting, Normal otherwise |
| SimulatedUI.SimulatedNotices | frontend/script.js:199-218 | definition: the danger notice when drowsy, then the warning notice when yawning; SimulatedNoticesMeaning states when each appears |
| SimulatedUI.Measured | frontend/script.js:199-218 | definition: the feed after one measurement, alert by alert; MeasuredRaisesNotices proves it is AppendAll of SimulatedNotices |
| SimulatedUI.CameraFeed | frontend/script.js:86-114 | definition: the feed once the camera request is answered; CameraFeedRaisesNotices proves it is AppendAll of the answer's notices |
| SimulatedUI.SimulatedNoticesMeaning | frontend/script.js:199-218 | a measurement raises the danger alert exactly when the eyes are below threshold and the warning exactly when the mouth is above its own, both when both hold, and the count of alerts is exactly the number of thresholds crossed, so nothing else is raised |
| SimulatedUI.CameraNotices | frontend/script.js:86-114 | definition: the camera error when refused, otherwise the first measurement's alerts followed by the success alert; CameraFeedRaisesNotices and StartNoticesShape state its properties |
| SimulatedUI.StartNotices | frontend/script.js:81-116 | definition: the info alert followed by CameraNotices; StartFeedRaisesNotices and StartNoticesShape state its properties |
| SimulatedUI.DefaultsAgreeWithServer | frontend/script.js:7-11 | with the default settings the page classifies the eyes and the mouth as the server does with its constants |
| SimulatedUI.MeasuredRaisesNotices | frontend/script.js:199-218 | one measurement appends exactly its alerts, in order, numbered on |
| SimulatedUI.CameraFeedRaisesNotices | frontend/script.js:94-114 | the answer to the camera request appends exactly its alerts: the camera error, or the first measurement's alerts and the success alert |
| SimulatedUI.StartFeedRaisesNotices | frontend/script.js:81-116 | a start appends exactly the info alert followed by the alerts of the answer |
| SimulatedUI.StartNoticesShape | frontend/script.js:81-116 | a start raises two to four alerts, opens with the info alert and ends with its outcome; a refused start raises two |
| SimulatedUI.Controller.constructor | frontend/script.js:2-16 | not running, empty feed, no frames pending; the settings are the defaults with the stored record loaded over them |
| SimulatedUI.Controller.AddAlert | frontend/script.js:221-245 | the feed becomes Append, with no duplicate check; an info alert is scheduled to expire; the bound of five and the id order hold |
| SimulatedUI.Controller.ExpireAlert | frontend/script.js:238-244 | the feed loses that node only |
| SimulatedUI.Controller.SimulateDetection | frontend/script.js:190-219 | the readouts are EyeFor and YawnFor of the draws, the feed is Measured, and `playAlertSound` is called with the alert sound setting exactly when Drowsy |
| SimulatedUI.Controller.DetectionLoop | frontend/script.js:180-188 | while stopped nothing at all happens; while running, one measurement and one more animation frame requested |
| SimulatedUI.Controller.AnimationFrame | frontend/script.js:187 | a pending frame runs the loop: while running, the measurement of DetectionLoop and the frame replaced by a new one; after a stop it requests no other and changes nothing else, so the pending frames die out |
| SimulatedUI.Controller.StartSessionTimer | frontend/script.js:169-178 | a new live interval whose handle the controller keeps |
| SimulatedUI.Controller.StartDetection | frontend/script.js:81-116 | the feed is the info alert followed by the camera answer's alerts; a refused camera changes nothing else; a granted one starts a running session with the stream (now live), the ticker, the first measurement with its `playAlertSound` call, and one animation frame; a start from a stopped page without leaks leaves no leak |
| SimulatedUI.Controller.OpenCamera | frontend/script.js:86-115 | the camera answer's alerts; a refused camera changes nothing else; the whole session state of a granted camera |
| SimulatedUI.Controller.BeginSession | frontend/script.js:94-110 | running with the stream (now live) and the ticker, the first measurement with its readouts and `playAlertSound` call, then the success alert |
| SimulatedUI.Controller.OpenSession | frontend/script.js:94-105 | the stream is kept and live, the flag set, the banner active, the ticker started; from a stopped page without leaks, every live stream and ticker is held |
| SimulatedUI.Controller.StopDetection | frontend/script.js:118-136 | whatever the state before: no stream and its tracks stopped, not running, no ticker and its interval no longer live, the ready banner, and one more info alert; with no leak before, nothing is left live |
| SimulatedUI.Controller.ClockTick | frontend/script.js:170-177 | with a (non-zero) start time the readout becomes the `MM:SS` of the time elapsed; without one nothing changes |
| SimulatedUI.Controller.SaveSettings | frontend/script.js:277-285 | the settings become Saved of the inputs, storage holds exactly them, the success alert is posted |
| SimulatedUI.Controller.ResetSettings | frontend/script.js:287-302 | the settings are exactly the defaults, storage is cleared, the info alert is posted |
| SimulatedUI.Controller.LoadSettings | frontend/script.js:304-309 | the settings become Load of the stored record |

Behaviour of the code worth knowing, which the model keeps:

- **Duplicate check.** The backend-driven page suppresses an alert when a
  displayed alert's *text contains* the message (`Includes`), not when the
  messages are equal. The stand-alone page has no duplicate check at all.
- **Stored keys.** Loading keeps unknown stored keys (the object spread).
  Saving does no validation.
- **Late metrics replies.** The running flag is tested when the poll tick
  fires (`PollTick`), not when the reply arrives. A reply that arrives after
  a stop is still applied (`MetricsArrived`).
- **Start without a guard.** Neither page tests its running flag on start:
  - on the backend-driven page a second start reaches the server, which
    answers 'already running', and the page posts the failure alert
    through the duplicate check, so a repeat while that alert is still
    displayed adds nothing;
  - a second granted start on the stand-alone page replaces the ticker and
    stream handles, leaving the old interval and the old camera stream live
    (`activeIntervals`, `liveStreams`).
- **Stop without a guard.** Stopping a stopped page is not a no-op. On the
  stand-alone page each stop appends another info alert. On the
  backend-driven page the info alert goes through the duplicate check, so a
  repeat within the first alert's five seconds adds nothing.
- **Server flag after a failure.** On the server, `is_detecting` stays set
  when the camera cannot be opened or the thread cannot be started. Later
  starts answer 'already running' until a stop.
- **Metrics across sessions.** The server's metrics record persists across
  sessions. A new loop starts its counter at 0 but begins from the previous
  session's statuses.

## Left out

- DOM rendering is not modelled: icons, CSS classes (`getStatusClass`,
  `getAlertIcon`), button enabling, the settings modal and its input echo,
  the numeric EAR/yawn readouts and, on the backend-driven page, the eye
  and yawn status text (a copy of the reply's statuses).
- Network and browser APIs become parameters or are not modelled:
  - `fetch` becomes a success flag or an optional reply;
  - `getUserMedia` becomes an optional stream handle;
  - the video element's source is not modelled;
  - on the backend-driven page, audio playback is recorded as the
    alert-sound setting in a `soundsPlayed` list;
  - on the stand-alone page, `soundsPlayed` records each call of
    `playAlertSound` with the alert-sound setting; that function only logs
    the setting (frontend/script.js:257-260), so this page has no audible
    cue;
  - console logging is not modelled.
- Timers: `setInterval`, `setTimeout` and `requestAnimationFrame` become
  handles, a set of live intervals, a counter of pending animation frames
  and an explicit `ExpireAlert` operation. Time itself and the ordering of
  callbacks are not modelled.
- Randomness: the simulator's `Math.random` draws are the parameters `ear`
  and `distance`. Their ranges ([0.2, 0.5) and [15, 40)) are not assumed.
- Floating point: measurements and thresholds are exact `real`s. `toFixed`
  formatting is not modelled.
- `parseFloat`, `parseInt`, JSON and `localStorage`: the stored value is
  the settings record itself. The inputs arrive already parsed, with the
  yawn threshold as an integer.
- Comparisons against a non-numeric setting are false (`Below`, `Above`).
  JavaScript's coercion of numeric strings is not modelled.
- The server's settings route and the copy of the settings posted to it:
  the server does nothing with them.
- Threads: the `frame_lock`, the JPEG frame generator and concurrent access
  to `current_metrics` are not modelled. The loop is one sequential method
  over the frames it reads before it sees the flag cleared.
- OpenCV and dlib: capture, face detection, landmarks, contour drawing, and
  the geometry of `eye_aspect_ratio`, `final_ear` and `lip_distance`. Each
  face enters as a measured (EAR, distance) pair.
- Exceptions raised inside the detection loop body are not modelled.
- The `visibilitychange` handlers only log. The initial HTML and the page
  bootstrap are not modelled.
- BackendUI.Controller.ClockTick: a start time later than the clock reading
  (a clock that runs backwards) leaves the readout unchanged, where the
  ticker's code would format a negative elapsed time.
- SimulatedUI.Controller.ClockTick: the same restriction.
