/** The stand-alone page controller: it opens the local camera, fabricates
    an eye aspect ratio and a lip distance on every animation frame while
    running, classifies them against the settings, and keeps a bounded alert
    feed (without a duplicate check) and the settings. The random draws are
    parameters of the model. */
module SimulatedUI {
  import opened Optional
  import opened AlertFeed
  import opened SettingsStore
  import opened Metrics
  import SessionClock
  import DetectionServer

  /** The eye check of simulateDetection. */
  function EyeFor(settings: Record, ear: real): (e: EyeStatus)
    ensures e == Drowsy <==> Below(ear, Get(settings, EarThresholdKey))
    ensures e == EyeNormal <==> !Below(ear, Get(settings, EarThresholdKey))
  {
    if Below(ear, Get(settings, EarThresholdKey)) then Drowsy else EyeNormal
  }

  /** The yawn check of simulateDetection, independent of the eye check. */
  function YawnFor(settings: Record, distance: real): (y: YawnStatus)
    ensures y == Yawning <==> Above(distance, Get(settings, YawnThresholdKey))
    ensures y == YawnNormal <==> !Above(distance, Get(settings, YawnThresholdKey))
  {
    if Above(distance, Get(settings, YawnThresholdKey)) then Yawning else YawnNormal
  }

  /** The alerts one simulated measurement raises, in the order raised. */
  function SimulatedNotices(settings: Record, ear: real, distance: real): seq<Notice> {
    (if EyeFor(settings, ear) == Drowsy then [Notice(Danger, DrowsyMessage)] else []) +
    (if YawnFor(settings, distance) == Yawning then [Notice(Warning, YawnMessage)] else [])
  }

  /** A measurement raises the drowsiness alert exactly when the eyes are
      below the threshold and the yawn alert exactly when the mouth is above
      its own, both when both hold, and nothing else. */
  lemma SimulatedNoticesMeaning(settings: Record, ear: real, distance: real)
    ensures var ns := SimulatedNotices(settings, ear, distance);
      && |ns| == (if Below(ear, Get(settings, EarThresholdKey)) then 1 else 0) +
                 (if Above(distance, Get(settings, YawnThresholdKey)) then 1 else 0)
      && (Notice(Danger, DrowsyMessage) in ns <==> Below(ear, Get(settings, EarThresholdKey)))
      && (Notice(Warning, YawnMessage) in ns <==> Above(distance, Get(settings, YawnThresholdKey)))
      && (forall i :: 0 <= i < |ns| ==> ns[i].kind in {Danger, Warning})
  {
  }

  /** With the default settings the page and the detection server draw the
      same lines: the eyes count as closed below 0.3 and the mouth as
      yawning above 20 in both. */
  lemma DefaultsAgreeWithServer(s: DetectionServer.LoopState, ear: real, distance: real)
    ensures EyeFor(Defaults, ear) == Drowsy <==> DetectionServer.Closed(DetectionServer.Face(ear, distance))
    ensures YawnFor(Defaults, distance) ==
            DetectionServer.FaceStep(s, DetectionServer.Face(ear, distance)).metrics.yawnStatus
  {
  }

  /** The feed after one simulated measurement, alert by alert: the danger
      alert if drowsy, then the warning alert if yawning. */
  function Measured(feed: seq<Alert>, id: nat, settings: Record, ear: real, distance: real): seq<Alert> {
    var drowsy := EyeFor(settings, ear) == Drowsy;
    var afterEye := if drowsy then Append(feed, Alert(id, Danger, DrowsyMessage)) else feed;
    var nextId := if drowsy then id + 1 else id;
    if YawnFor(settings, distance) == Yawning then Append(afterEye, Alert(nextId, Warning, YawnMessage))
    else afterEye
  }

  /** A simulated measurement raises exactly its notices, numbered in order. */
  lemma MeasuredRaisesNotices(feed: seq<Alert>, id: nat, settings: Record, ear: real, distance: real)
    ensures Measured(feed, id, settings, ear, distance) ==
            AppendAll(feed, id, SimulatedNotices(settings, ear, distance))
  {
    var d, w := Notice(Danger, DrowsyMessage), Notice(Warning, YawnMessage);
    var ns := SimulatedNotices(settings, ear, distance);
    assert AppendAll(feed, id, [d]) == Append(feed, Alert(id, Danger, DrowsyMessage)) by {
      assert [d][..0] == [];
    }
    assert AppendAll(feed, id, [w]) == Append(feed, Alert(id, Warning, YawnMessage)) by {
      assert [w][..0] == [];
    }
    if ns == [d, w] {
      assert [d, w][..1] == [d];
    }
  }

  /** The feed once the camera request is answered, alert by alert: the
      camera error; or the first measurement, then the success alert. */
  function CameraFeed(feed: seq<Alert>, id: nat, granted: bool, settings: Record, ear: real, distance: real): seq<Alert> {
    if granted then
      Append(Measured(feed, id, settings, ear, distance),
             Alert(id + |SimulatedNotices(settings, ear, distance)|, Success, StartedMessage))
    else Append(feed, Alert(id, Danger, StartFailedMessage))
  }

  /** The answer to the camera request raises exactly its notices, numbered in order. */
  lemma CameraFeedRaisesNotices(feed: seq<Alert>, id: nat, granted: bool, settings: Record, ear: real, distance: real)
    ensures CameraFeed(feed, id, granted, settings, ear, distance) ==
            AppendAll(feed, id, CameraNotices(granted, settings, ear, distance))
  {
    if granted {
      var sim := SimulatedNotices(settings, ear, distance);
      AppendAllSnoc(feed, id, sim, Notice(Success, StartedMessage));
      MeasuredRaisesNotices(feed, id, settings, ear, distance);
    } else {
      var failed := Notice(Danger, StartFailedMessage);
      AppendAllSnoc(feed, id, [], failed);
      assert [] + [failed] == [failed];
    }
  }

  /** A start raises exactly its notices, numbered in order. */
  lemma StartFeedRaisesNotices(feed: seq<Alert>, id: nat, granted: bool, settings: Record, ear: real, distance: real)
    ensures CameraFeed(Append(feed, Alert(id, Info, StartingMessage)), id + 1, granted, settings, ear, distance) ==
            AppendAll(feed, id, StartNotices(granted, settings, ear, distance))
  {
    CameraFeedRaisesNotices(Append(feed, Alert(id, Info, StartingMessage)), id + 1, granted, settings, ear, distance);
    AppendAllCons(feed, id, Notice(Info, StartingMessage), CameraNotices(granted, settings, ear, distance));
  }

  class Controller {
    var isRunning: bool
    var sessionStartTime: Option<int>
    var sessionTimer: Option<nat>
    /** The camera stream; None when no stream is held. */
    var videoStream: Option<nat>
    var settings: Record
    /** The 'drowsinessSettings' record in local storage. */
    var storage: Option<Record>
    var alerts: seq<Alert>
    var nextAlertId: nat
    /** Info alerts whose five-second removal is still pending. */
    var expiring: set<nat>
    /** The status indicator; None until the controller first sets it. */
    var status: Option<Banner>
    /** The eye and yawn status readouts; None until first written. */
    var eyeReadout: Option<EyeStatus>
    var yawnReadout: Option<YawnStatus>
    /** The session time readout; None until the ticker first writes it. */
    var sessionTime: Option<string>
    /** The alertSound setting passed to each call of `playAlertSound`, in
        order; on this page that call only logs the setting. */
    var soundsPlayed: seq<Option<Value>>
    /** Animation-frame callbacks requested and not yet run. */
    var scheduledFrames: nat
    /** The page's live interval timers, and the next handle the browser hands out. */
    var activeIntervals: set<nat>
    var nextHandle: nat
    /** Camera streams whose tracks have not been stopped. */
    var liveStreams: set<nat>

    ghost predicate Valid()
      reads this
    {
      FeedValid() && Complete(settings) && SessionValid()
    }

    /** At most five alerts, ids in display order. */
    ghost predicate FeedValid()
      reads this`alerts, this`nextAlertId
    {
      |alerts| <= MaxAlerts && IdsBelow(alerts, nextAlertId)
    }

    /** Running exactly while the stream and the ticker handle are held; a
        held ticker and a held stream are live; handles are issued in
        increasing order. */
    ghost predicate SessionValid()
      reads this`isRunning, this`videoStream, this`sessionTimer, this`activeIntervals, this`nextHandle,
        this`liveStreams
    {
      && (isRunning <==> videoStream.Some?)
      && (isRunning <==> sessionTimer.Some?)
      && HandleSet(sessionTimer) <= activeIntervals
      && HandleSet(videoStream) <= liveStreams
      && (forall h :: h in activeIntervals ==> h < nextHandle)
    }

    /** Every live ticker and every live stream is one the controller still
        holds: nothing can keep running unseen. */
    ghost predicate NoLeaks()
      reads this`sessionTimer, this`activeIntervals, this`videoStream, this`liveStreams
    {
      activeIntervals == HandleSet(sessionTimer) && liveStreams == HandleSet(videoStream)
    }

    /** The page loads: default settings, then loadSettings. */
    constructor (stored: Option<Record>)
      ensures Valid() && NoLeaks()
      ensures !isRunning && alerts == [] && expiring == {} && scheduledFrames == 0
      ensures settings == Load(Defaults, stored) && storage == stored
      ensures status.None? && soundsPlayed == [] && activeIntervals == {} && liveStreams == {}
    {
      isRunning, sessionStartTime, sessionTimer, videoStream := false, None, None, None;
      settings, storage := Load(Defaults, stored), stored;
      alerts, nextAlertId, expiring := [], 0, {};
      status, eyeReadout, yawnReadout, sessionTime := None, None, None, None;
      soundsPlayed, scheduledFrames := [], 0;
      activeIntervals, nextHandle, liveStreams := {}, 0, {};
      LoadKeepsComplete(Defaults, stored);
    }

    /** addAlert: append, then drop the oldest if there are more than five. */
    method AddAlert(kind: AlertKind, message: string)
      requires FeedValid()
      modifies this`alerts, this`nextAlertId, this`expiring
      ensures FeedValid()
      ensures alerts == Append(old(alerts), Alert(old(nextAlertId), kind, message))
      ensures nextAlertId == old(nextAlertId) + 1
      ensures expiring == if kind == Info then old(expiring) + {old(nextAlertId)} else old(expiring)
    {
      AppendKeepsIds(alerts, nextAlertId, kind, message);
      alerts := alerts + [Alert(nextAlertId, kind, message)];
      if |alerts| > MaxAlerts {
        alerts := alerts[1..];
      }
      if kind == Info {
        expiring := expiring + {nextAlertId};
      }
      nextAlertId := nextAlertId + 1;
    }

    /** The five-second timeout of info alert `id` fires. */
    method ExpireAlert(id: nat)
      requires FeedValid() && id in expiring
      modifies this`alerts, this`expiring
      ensures FeedValid()
      ensures alerts == Remove(old(alerts), id)
      ensures expiring == old(expiring) - {id}
    {
      RemoveKeepsIds(alerts, id, nextAlertId);
      alerts := Remove(alerts, id);
      expiring := expiring - {id};
    }

    /** simulateDetection with the drawn `ear` and `distance`. */
    method SimulateDetection(ear: real, distance: real)
      requires FeedValid()
      modifies this`eyeReadout, this`yawnReadout, this`alerts, this`nextAlertId, this`expiring, this`soundsPlayed
      ensures FeedValid()
      ensures eyeReadout == Some(EyeFor(settings, ear)) && yawnReadout == Some(YawnFor(settings, distance))
      ensures alerts == Measured(old(alerts), old(nextAlertId), settings, ear, distance)
      ensures nextAlertId == old(nextAlertId) + |SimulatedNotices(settings, ear, distance)|
      ensures expiring == old(expiring)
      ensures soundsPlayed == old(soundsPlayed) +
        (if EyeFor(settings, ear) == Drowsy then [Get(settings, AlertSoundKey)] else [])
    {
      var eye := EyeFor(settings, ear);
      eyeReadout := Some(eye);
      if eye == Drowsy {
        AddAlert(Danger, DrowsyMessage);
        soundsPlayed := soundsPlayed + [Get(settings, AlertSoundKey)];
      }
      var yawn := YawnFor(settings, distance);
      yawnReadout := Some(yawn);
      if yawn == Yawning {
        AddAlert(Warning, YawnMessage);
      }
    }

    /** detectionLoop: nothing at all unless running; otherwise one simulated
        measurement and one more animation frame requested. */
    method DetectionLoop(ear: real, distance: real)
      requires FeedValid()
      modifies this`eyeReadout, this`yawnReadout, this`alerts, this`nextAlertId, this`expiring,
        this`soundsPlayed, this`scheduledFrames
      ensures FeedValid()
      ensures !isRunning ==>
        eyeReadout == old(eyeReadout) && yawnReadout == old(yawnReadout) && alerts == old(alerts) &&
        nextAlertId == old(nextAlertId) && soundsPlayed == old(soundsPlayed) &&
        scheduledFrames == old(scheduledFrames)
      ensures isRunning ==>
        eyeReadout == Some(EyeFor(settings, ear)) && yawnReadout == Some(YawnFor(settings, distance)) &&
        alerts == Measured(old(alerts), old(nextAlertId), settings, ear, distance) &&
        nextAlertId == old(nextAlertId) + |SimulatedNotices(settings, ear, distance)| &&
        soundsPlayed == old(soundsPlayed) +
          (if EyeFor(settings, ear) == Drowsy then [Get(settings, AlertSoundKey)] else []) &&
        scheduledFrames == old(scheduledFrames) + 1
      ensures expiring == old(expiring)
    {
      if !isRunning {
        return;
      }
      SimulateDetection(ear, distance);
      scheduledFrames := scheduledFrames + 1;
    }

    /** A requested animation frame runs detectionLoop. After a stop, each
        pending frame runs once and requests no other, so the loop dies out. */
    method AnimationFrame(ear: real, distance: real)
      requires FeedValid() && scheduledFrames > 0
      modifies this`eyeReadout, this`yawnReadout, this`alerts, this`nextAlertId, this`expiring,
        this`soundsPlayed, this`scheduledFrames
      ensures FeedValid()
      ensures !isRunning ==>
        scheduledFrames == old(scheduledFrames) - 1 && alerts == old(alerts) &&
        eyeReadout == old(eyeReadout) && yawnReadout == old(yawnReadout) &&
        nextAlertId == old(nextAlertId) && soundsPlayed == old(soundsPlayed)
      ensures isRunning ==>
        scheduledFrames == old(scheduledFrames) &&
        eyeReadout == Some(EyeFor(settings, ear)) && yawnReadout == Some(YawnFor(settings, distance)) &&
        alerts == Measured(old(alerts), old(nextAlertId), settings, ear, distance) &&
        nextAlertId == old(nextAlertId) + |SimulatedNotices(settings, ear, distance)| &&
        soundsPlayed == old(soundsPlayed) +
          (if EyeFor(settings, ear) == Drowsy then [Get(settings, AlertSoundKey)] else [])
      ensures expiring == old(expiring)
    {
      scheduledFrames := scheduledFrames - 1;
      DetectionLoop(ear, distance);
    }

    /** startSessionTimer: a new interval timer whose handle the controller keeps. */
    method StartSessionTimer()
      modifies this`sessionTimer, this`activeIntervals, this`nextHandle
      ensures sessionTimer == Some(old(nextHandle))
      ensures activeIntervals == old(activeIntervals) + {old(nextHandle)}
      ensures nextHandle == old(nextHandle) + 1
    {
      sessionTimer := Some(nextHandle);
      activeIntervals := activeIntervals + {nextHandle};
      nextHandle := nextHandle + 1;
    }

    /** The start button. `camera` is what the camera request yields (None
        when it is refused); `ear` and `distance` are the draws of the first
        simulated measurement, made at once by the first detectionLoop. */
    method StartDetection(camera: Option<nat>, now: int, ear: real, distance: real)
      requires Valid()
      modifies this`isRunning, this`status, this`sessionStartTime, this`sessionTimer, this`videoStream,
        this`activeIntervals, this`nextHandle, this`eyeReadout, this`yawnReadout,
        this`alerts, this`nextAlertId, this`expiring, this`soundsPlayed, this`scheduledFrames, this`liveStreams
      ensures Valid()
      ensures alerts == CameraFeed(Append(old(alerts), Alert(old(nextAlertId), Info, StartingMessage)),
                                   old(nextAlertId) + 1, camera.Some?, settings, ear, distance)
      ensures nextAlertId == old(nextAlertId) + |StartNotices(camera.Some?, settings, ear, distance)|
      ensures expiring == old(expiring) + {old(nextAlertId)}
      ensures camera.None? ==>
        isRunning == old(isRunning) && videoStream == old(videoStream) && sessionTimer == old(sessionTimer) &&
        sessionStartTime == old(sessionStartTime) && activeIntervals == old(activeIntervals) &&
        nextHandle == old(nextHandle) && liveStreams == old(liveStreams) && status == old(status) &&
        eyeReadout == old(eyeReadout) && yawnReadout == old(yawnReadout) &&
        scheduledFrames == old(scheduledFrames) && soundsPlayed == old(soundsPlayed)
      ensures camera.Some? ==>
        isRunning && videoStream == camera && status == Some(ActiveBanner) &&
        sessionStartTime == Some(now) && sessionTimer == Some(old(nextHandle)) &&
        activeIntervals == old(activeIntervals) + {old(nextHandle)} && nextHandle == old(nextHandle) + 1 &&
        liveStreams == old(liveStreams) + {camera.value} &&
        scheduledFrames == old(scheduledFrames) + 1 &&
        eyeReadout == Some(EyeFor(settings, ear)) && yawnReadout == Some(YawnFor(settings, distance)) &&
        soundsPlayed == old(soundsPlayed) +
          (if EyeFor(settings, ear) == Drowsy then [Get(settings, AlertSoundKey)] else [])
      ensures !old(isRunning) && old(NoLeaks()) ==> NoLeaks()
    {
      AddAlert(Info, StartingMessage);
      OpenCamera(camera, now, ear, distance);
    }

    /** What follows the camera request in startDetection. */
    method OpenCamera(camera: Option<nat>, now: int, ear: real, distance: real)
      requires Valid()
      modifies this`isRunning, this`status, this`sessionStartTime, this`sessionTimer, this`videoStream,
        this`activeIntervals, this`nextHandle, this`eyeReadout, this`yawnReadout,
        this`alerts, this`nextAlertId, this`expiring, this`soundsPlayed, this`scheduledFrames, this`liveStreams
      ensures Valid()
      ensures expiring == old(expiring)
      ensures alerts == CameraFeed(old(alerts), old(nextAlertId), camera.Some?, settings, ear, distance)
      ensures nextAlertId == old(nextAlertId) + |CameraNotices(camera.Some?, settings, ear, distance)|
      ensures camera.None? ==>
        isRunning == old(isRunning) && videoStream == old(videoStream) && sessionTimer == old(sessionTimer) &&
        sessionStartTime == old(sessionStartTime) && activeIntervals == old(activeIntervals) &&
        nextHandle == old(nextHandle) && liveStreams == old(liveStreams) && status == old(status) &&
        eyeReadout == old(eyeReadout) && yawnReadout == old(yawnReadout) &&
        scheduledFrames == old(scheduledFrames) && soundsPlayed == old(soundsPlayed)
      ensures camera.Some? ==>
        isRunning && videoStream == camera && status == Some(ActiveBanner) &&
        sessionStartTime == Some(now) && sessionTimer == Some(old(nextHandle)) &&
        activeIntervals == old(activeIntervals) + {old(nextHandle)} && nextHandle == old(nextHandle) + 1 &&
        liveStreams == old(liveStreams) + {camera.value} &&
        scheduledFrames == old(scheduledFrames) + 1 &&
        eyeReadout == Some(EyeFor(settings, ear)) && yawnReadout == Some(YawnFor(settings, distance)) &&
        soundsPlayed == old(soundsPlayed) +
          (if EyeFor(settings, ear) == Drowsy then [Get(settings, AlertSoundKey)] else [])
      ensures !old(isRunning) && old(NoLeaks()) ==> NoLeaks()
    {
      match camera {
        case None =>
          AddAlert(Danger, StartFailedMessage);
        case Some(stream) =>
          BeginSession(stream, now, ear, distance);
      }
    }

    /** The success branch of startDetection. */
    method BeginSession(stream: nat, now: int, ear: real, distance: real)
      requires Valid()
      modifies this`isRunning, this`status, this`sessionStartTime, this`sessionTimer, this`videoStream,
        this`activeIntervals, this`nextHandle, this`eyeReadout, this`yawnReadout,
        this`alerts, this`nextAlertId, this`expiring, this`soundsPlayed, this`scheduledFrames, this`liveStreams
      ensures Valid()
      ensures alerts == Append(
        Measured(old(alerts), old(nextAlertId), settings, ear, distance),
        Alert(old(nextAlertId) + |SimulatedNotices(settings, ear, distance)|, Success, StartedMessage))
      ensures nextAlertId == old(nextAlertId) + |SimulatedNotices(settings, ear, distance)| + 1
      ensures expiring == old(expiring)
      ensures isRunning && videoStream == Some(stream) && status == Some(ActiveBanner)
      ensures sessionStartTime == Some(now) && sessionTimer == Some(old(nextHandle))
      ensures activeIntervals == old(activeIntervals) + {old(nextHandle)} && nextHandle == old(nextHandle) + 1
      ensures liveStreams == old(liveStreams) + {stream}
      ensures scheduledFrames == old(scheduledFrames) + 1
      ensures eyeReadout == Some(EyeFor(settings, ear)) && yawnReadout == Some(YawnFor(settings, distance))
      ensures soundsPlayed == old(soundsPlayed) +
        (if EyeFor(settings, ear) == Drowsy then [Get(settings, AlertSoundKey)] else [])
      ensures !old(isRunning) && old(NoLeaks()) ==> NoLeaks()
    {
      OpenSession(stream, now);
      DetectionLoop(ear, distance);
      AddAlert(Success, StartedMessage);
    }

    /** The camera is granted: the stream is kept, the flag set, the
        indicator switched and the ticker started. */
    method OpenSession(stream: nat, now: int)
      requires SessionValid()
      modifies this`isRunning, this`status, this`sessionStartTime, this`sessionTimer, this`videoStream,
        this`activeIntervals, this`nextHandle, this`liveStreams
      ensures SessionValid()
      ensures isRunning && videoStream == Some(stream) && status == Some(ActiveBanner)
      ensures sessionStartTime == Some(now) && sessionTimer == Some(old(nextHandle))
      ensures activeIntervals == old(activeIntervals) + {old(nextHandle)}
      ensures nextHandle == old(nextHandle) + 1
      ensures liveStreams == old(liveStreams) + {stream}
      ensures !old(isRunning) && old(NoLeaks()) ==> NoLeaks()
    {
      videoStream := Some(stream);
      liveStreams := liveStreams + {stream};
      isRunning := true;
      status := Some(ActiveBanner);
      sessionStartTime := Some(now);
      StartSessionTimer();
    }

    /** The stop button. Whatever the state before, the stream and the ticker
        are released and the flag is cleared; each call adds one info alert. */
    method StopDetection()
      requires Valid()
      modifies this`isRunning, this`status, this`sessionTimer, this`videoStream,
        this`activeIntervals, this`liveStreams, this`alerts, this`nextAlertId, this`expiring
      ensures Valid()
      ensures !isRunning && videoStream.None? && sessionTimer.None? && status == Some(ReadyBanner)
      ensures activeIntervals == old(activeIntervals) - HandleSet(old(sessionTimer))
      ensures liveStreams == old(liveStreams) - HandleSet(old(videoStream))
      ensures old(NoLeaks()) ==> activeIntervals == {} && liveStreams == {}
      ensures alerts == Append(old(alerts), Alert(old(nextAlertId), Info, StoppedMessage))
      ensures nextAlertId == old(nextAlertId) + 1
      ensures expiring == old(expiring) + {old(nextAlertId)}
    {
      if videoStream.Some? {
        liveStreams := liveStreams - {videoStream.value};
        videoStream := None;
      }
      isRunning := false;
      status := Some(ReadyBanner);
      if sessionTimer.Some? {
        activeIntervals := activeIntervals - {sessionTimer.value};
        sessionTimer := None;
      }
      AddAlert(Info, StoppedMessage);
    }

    /** The one-second session ticker. A start time of 0 counts as unset, as
        in the `if (this.sessionStartTime)` test of the ticker. */
    method ClockTick(now: int)
      modifies this`sessionTime
      ensures match sessionStartTime
        case Some(t) => t != 0 && now >= t ==> sessionTime == Some(SessionClock.Format(now - t))
        case None => sessionTime == old(sessionTime)
      ensures sessionStartTime.Some? && (sessionStartTime.value == 0 || now < sessionStartTime.value) ==>
        sessionTime == old(sessionTime)
    {
      match sessionStartTime
      case Some(t) =>
        if t != 0 && now >= t {
          sessionTime := Some(SessionClock.Format(now - t));
        }
      case None =>
    }

    /** The save button: the three inputs go into the settings, the settings
        into local storage. */
    method SaveSettings(ear: real, yawn: int, sound: string)
      requires Valid()
      modifies this`settings, this`storage, this`alerts, this`nextAlertId, this`expiring
      ensures Valid()
      ensures settings == Saved(old(settings), ear, yawn, sound)
      ensures storage == Some(settings)
      ensures alerts == Append(old(alerts), Alert(old(nextAlertId), Success, SavedMessage))
      ensures nextAlertId == old(nextAlertId) + 1 && expiring == old(expiring)
    {
      settings := settings[EarThresholdKey := Number(ear)];
      settings := settings[YawnThresholdKey := Number(yawn as real)];
      settings := settings[AlertSoundKey := Text(sound)];
      storage := Some(settings);
      AddAlert(Success, SavedMessage);
    }

    /** The reset button. */
    method ResetSettings()
      requires Valid()
      modifies this`settings, this`storage, this`alerts, this`nextAlertId, this`expiring
      ensures Valid()
      ensures settings == Defaults && storage.None?
      ensures alerts == Append(old(alerts), Alert(old(nextAlertId), Info, ResetMessage))
      ensures nextAlertId == old(nextAlertId) + 1
      ensures expiring == old(expiring) + {old(nextAlertId)}
    {
      settings := Defaults;
      storage := None;
      AddAlert(Info, ResetMessage);
    }

    method LoadSettings()
      requires Valid()
      modifies this`settings
      ensures Valid()
      ensures settings == Load(old(settings), storage)
    {
      LoadKeepsComplete(settings, storage);
      if storage.Some? {
        settings := Merge(settings, storage.value);
      }
    }
  }

  /** The alerts raised once the camera request has been answered: the
      camera error; or the first measurement's alerts and the success alert. */
  function CameraNotices(cameraGranted: bool, settings: Record, ear: real, distance: real): seq<Notice> {
    if cameraGranted then SimulatedNotices(settings, ear, distance) + [Notice(Success, StartedMessage)]
    else [Notice(Danger, StartFailedMessage)]
  }

  /** The alerts of a start: the info alert, then those of the answer. */
  function StartNotices(cameraGranted: bool, settings: Record, ear: real, distance: real): seq<Notice> {
    [Notice(Info, StartingMessage)] + CameraNotices(cameraGranted, settings, ear, distance)
  }

  /** A start always opens with the info alert and closes with the outcome:
      success when the camera was granted, the camera error otherwise. A
      refused start raises no measurement alert. */
  lemma StartNoticesShape(cameraGranted: bool, settings: Record, ear: real, distance: real)
    ensures var ns := StartNotices(cameraGranted, settings, ear, distance);
      && 2 <= |ns| <= 4
      && ns[0] == Notice(Info, StartingMessage)
      && ns[|ns| - 1] == (if cameraGranted then Notice(Success, StartedMessage)
                          else Notice(Danger, StartFailedMessage))
      && (!cameraGranted ==> |ns| == 2)
  {
  }
}
