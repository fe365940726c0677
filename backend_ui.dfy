/** The backend-driven page controller: it starts and stops detection on the
    server, polls the server's metrics every second while running, turns each
    reply into a status banner, an alert and a sound cue, keeps a bounded
    alert feed without repeated messages, and keeps the settings. */
module BackendUI {
  import opened Optional
  import opened AlertFeed
  import opened SettingsStore
  import opened Metrics
  import SessionClock
  import DetectionServer

  /** The banner updateMetrics shows for a metrics reply: no face first, then
      drowsiness, then yawning, then the plain active banner. */
  function BannerFor(m: Metrics): (b: Banner)
    ensures b == NoFaceBanner <==> !m.faceDetected
    ensures b == DrowsyBanner <==> m.faceDetected && m.eyeStatus == Drowsy
    ensures b == YawnBanner <==> m.faceDetected && m.eyeStatus != Drowsy && m.yawnStatus == Yawning
    ensures b == ActiveBanner <==> m.faceDetected && m.eyeStatus != Drowsy && m.yawnStatus != Yawning
  {
    if !m.faceDetected then NoFaceBanner
    else if m.eyeStatus == Drowsy then DrowsyBanner
    else if m.yawnStatus == Yawning then YawnBanner
    else ActiveBanner
  }

  /** What updateMetrics emits besides the banner: at most one alert, and
      whether the alert sound plays. */
  datatype Reaction = Reaction(notice: Option<Notice>, sound: bool)

  function ReactionFor(m: Metrics): (r: Reaction)
    ensures r.sound <==> m.eyeStatus == Drowsy
    ensures r.notice == Some(Notice(Danger, DrowsyMessage)) <==> m.eyeStatus == Drowsy
    ensures r.notice == Some(Notice(Warning, YawnMessage)) <==> m.eyeStatus != Drowsy && m.yawnStatus == Yawning
    ensures r.notice.None? <==> m.eyeStatus != Drowsy && m.yawnStatus != Yawning
  {
    if m.eyeStatus == Drowsy then Reaction(Some(Notice(Danger, DrowsyMessage)), true)
    else if m.yawnStatus == Yawning then Reaction(Some(Notice(Warning, YawnMessage)), false)
    else Reaction(None, false)
  }

  /** The feed after posting an optional notice as alert `id`. */
  function Post(feed: seq<Alert>, id: nat, n: Option<Notice>): seq<Alert> {
    match n
    case None => feed
    case Some(x) => AppendUnlessShown(feed, Alert(id, x.kind, x.message))
  }

  /** A frame in which the server found no face reaches the page as the
      no-face banner, with no alert and no sound. */
  lemma NoFaceFrameIsQuiet(s: DetectionServer.LoopState)
    ensures var m := DetectionServer.FrameStep(s, DetectionServer.Captured([])).metrics;
      BannerFor(m) == NoFaceBanner && ReactionFor(m) == Reaction(None, false)
  {
  }

  /** For a frame with faces, the page sounds the alarm exactly when the
      server's eye-closure counter has reached 30 on the last face, and shows
      the drowsiness banner then. */
  lemma PageAlarmFollowsServerCounter(s: DetectionServer.LoopState, faces: seq<DetectionServer.Face>)
    requires faces != []
    ensures var r := DetectionServer.FrameStep(s, DetectionServer.Captured(faces));
      && (ReactionFor(r.metrics).sound <==>
          DetectionServer.Closed(faces[|faces| - 1]) && r.counter >= DetectionServer.EyeArConsecFrames)
      && (ReactionFor(r.metrics).sound <==> BannerFor(r.metrics) == DrowsyBanner)
  {
    var marked := s.(metrics := s.metrics.(faceDetected := true));
    var before := DetectionServer.FaceSteps(marked, faces[..|faces| - 1]);
    assert DetectionServer.FaceSteps(marked, faces) == DetectionServer.FaceStep(before, faces[|faces| - 1]);
  }

  class Controller {
    var isRunning: bool
    var sessionStartTime: Option<int>
    var sessionTimer: Option<nat>
    var metricsInterval: Option<nat>
    var settings: Record
    /** The 'drowsinessSettings' record in local storage. */
    var storage: Option<Record>
    var alerts: seq<Alert>
    var nextAlertId: nat
    /** Info alerts whose five-second removal is still pending. */
    var expiring: set<nat>
    /** The status indicator; None until the controller first sets it. */
    var status: Option<Banner>
    /** The session time readout; None until the ticker first writes it. */
    var sessionTime: Option<string>
    /** The alertSound setting of every alert cue played, in order. */
    var soundsPlayed: seq<Option<Value>>
    /** The page's live interval timers, and the next handle the browser hands out. */
    var activeIntervals: set<nat>
    var nextHandle: nat
    /** Metrics requests the poller has sent and that have not been answered yet. */
    var pendingPolls: nat

    ghost predicate Valid()
      reads this
    {
      FeedValid() && Complete(settings) && TimersValid()
    }

    /** At most five alerts, ids in display order, no repeated message. */
    ghost predicate FeedValid()
      reads this`alerts, this`nextAlertId
    {
      |alerts| <= MaxAlerts && IdsBelow(alerts, nextAlertId) && NoRepeats(alerts)
    }

    /** Running exactly while both handles are held, held handles are live,
        and handles are issued in increasing order. */
    ghost predicate TimersValid()
      reads this`isRunning, this`sessionTimer, this`metricsInterval, this`activeIntervals, this`nextHandle
    {
      && (isRunning <==> sessionTimer.Some?)
      && (isRunning <==> metricsInterval.Some?)
      && HandleSet(sessionTimer) + HandleSet(metricsInterval) <= activeIntervals
      && (forall h :: h in activeIntervals ==> h < nextHandle)
    }

    /** Every live timer is one the controller still holds a handle to. */
    ghost predicate NoOrphanTimers()
      reads this`sessionTimer, this`metricsInterval, this`activeIntervals
    {
      activeIntervals == HandleSet(sessionTimer) + HandleSet(metricsInterval)
    }

    /** The page loads: default settings, then loadSettings. */
    constructor (stored: Option<Record>)
      ensures Valid() && NoOrphanTimers()
      ensures !isRunning && sessionStartTime.None? && alerts == [] && expiring == {}
      ensures settings == Load(Defaults, stored) && storage == stored
      ensures status.None? && sessionTime.None? && soundsPlayed == [] && activeIntervals == {}
      ensures pendingPolls == 0
    {
      isRunning, sessionStartTime, sessionTimer, metricsInterval := false, None, None, None;
      settings, storage := Load(Defaults, stored), stored;
      alerts, nextAlertId, expiring := [], 0, {};
      status, sessionTime, soundsPlayed := None, None, [];
      activeIntervals, nextHandle, pendingPolls := {}, 0, 0;
      LoadKeepsComplete(Defaults, stored);
    }

    /** The duplicate check of addAlert: does a displayed alert's text
        already contain `message`? */
    method AlreadyShown(message: string) returns (shown: bool)
      ensures shown == Shown(alerts, message)
    {
      var i := 0;
      while i < |alerts|
        invariant 0 <= i <= |alerts|
        invariant forall k :: 0 <= k < i ==> !Includes(NodeText(alerts[k]), message)
      {
        if Includes(NodeText(alerts[i]), message) {
          return true;
        }
        i := i + 1;
      }
      return false;
    }

    method AddAlert(kind: AlertKind, message: string)
      requires Valid()
      modifies this`alerts, this`nextAlertId, this`expiring
      ensures Valid()
      ensures alerts == AppendUnlessShown(old(alerts), Alert(old(nextAlertId), kind, message))
      ensures nextAlertId == old(nextAlertId) + 1
      ensures expiring == if kind == Info && !Shown(old(alerts), message)
                          then old(expiring) + {old(nextAlertId)} else old(expiring)
    {
      AppendUnlessShownKeepsInvariants(alerts, nextAlertId, kind, message);
      var shown := AlreadyShown(message);
      if !shown {
        alerts := alerts + [Alert(nextAlertId, kind, message)];
        if |alerts| > MaxAlerts {
          alerts := alerts[1..];
        }
        if kind == Info {
          expiring := expiring + {nextAlertId};
        }
      }
      nextAlertId := nextAlertId + 1;
    }

    /** The five-second timeout of info alert `id` fires: its node goes if it
        is still displayed. */
    method ExpireAlert(id: nat)
      requires Valid() && id in expiring
      modifies this`alerts, this`expiring
      ensures Valid()
      ensures alerts == Remove(old(alerts), id)
      ensures expiring == old(expiring) - {id}
    {
      RemoveKeepsIds(alerts, id, nextAlertId);
      RemoveKeepsNoRepeats(alerts, id);
      alerts := Remove(alerts, id);
      expiring := expiring - {id};
    }

    /** The video element reports an error. */
    method VideoStreamError()
      requires Valid()
      modifies this`alerts, this`nextAlertId, this`expiring
      ensures Valid()
      ensures alerts == AppendUnlessShown(old(alerts), Alert(old(nextAlertId), Danger, StreamErrorMessage))
      ensures nextAlertId == old(nextAlertId) + 1 && expiring == old(expiring)
    {
      AddAlert(Danger, StreamErrorMessage);
    }

    /** startSessionTimer: a new interval timer whose handle the controller keeps. */
    method StartSessionTimer()
      modifies this`sessionTimer, this`activeIntervals, this`nextHandle
      ensures sessionTimer == Some(old(nextHandle))
      ensures activeIntervals == old(activeIntervals) + {old(nextHandle)}
      ensures nextHandle == old(nextHandle) + 1
    {
      sessionTimer := Some(nextHandle);
      activeIntervals := activeIntervals + {nextHandle};
      nextHandle := nextHandle + 1;
    }

    /** startMetricsPolling: likewise for the metrics poller. */
    method StartMetricsPolling()
      modifies this`metricsInterval, this`activeIntervals, this`nextHandle
      ensures metricsInterval == Some(old(nextHandle))
      ensures activeIntervals == old(activeIntervals) + {old(nextHandle)}
      ensures nextHandle == old(nextHandle) + 1
    {
      metricsInterval := Some(nextHandle);
      activeIntervals := activeIntervals + {nextHandle};
      nextHandle := nextHandle + 1;
    }

    /** The start button: `accepted` says whether the server's reply arrived
        with status 'success' (a network failure, an unreadable reply and an
        error status all take the failure path). */
    method StartDetection(accepted: bool, now: int)
      requires Valid()
      modifies this`isRunning, this`status, this`sessionStartTime, this`sessionTimer,
        this`metricsInterval, this`activeIntervals, this`nextHandle,
        this`alerts, this`nextAlertId, this`expiring
      ensures Valid()
      ensures alerts == AppendUnlessShown(
                AppendUnlessShown(old(alerts), Alert(old(nextAlertId), Info, StartingMessage)),
                if accepted then Alert(old(nextAlertId) + 1, Success, StartedMessage)
                else Alert(old(nextAlertId) + 1, Danger, StartFailedMessage))
      ensures nextAlertId == old(nextAlertId) + 2
      ensures expiring == if Shown(old(alerts), StartingMessage) then old(expiring)
                          else old(expiring) + {old(nextAlertId)}
      ensures !accepted ==>
        isRunning == old(isRunning) && sessionStartTime == old(sessionStartTime) &&
        sessionTimer == old(sessionTimer) && metricsInterval == old(metricsInterval) &&
        activeIntervals == old(activeIntervals) && nextHandle == old(nextHandle) &&
        status == old(status)
      ensures accepted ==>
        isRunning && status == Some(ActiveBanner) && sessionStartTime == Some(now) &&
        sessionTimer == Some(old(nextHandle)) && metricsInterval == Some(old(nextHandle) + 1) &&
        activeIntervals == old(activeIntervals) + {old(nextHandle), old(nextHandle) + 1} &&
        nextHandle == old(nextHandle) + 2
      ensures !old(isRunning) && old(NoOrphanTimers()) ==> NoOrphanTimers()
    {
      AddAlert(Info, StartingMessage);
      StartAnswered(accepted, now);
    }

    /** What follows the start request in startDetection, once its answer is in. */
    method StartAnswered(accepted: bool, now: int)
      requires Valid()
      modifies this`isRunning, this`status, this`sessionStartTime, this`sessionTimer,
        this`metricsInterval, this`activeIntervals, this`nextHandle,
        this`alerts, this`nextAlertId, this`expiring
      ensures Valid()
      ensures alerts == AppendUnlessShown(old(alerts),
                if accepted then Alert(old(nextAlertId), Success, StartedMessage)
                else Alert(old(nextAlertId), Danger, StartFailedMessage))
      ensures nextAlertId == old(nextAlertId) + 1 && expiring == old(expiring)
      ensures !accepted ==>
        isRunning == old(isRunning) && sessionStartTime == old(sessionStartTime) &&
        sessionTimer == old(sessionTimer) && metricsInterval == old(metricsInterval) &&
        activeIntervals == old(activeIntervals) && nextHandle == old(nextHandle) &&
        status == old(status)
      ensures accepted ==>
        isRunning && status == Some(ActiveBanner) && sessionStartTime == Some(now) &&
        sessionTimer == Some(old(nextHandle)) && metricsInterval == Some(old(nextHandle) + 1) &&
        activeIntervals == old(activeIntervals) + {old(nextHandle), old(nextHandle) + 1} &&
        nextHandle == old(nextHandle) + 2
      ensures !old(isRunning) && old(NoOrphanTimers()) ==> NoOrphanTimers()
    {
      if accepted {
        BeginSession(now);
      } else {
        AddAlert(Danger, StartFailedMessage);
      }
    }

    /** The success branch of startDetection. */
    method BeginSession(now: int)
      requires Valid()
      modifies this`isRunning, this`status, this`sessionStartTime, this`sessionTimer,
        this`metricsInterval, this`activeIntervals, this`nextHandle,
        this`alerts, this`nextAlertId, this`expiring
      ensures Valid()
      ensures alerts == AppendUnlessShown(old(alerts), Alert(old(nextAlertId), Success, StartedMessage))
      ensures nextAlertId == old(nextAlertId) + 1 && expiring == old(expiring)
      ensures isRunning && status == Some(ActiveBanner) && sessionStartTime == Some(now)
      ensures sessionTimer == Some(old(nextHandle)) && metricsInterval == Some(old(nextHandle) + 1)
      ensures activeIntervals == old(activeIntervals) + {old(nextHandle), old(nextHandle) + 1}
      ensures nextHandle == old(nextHandle) + 2
      ensures !old(isRunning) && old(NoOrphanTimers()) ==> NoOrphanTimers()
    {
      OpenSession(now);
      AddAlert(Success, StartedMessage);
    }

    /** The session state of BeginSession: running, active banner, start
        time, and both interval timers. */
    method OpenSession(now: int)
      requires TimersValid()
      modifies this`isRunning, this`status, this`sessionStartTime, this`sessionTimer,
        this`metricsInterval, this`activeIntervals, this`nextHandle
      ensures TimersValid()
      ensures isRunning && status == Some(ActiveBanner) && sessionStartTime == Some(now)
      ensures sessionTimer == Some(old(nextHandle)) && metricsInterval == Some(old(nextHandle) + 1)
      ensures activeIntervals == old(activeIntervals) + {old(nextHandle), old(nextHandle) + 1}
      ensures nextHandle == old(nextHandle) + 2
      ensures !old(isRunning) && old(NoOrphanTimers()) ==> NoOrphanTimers()
    {
      isRunning := true;
      status := Some(ActiveBanner);
      sessionStartTime := Some(now);
      StartSessionTimer();
      StartMetricsPolling();
    }

    /** The stop button: `reachable` says whether the stop request got a
        reply. When it did not, only the error alert is shown and the session
        goes on. */
    method StopDetection(reachable: bool)
      requires Valid()
      modifies this`isRunning, this`status, this`sessionTimer, this`metricsInterval,
        this`activeIntervals, this`alerts, this`nextAlertId, this`expiring
      ensures Valid()
      ensures !reachable ==>
        alerts == AppendUnlessShown(old(alerts), Alert(old(nextAlertId), Danger, StopFailedMessage)) &&
        isRunning == old(isRunning) && sessionTimer == old(sessionTimer) &&
        metricsInterval == old(metricsInterval) && activeIntervals == old(activeIntervals) &&
        status == old(status) && expiring == old(expiring)
      ensures reachable ==>
        alerts == AppendUnlessShown(old(alerts), Alert(old(nextAlertId), Info, StoppedMessage)) &&
        !isRunning && sessionTimer.None? && metricsInterval.None? && status == Some(ReadyBanner) &&
        activeIntervals == old(activeIntervals) - HandleSet(old(sessionTimer)) - HandleSet(old(metricsInterval)) &&
        expiring == if Shown(old(alerts), StoppedMessage) then old(expiring) else old(expiring) + {old(nextAlertId)}
      ensures nextAlertId == old(nextAlertId) + 1
      ensures old(NoOrphanTimers()) ==> NoOrphanTimers()
      ensures reachable && old(NoOrphanTimers()) ==> activeIntervals == {}
    {
      if !reachable {
        AddAlert(Danger, StopFailedMessage);
        return;
      }
      isRunning := false;
      status := Some(ReadyBanner);
      ClearTimers();
      AddAlert(Info, StoppedMessage);
    }

    /** The two clearInterval calls of stopDetection, each guarded by its handle. */
    method ClearTimers()
      modifies this`sessionTimer, this`metricsInterval, this`activeIntervals
      ensures sessionTimer.None? && metricsInterval.None?
      ensures activeIntervals == old(activeIntervals) - HandleSet(old(sessionTimer)) - HandleSet(old(metricsInterval))
    {
      if sessionTimer.Some? {
        activeIntervals := activeIntervals - {sessionTimer.value};
        sessionTimer := None;
      }
      if metricsInterval.Some? {
        activeIntervals := activeIntervals - {metricsInterval.value};
        metricsInterval := None;
      }
    }

    /** The one-second session ticker. A start time of 0 counts as unset, as
        in the `if (this.sessionStartTime)` test of the ticker. */
    method ClockTick(now: int)
      modifies this`sessionTime
      ensures match sessionStartTime
        case Some(t) => t != 0 && now >= t ==> sessionTime == Some(SessionClock.Format(now - t))
        case None => sessionTime == old(sessionTime)
      ensures sessionStartTime.Some? && (sessionStartTime.value == 0 || now < sessionStartTime.value) ==>
        sessionTime == old(sessionTime)
    {
      match sessionStartTime
      case Some(t) =>
        if t != 0 && now >= t {
          sessionTime := Some(SessionClock.Format(now - t));
        }
      case None =>
    }

    /** What updateMetrics does with reply `m`. */
    twostate predicate ShowsMetrics(m: Metrics)
      reads this
    {
      var r := ReactionFor(m);
      && status == Some(BannerFor(m))
      && alerts == Post(old(alerts), old(nextAlertId), r.notice)
      && nextAlertId == old(nextAlertId) + (if r.notice.Some? then 1 else 0)
      && expiring == old(expiring)
      && soundsPlayed == old(soundsPlayed) + (if r.sound then [Get(old(settings), AlertSoundKey)] else [])
    }

    method UpdateMetrics(m: Metrics)
      requires Valid()
      modifies this`status, this`alerts, this`nextAlertId, this`expiring, this`soundsPlayed
      ensures Valid()
      ensures ShowsMetrics(m)
    {
      if m.eyeStatus == Drowsy {
        AddAlert(Danger, DrowsyMessage);
        soundsPlayed := soundsPlayed + [Get(settings, AlertSoundKey)];
      } else if m.yawnStatus == Yawning {
        AddAlert(Warning, YawnMessage);
      }
      status := Some(BannerFor(m));
    }

    /** One tick of the metrics poller: nothing while stopped; otherwise the
        metrics request is sent, and its answer comes later (MetricsArrived). */
    method PollTick()
      modifies this`pendingPolls
      ensures pendingPolls == old(pendingPolls) + (if isRunning then 1 else 0)
    {
      if !isRunning {
        return;
      }
      pendingPolls := pendingPolls + 1;
    }

    /** The answer to a pending metrics request: `reply` is the metrics
        record, or None when the request or its decoding failed. The running
        flag is not tested again, so a reply that arrives after a stop is
        still shown. */
    method MetricsArrived(reply: Option<Metrics>)
      requires Valid() && pendingPolls > 0
      modifies this`status, this`alerts, this`nextAlertId, this`expiring, this`soundsPlayed, this`pendingPolls
      ensures Valid()
      ensures pendingPolls == old(pendingPolls) - 1
      ensures reply.None? ==>
        status == old(status) && alerts == old(alerts) && nextAlertId == old(nextAlertId) &&
        expiring == old(expiring) && soundsPlayed == old(soundsPlayed)
      ensures reply.Some? ==> ShowsMetrics(reply.value)
    {
      pendingPolls := pendingPolls - 1;
      if reply.Some? {
        UpdateMetrics(reply.value);
      }
    }

    /** The save button: the three inputs go into the settings, the settings
        into local storage (the copy posted to the server changes nothing
        there). */
    method SaveSettings(ear: real, yawn: int, sound: string)
      requires Valid()
      modifies this`settings, this`storage, this`alerts, this`nextAlertId, this`expiring
      ensures Valid()
      ensures settings == Saved(old(settings), ear, yawn, sound)
      ensures storage == Some(settings)
      ensures alerts == AppendUnlessShown(old(alerts), Alert(old(nextAlertId), Success, SavedMessage))
      ensures nextAlertId == old(nextAlertId) + 1 && expiring == old(expiring)
    {
      settings := settings[EarThresholdKey := Number(ear)];
      settings := settings[YawnThresholdKey := Number(yawn as real)];
      settings := settings[AlertSoundKey := Text(sound)];
      storage := Some(settings);
      AddAlert(Success, SavedMessage);
    }

    /** The reset button. */
    method ResetSettings()
      requires Valid()
      modifies this`settings, this`storage, this`alerts, this`nextAlertId, this`expiring
      ensures Valid()
      ensures settings == Defaults && storage.None?
      ensures alerts == AppendUnlessShown(old(alerts), Alert(old(nextAlertId), Info, ResetMessage))
      ensures nextAlertId == old(nextAlertId) + 1
      ensures expiring == if Shown(old(alerts), ResetMessage) then old(expiring)
                          else old(expiring) + {old(nextAlertId)}
    {
      settings := Defaults;
      storage := None;
      AddAlert(Info, ResetMessage);
    }

    method LoadSettings()
      requires Valid()
      modifies this`settings
      ensures Valid()
      ensures settings == Load(old(settings), storage)
    {
      LoadKeepsComplete(settings, storage);
      if storage.Some? {
        settings := Merge(settings, storage.value);
      }
    }
  }
}
