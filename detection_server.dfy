/** The detection server: the per-frame eye-closure state machine of its
    detection loop, and the flag that guards starting and stopping it. The
    eye aspect ratio and the lip distance of each face are taken as given
    measurements; the camera, the landmark detector and the HTTP routes are
    not part of this model. */
module DetectionServer {
  import opened Optional
  import opened Metrics

  const EyeArThresh: real := 0.3
  const EyeArConsecFrames: nat := 30
  const YawnThresh: real := 20.0

  /** What the geometry yields for one detected face. */
  datatype Face = Face(ear: real, distance: real)

  /** One pass of the loop: either the camera gave no frame, or a frame in
      which the detector found these faces (in its order). */
  datatype Frame = Dropped | Captured(faces: seq<Face>)

  /** The loop's locals COUNTER and alarm_status, the shared metrics record,
      and how many drowsiness alerts the loop has printed. */
  datatype LoopState = LoopState(counter: nat, alarm: bool, metrics: Metrics, alarms: nat)

  /** The state when the loop starts: the counter and the alarm are fresh,
      the metrics are whatever the previous session left. */
  function Start(m: Metrics): LoopState {
    LoopState(0, false, m, 0)
  }

  predicate Closed(f: Face) {
    f.ear < EyeArThresh
  }

  /** The body of the loop over the detected faces. */
  function FaceStep(s: LoopState, f: Face): (r: LoopState)
    ensures Closed(f) ==> r.counter == s.counter + 1
    ensures Closed(f) ==> (r.metrics.eyeStatus == Drowsy <==> r.counter >= EyeArConsecFrames)
    ensures Closed(f) ==> (r.metrics.eyeStatus == EyeWarning <==> r.counter < EyeArConsecFrames)
    ensures Closed(f) ==> r.alarm == (s.alarm || r.counter >= EyeArConsecFrames)
    ensures !Closed(f) ==> r.counter == 0 && !r.alarm && r.metrics.eyeStatus == EyeNormal
    ensures r.metrics.yawnStatus == Yawning <==> f.distance > YawnThresh
    ensures r.metrics.yawnStatus == YawnNormal <==> f.distance <= YawnThresh
    ensures r.metrics.ear == f.ear && r.metrics.yawnDistance == f.distance
    ensures r.metrics.faceDetected == s.metrics.faceDetected
    ensures r.alarms == s.alarms + (if r.alarm && !s.alarm then 1 else 0)
  {
    var m := s.metrics.(ear := f.ear, yawnDistance := f.distance);
    var (counter, alarm, eye, raised) :=
      if Closed(f) then
        if s.counter + 1 >= EyeArConsecFrames then (s.counter + 1, true, Drowsy, !s.alarm)
        else (s.counter + 1, s.alarm, EyeWarning, false)
      else (0, false, EyeNormal, false);
    var yawn := if f.distance > YawnThresh then Yawning else YawnNormal;
    LoopState(counter, alarm, m.(eyeStatus := eye, yawnStatus := yawn),
              s.alarms + if raised then 1 else 0)
  }

  /** The faces of one frame, in order. */
  function FaceSteps(s: LoopState, faces: seq<Face>): (r: LoopState)
    ensures r.metrics.faceDetected == s.metrics.faceDetected
    ensures r.alarms >= s.alarms
    decreases |faces|
  {
    if faces == [] then s else FaceStep(FaceSteps(s, faces[..|faces| - 1]), faces[|faces| - 1])
  }

  /** One pass of the loop. */
  function FrameStep(s: LoopState, frame: Frame): (r: LoopState)
    ensures frame.Dropped? ==> r == s
    ensures frame.Captured? ==> r.metrics.faceDetected == (frame.faces != [])
    ensures frame.Captured? && frame.faces == [] ==>
      r.counter == s.counter && r.alarm == s.alarm && r.alarms == s.alarms &&
      r.metrics.eyeStatus == EyeNoFace && r.metrics.yawnStatus == YawnNoFace
  {
    match frame
    case Dropped => s
    case Captured(faces) =>
      var marked := s.(metrics := s.metrics.(faceDetected := faces != []));
      var after := FaceSteps(marked, faces);
      if faces == [] then after.(metrics := after.metrics.(eyeStatus := EyeNoFace, yawnStatus := YawnNoFace))
      else after
  }

  /** The loop over the frames read while detection is on. */
  function Run(s: LoopState, frames: seq<Frame>): LoopState
    decreases |frames|
  {
    if frames == [] then s else FrameStep(Run(s, frames[..|frames| - 1]), frames[|frames| - 1])
  }

  // ---- what the counter counts ----

  function FacesOf(frame: Frame): seq<Face> {
    if frame.Captured? then frame.faces else []
  }

  /** Every face measured over the frames, in order. */
  function AllFaces(frames: seq<Frame>): seq<Face>
    decreases |frames|
  {
    if frames == [] then [] else AllFaces(frames[..|frames| - 1]) + FacesOf(frames[|frames| - 1])
  }

  /** The number of closed-eye measurements at the end of `faces`, added to
      the `c` that were already there. */
  function ClosedRun(c: nat, faces: seq<Face>): (n: nat)
    ensures n <= c + |faces|
    ensures n >= |faces| ==> forall i :: 0 <= i < |faces| ==> Closed(faces[i])
    ensures n < |faces| ==> !Closed(faces[|faces| - 1 - n]) && forall i :: |faces| - n <= i < |faces| ==> Closed(faces[i])
    decreases |faces|
  {
    if faces == [] then c
    else if Closed(faces[|faces| - 1]) then ClosedRun(c, faces[..|faces| - 1]) + 1
    else 0
  }

  lemma {:induction false} ClosedRunConcat(c: nat, xs: seq<Face>, ys: seq<Face>)
    ensures ClosedRun(ClosedRun(c, xs), ys) == ClosedRun(c, xs + ys)
    decreases |ys|
  {
    if ys == [] {
      assert xs + ys == xs;
    } else {
      assert (xs + ys)[..|xs + ys| - 1] == xs + ys[..|ys| - 1];
      ClosedRunConcat(c, xs, ys[..|ys| - 1]);
    }
  }

  lemma {:induction false} FaceStepsCounter(s: LoopState, faces: seq<Face>)
    ensures FaceSteps(s, faces).counter == ClosedRun(s.counter, faces)
    decreases |faces|
  {
    if faces != [] {
      FaceStepsCounter(s, faces[..|faces| - 1]);
    }
  }

  /** COUNTER is the number of consecutive closed-eye measurements since the
      last open-eye one (or since the loop started): frames without a face
      and dropped frames neither add to it nor reset it. */
  lemma {:induction false} CounterIsClosedRun(m: Metrics, frames: seq<Frame>)
    ensures Run(Start(m), frames).counter == ClosedRun(0, AllFaces(frames))
    decreases |frames|
  {
    if frames != [] {
      var init := frames[..|frames| - 1];
      var last := frames[|frames| - 1];
      CounterIsClosedRun(m, init);
      var s := Run(Start(m), init);
      ClosedRunConcat(0, AllFaces(init), FacesOf(last));
      if last.Captured? {
        FaceStepsCounter(s.(metrics := s.metrics.(faceDetected := last.faces != [])), last.faces);
      } else {
        assert FacesOf(last) == [];
        assert AllFaces(init) + [] == AllFaces(init);
      }
    }
  }

  // ---- the state machine's invariant ----

  /** The alarm is on exactly while the counter is at 30 or more, and the eye
      status says Drowsy only then. */
  ghost predicate Consistent(s: LoopState) {
    (s.alarm <==> s.counter >= EyeArConsecFrames) &&
    (s.metrics.eyeStatus == Drowsy ==> s.counter >= EyeArConsecFrames)
  }

  lemma {:induction false} FaceStepsConsistent(s: LoopState, faces: seq<Face>)
    requires Consistent(s)
    ensures Consistent(FaceSteps(s, faces))
    decreases |faces|
  {
    if faces != [] {
      FaceStepsConsistent(s, faces[..|faces| - 1]);
    }
  }

  lemma {:induction false} RunConsistent(s: LoopState, frames: seq<Frame>)
    requires Consistent(s)
    ensures Consistent(Run(s, frames))
    decreases |frames|
  {
    if frames != [] {
      RunConsistent(s, frames[..|frames| - 1]);
      var t := Run(s, frames[..|frames| - 1]);
      var last := frames[|frames| - 1];
      if last.Captured? {
        FaceStepsConsistent(t.(metrics := t.metrics.(faceDetected := last.faces != [])), last.faces);
      }
    }
  }

  /** The eye status turns Drowsy only after at least 30 consecutive
      closed-eye measurements since the loop started or the eyes were last
      seen open. The one exception is a session that starts from a Drowsy
      record left by an earlier one (the metrics are not reset on start) and
      has not captured a single frame since: any captured frame overwrites
      the eye status. */
  lemma {:induction false} DrowsyNeedsThirtyClosed(m: Metrics, frames: seq<Frame>)
    ensures Run(Start(m), frames).metrics.eyeStatus == Drowsy ==>
      ClosedRun(0, AllFaces(frames)) >= EyeArConsecFrames ||
      (m.eyeStatus == Drowsy && forall i :: 0 <= i < |frames| ==> frames[i].Dropped?)
    decreases |frames|
  {
    CounterIsClosedRun(m, frames);
    if frames != [] {
      var init := frames[..|frames| - 1];
      var last := frames[|frames| - 1];
      DrowsyNeedsThirtyClosed(m, init);
      CounterIsClosedRun(m, init);
      var t := Run(Start(m), init);
      match last
      case Dropped =>
        assert AllFaces(init) + [] == AllFaces(init);
        assert forall i :: 0 <= i < |init| ==> frames[i] == init[i];
      case Captured(faces) =>
        if faces != [] {
          var marked := t.(metrics := t.metrics.(faceDetected := true));
          assert Run(Start(m), frames) == FaceStep(FaceSteps(marked, faces[..|faces| - 1]), faces[|faces| - 1]);
        }
    }
  }

  /** Every face in `faces` has its eyes closed. */
  ghost predicate AllClosed(faces: seq<Face>) {
    forall i :: 0 <= i < |faces| ==> Closed(faces[i])
  }

  /** While the eyes stay closed the alarm is raised at most once. */
  lemma {:induction false} OneAlarmPerClosedRun(s: LoopState, faces: seq<Face>)
    requires AllClosed(faces)
    ensures FaceSteps(s, faces).alarms <= s.alarms + (if s.alarm then 0 else 1)
    ensures s.alarm ==> FaceSteps(s, faces).alarm
    ensures FaceSteps(s, faces).alarms > s.alarms ==> FaceSteps(s, faces).alarm
    decreases |faces|
  {
    if faces != [] {
      OneAlarmPerClosedRun(s, faces[..|faces| - 1]);
    }
  }

  /** Running the loop over `xs` and then over `ys` is running it over both. */
  lemma {:induction false} RunConcat(s: LoopState, xs: seq<Frame>, ys: seq<Frame>)
    ensures Run(Run(s, xs), ys) == Run(s, xs + ys)
    decreases |ys|
  {
    if ys == [] {
      assert xs + ys == xs;
    } else {
      assert (xs + ys)[..|xs + ys| - 1] == xs + ys[..|ys| - 1];
      RunConcat(s, xs, ys[..|ys| - 1]);
    }
  }

  /** From any point of the loop (say, just after an open-eye face), over
      frames in which every measured face has its eyes closed, the drowsiness
      alert is printed at most once, and not at all if the alarm was already on;
      once on, the alarm stays on. */
  lemma {:induction false} OneAlarmPerClosedFrames(s: LoopState, frames: seq<Frame>)
    requires AllClosed(AllFaces(frames))
    ensures Run(s, frames).alarms <= s.alarms + (if s.alarm then 0 else 1)
    ensures s.alarm ==> Run(s, frames).alarm
    ensures Run(s, frames).alarms > s.alarms ==> Run(s, frames).alarm
    decreases |frames|
  {
    if frames != [] {
      var init := frames[..|frames| - 1];
      var last := frames[|frames| - 1];
      var before := AllFaces(init);
      assert AllFaces(frames) == before + FacesOf(last);
      assert AllClosed(before) by {
        assert forall i :: 0 <= i < |before| ==> before[i] == AllFaces(frames)[i];
      }
      OneAlarmPerClosedFrames(s, init);
      if last.Captured? {
        var t := Run(s, init);
        assert AllClosed(last.faces) by {
          assert forall i :: 0 <= i < |last.faces| ==> last.faces[i] == AllFaces(frames)[|before| + i];
        }
        OneAlarmPerClosedRun(t.(metrics := t.metrics.(faceDetected := last.faces != [])), last.faces);
      }
    }
  }

  /** Mid-session: after any frames `xs`, a stretch `ys` of frames whose faces
      all have their eyes closed adds at most one printed alert, and none if
      the alarm was already on when the stretch began. */
  lemma OneAlarmPerClosedStretch(s: LoopState, xs: seq<Frame>, ys: seq<Frame>)
    requires AllClosed(AllFaces(ys))
    ensures var t := Run(s, xs);
      Run(s, xs + ys).alarms <= t.alarms + (if t.alarm then 0 else 1)
  {
    RunConcat(s, xs, ys);
    OneAlarmPerClosedFrames(Run(s, xs), ys);
  }

  /** Over a whole session in which every measured face had its eyes closed,
      the drowsiness alert is printed at most once. */
  lemma OneAlarmPerClosedSession(m: Metrics, frames: seq<Frame>)
    requires AllClosed(AllFaces(frames))
    ensures Run(Start(m), frames).alarms <= 1
    ensures Run(Start(m), frames).alarms == 1 ==> Run(Start(m), frames).alarm
  {
    OneAlarmPerClosedFrames(Start(m), frames);
  }

  // ---- the server's state ----

  datatype Status = Success | Error

  /** The JSON reply of a route: its status and message. */
  datatype Reply = Reply(status: Status, message: string)

  class Server {
    var isDetecting: bool
    /** Whether the camera is open. `DetectionLoop` opens it and releases
        it before it returns, so between calls it is only ever false; it is
        kept to state that the loop and the stop route release the camera. */
    var cameraOpen: bool
    var metrics: Metrics
    /** Drowsiness alerts printed by the loop so far. */
    var alarmsPrinted: nat

    constructor ()
      ensures !isDetecting && !cameraOpen && metrics == InitialMetrics && alarmsPrinted == 0
    {
      isDetecting, cameraOpen, metrics, alarmsPrinted := false, false, InitialMetrics, 0;
    }

    /** The start route. `spawnError` is the exception starting the thread may
        raise; the flag has already been set by then, and stays set. */
    method StartDetection(spawnError: Option<string>) returns (reply: Reply)
      modifies this`isDetecting
      ensures old(isDetecting) ==> reply == Reply(Error, "Detection already running")
      ensures !old(isDetecting) && spawnError.None? ==> reply == Reply(Success, "Detection started")
      ensures !old(isDetecting) && spawnError.Some? ==> reply == Reply(Error, spawnError.value)
      ensures isDetecting
    {
      if isDetecting {
        return Reply(Error, "Detection already running");
      }
      isDetecting := true;
      match spawnError
      case None => reply := Reply(Success, "Detection started");
      case Some(e) => reply := Reply(Error, e);
    }

    /** The stop route: always succeeds and releases the camera. */
    method StopDetection() returns (reply: Reply)
      modifies this`isDetecting, this`cameraOpen
      ensures !isDetecting && !cameraOpen
      ensures reply == Reply(Success, "Detection stopped")
    {
      isDetecting := false;
      cameraOpen := false;
      reply := Reply(Success, "Detection stopped");
    }

    /** The body of the loop over the faces, on the loop's counter and
        alarm flag; `k` is the alert count of the `LoopState` that `FaceStep`
        starts from. */
    method ProcessFace(f: Face, c0: nat, a0: bool, ghost k: nat) returns (c: nat, al: bool)
      modifies this`metrics, this`alarmsPrinted
      ensures alarmsPrinted >= old(alarmsPrinted)
      ensures FaceStep(LoopState(c0, a0, old(metrics), k), f) ==
              LoopState(c, al, metrics, k + alarmsPrinted - old(alarmsPrinted))
    {
      c, al := c0, a0;
      metrics := metrics.(ear := f.ear, yawnDistance := f.distance);
      if f.ear < EyeArThresh {
        c := c + 1;
        if c >= EyeArConsecFrames {
          metrics := metrics.(eyeStatus := Drowsy);
          if !al {
            al := true;
            alarmsPrinted := alarmsPrinted + 1;
          }
        } else {
          metrics := metrics.(eyeStatus := EyeWarning);
        }
      } else {
        c, al := 0, false;
        metrics := metrics.(eyeStatus := EyeNormal);
      }
      if f.distance > YawnThresh {
        metrics := metrics.(yawnStatus := Yawning);
      } else {
        metrics := metrics.(yawnStatus := YawnNormal);
      }
    }

    /** One pass of the detection loop over a frame the camera delivered
        or failed to deliver. */
    method ProcessFrame(frame: Frame, c0: nat, a0: bool, ghost k: nat) returns (c: nat, al: bool)
      modifies this`metrics, this`alarmsPrinted
      ensures alarmsPrinted >= old(alarmsPrinted)
      ensures FrameStep(LoopState(c0, a0, old(metrics), k), frame) ==
              LoopState(c, al, metrics, k + alarmsPrinted - old(alarmsPrinted))
    {
      c, al := c0, a0;
      match frame {
        case Dropped =>
        case Captured(faces) =>
          metrics := metrics.(faceDetected := faces != []);
          ghost var marked := LoopState(c, al, metrics, k);
          ghost var p0 := alarmsPrinted;
          var j := 0;
          while j < |faces|
            invariant 0 <= j <= |faces|
            invariant p0 <= alarmsPrinted
            invariant FaceSteps(marked, faces[..j]) == LoopState(c, al, metrics, k + alarmsPrinted - p0)
          {
            assert faces[..j + 1][..j] == faces[..j];
            c, al := ProcessFace(faces[j], c, al, k + alarmsPrinted - p0);
            j := j + 1;
          }
          assert faces[..j] == faces;
          if !metrics.faceDetected {
            metrics := metrics.(eyeStatus := EyeNoFace, yawnStatus := YawnNoFace);
          }
      }
    }

    /** The detection thread: `cameraReady` says whether the camera could be
        opened, `frames` are the passes the loop makes before it sees the
        flag cleared. */
    method DetectionLoop(cameraReady: bool, frames: seq<Frame>) returns (counter: nat, alarm: bool)
      modifies this`metrics, this`alarmsPrinted, this`cameraOpen
      ensures !cameraReady ==> metrics == old(metrics) && alarmsPrinted == old(alarmsPrinted)
      ensures cameraReady ==>
        var s := Run(Start(old(metrics)), frames);
        metrics == s.metrics && counter == s.counter && alarm == s.alarm &&
        alarmsPrinted == old(alarmsPrinted) + s.alarms
      ensures !cameraOpen
    {
      counter, alarm := 0, false;
      if !cameraReady {
        cameraOpen := false;
        return;
      }
      cameraOpen := true;
      ghost var m0 := metrics;
      ghost var a0 := alarmsPrinted;
      var i := 0;
      while i < |frames|
        invariant 0 <= i <= |frames|
        invariant a0 <= alarmsPrinted
        invariant Run(Start(m0), frames[..i]) == LoopState(counter, alarm, metrics, alarmsPrinted - a0)
      {
        assert frames[..i + 1][..i] == frames[..i];
        counter, alarm := ProcessFrame(frames[i], counter, alarm, alarmsPrinted - a0);
        i := i + 1;
      }
      assert frames[..i] == frames;
      cameraOpen := false;
    }
  }
}
