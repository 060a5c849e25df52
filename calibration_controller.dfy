/** CalibrationController: the per-frame driver that walks through the calibration
    targets, takes rate-limited reference samples and hands them in batches to the
    Calibration object. Unity's clock and camera are parameters of each call. */
module Controller {
  import opened Geometry
  import opened Settings

  /** What the controller uses of the camera in one frame: its local-to-world transform,
      the world-to-viewport projection and the aspect ratio. */
  datatype Camera = Camera(localToWorld: Vec3 -> Vec3, worldToViewport: Vec3 -> Vec3, aspect: real)

  /** One reference datum handed to the Calibration object: the position and its time. */
  datatype RefSample = RefSample(position: seq<real>, timestamp: real)

  /** Helpers.PupilUnitScalingFactor, engine units to protocol units (metres to millimetres).
      Helpers is not part of this model; the value 1000 is assumed. */
  const PupilUnitScalingFactor: real := 1000.0

  /** The controller's own completion events. */
  datatype Notification = SucceededRaised | FailedRaised

  /** The reference position sent for a target: in 3D the target's local position with y
      divided by the aspect ratio and every component scaled to protocol units; in 2D the
      viewport coordinates of the target's world position. */
  function ReferencePosition(mode: Mode, local: Vec3, cam: Camera): (r: seq<real>)
    requires mode == ThreeD ==> cam.aspect != 0.0
    ensures mode == ThreeD ==> |r| == 3
    ensures mode == TwoD ==> |r| == 2
    ensures mode == ThreeD ==>
      r[0] / PupilUnitScalingFactor == local.x && r[1] * cam.aspect / PupilUnitScalingFactor == local.y
      && r[2] / PupilUnitScalingFactor == local.z
    ensures mode == TwoD ==>
      r[0] == cam.worldToViewport(cam.localToWorld(local)).x && r[1] == cam.worldToViewport(cam.localToWorld(local)).y
  {
    if mode == ThreeD then
      [local.x * PupilUnitScalingFactor, local.y / cam.aspect * PupilUnitScalingFactor, local.z * PupilUnitScalingFactor]
    else
      var viewport := cam.worldToViewport(cam.localToWorld(local));
      [viewport.x, viewport.y]
  }

  /** The two gates of a tick: enough time since the last sample for the sample rate, and
      past the settle window after the last target change, each with half a frame of slack. */
  predicate SampleDue(s: CalibrationSettings, tNow: real, dt: real, tLastSample: real, tLastTarget: real)
    requires ValidSettings(s)
  {
    tNow - tLastSample >= 1.0 / SampleRate(s) - dt / 2.0
    && tNow - tLastTarget >= s.ignoreInitialSeconds - dt / 2.0
  }

  /** A target's batch is complete when it holds samplesPerTarget samples or the target has
      been shown for secondsPerTarget. */
  predicate BatchDue(s: CalibrationSettings, samples: int, tNow: real, tLastTarget: real)
  {
    samples >= s.samplesPerTarget || tNow - tLastTarget >= s.secondsPerTarget
  }

  /** The Calibration object, which is not part of this model, as far as the controller
      relies on it: whether a run is active, the reference data collected since the last
      send, and (ghost) the batches sent during the current run. */
  class Calibration {
    var isCalibrating: bool
    var pending: seq<RefSample>
    ghost var sentThisRun: seq<seq<RefSample>>

    constructor ()
      ensures !isCalibrating && pending == [] && sentThisRun == []
    {
      isCalibrating, pending, sentThisRun := false, [], [];
    }

    method StartCalibration()
      modifies this
      ensures isCalibrating && pending == [] && sentThisRun == []
    {
      isCalibrating, pending, sentThisRun := true, [], [];
    }

    method AddCalibrationPointReferencePosition(position: seq<real>, timestamp: real)
      modifies this`pending
      ensures pending == old(pending) + [RefSample(position, timestamp)]
    {
      pending := pending + [RefSample(position, timestamp)];
    }

    /** Sends the collected reference data, then clears it. */
    method SendCalibrationReferenceData()
      modifies this`pending, this`sentThisRun
      ensures sentThisRun == old(sentThisRun) + [old(pending)] && pending == []
    {
      sentThisRun := sentThisRun + [pending];
      pending := [];
    }

    method StopCalibration()
      modifies this`isCalibrating
      ensures !isCalibrating
    {
      isCalibrating := false;
    }
  }

  class CalibrationController {
    const settings: CalibrationSettings
    const targets: seq<Vec3>
    const calibration: Calibration

    var currentCalibrationPoint: nat
    var currentCalibrationSamples: nat
    var currLocalTargetPos: Vec3
    var tLastSample: real
    var tLastTarget: real

    var markerActive: bool
    var markerPosition: Vec3
    var notifications: seq<Notification>

    /** Indices handed to GetLocalTargetPosAt since the run started. */
    ghost var loadedThisRun: seq<nat>

    /** Between ticks of a run: targets 0 .. currentCalibrationPoint-1 were loaded in order,
        the current one is the last of them, one non-empty batch was sent for each earlier
        target, and the pending batch holds this target's samples, fewer than samplesPerTarget. */
    ghost predicate Valid()
      reads this, calibration
    {
      && |targets| >= 1
      && ValidSettings(settings)
      && currentCalibrationPoint <= |targets|
      && (calibration.isCalibrating ==>
            && 1 <= currentCalibrationPoint
            && currentCalibrationSamples < settings.samplesPerTarget
            && |calibration.pending| == currentCalibrationSamples
            && currLocalTargetPos == targets[currentCalibrationPoint - 1]
            && |loadedThisRun| == currentCalibrationPoint
            && (forall i :: 0 <= i < |loadedThisRun| ==> loadedThisRun[i] == i)
            && |calibration.sentThisRun| == currentCalibrationPoint - 1
            && (forall b :: b in calibration.sentThisRun ==> b != []))
    }

    constructor (settings: CalibrationSettings, targets: seq<Vec3>)
      requires ValidSettings(settings) && |targets| >= 1
      ensures Valid() && fresh(calibration)
      ensures this.settings == settings && this.targets == targets
      ensures !calibration.isCalibrating && !markerActive && notifications == []
      ensures currentCalibrationPoint == 0 && currentCalibrationSamples == 0
      ensures tLastSample == 0.0 && tLastTarget == 0.0
    {
      this.settings := settings;
      this.targets := targets;
      calibration := new Calibration();
      currentCalibrationPoint, currentCalibrationSamples := 0, 0;
      currLocalTargetPos := Vec3(0.0, 0.0, 0.0);
      tLastSample, tLastTarget := 0.0, 0.0;
      markerActive, markerPosition, notifications := false, Vec3(0.0, 0.0, 0.0), [];
      loadedThisRun := [];
    }

    /** One frame: advance a running calibration, then on a key release while connected stop
        the run if it is still going, or start a new one if none is (which includes a run the
        tick just ended). */
    method Update(tNow: real, dt: real, cam: Camera, connected: bool, keyReleased: bool)
      requires Valid() && (settings.mode == ThreeD ==> cam.aspect != 0.0)
      modifies this, calibration
      ensures Valid()
      ensures !old(calibration.isCalibrating) && !(connected && keyReleased) ==>
        unchanged(this) && unchanged(calibration)
      ensures old(calibration.isCalibrating) && !(connected && keyReleased) ==>
        Ticked(tNow, dt, cam) && (calibration.isCalibrating <==> !old(LastTick(tNow, dt)))
      ensures old(calibration.isCalibrating) && connected && keyReleased && !old(LastTick(tNow, dt)) ==>
        Ticked(tNow, dt, cam) && !calibration.isCalibrating
      ensures connected && keyReleased && old(calibration.isCalibrating) ==>
        (calibration.isCalibrating <==> old(LastTick(tNow, dt)))
      ensures connected && keyReleased && !old(calibration.isCalibrating) ==> calibration.isCalibrating
      ensures connected && keyReleased && calibration.isCalibrating ==>
        currentCalibrationPoint == 1 && currentCalibrationSamples == 0 && loadedThisRun == [0]
        && calibration.pending == [] && calibration.sentThisRun == [] && tLastTarget == tNow
      ensures connected && keyReleased && calibration.isCalibrating ==>
        markerActive && currLocalTargetPos == targets[0] && markerPosition == cam.localToWorld(targets[0])
        && notifications == old(notifications)
        && tLastSample == (if old(calibration.isCalibrating) then tNow else old(tLastSample))
    {
      if calibration.isCalibrating {
        UpdateCalibration(tNow, dt, cam);
      }
      if connected && keyReleased {
        if calibration.isCalibrating {
          calibration.StopCalibration();
        } else {
          InitializeCalibration(tNow, cam);
        }
      }
    }

    /** Starts a run: both counters are zeroed, target 0 is loaded and shown, and the
        Calibration object starts with an empty batch. */
    method InitializeCalibration(tNow: real, cam: Camera)
      requires Valid()
      modifies this, calibration
      ensures Valid()
      ensures calibration.isCalibrating && calibration.pending == [] && calibration.sentThisRun == []
      ensures currentCalibrationPoint == 1 && currentCalibrationSamples == 0 && loadedThisRun == [0]
      ensures currLocalTargetPos == targets[0] && markerPosition == cam.localToWorld(targets[0])
      ensures markerActive && tLastTarget == tNow
      ensures tLastSample == old(tLastSample) && notifications == old(notifications)
    {
      currentCalibrationPoint := 0;
      currentCalibrationSamples := 0;
      loadedThisRun := [];
      UpdatePosition(tNow, cam);
      markerActive := true;
      calibration.StartCalibration();
    }

    /** The tick that ends a run: both gates pass, the batch is then due, and the last
        target is the one loaded. */
    predicate LastTick(tNow: real, dt: real)
      requires ValidSettings(settings)
      reads this
    {
      && SampleDue(settings, tNow, dt, tLastSample, tLastTarget)
      && BatchDue(settings, currentCalibrationSamples + 1, tNow, tLastTarget)
      && currentCalibrationPoint == |targets|
    }

    /** The state after one tick of UpdateCalibration, apart from the running flag. Unless both
        gates pass nothing changes. Otherwise one sample of the current target is added; if the
        batch is then due it is sent, and either the next target is loaded and shown, or (after
        the last target) the rest stays as it was. */
    twostate predicate Ticked(tNow: real, dt: real, cam: Camera)
      requires ValidSettings(settings) && (settings.mode == ThreeD ==> cam.aspect != 0.0)
      reads this, calibration
    {
      && markerActive == old(markerActive) && notifications == old(notifications)
      && if !SampleDue(settings, tNow, dt, old(tLastSample), old(tLastTarget)) then
           && tLastSample == old(tLastSample) && tLastTarget == old(tLastTarget)
           && currentCalibrationPoint == old(currentCalibrationPoint)
           && currentCalibrationSamples == old(currentCalibrationSamples)
           && currLocalTargetPos == old(currLocalTargetPos) && markerPosition == old(markerPosition)
           && loadedThisRun == old(loadedThisRun)
           && calibration.pending == old(calibration.pending)
           && calibration.sentThisRun == old(calibration.sentThisRun)
         else
           var sample := RefSample(ReferencePosition(settings.mode, old(currLocalTargetPos), cam), tNow);
           && tLastSample == tNow
           && if !BatchDue(settings, old(currentCalibrationSamples) + 1, tNow, old(tLastTarget)) then
                && calibration.pending == old(calibration.pending) + [sample]
                && calibration.sentThisRun == old(calibration.sentThisRun)
                && currentCalibrationSamples == old(currentCalibrationSamples) + 1
                && currentCalibrationPoint == old(currentCalibrationPoint)
                && currLocalTargetPos == old(currLocalTargetPos) && markerPosition == old(markerPosition)
                && tLastTarget == old(tLastTarget) && loadedThisRun == old(loadedThisRun)
              else
                && calibration.sentThisRun == old(calibration.sentThisRun) + [old(calibration.pending) + [sample]]
                && calibration.pending == []
                && if old(currentCalibrationPoint) < |targets| then
                     && currentCalibrationSamples == 0
                     && currentCalibrationPoint == old(currentCalibrationPoint) + 1
                     && currLocalTargetPos == targets[old(currentCalibrationPoint)]
                     && markerPosition == cam.localToWorld(currLocalTargetPos)
                     && loadedThisRun == old(loadedThisRun) + [old(currentCalibrationPoint)]
                     && tLastTarget == tNow
                   else
                     && currentCalibrationSamples == old(currentCalibrationSamples) + 1
                     && currentCalibrationPoint == old(currentCalibrationPoint)
                     && currLocalTargetPos == old(currLocalTargetPos) && markerPosition == old(markerPosition)
                     && tLastTarget == old(tLastTarget) && loadedThisRun == old(loadedThisRun)
    }

    /** One tick of a running calibration, as Ticked describes it; the run stays active
        except on its last tick, and a run that ends has sent exactly one batch per target. */
    method UpdateCalibration(tNow: real, dt: real, cam: Camera)
      requires Valid() && calibration.isCalibrating && (settings.mode == ThreeD ==> cam.aspect != 0.0)
      modifies this, calibration
      ensures Valid()
      ensures Ticked(tNow, dt, cam)
      ensures calibration.isCalibrating <==> !old(LastTick(tNow, dt))
      ensures !calibration.isCalibrating ==> |calibration.sentThisRun| == |targets|
    {
      if tNow - tLastSample >= 1.0 / SampleRate(settings) - dt / 2.0 {
        if tNow - tLastTarget < settings.ignoreInitialSeconds - dt / 2.0 {
          return;
        }
        tLastSample := tNow;
        AddSample(tNow, cam);
        currentCalibrationSamples := currentCalibrationSamples + 1;
        if currentCalibrationSamples >= settings.samplesPerTarget || tNow - tLastTarget >= settings.secondsPerTarget {
          calibration.SendCalibrationReferenceData();
          if currentCalibrationPoint < |targets| {
            currentCalibrationSamples := 0;
            UpdatePosition(tNow, cam);
          } else {
            calibration.StopCalibration();
          }
        }
      }
    }

    /** The succeeded handler: hides the marker, then raises OnCalibrationSucceeded if anyone listens. */
    method CalibrationSucceeded(hasSubscribers: bool)
      modifies this`markerActive, this`notifications
      ensures !markerActive
      ensures notifications == old(notifications) + (if hasSubscribers then [SucceededRaised] else [])
    {
      CalibrationEnded();
      if hasSubscribers {
        notifications := notifications + [SucceededRaised];
      }
    }

    /** The failed handler: hides the marker, then raises OnCalibrationFailed if anyone listens. */
    method CalibrationFailed(hasSubscribers: bool)
      modifies this`markerActive, this`notifications
      ensures !markerActive
      ensures notifications == old(notifications) + (if hasSubscribers then [FailedRaised] else [])
    {
      CalibrationEnded();
      if hasSubscribers {
        notifications := notifications + [FailedRaised];
      }
    }

    method CalibrationEnded()
      modifies this`markerActive
      ensures !markerActive
    {
      markerActive := false;
    }

    /** Builds the reference position of the current target (in 3D scaling the components in
        place) and adds it, with the time, to the Calibration object's batch. */
    method AddSample(time: real, cam: Camera)
      requires settings.mode == ThreeD ==> cam.aspect != 0.0
      modifies calibration`pending
      ensures calibration.pending
           == old(calibration.pending) + [RefSample(ReferencePosition(settings.mode, currLocalTargetPos, cam), time)]
    {
      var refData := ReferenceData(settings.mode, currLocalTargetPos, cam);
      calibration.AddCalibrationPointReferencePosition(refData, time);
    }

    /** Loads the target at currentCalibrationPoint, moves the marker to it, advances the
        index by one and restarts the target clock. */
    method UpdatePosition(tNow: real, cam: Camera)
      requires currentCalibrationPoint < |targets|
      modifies this`currLocalTargetPos, this`markerPosition, this`currentCalibrationPoint,
               this`tLastTarget, this`loadedThisRun
      ensures currLocalTargetPos == targets[old(currentCalibrationPoint)]
      ensures markerPosition == cam.localToWorld(currLocalTargetPos)
      ensures currentCalibrationPoint == old(currentCalibrationPoint) + 1
      ensures tLastTarget == tNow
      ensures loadedThisRun == old(loadedThisRun) + [old(currentCalibrationPoint)]
    {
      currLocalTargetPos := targets[currentCalibrationPoint];
      markerPosition := cam.localToWorld(currLocalTargetPos);
      loadedThisRun := loadedThisRun + [currentCalibrationPoint];
      currentCalibrationPoint := currentCalibrationPoint + 1;
      tLastTarget := tNow;
    }
  }

  /** AddSample's array: in 3D the target's components, y divided by the aspect ratio, then
      every element multiplied by the scaling factor in place; in 2D the viewport x and y. */
  method ReferenceData(mode: Mode, local: Vec3, cam: Camera) returns (refData: seq<real>)
    requires mode == ThreeD ==> cam.aspect != 0.0
    ensures refData == ReferencePosition(mode, local, cam)
  {
    if mode == ThreeD {
      var a := new real[3];
      a[0], a[1], a[2] := local.x, local.y, local.z;
      a[1] := a[1] / cam.aspect;
      var unscaled := a[..];
      for i := 0 to a.Length
        invariant forall k :: 0 <= k < i ==> a[k] == unscaled[k] * PupilUnitScalingFactor
        invariant forall k :: i <= k < a.Length ==> a[k] == unscaled[k]
      {
        a[i] := a[i] * PupilUnitScalingFactor;
      }
      refData := a[..];
    } else {
      var worldPos := cam.localToWorld(local);
      var viewportPos := cam.worldToViewport(worldPos);
      refData := [viewportPos.x, viewportPos.y];
    }
  }
}
