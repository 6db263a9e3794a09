// The device-sensor hook (hooks/useDeviceSensors.ts): a shake/move classifier over
// successive acceleration samples, the published sensor record, and the gate that
// keeps both listeners off until the face has started and permission is granted.

module DeviceSensors {
  import opened Types
  import C = Constants

  /** An acceleration with every axis present. */
  datatype Vec3 = Vec3(x: real, y: real, z: real)

  /** A devicemotion event; `accelerationIncludingGravity` may be absent. */
  datatype MotionEvent = MotionEvent(accelerationIncludingGravity: Option<Acceleration>)

  /** `v || 0`: a missing reading counts as zero. */
  function OrZero(v: Option<real>): (r: real)
    ensures v.Some? ==> r == v.value
    ensures v.None? ==> r == 0.0
  {
    match v
    case Some(a) => a
    case None => 0.0
  }

  function Abs(r: real): real
  {
    if r < 0.0 then -r else r
  }

  function Max(a: real, b: real): real
  {
    if a < b then b else a
  }

  /** The reading the handler works on: the event's acceleration, or the zero
      vector when the event carries none. */
  function RawAcceleration(ev: MotionEvent): Acceleration
  {
    match ev.accelerationIncludingGravity
    case Some(a) => a
    case None => Acceleration(Some(0.0), Some(0.0), Some(0.0))
  }

  /** The reading with missing axes replaced by 0: what becomes `lastAccel`. */
  function Baseline(a: Acceleration): Vec3
  {
    Vec3(OrZero(a.x), OrZero(a.y), OrZero(a.z))
  }

  /** Per-axis absolute change from the previous sample. */
  function Deltas(last: Vec3, a: Acceleration): Vec3
  {
    Vec3(Abs(OrZero(a.x) - last.x), Abs(OrZero(a.y) - last.y), Abs(OrZero(a.z) - last.z))
  }

  /** The largest per-axis change: an independent way to state both thresholds. */
  function MaxDelta(last: Vec3, a: Acceleration): real
  {
    var d := Deltas(last, a);
    Max(d.x, Max(d.y, d.z))
  }

  /** Shaking: some axis changed by strictly more than the shake threshold. */
  function IsShaking(last: Vec3, a: Acceleration): (shaking: bool)
    ensures shaking <==> MaxDelta(last, a) > C.ShakeThreshold
  {
    var d := Deltas(last, a);
    d.x > C.ShakeThreshold || d.y > C.ShakeThreshold || d.z > C.ShakeThreshold
  }

  /** Moving: not shaking, and some axis changed by strictly more than the move
      threshold; so a largest change in (5, 25] is a move. */
  function IsMoving(last: Vec3, a: Acceleration): (moving: bool)
    ensures moving <==> C.MoveThreshold < MaxDelta(last, a) <= C.ShakeThreshold
    ensures !(moving && IsShaking(last, a))
  {
    var d := Deltas(last, a);
    !IsShaking(last, a) && (d.x > C.MoveThreshold || d.y > C.MoveThreshold || d.z > C.MoveThreshold)
  }

  /** The hook's state: the published record, the permission flag and the
      previous acceleration sample. */
  datatype SensorState = SensorState(
    data: DeviceSensorsData,
    permissionGranted: bool,
    lastAccel: Vec3)

  /** Everything unknown, both flags down, the previous sample at the origin. */
  const Initial: SensorState :=
    SensorState(
      DeviceSensorsData(Rotation(None, None, None), Acceleration(None, None, None), false, false),
      false,
      Vec3(0.0, 0.0, 0.0))

  /** The listeners are installed only while enabled and permitted. */
  predicate Listening(s: SensorState, enabled: bool)
  {
    enabled && s.permissionGranted
  }

  /** The devicemotion handler: classify against the previous sample, publish the
      raw reading and both flags, and make the reading the new baseline. */
  function OnMotion(s: SensorState, enabled: bool, ev: MotionEvent): SensorState
  {
    if !Listening(s, enabled) then s
    else
      var a := RawAcceleration(ev);
      s.(data := s.data.(acceleration := a, isShaking := IsShaking(s.lastAccel, a), isMoving := IsMoving(s.lastAccel, a)),
         lastAccel := Baseline(a))
  }

  /** The deviceorientation handler: publish the three angles as they are. */
  function OnOrientation(s: SensorState, enabled: bool, rotation: Rotation): SensorState
  {
    if !Listening(s, enabled) then s else s.(data := s.data.(rotation := rotation))
  }

  /** The effect's cleanup: both flags go down. It runs whenever the effect is
      re-subscribed, which happens after every motion sample (the baseline is one
      of its dependencies), and on teardown. */
  function AfterCleanup(s: SensorState): SensorState
  {
    s.(data := s.data.(isShaking := false, isMoving := false))
  }

  /** The outcome of the permission request: granted sets the flag, anything else
      leaves it as it was. */
  function WithPermission(s: SensorState, granted: bool): SensorState
  {
    if granted then s.(permissionGranted := true) else s
  }

  /** Whatever was classified, the baseline after a sample is the sample itself
      with missing axes read as 0, and the next sample is classified against it
      alone: the history before it plays no part. */
  lemma {:induction false} BaselineIsPreviousSample(s: SensorState, t: SensorState, ev: MotionEvent, next: Acceleration)
    requires Listening(s, true) && Listening(t, true)
    ensures OnMotion(s, true, ev).lastAccel == OnMotion(t, true, ev).lastAccel
    ensures var a := RawAcceleration(ev);
      OnMotion(s, true, ev).lastAccel == Vec3(OrZero(a.x), OrZero(a.y), OrZero(a.z))
    ensures IsShaking(OnMotion(s, true, ev).lastAccel, next) == IsShaking(OnMotion(t, true, ev).lastAccel, next)
    ensures IsMoving(OnMotion(s, true, ev).lastAccel, next) == IsMoving(OnMotion(t, true, ev).lastAccel, next)
  {
  }

  /** A motion event without an acceleration reading is handled exactly like one
      reading (0, 0, 0). */
  lemma MissingAccelerationIsZero(s: SensorState, enabled: bool)
    ensures OnMotion(s, enabled, MotionEvent(None))
         == OnMotion(s, enabled, MotionEvent(Some(Acceleration(Some(0.0), Some(0.0), Some(0.0)))))
  {
  }

  /** A sample the hook listens to never raises both flags. */
  lemma FlagsExclusive(s: SensorState, enabled: bool, ev: MotionEvent)
    ensures var r := OnMotion(s, enabled, ev);
      Listening(s, enabled) ==> !(r.data.isShaking && r.data.isMoving)
  {
    var a := RawAcceleration(ev);
    assert !(IsMoving(s.lastAccel, a) && IsShaking(s.lastAccel, a));
  }

  /** An orientation sample changes the rotation and nothing else. */
  lemma OrientationChangesOnlyRotation(s: SensorState, enabled: bool, rotation: Rotation)
    ensures var r := OnOrientation(s, enabled, rotation);
      && r.data.acceleration == s.data.acceleration
      && r.data.isShaking == s.data.isShaking && r.data.isMoving == s.data.isMoving
      && r.lastAccel == s.lastAccel && r.permissionGranted == s.permissionGranted
      && (Listening(s, enabled) ==> r.data.rotation == rotation)
  {
  }

  /** Until the hook is enabled and permission is granted, samples change nothing. */
  lemma NothingWithoutPermission(s: SensorState, enabled: bool, ev: MotionEvent, rotation: Rotation)
    requires !enabled || !s.permissionGranted
    ensures OnMotion(s, enabled, ev) == s && OnOrientation(s, enabled, rotation) == s
  {
  }

  /** The cleanup lowers both flags and keeps everything else. */
  lemma CleanupLowersFlags(s: SensorState)
    ensures var r := AfterCleanup(s);
      !r.data.isShaking && !r.data.isMoving
      && r.data.rotation == s.data.rotation && r.data.acceleration == s.data.acceleration
      && r.lastAccel == s.lastAccel && r.permissionGranted == s.permissionGranted
  {
  }

  /** The start state: every reading unknown, both flags down, baseline at the origin. */
  lemma InitialState()
    ensures Initial.data.rotation.alpha.None? && Initial.data.rotation.beta.None? && Initial.data.rotation.gamma.None?
    ensures Initial.data.acceleration.x.None? && Initial.data.acceleration.y.None? && Initial.data.acceleration.z.None?
    ensures !Initial.data.isShaking && !Initial.data.isMoving && !Initial.permissionGranted
    ensures Initial.lastAccel == Vec3(0.0, 0.0, 0.0)
  {
  }

  function Reading(x: real, y: real, z: real): Acceleration
  {
    Acceleration(Some(x), Some(y), Some(z))
  }

  /** From rest: a jump of 30 on one axis is a shake, 6 is a move, 3 is neither,
      and exactly 25 is a move, not a shake. */
  lemma ClassificationExamples()
    ensures var origin := Vec3(0.0, 0.0, 0.0);
      && IsShaking(origin, Reading(30.0, 0.0, 0.0)) && !IsMoving(origin, Reading(30.0, 0.0, 0.0))
      && !IsShaking(origin, Reading(6.0, 0.0, 0.0)) && IsMoving(origin, Reading(6.0, 0.0, 0.0))
      && !IsShaking(origin, Reading(3.0, 0.0, 0.0)) && !IsMoving(origin, Reading(3.0, 0.0, 0.0))
      && !IsShaking(origin, Reading(25.0, 0.0, 0.0)) && IsMoving(origin, Reading(25.0, 0.0, 0.0))
  {
  }

  /** The hook as an object whose state each listener overwrites. */
  class SensorHook {
    var data: DeviceSensorsData
    var permissionGranted: bool
    var lastAccel: Vec3

    function State(): SensorState
      reads this
    {
      SensorState(data, permissionGranted, lastAccel)
    }

    constructor ()
      ensures State() == Initial
    {
      data := Initial.data;
      permissionGranted := false;
      lastAccel := Vec3(0.0, 0.0, 0.0);
    }

    /** Record the answer of the platform's permission prompt. */
    method RequestPermission(granted: bool)
      modifies this
      ensures State() == WithPermission(old(State()), granted)
    {
      if granted {
        permissionGranted := true;
      }
    }

    method HandleMotion(enabled: bool, ev: MotionEvent)
      modifies this
      ensures State() == OnMotion(old(State()), enabled, ev)
      ensures enabled && old(permissionGranted) ==> lastAccel == Baseline(RawAcceleration(ev))
    {
      if !enabled || !permissionGranted {
        return;
      }
      var a := RawAcceleration(ev);
      var deltaX := Abs(OrZero(a.x) - lastAccel.x);
      var deltaY := Abs(OrZero(a.y) - lastAccel.y);
      var deltaZ := Abs(OrZero(a.z) - lastAccel.z);
      var isShaking := deltaX > C.ShakeThreshold || deltaY > C.ShakeThreshold || deltaZ > C.ShakeThreshold;
      var isMoving := !isShaking && (deltaX > C.MoveThreshold || deltaY > C.MoveThreshold || deltaZ > C.MoveThreshold);
      data := data.(acceleration := a, isShaking := isShaking, isMoving := isMoving);
      lastAccel := Vec3(OrZero(a.x), OrZero(a.y), OrZero(a.z));
    }

    method HandleOrientation(enabled: bool, rotation: Rotation)
      modifies this
      ensures State() == OnOrientation(old(State()), enabled, rotation)
    {
      if enabled && permissionGranted {
        data := data.(rotation := rotation);
      }
    }

    method Cleanup()
      modifies this
      ensures State() == AfterCleanup(old(State()))
    {
      data := data.(isShaking := false, isMoving := false);
    }
  }
}
