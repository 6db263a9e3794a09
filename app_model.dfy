// The face engine of App.tsx as a transition system over one state record.
//
// The page holds the current expression, the idle mode, the "scripted sequence is
// playing" flag, a tap counter, the pupil offset and the sensor hook's state, plus
// four timer handles kept in refs (the expression reversion, the next blink, the
// autonomous-action interval and the tap debounce) and a number of fire-once timers
// nobody keeps a handle on (the steps of a scripted sequence, the end of an idle
// mode, the angry-sound interval). Time is an explicit millisecond clock; a timer
// is due at a time and carries its creation number, and the earliest due timer
// fires first (timers due together fire in creation order). Each event is handled
// completely before the next: the handler runs, then the blink and autonomous
// effects are re-run if one of the values they depend on changed.

module AppModel {
  import opened Types
  import C = Constants
  import S = DeviceSensors
  import R = Random

  /** A pending timer: when it is due, and its creation number. */
  datatype Timer = Timer(due: nat, order: nat)

  /** Timer `a` fires no later than timer `b`. */
  predicate NotAfter(a: Timer, b: Timer)
  {
    a.due < b.due || (a.due == b.due && a.order <= b.order)
  }

  /** What the timer in expressionTimeoutRef does: revert to NEUTRAL, or (after a
      shake) turn DIZZY into a temporary ANGRY. */
  datatype Reversion = ToNeutral | DizzyThenAngry
  datatype PendingReversion = PendingReversion(timer: Timer, action: Reversion)

  /** autonomousIntervalRef: null, a running interval, or an interval that was
      cleared while the ref kept its id. */
  datatype IntervalRef = Null | Running(next: Timer) | Cleared

  /** The fire-once work nobody keeps a handle on: one step of a scripted sequence
      (show an expression, or end the script), the end of an idle mode, or one
      firing of the angry-sound interval after `played` sounds. */
  datatype Job = Show(shown: EyeExpression) | EndScript | EndIdle | AngryPulse(played: nat)
  datatype Scheduled = Scheduled(timer: Timer, step: Job)

  /** The three draws of Math.random() an event may use: the next blink delay, the
      autonomous action and the look direction. */
  datatype Draw = Draw(blink: real, action: real, look: real)

  predicate ValidDraw(d: Draw)
  {
    R.IsDraw(d.blink) && R.IsDraw(d.action) && R.IsDraw(d.look)
  }

  /** The whole state of the page. `timeouts` is the duration table the engine
      reads, `issued` the number of timers created so far, `sounds` the sounds
      played so far. */
  datatype Face = Face(
    timeouts: map<string, nat>,
    now: nat,
    issued: nat,
    hasStarted: bool,
    expression: EyeExpression,
    idleState: IdleState,
    isInteracting: bool,
    tapCount: nat,
    pupil: PupilPosition,
    reversion: Option<PendingReversion>,
    blink: Option<Timer>,
    autonomous: IntervalRef,
    debounce: Option<Timer>,
    untracked: seq<Scheduled>,
    sounds: seq<AudioKey>,
    sensors: S.SensorState)

  /** The page before the start button is pressed, after the mount: the motion
      effect has already run once on the empty sensor record. */
  function Init(timeouts: map<string, nat>): Face
  {
    Face(timeouts, 0, 0, false, Neutral, NoIdle, false, 0, PupilFromRotation(S.Initial.data.rotation),
         None, None, Null, None, [], [], S.Initial)
  }

  const DebounceDelay: nat := 400
  const AngryPulseGap: nat := 150
  const AngryPulses: nat := 4
  const ThinkingTime: nat := 4000
  const CodingTime: nat := 12000
  const BoredTime: nat := 6000

  /** The delay a timer gets from the sum of the table entries `keys`. */
  function Duration(s: Face, keys: seq<string>): nat
  {
    C.TimerDelay(s.timeouts, keys)
  }

  /** setTemporaryExpression: cancel the pending reversion, play the blink sound
      for BLINK, show the expression, and schedule the one reversion to NEUTRAL. */
  function SetTemporaryExpression(s: Face, e: EyeExpression, duration: nat): Face
  {
    s.(expression := e,
       reversion := Some(PendingReversion(Timer(s.now + duration, s.issued), ToNeutral)),
       issued := s.issued + 1,
       sounds := if e == Blink then s.sounds + [BlinkKey] else s.sounds)
  }

  // ---- the blink and autonomous effects ----

  /** The values both loop effects depend on. */
  predicate LoopDepsChanged(p: Face, q: Face)
  {
    p.hasStarted != q.hasStarted || p.expression != q.expression
    || p.isInteracting != q.isInteracting || p.idleState != q.idleState
  }

  predicate BlinkAllowed(s: Face)
  {
    s.hasStarted && !s.isInteracting && s.idleState == NoIdle
  }

  predicate AutonomousAllowed(s: Face)
  {
    s.expression == Neutral && !s.isInteracting && s.idleState == NoIdle
  }

  /** `Math.random() * 3000 + 2000` milliseconds. */
  function BlinkDelay(d: Draw): nat
    requires ValidDraw(d)
  {
    R.DelayBetween(d.blink, 2000, 3000)
  }

  /** scheduleNextBlink: cancel the pending blink and set a new one. */
  function ScheduleBlink(s: Face, d: Draw): Face
    requires ValidDraw(d)
  {
    s.(blink := Some(Timer(s.now + BlinkDelay(d), s.issued)), issued := s.issued + 1)
  }

  /** The blink effect, after its cleanup has cancelled the pending blink. */
  function BlinkEffect(s: Face, d: Draw): Face
    requires ValidDraw(d)
  {
    if BlinkAllowed(s) then ScheduleBlink(s, d) else s.(blink := None)
  }

  /** The autonomous effect: clear and forget the interval when an expression,
      a script or an idle mode is active; otherwise start one if the ref is empty. */
  function AutonomousEffect(s: Face): Face
  {
    if !AutonomousAllowed(s) then s.(autonomous := Null)
    else if s.autonomous.Null? && s.hasStarted then
      s.(autonomous := Running(Timer(s.now + C.AutonomousInterval, s.issued)), issued := s.issued + 1)
    else s
  }

  /** The values the motion effect depends on, besides the sensor record. */
  predicate MotionDepsChanged(p: Face, q: Face)
  {
    p.expression != q.expression || p.isInteracting != q.isInteracting
  }

  /** After a handler took `before` to `after`, the blink and autonomous effects
      run (in declaration order) when one of their dependencies changed, and then
      the motion effect when the expression or the script flag changed. */
  function Settle(before: Face, after: Face, d: Draw): Face
    requires ValidDraw(d)
  {
    var looped := if LoopDepsChanged(before, after) then AutonomousEffect(BlinkEffect(after, d)) else after;
    if MotionDepsChanged(before, after) then MotionReaction(looped, looped.sensors.data) else looped
  }

  // ---- taps ----

  /** handleInteractionStart for a tap that is not ignored. */
  function InteractionStart(s: Face): Face
  {
    var count := s.tapCount + 1;
    var cleared := s.(idleState := NoIdle, tapCount := count,
                      autonomous := if s.autonomous.Running? then Cleared else s.autonomous,
                      blink := None, reversion := None, debounce := None);
    if count >= 4 then
      cleared.(tapCount := 0, isInteracting := true, expression := Angry,
               untracked := s.untracked
                 + [Scheduled(Timer(s.now + AngryPulseGap, s.issued), AngryPulse(0)),
                    Scheduled(Timer(s.now + Duration(s, ["ANGRY"]), s.issued + 1), EndScript)],
               issued := s.issued + 2)
    else
      cleared.(debounce := Some(Timer(s.now + DebounceDelay, s.issued)), issued := s.issued + 1)
  }

  /** A pointer-down: no handler before the start, ignored while a script plays. */
  function OnTap(s: Face, d: Draw): Face
    requires ValidDraw(d)
  {
    if !s.hasStarted || s.isInteracting then s else Settle(s, InteractionStart(s), d)
  }

  // ---- timers ----

  /** Where a pending timer lives. */
  datatype Source = FromReversion | FromBlink | FromAutonomous | FromDebounce | FromUntracked(index: nat)
  datatype Candidate = Candidate(source: Source, timer: Timer)

  /** `c` names a timer that is pending in `s`. */
  predicate IsPending(s: Face, c: Candidate)
  {
    match c.source
    case FromReversion => s.reversion.Some? && s.reversion.value.timer == c.timer
    case FromBlink => s.blink == Some(c.timer)
    case FromAutonomous => s.autonomous == Running(c.timer)
    case FromDebounce => s.debounce == Some(c.timer)
    case FromUntracked(i) => i < |s.untracked| && s.untracked[i].timer == c.timer
  }

  function UntrackedCandidates(u: seq<Scheduled>): (cs: seq<Candidate>)
    ensures |cs| == |u|
    ensures forall i :: 0 <= i < |u| ==> cs[i] == Candidate(FromUntracked(i), u[i].timer)
  {
    seq(|u|, i requires 0 <= i < |u| => Candidate(FromUntracked(i), u[i].timer))
  }

  /** Every pending timer, each once. */
  function Candidates(s: Face): (cs: seq<Candidate>)
    ensures forall k :: 0 <= k < |cs| ==> IsPending(s, cs[k])
    ensures forall c :: IsPending(s, c) ==> c in cs
  {
    var slots :=
      (if s.reversion.Some? then [Candidate(FromReversion, s.reversion.value.timer)] else [])
      + (if s.blink.Some? then [Candidate(FromBlink, s.blink.value)] else [])
      + (if s.autonomous.Running? then [Candidate(FromAutonomous, s.autonomous.next)] else [])
      + (if s.debounce.Some? then [Candidate(FromDebounce, s.debounce.value)] else []);
    var rest := UntrackedCandidates(s.untracked);
    assert forall c :: IsPending(s, c) && c.source.FromUntracked? ==> c == rest[c.source.index];
    slots + rest
  }

  /** The position of a timer that fires first. */
  function Earliest(cs: seq<Candidate>): (k: nat)
    requires |cs| > 0
    ensures k < |cs|
    ensures forall j :: 0 <= j < |cs| ==> NotAfter(cs[k].timer, cs[j].timer)
  {
    if |cs| == 1 then 0
    else
      var k := Earliest(cs[1..]) + 1;
      if NotAfter(cs[0].timer, cs[k].timer) then 0 else k
  }

  predicate HasPending(s: Face)
  {
    |Candidates(s)| > 0
  }

  /** The timer the browser fires next: pending, and no later than any other. */
  function NextDue(s: Face): (c: Candidate)
    requires HasPending(s)
    ensures IsPending(s, c)
    ensures forall o :: IsPending(s, o) ==> NotAfter(c.timer, o.timer)
  {
    var cs := Candidates(s);
    var k := Earliest(cs);
    assert forall o :: IsPending(s, o) ==> exists j :: 0 <= j < |cs| && cs[j] == o;
    cs[k]
  }

  /** The reversion timer fires. */
  function FireReversion(s: Face): Face
    requires s.reversion.Some?
  {
    match s.reversion.value.action
    case ToNeutral => s.(expression := Neutral, reversion := None)
    case DizzyThenAngry => SetTemporaryExpression(s.(reversion := None), Angry, Duration(s, ["ANGRY"]))
  }

  /** The blink timer fires: blink only from NEUTRAL, and schedule the next blink
      either way. */
  function FireBlink(s: Face, d: Draw): Face
    requires ValidDraw(d)
  {
    var waited := s.(blink := None);
    var blinked := if s.expression == Neutral then SetTemporaryExpression(waited, Blink, Duration(s, ["BLINK"])) else waited;
    ScheduleBlink(blinked, d)
  }

  /** The seven equally likely entries the autonomous action is drawn from. */
  datatype Action = LookAround | Think | Code | GetBored

  const Actions: seq<Action> := [LookAround, LookAround, LookAround, LookAround, Think, Code, GetBored]
  const Looks: seq<EyeExpression> := [LookLeft, LookRight, LookUp, LookDown]

  /** Show an idle mode and schedule its end. */
  function EnterIdle(s: Face, mode: IdleState, ms: nat): Face
  {
    s.(idleState := mode,
       untracked := s.untracked + [Scheduled(Timer(s.now + ms, s.issued), EndIdle)],
       issued := s.issued + 1)
  }

  function AutonomousAction(s: Face, d: Draw): Face
    requires ValidDraw(d)
  {
    match Actions[R.PickIndex(d.action, |Actions|)]
    case LookAround => SetTemporaryExpression(s, Looks[R.PickIndex(d.look, |Looks|)], Duration(s, ["LOOK"]))
    case Think => EnterIdle(s, Thinking, ThinkingTime)
    case Code => EnterIdle(s, Coding, CodingTime)
    case GetBored => EnterIdle(s, Bored, BoredTime)
  }

  /** The autonomous interval fires: perform one action, and the interval comes
      round again one period later. */
  function FireAutonomous(s: Face, d: Draw): Face
    requires ValidDraw(d)
  {
    var acted := AutonomousAction(s, d);
    acted.(autonomous := Running(Timer(s.now + C.AutonomousInterval, acted.issued)), issued := acted.issued + 1)
  }

  /** The three timed steps of the happy script, with cumulative delays. */
  function HappyScript(s: Face): seq<Scheduled>
  {
    [Scheduled(Timer(s.now + Duration(s, ["SQUINT"]), s.issued), Show(Shake)),
     Scheduled(Timer(s.now + Duration(s, ["SQUINT", "SHAKE"]), s.issued + 1), Show(Happy)),
     Scheduled(Timer(s.now + Duration(s, ["SQUINT", "SHAKE", "HAPPY"]), s.issued + 2), EndScript)]
  }

  /** The debounce timer fires: resolve the taps counted so far into a script. */
  function FireDebounce(s: Face): Face
  {
    var finalTapCount := s.tapCount;
    var playing := s.(tapCount := 0, isInteracting := true, debounce := None);
    if finalTapCount == 3 then
      playing.(expression := GrowingSmile,
               untracked := s.untracked + [Scheduled(Timer(s.now + Duration(s, ["GROWING_SMILE"]), s.issued), EndScript)],
               issued := s.issued + 1)
    else
      playing.(expression := Squint, untracked := s.untracked + HappyScript(s), issued := s.issued + 3)
  }

  /** `u` without its entry at `i`. */
  function Without(u: seq<Scheduled>, i: nat): seq<Scheduled>
    requires i < |u|
  {
    u[..i] + u[i + 1..]
  }

  /** An untracked timer fires. */
  function FireUntracked(s: Face, i: nat): Face
    requires i < |s.untracked|
  {
    var rest := s.(untracked := Without(s.untracked, i));
    match s.untracked[i].step
    case Show(e) => rest.(expression := e)
    case EndScript => rest.(expression := Neutral, isInteracting := false)
    case EndIdle => rest.(idleState := NoIdle)
    case AngryPulse(n) =>
      var played := rest.(sounds := s.sounds + [AngryKey]);
      if n + 1 >= AngryPulses then played
      else played.(untracked := rest.untracked + [Scheduled(Timer(s.now + AngryPulseGap, s.issued), AngryPulse(n + 1))],
                   issued := s.issued + 1)
  }

  /** Run the callback of timer `c` at its due time, before the effects. */
  function RunTimer(s: Face, c: Candidate, d: Draw): Face
    requires ValidDraw(d) && IsPending(s, c)
  {
    var s0 := s.(now := c.timer.due);
    match c.source
    case FromReversion => FireReversion(s0)
    case FromBlink => FireBlink(s0, d)
    case FromAutonomous => FireAutonomous(s0, d)
    case FromDebounce => FireDebounce(s0)
    case FromUntracked(i) => FireUntracked(s0, i)
  }

  /** The earliest pending timer fires, then the effects run. */
  function OnFire(s: Face, d: Draw): Face
    requires ValidDraw(d) && HasPending(s)
  {
    var c := NextDue(s);
    Settle(s.(now := c.timer.due), RunTimer(s, c, d), d)
  }

  // ---- sensors ----

  function Min(a: real, b: real): real
  {
    if a < b then a else b
  }

  function Max(a: real, b: real): real
  {
    if a < b then b else a
  }

  /** `Math.max(lo, Math.min(hi, v))`. */
  function Clamp(v: real, lo: real, hi: real): real
  {
    Max(lo, Min(hi, v))
  }

  /** The pupil offset for a device tilt; missing angles count as 0. */
  function PupilFromRotation(rotation: Rotation): (p: PupilPosition)
    ensures -30.0 <= p.x <= 30.0 && -25.0 <= p.y <= 25.0
    ensures -30.0 <= S.OrZero(rotation.gamma) / 2.0 <= 30.0 ==> p.x == S.OrZero(rotation.gamma) / 2.0
    ensures -25.0 <= S.OrZero(rotation.beta) / 2.0 - 20.0 <= 25.0 ==> p.y == S.OrZero(rotation.beta) / 2.0 - 20.0
    ensures S.OrZero(rotation.gamma) / 2.0 > 30.0 ==> p.x == 30.0
    ensures S.OrZero(rotation.gamma) / 2.0 < -30.0 ==> p.x == -30.0
    ensures S.OrZero(rotation.beta) / 2.0 - 20.0 > 25.0 ==> p.y == 25.0
    ensures S.OrZero(rotation.beta) / 2.0 - 20.0 < -25.0 ==> p.y == -25.0
  {
    var x := S.OrZero(rotation.gamma) / 2.0;
    var y := S.OrZero(rotation.beta) / 2.0 - 20.0;
    PupilPosition(Clamp(x, -30.0, 30.0), Clamp(y, -25.0, 25.0))
  }

  /** The motion effect for one published sensor record. */
  function MotionReaction(s: Face, data: DeviceSensorsData): Face
  {
    if s.isInteracting then s
    else if data.isShaking then
      s.(idleState := NoIdle, expression := Dizzy,
         reversion := Some(PendingReversion(Timer(s.now + Duration(s, ["DIZZY"]), s.issued), DizzyThenAngry)),
         issued := s.issued + 1)
    else
      var moved := if data.isMoving && s.expression == Neutral
        then SetTemporaryExpression(s.(idleState := NoIdle), Squint, Duration(s, ["SQUINT"]))
        else s;
      moved.(pupil := PupilFromRotation(data.rotation))
  }

  /** A devicemotion sample: the hook classifies it, the page reacts, the hook's
      effect is re-subscribed (its baseline changed) and its cleanup lowers both
      flags, and the page reacts once more to the lowered flags. */
  function OnMotion(s: Face, ev: S.MotionEvent, d: Draw): Face
    requires ValidDraw(d)
  {
    if !S.Listening(s.sensors, s.hasStarted) then s
    else
      var sensed := S.OnMotion(s.sensors, s.hasStarted, ev);
      var reacted := MotionReaction(s.(sensors := sensed), sensed.data);
      var lowered := reacted.(sensors := S.AfterCleanup(sensed));
      Settle(s, MotionReaction(lowered, lowered.sensors.data), d)
  }

  /** A deviceorientation sample: the hook publishes it and the page reacts. */
  function OnOrientation(s: Face, rotation: Rotation, d: Draw): Face
    requires ValidDraw(d)
  {
    if !S.Listening(s.sensors, s.hasStarted) then s
    else
      var sensed := S.OnOrientation(s.sensors, s.hasStarted, rotation);
      Settle(s, MotionReaction(s.(sensors := sensed), sensed.data), d)
  }

  // ---- start and events ----

  /** The start button: record the permission answer and start the face. */
  function OnStart(s: Face, granted: bool, d: Draw): Face
    requires ValidDraw(d)
  {
    if s.hasStarted then s
    else Settle(s, s.(hasStarted := true, sensors := S.WithPermission(s.sensors, granted)), d)
  }

  datatype Event =
    | Start(granted: bool)
    | Tap
    | Fire
    | Wait(until: nat)
    | Motion(sample: S.MotionEvent)
    | Orientation(rotation: Rotation)

  /** What the event loop can deliver next: a timer only if one is pending, and
      time can only pass up to the next due timer. */
  predicate Enabled(s: Face, ev: Event)
  {
    match ev
    case Fire => HasPending(s)
    case Wait(t) => s.now <= t && forall c | c in Candidates(s) :: t <= c.timer.due
    case _ => true
  }

  function Step(s: Face, ev: Event, d: Draw): Face
    requires ValidDraw(d) && Enabled(s, ev)
  {
    match ev
    case Start(granted) => OnStart(s, granted, d)
    case Tap => OnTap(s, d)
    case Fire => OnFire(s, d)
    case Wait(t) => s.(now := t)
    case Motion(sample) => OnMotion(s, sample, d)
    case Orientation(rotation) => OnOrientation(s, rotation, d)
  }

  /** The page after the event loop delivered `events` in order, the i-th with
      the draws `draws[i]`; None if one of them could not be delivered then or
      has no draws in range. */
  function Run(s: Face, events: seq<Event>, draws: seq<Draw>): Option<Face>
    decreases |events|
  {
    if events == [] then Some(s)
    else if draws == [] || !ValidDraw(draws[0]) || !Enabled(s, events[0]) then None
    else Run(Step(s, events[0], draws[0]), events[1..], draws[1..])
  }
}
