// The page component of App.tsx as an object: its state variables and refs are
// fields the handlers update in place, the sensor hook is an object of its own,
// and every handler is proved to do exactly what the transition of AppModel does
// to the same state, so the invariant and the lemmas of AppProperties carry over.

module App {
  import opened Types
  import C = Constants
  import S = DeviceSensors
  import R = Random
  import opened AppModel
  import P = AppProperties

  class Coordinator {
    /** The duration table the page reads. */
    const timeouts: map<string, nat>
    /** useDeviceSensors. */
    const hook: S.SensorHook
    /** The event loop's clock and the number of timers created so far. */
    var now: nat
    var issued: nat
    var hasStarted: bool
    var expression: EyeExpression
    var idleState: IdleState
    var isInteracting: bool
    /** touchCountRef. */
    var tapCount: nat
    var pupil: PupilPosition
    /** expressionTimeoutRef. */
    var reversion: Option<PendingReversion>
    /** blinkTimeoutRef. */
    var blink: Option<Timer>
    /** autonomousIntervalRef. */
    var autonomous: IntervalRef
    /** interactionTimeoutRef. */
    var debounce: Option<Timer>
    /** The timers nobody keeps a handle on. */
    var untracked: seq<Scheduled>
    /** The sounds played so far. */
    var sounds: seq<AudioKey>

    /** The page as one state record. */
    function Model(): Face
      reads this, hook
    {
      Face(timeouts, now, issued, hasStarted, expression, idleState, isInteracting, tapCount, pupil,
           reversion, blink, autonomous, debounce, untracked, sounds, hook.State())
    }

    ghost predicate Valid()
      reads this, hook
    {
      P.Valid(Model())
    }

    /** The mount: the face before the start button. */
    constructor (table: map<string, nat>)
      ensures Model() == Init(table) && Valid() && fresh(hook)
    {
      timeouts := table;
      hook := new S.SensorHook();
      now := 0;
      issued := 0;
      hasStarted := false;
      expression := Neutral;
      idleState := NoIdle;
      isInteracting := false;
      tapCount := 0;
      pupil := PupilFromRotation(S.Initial.data.rotation);
      reversion := None;
      blink := None;
      autonomous := Null;
      debounce := None;
      untracked := [];
      sounds := [];
      new;
      P.InitValid(table);
    }

    // ---- helpers the handlers share ----

    /** Create a timer due `delay` ms from now. */
    method NewTimer(delay: nat) returns (t: Timer)
      modifies this
      ensures t == Timer(old(now) + delay, old(issued))
      ensures Model() == old(Model()).(issued := old(issued) + 1)
    {
      t := Timer(now + delay, issued);
      issued := issued + 1;
    }

    method SetTemporaryExpression(e: EyeExpression, duration: nat)
      modifies this
      ensures Model() == AppModel.SetTemporaryExpression(old(Model()), e, duration)
    {
      var t := NewTimer(duration);
      reversion := Some(PendingReversion(t, ToNeutral));
      if e == Blink {
        sounds := sounds + [BlinkKey];
      }
      expression := e;
    }

    method ScheduleNextBlink(d: Draw)
      requires ValidDraw(d)
      modifies this
      ensures Model() == AppModel.ScheduleBlink(old(Model()), d)
    {
      var t := NewTimer(BlinkDelay(d));
      blink := Some(t);
    }

    // ---- the effects ----

    method BlinkEffect(d: Draw)
      requires ValidDraw(d)
      modifies this
      ensures Model() == AppModel.BlinkEffect(old(Model()), d)
    {
      blink := None;
      if hasStarted && !isInteracting && idleState == NoIdle {
        ScheduleNextBlink(d);
      }
    }

    method AutonomousEffect()
      modifies this
      ensures Model() == AppModel.AutonomousEffect(old(Model()))
    {
      if expression != Neutral || isInteracting || idleState != NoIdle {
        autonomous := Null;
      } else if autonomous.Null? && hasStarted {
        var t := NewTimer(C.AutonomousInterval);
        autonomous := Running(t);
      }
    }

    /** The motion effect, for the record the hook publishes now. */
    method MotionEffect()
      modifies this
      ensures Model() == MotionReaction(old(Model()), hook.data)
    {
      var data := hook.data;
      if isInteracting {
        return;
      }
      if data.isShaking {
        GoDizzy();
        return;
      }
      ghost var moved := if data.isMoving && expression == Neutral
        then AppModel.SetTemporaryExpression(Model().(idleState := NoIdle), Squint, C.TimerDelay(timeouts, ["SQUINT"]))
        else Model();
      if data.isMoving && expression == Neutral {
        idleState := NoIdle;
        SetTemporaryExpression(Squint, C.TimerDelay(timeouts, ["SQUINT"]));
      }
      assert Model() == moved;
      pupil := PupilFromRotation(data.rotation);
    }

    /** A shake: leave any idle mode, show DIZZY and arm the reversion to ANGRY. */
    method GoDizzy()
      modifies this
      ensures Model() == old(Model()).(idleState := NoIdle, expression := Dizzy,
                                       reversion := Some(PendingReversion(Timer(old(now) + Duration(old(Model()), ["DIZZY"]), old(issued)), DizzyThenAngry)),
                                       issued := old(issued) + 1)
    {
      var t := NewTimer(C.TimerDelay(timeouts, ["DIZZY"]));
      idleState := NoIdle;
      expression := Dizzy;
      reversion := Some(PendingReversion(t, DizzyThenAngry));
    }

    /** After a handler: re-run the effects whose dependencies changed since `before`. */
    method RunEffects(before: Face, d: Draw)
      requires ValidDraw(d)
      modifies this
      ensures Model() == Settle(before, old(Model()), d)
    {
      var after := Model();
      if LoopDepsChanged(before, after) {
        BlinkEffect(d);
        AutonomousEffect();
      }
      if MotionDepsChanged(before, after) {
        MotionEffect();
      }
    }

    // ---- handlers ----

    /** handleStart: the permission prompt's answer, then the face starts. */
    method HandleStart(granted: bool, d: Draw)
      requires ValidDraw(d)
      modifies this, hook
      ensures Model() == OnStart(old(Model()), granted, d)
    {
      if hasStarted {
        return;
      }
      var before := Model();
      hook.RequestPermission(granted);
      hasStarted := true;
      RunEffects(before, d);
    }

    /** handleInteractionStart for a pointer-down. */
    method HandleInteractionStart(d: Draw)
      requires ValidDraw(d)
      modifies this
      ensures Model() == OnTap(old(Model()), d)
    {
      if !hasStarted || isInteracting {
        return;
      }
      var before := Model();
      InteractionStart();
      RunEffects(before, d);
    }

    /** The body of handleInteractionStart past its guard: count the tap, cancel
        every timer the page holds, and either play the angry burst (fourth tap)
        or wait for more taps. */
    method InteractionStart()
      modifies this
      ensures Model() == AppModel.InteractionStart(old(Model()))
    {
      CountTap();
      if tapCount >= 4 {
        StartAngry();
      } else {
        var t := NewTimer(DebounceDelay);
        debounce := Some(t);
      }
    }

    /** Count the tap and cancel the idle mode and every timer the page holds; a
        running interval is cleared but its ref keeps the id. */
    method CountTap()
      modifies this
      ensures Model() == old(Model()).(idleState := NoIdle, tapCount := old(tapCount) + 1,
                                       autonomous := if old(autonomous).Running? then Cleared else old(autonomous),
                                       blink := None, reversion := None, debounce := None)
    {
      if autonomous.Running? {
        autonomous := Cleared;
      }
      idleState, tapCount := NoIdle, tapCount + 1;
      blink, reversion, debounce := None, None, None;
    }

    /** The fourth tap: ANGRY, the sound interval and the end of the burst. */
    method StartAngry()
      modifies this
      ensures Model() == old(Model()).(tapCount := 0, isInteracting := true, expression := Angry,
                                       untracked := old(untracked)
                                         + [Scheduled(Timer(old(now) + AngryPulseGap, old(issued)), AngryPulse(0)),
                                            Scheduled(Timer(old(now) + Duration(old(Model()), ["ANGRY"]), old(issued) + 1), EndScript)],
                                       issued := old(issued) + 2)
    {
      var burst := [Scheduled(Timer(now + AngryPulseGap, issued), AngryPulse(0)),
                    Scheduled(Timer(now + C.TimerDelay(timeouts, ["ANGRY"]), issued + 1), EndScript)];
      tapCount := 0;
      isInteracting := true;
      StartScript(Angry, burst);
    }

    method FireReversion()
      requires reversion.Some?
      modifies this
      ensures Model() == AppModel.FireReversion(old(Model()))
    {
      var action := reversion.value.action;
      reversion := None;
      match action
      case ToNeutral =>
        expression := Neutral;
      case DizzyThenAngry =>
        SetTemporaryExpression(Angry, Duration(Model(), ["ANGRY"]));
    }

    method FireBlink(d: Draw)
      requires ValidDraw(d)
      modifies this
      ensures Model() == AppModel.FireBlink(old(Model()), d)
    {
      blink := None;
      if expression == Neutral {
        SetTemporaryExpression(Blink, Duration(Model(), ["BLINK"]));
      }
      ScheduleNextBlink(d);
    }

    method EnterIdle(mode: IdleState, ms: nat)
      modifies this
      ensures Model() == AppModel.EnterIdle(old(Model()), mode, ms)
    {
      idleState := mode;
      var t := NewTimer(ms);
      untracked := untracked + [Scheduled(t, EndIdle)];
    }

    method FireAutonomous(d: Draw)
      requires ValidDraw(d)
      modifies this
      ensures Model() == AppModel.FireAutonomous(old(Model()), d)
    {
      var at := now;
      AutonomousAction(d);
      var t := NewTimer(C.AutonomousInterval);
      autonomous := Running(Timer(at + C.AutonomousInterval, t.order));
    }

    /** The action the interval picks: a look, or an idle mode. */
    method AutonomousAction(d: Draw)
      requires ValidDraw(d)
      modifies this
      ensures Model() == AppModel.AutonomousAction(old(Model()), d)
    {
      match Actions[R.PickIndex(d.action, |Actions|)] {
        case LookAround =>
          SetTemporaryExpression(Looks[R.PickIndex(d.look, |Looks|)], C.TimerDelay(timeouts, ["LOOK"]));
        case Think =>
          EnterIdle(Thinking, ThinkingTime);
        case Code =>
          EnterIdle(Coding, CodingTime);
        case GetBored =>
          EnterIdle(Bored, BoredTime);
      }
    }

    method FireDebounce()
      modifies this
      ensures Model() == AppModel.FireDebounce(old(Model()))
    {
      var first, script;
      if tapCount == 3 {
        first, script := GrowingSmile, [Scheduled(Timer(now + C.TimerDelay(timeouts, ["GROWING_SMILE"]), issued), EndScript)];
      } else {
        first, script := Squint, HappyScript(Model());
      }
      ghost var target := AppModel.FireDebounce(Model());
      assert target.untracked == untracked + script && target.issued == issued + |script|;
      tapCount, isInteracting, debounce := 0, true, None;
      StartScript(first, script);
    }

    /** Show the first expression of a script and schedule its timed steps. */
    method StartScript(first: EyeExpression, steps: seq<Scheduled>)
      modifies this
      ensures Model() == old(Model()).(expression := first, untracked := old(untracked) + steps,
                                       issued := old(issued) + |steps|)
    {
      expression := first;
      untracked := untracked + steps;
      issued := issued + |steps|;
    }

    method FireUntracked(i: nat)
      requires i < |untracked|
      modifies this
      ensures Model() == AppModel.FireUntracked(old(Model()), i)
    {
      var job := untracked[i].step;
      untracked := Without(untracked, i);
      match job
      case Show(e) =>
        expression := e;
      case EndScript =>
        expression := Neutral;
        isInteracting := false;
      case EndIdle =>
        idleState := NoIdle;
      case AngryPulse(n) =>
        sounds := sounds + [AngryKey];
        if n + 1 < AngryPulses {
          var t := NewTimer(AngryPulseGap);
          untracked := untracked + [Scheduled(t, AngryPulse(n + 1))];
        }
    }

    /** The event loop runs the earliest pending timer, then the effects. */
    method FireNext(d: Draw)
      requires ValidDraw(d) && HasPending(Model())
      modifies this
      ensures Model() == OnFire(old(Model()), d)
    {
      var c := NextDue(Model());
      now := c.timer.due;
      var before := Model();
      match c.source {
        case FromReversion =>
          FireReversion();
        case FromBlink =>
          FireBlink(d);
        case FromAutonomous =>
          FireAutonomous(d);
        case FromDebounce =>
          FireDebounce();
        case FromUntracked(i) =>
          FireUntracked(i);
      }
      assert Model() == RunTimer(old(Model()), c, d);
      RunEffects(before, d);
    }

    /** A devicemotion sample: the hook classifies it, the page reacts, the hook's
        cleanup lowers the flags and the page reacts again. */
    method HandleMotion(ev: S.MotionEvent, d: Draw)
      requires ValidDraw(d)
      modifies this, hook
      ensures Model() == OnMotion(old(Model()), ev, d)
    {
      if !S.Listening(hook.State(), hasStarted) {
        return;
      }
      var before := Model();
      hook.HandleMotion(hasStarted, ev);
      MotionEffect();
      hook.Cleanup();
      MotionEffect();
      RunEffects(before, d);
    }

    /** A deviceorientation sample: the hook publishes it and the page reacts. */
    method HandleOrientation(rotation: Rotation, d: Draw)
      requires ValidDraw(d)
      modifies this, hook
      ensures Model() == OnOrientation(old(Model()), rotation, d)
    {
      if !S.Listening(hook.State(), hasStarted) {
        return;
      }
      var before := Model();
      hook.HandleOrientation(hasStarted, rotation);
      MotionEffect();
      RunEffects(before, d);
    }

    /** Deliver one event; the page's invariant holds after every event. */
    method Handle(ev: Event, d: Draw)
      requires Valid() && ValidDraw(d) && Enabled(Model(), ev)
      modifies this, hook
      ensures Model() == Step(old(Model()), ev, d) && Valid()
    {
      P.StepPreserves(Model(), ev, d);
      match ev
      case Start(granted) =>
        HandleStart(granted, d);
      case Tap =>
        HandleInteractionStart(d);
      case Fire =>
        FireNext(d);
      case Wait(t) =>
        now := t;
      case Motion(sample) =>
        HandleMotion(sample, d);
      case Orientation(rotation) =>
        HandleOrientation(rotation, d);
    }
  }
}
