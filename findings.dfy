// The face engine reads two durations the timing table does not define: the
// growing smile's (App.tsx:95) and SHAKE's, which the happy script's HAPPY step
// and its end add in (App.tsx:101-105). A timer given undefined, or a sum with
// undefined, waits 0 ms. So a single tap plays HAPPY and then ends the script at
// once, and the SHAKE step fires last, 300 ms in, leaving the face on SHAKE with
// the script over; from there neither the blink nor the autonomous loop brings it
// back, only a tap (the growing smile or the angry burst end on NEUTRAL) or a
// device shake. With the two entries added (constants
// CorrectedTimeout) the script plays SQUINT, SHAKE, HAPPY and ends NEUTRAL.

module Findings {
  import opened Types
  import C = Constants
  import S = DeviceSensors
  import opened AppModel
  import P = AppProperties

  /** Draws that give the shortest blink delay (2000 ms). */
  const Zero: Draw := Draw(0.0, 0.0, 0.0)

  const Granted: S.SensorState := S.Initial.(permissionGranted := true)

  const Level: PupilPosition := PupilPosition(0.0, -20.0)

  /** Three timers firing in a row, all with the zero draws. */
  const ThreeTimers: seq<Event> := [Fire, Fire, Fire]
  const ThreeZeros: seq<Draw> := [Zero, Zero, Zero]

  /** Delivering one more event first. */
  lemma RunStep(s: Face, e: Event, rest: seq<Event>, d: Draw, ds: seq<Draw>)
    requires ValidDraw(d) && Enabled(s, e)
    ensures Run(s, [e] + rest, [d] + ds) == Run(Step(s, e, d), rest, ds)
  {
    assert ([e] + rest)[1..] == rest;
    assert ([d] + ds)[1..] == ds;
  }

  /** Timer `c` is pending and no other pending timer precedes or ties it. */
  ghost predicate FiresFirst(s: Face, c: Candidate)
  {
    && IsPending(s, c)
    && forall o :: IsPending(s, o) ==> o == c || (NotAfter(c.timer, o.timer) && o.timer != c.timer)
  }

  /** The timer that fires first is the one that fires. */
  lemma FiresNext(s: Face, c: Candidate)
    requires FiresFirst(s, c)
    ensures HasPending(s) && NextDue(s) == c
  {
    assert c in Candidates(s);
  }

  /** The next timer fires with the zero draws: its callback leaves `q` and the
      effects then leave `e`. */
  lemma {:induction false} FireVia(r: Face, c: Candidate, q: Face, e: Face)
    requires FiresFirst(r, c)
    requires RunTimer(r, c, Zero) == q && Settle(r.(now := c.timer.due), q, Zero) == e
    ensures StepsTo(r, Fire, e)
  {
    FiresNext(r, c);
  }

  // ---- start, one tap, the debounce: the same for every table ----

  /** After the start with permission: a blink due at 2000 ms, the interval at 4000. */
  function Started(table: map<string, nat>): Face
  {
    Face(table, 0, 2, true, Neutral, NoIdle, false, 0, Level,
         None, Some(Timer(2000, 0)), Running(Timer(4000, 1)), None, [], [], Granted)
  }

  /** After one tap: the blink and the interval are cancelled, the debounce is due at 400. */
  function Tapped(table: map<string, nat>): Face
  {
    Started(table).(issued := 3, tapCount := 1, blink := None, autonomous := Cleared,
                    debounce := Some(Timer(400, 2)))
  }

  /** After the debounce: SQUINT, and the happy script pending. */
  function Resolved(table: map<string, nat>): Face
  {
    Tapped(table).(now := 400, issued := 6, tapCount := 0, isInteracting := true, expression := Squint,
                   debounce := None, autonomous := Null, untracked := HappyScript(Tapped(table).(now := 400)))
  }

  lemma StartStep(table: map<string, nat>)
    ensures Enabled(Init(table), Start(true)) && Step(Init(table), Start(true), Zero) == Started(table)
  {
  }

  lemma TapStep(table: map<string, nat>)
    ensures Enabled(Started(table), Tap) && Step(Started(table), Tap, Zero) == Tapped(table)
  {
  }

  lemma DebounceStep(table: map<string, nat>)
    ensures Enabled(Tapped(table), Fire) && Step(Tapped(table), Fire, Zero) == Resolved(table)
  {
    var s := Tapped(table);
    var c := Candidate(FromDebounce, Timer(400, 2));
    assert FiresFirst(s, c);
    FiresNext(s, c);
  }

  /** Event `ev`, with the zero draws, is delivered to `a` and leaves `b`. */
  predicate StepsTo(a: Face, ev: Event, b: Face)
  {
    Enabled(a, ev) && Step(a, ev, Zero) == b
  }

  /** One event first, with the zero draws. */
  lemma {:induction false} ZeroStep(a: Face, ev: Event, b: Face, rest: seq<Event>, ds: seq<Draw>)
    requires StepsTo(a, ev, b)
    ensures Run(a, [ev] + rest, [Zero] + ds) == Run(b, rest, ds)
  {
    RunStep(a, ev, rest, Zero, ds);
  }

  /** Three elements in front of a sequence, one at a time or together. */
  lemma Nest3<T>(x: T, y: T, z: T, rest: seq<T>)
    ensures [x] + ([y] + ([z] + rest)) == [x, y, z] + rest
    ensures [x, y, z] + [] == [x, y, z]
  {
  }

  /** Three events in a row, each with the zero draws. */
  lemma {:induction false} ThreeSteps(a: Face, b: Face, c: Face, e: Face, x: Event, y: Event, z: Event,
                                      rest: seq<Event>, ds: seq<Draw>)
    requires StepsTo(a, x, b) && StepsTo(b, y, c) && StepsTo(c, z, e)
    ensures Run(a, [x, y, z] + rest, ThreeZeros + ds) == Run(e, rest, ds)
  {
    ZeroStep(c, z, e, rest, ds);
    ZeroStep(b, y, c, [z] + rest, [Zero] + ds);
    ZeroStep(a, x, b, [y] + ([z] + rest), [Zero] + ([Zero] + ds));
    Nest3(x, y, z, rest);
    Nest3(Zero, Zero, Zero, ds);
  }

  /** Start with permission, one tap, the debounce. */
  const OneTap: seq<Event> := [Start(true), Tap, Fire]

  /** Start, one tap, and four timers, whatever the table, given what the last three
      timers do. */
  lemma {:induction false} OneTapRun(table: map<string, nat>, e: Face)
    requires Run(Resolved(table), ThreeTimers, ThreeZeros) == Some(e)
    ensures Run(Init(table), OneTap + ThreeTimers, ThreeZeros + ThreeZeros) == Some(e)
  {
    OneTapPrefix(table, ThreeTimers, ThreeZeros);
  }

  lemma {:induction false} ThreeFires(a: Face, b: Face, c: Face, e: Face)
    requires StepsTo(a, Fire, b) && StepsTo(b, Fire, c) && StepsTo(c, Fire, e)
    ensures Run(a, ThreeTimers, ThreeZeros) == Some(e)
  {
    ThreeSteps(a, b, c, e, Fire, Fire, Fire, [], []);
    Nest3(Fire, Fire, Fire, []);
    Nest3(Zero, Zero, Zero, []);
  }

  lemma {:induction false} OneTapPrefix(table: map<string, nat>, rest: seq<Event>, ds: seq<Draw>)
    ensures Run(Init(table), OneTap + rest, ThreeZeros + ds) == Run(Resolved(table), rest, ds)
  {
    StartStep(table);
    TapStep(table);
    DebounceStep(table);
    ThreeSteps(Init(table), Started(table), Tapped(table), Resolved(table), Start(true), Tap, Fire, rest, ds);
  }

  // ---- as written ----

  /** The happy script as the literal table times it. */
  lemma LiteralScript()
    ensures Resolved(C.ExpressionTimeout).untracked ==
      [Scheduled(Timer(700, 3), Show(Shake)),
       Scheduled(Timer(400, 4), Show(Happy)),
       Scheduled(Timer(400, 5), EndScript)]
  {
    C.LiteralDelays();
  }

  /** HAPPY shows at 400 ms, together with the debounce. */
  function WrittenHappy(): Face
  {
    Resolved(C.ExpressionTimeout).(expression := Happy,
      untracked := [Scheduled(Timer(700, 3), Show(Shake)), Scheduled(Timer(400, 5), EndScript)])
  }

  /** The script ends at 400 ms too, and the loops start again. */
  function WrittenEnded(): Face
  {
    WrittenHappy().(expression := Neutral, isInteracting := false, untracked := [Scheduled(Timer(700, 3), Show(Shake))],
                    blink := Some(Timer(2400, 6)), autonomous := Running(Timer(4400, 7)), issued := 8)
  }

  /** At 700 ms SHAKE shows with the script already over. */
  function WrittenStuck(): Face
  {
    Face(C.ExpressionTimeout, 700, 9, true, Shake, NoIdle, false, 0, Level,
         None, Some(Timer(2700, 8)), Null, None, [], [], Granted)
  }

  lemma WrittenHappyFirst()
    ensures FiresFirst(Resolved(C.ExpressionTimeout), Candidate(FromUntracked(1), Timer(400, 4)))
  {
    LiteralScript();
    var r := Resolved(C.ExpressionTimeout);
    forall o | IsPending(r, o)
      ensures o == Candidate(FromUntracked(1), Timer(400, 4)) || (NotAfter(Timer(400, 4), o.timer) && o.timer != Timer(400, 4))
    {
      assert o.source.FromUntracked? && o.source.index < 3;
    }
  }

  lemma WrittenHappyRun()
    ensures RunTimer(Resolved(C.ExpressionTimeout), Candidate(FromUntracked(1), Timer(400, 4)), Zero) == WrittenHappy()
  {
    LiteralScript();
    var r := Resolved(C.ExpressionTimeout);
    assert Without(r.untracked, 1) == [r.untracked[0], r.untracked[2]];
  }

  lemma WrittenFireHappy()
    ensures StepsTo(Resolved(C.ExpressionTimeout), Fire, WrittenHappy())
  {
    var r := Resolved(C.ExpressionTimeout);
    WrittenHappyFirst();
    WrittenHappyRun();
    assert Settle(r.(now := 400), WrittenHappy(), Zero) == WrittenHappy();
    FireVia(r, Candidate(FromUntracked(1), Timer(400, 4)), WrittenHappy(), WrittenHappy());
  }

  lemma WrittenEndFirst()
    ensures FiresFirst(WrittenHappy(), Candidate(FromUntracked(1), Timer(400, 5)))
  {
    var r := WrittenHappy();
    forall o | IsPending(r, o)
      ensures o == Candidate(FromUntracked(1), Timer(400, 5)) || (NotAfter(Timer(400, 5), o.timer) && o.timer != Timer(400, 5))
    {
      assert o.source.FromUntracked? && o.source.index < 2;
    }
  }

  lemma WrittenEndRun()
    ensures RunTimer(WrittenHappy(), Candidate(FromUntracked(1), Timer(400, 5)), Zero)
      == WrittenEnded().(blink := None, autonomous := Null, issued := 6)
  {
    var r := WrittenHappy();
    assert Without(r.untracked, 1) == [r.untracked[0]];
  }

  lemma WrittenFireEnd()
    ensures StepsTo(WrittenHappy(), Fire, WrittenEnded())
  {
    var c := Candidate(FromUntracked(1), Timer(400, 5));
    var q := WrittenEnded().(blink := None, autonomous := Null, issued := 6);
    WrittenEndFirst();
    WrittenEndRun();
    WrittenEndSettle();
    FireVia(WrittenHappy(), c, q, WrittenEnded());
  }

  /** The end of the script starts the blink loop and the interval again. */
  lemma WrittenEndSettle()
    ensures Settle(WrittenHappy().(now := 400), WrittenEnded().(blink := None, autonomous := Null, issued := 6), Zero)
      == WrittenEnded()
  {
    var q := WrittenEnded().(blink := None, autonomous := Null, issued := 6);
    assert BlinkDelay(Zero) == 2000;
    assert BlinkEffect(q, Zero) == q.(blink := Some(Timer(2400, 6)), issued := 7);
    assert MotionReaction(WrittenEnded(), Granted.data) == WrittenEnded();
  }

  lemma WrittenShakeFirst()
    ensures FiresFirst(WrittenEnded(), Candidate(FromUntracked(0), Timer(700, 3)))
  {
    var r := WrittenEnded();
    forall o | IsPending(r, o)
      ensures o == Candidate(FromUntracked(0), Timer(700, 3)) || (NotAfter(Timer(700, 3), o.timer) && o.timer != Timer(700, 3))
    {
      assert o.timer in {Timer(2400, 6), Timer(4400, 7), Timer(700, 3)};
    }
  }

  lemma WrittenShakeRun()
    ensures RunTimer(WrittenEnded(), Candidate(FromUntracked(0), Timer(700, 3)), Zero)
      == WrittenStuck().(blink := Some(Timer(2400, 6)), autonomous := Running(Timer(4400, 7)), issued := 8)
  {
    var r := WrittenEnded();
    assert Without(r.untracked, 0) == [];
  }

  /** SHAKE stops the interval and restarts the blink loop, and the pupil stays level. */
  lemma WrittenShakeSettle()
    ensures var q := WrittenStuck().(blink := Some(Timer(2400, 6)), autonomous := Running(Timer(4400, 7)), issued := 8);
      Settle(WrittenEnded().(now := 700), q, Zero) == WrittenStuck()
  {
    var q := WrittenStuck().(blink := Some(Timer(2400, 6)), autonomous := Running(Timer(4400, 7)), issued := 8);
    assert BlinkDelay(Zero) == 2000;
    assert BlinkEffect(q, Zero) == WrittenStuck().(autonomous := q.autonomous);
    assert AutonomousEffect(WrittenStuck().(autonomous := q.autonomous)) == WrittenStuck();
    assert PupilFromRotation(Granted.data.rotation) == Level;
    assert MotionReaction(WrittenStuck(), Granted.data) == WrittenStuck();
  }

  lemma WrittenFireShake()
    ensures StepsTo(WrittenEnded(), Fire, WrittenStuck())
  {
    var q := WrittenStuck().(blink := Some(Timer(2400, 6)), autonomous := Running(Timer(4400, 7)), issued := 8);
    WrittenShakeFirst();
    WrittenShakeRun();
    WrittenShakeSettle();
    FireVia(WrittenEnded(), Candidate(FromUntracked(0), Timer(700, 3)), q, WrittenStuck());
  }

  /** As written: start, one tap and four timers leave the face on SHAKE at 700 ms
      with the script over, the interval stopped and only the blink loop left. */
  lemma {:induction false} OneTapAsWritten()
    ensures Run(Init(C.ExpressionTimeout), OneTap + ThreeTimers, ThreeZeros + ThreeZeros) == Some(WrittenStuck())
    ensures StuckOnShake(WrittenStuck())
  {
    WrittenFireHappy();
    WrittenFireEnd();
    WrittenFireShake();
    ThreeFires(Resolved(C.ExpressionTimeout), WrittenHappy(), WrittenEnded(), WrittenStuck());
    OneTapRun(C.ExpressionTimeout, WrittenStuck());
  }

  /** SHAKE on a face with nothing but the blink loop: no script, no idle mode, no
      reversion, debounce or interval. */
  predicate StuckOnShake(s: Face)
  {
    && s.expression == Shake && !s.isInteracting && s.idleState == NoIdle && s.hasStarted
    && s.reversion.None? && s.debounce.None? && s.autonomous.Null? && s.untracked == [] && s.tapCount == 0
  }

  /** Stuck on SHAKE stays stuck: the blink only fires from NEUTRAL, the interval
      only starts from NEUTRAL, and a move only squints from NEUTRAL. Only a tap
      or a shaking sample leaves the state. */
  lemma ShakeNeverReverts(s: Face, ev: Event, d: Draw)
    requires P.Valid(s) && ValidDraw(d) && Enabled(s, ev) && StuckOnShake(s)
    requires ev.Fire? || ev.Wait? || ev.Orientation? || ev.Start?
          || (ev.Motion? && !S.IsShaking(s.sensors.lastAccel, S.RawAcceleration(ev.sample)))
    ensures StuckOnShake(Step(s, ev, d))
  {
    match ev
    case Fire =>
      var c := NextDue(s);
      assert c.source.FromBlink?;
      P.SettleFrame(s.(now := c.timer.due), RunTimer(s, c, d), d);
    case Motion(sample) =>
      if S.Listening(s.sensors, s.hasStarted) {
        var sensed := S.OnMotion(s.sensors, s.hasStarted, sample);
        var reacted := MotionReaction(s.(sensors := sensed), sensed.data);
        var lowered := reacted.(sensors := S.AfterCleanup(sensed));
        P.SettleFrame(s, MotionReaction(lowered, lowered.sensors.data), d);
      }
    case Orientation(rotation) =>
    case Wait(t) =>
    case Start(granted) =>
  }

  /** As written, three taps show the growing smile and end it in the same
      instant: its end is due at once. */
  lemma GrowingSmileAsWritten(s: Face)
    requires s.timeouts == C.ExpressionTimeout && s.debounce.Some? && s.tapCount == 3
    ensures var r := FireDebounce(s);
      r.expression == GrowingSmile && r.untracked == s.untracked + [Scheduled(Timer(s.now, s.issued), EndScript)]
  {
    C.LiteralDelays();
  }

  // ---- corrected ----

  lemma {:induction false} CorrectedDelays()
    ensures C.TimerDelay(C.CorrectedTimeout, ["SQUINT"]) == 300
    ensures C.TimerDelay(C.CorrectedTimeout, ["SQUINT", "SHAKE"]) == 600
    ensures C.TimerDelay(C.CorrectedTimeout, ["SQUINT", "SHAKE", "HAPPY"]) == 3100
    ensures C.TimerDelay(C.CorrectedTimeout, ["GROWING_SMILE"]) == 2500
  {
    var t := C.CorrectedTimeout;
    C.TablesWellFormedness();
    assert "SQUINT" in C.KeysRead && "SHAKE" in C.KeysRead && "HAPPY" in C.KeysRead && "GROWING_SMILE" in C.KeysRead;
    C.CumulativeDelayGrows(t, [], "SQUINT");
    assert [] + ["SQUINT"] == ["SQUINT"];
    C.CumulativeDelayGrows(t, ["SQUINT"], "SHAKE");
    assert ["SQUINT"] + ["SHAKE"] == ["SQUINT", "SHAKE"];
    C.CumulativeDelayGrows(t, ["SQUINT", "SHAKE"], "HAPPY");
    assert ["SQUINT", "SHAKE"] + ["HAPPY"] == ["SQUINT", "SHAKE", "HAPPY"];
    C.CumulativeDelayGrows(t, [], "GROWING_SMILE");
    assert [] + ["GROWING_SMILE"] == ["GROWING_SMILE"];
  }

  lemma CorrectedScript()
    ensures Resolved(C.CorrectedTimeout).untracked ==
      [Scheduled(Timer(700, 3), Show(Shake)),
       Scheduled(Timer(1000, 4), Show(Happy)),
       Scheduled(Timer(3500, 5), EndScript)]
  {
    CorrectedDelays();
  }

  function FixedShake(): Face
  {
    Resolved(C.CorrectedTimeout).(now := 700, expression := Shake,
      untracked := [Scheduled(Timer(1000, 4), Show(Happy)), Scheduled(Timer(3500, 5), EndScript)])
  }

  function FixedHappy(): Face
  {
    FixedShake().(now := 1000, expression := Happy, untracked := [Scheduled(Timer(3500, 5), EndScript)])
  }

  /** At 3500 ms the script is over and the face is NEUTRAL with both loops running. */
  function FixedEnded(): Face
  {
    Face(C.CorrectedTimeout, 3500, 8, true, Neutral, NoIdle, false, 0, Level,
         None, Some(Timer(5500, 6)), Running(Timer(7500, 7)), None, [], [], Granted)
  }

  lemma FixedShakeFirst()
    ensures FiresFirst(Resolved(C.CorrectedTimeout), Candidate(FromUntracked(0), Timer(700, 3)))
  {
    CorrectedScript();
    var r := Resolved(C.CorrectedTimeout);
    forall o | IsPending(r, o)
      ensures o == Candidate(FromUntracked(0), Timer(700, 3)) || (NotAfter(Timer(700, 3), o.timer) && o.timer != Timer(700, 3))
    {
      assert o.source.FromUntracked? && o.source.index < 3;
    }
  }

  lemma FixedShakeRun()
    ensures IsPending(Resolved(C.CorrectedTimeout), Candidate(FromUntracked(0), Timer(700, 3)))
    ensures RunTimer(Resolved(C.CorrectedTimeout), Candidate(FromUntracked(0), Timer(700, 3)), Zero) == FixedShake()
  {
    CorrectedScript();
    var r := Resolved(C.CorrectedTimeout);
    assert Without(r.untracked, 0) == [r.untracked[1], r.untracked[2]];
  }

  lemma FixedFireShake()
    ensures StepsTo(Resolved(C.CorrectedTimeout), Fire, FixedShake())
  {
    var r := Resolved(C.CorrectedTimeout);
    FixedShakeFirst();
    FixedShakeRun();
    assert Settle(r.(now := 700), FixedShake(), Zero) == FixedShake();
    FireVia(r, Candidate(FromUntracked(0), Timer(700, 3)), FixedShake(), FixedShake());
  }

  lemma FixedHappyFirst()
    ensures FiresFirst(FixedShake(), Candidate(FromUntracked(0), Timer(1000, 4)))
  {
    var r := FixedShake();
    forall o | IsPending(r, o)
      ensures o == Candidate(FromUntracked(0), Timer(1000, 4)) || (NotAfter(Timer(1000, 4), o.timer) && o.timer != Timer(1000, 4))
    {
      assert o.source.FromUntracked? && o.source.index < 2;
    }
  }

  lemma FixedHappyRun()
    ensures RunTimer(FixedShake(), Candidate(FromUntracked(0), Timer(1000, 4)), Zero) == FixedHappy()
  {
    var r := FixedShake();
    assert Without(r.untracked, 0) == [r.untracked[1]];
  }

  lemma FixedFireHappy()
    ensures StepsTo(FixedShake(), Fire, FixedHappy())
  {
    FixedHappyFirst();
    FixedHappyRun();
    assert Settle(FixedShake().(now := 1000), FixedHappy(), Zero) == FixedHappy();
    FireVia(FixedShake(), Candidate(FromUntracked(0), Timer(1000, 4)), FixedHappy(), FixedHappy());
  }

  lemma FixedEndFirst()
    ensures FiresFirst(FixedHappy(), Candidate(FromUntracked(0), Timer(3500, 5)))
  {
    var r := FixedHappy();
    forall o | IsPending(r, o)
      ensures o == Candidate(FromUntracked(0), Timer(3500, 5))
    {
      assert o.source.FromUntracked? && o.source.index < 1;
    }
  }

  lemma FixedEndRun()
    ensures RunTimer(FixedHappy(), Candidate(FromUntracked(0), Timer(3500, 5)), Zero)
      == FixedEnded().(blink := None, autonomous := Null, issued := 6)
  {
    var r := FixedHappy();
    assert Without(r.untracked, 0) == [];
  }

  lemma FixedFireEnd()
    ensures StepsTo(FixedHappy(), Fire, FixedEnded())
  {
    var q := FixedEnded().(blink := None, autonomous := Null, issued := 6);
    FixedEndFirst();
    FixedEndRun();
    FixedEndSettle();
    FireVia(FixedHappy(), Candidate(FromUntracked(0), Timer(3500, 5)), q, FixedEnded());
  }

  /** The end of the script starts the blink loop and the interval again. */
  lemma FixedEndSettle()
    ensures Settle(FixedHappy().(now := 3500), FixedEnded().(blink := None, autonomous := Null, issued := 6), Zero)
      == FixedEnded()
  {
    var q := FixedEnded().(blink := None, autonomous := Null, issued := 6);
    assert BlinkDelay(Zero) == 2000;
    assert BlinkEffect(q, Zero) == q.(blink := Some(Timer(5500, 6)), issued := 7);
    assert MotionReaction(FixedEnded(), Granted.data) == FixedEnded();
  }

  /** Corrected: the same events show SQUINT at 400 ms, SHAKE at 700, HAPPY at
      1000, and end the script NEUTRAL at 3500 with both loops running again. */
  lemma {:induction false} OneTapCorrected()
    ensures Run(Init(C.CorrectedTimeout), OneTap + ThreeTimers, ThreeZeros + ThreeZeros) == Some(FixedEnded())
    ensures Resolved(C.CorrectedTimeout).expression == Squint && FixedShake().expression == Shake
    ensures FixedHappy().expression == Happy && FixedEnded().expression == Neutral && !FixedEnded().isInteracting
  {
    FixedFireShake();
    FixedFireHappy();
    FixedFireEnd();
    ThreeFires(Resolved(C.CorrectedTimeout), FixedShake(), FixedHappy(), FixedEnded());
    OneTapRun(C.CorrectedTimeout, FixedEnded());
  }

  /** Corrected, three taps keep the growing smile for 2500 ms. */
  lemma GrowingSmileCorrected(s: Face)
    requires s.timeouts == C.CorrectedTimeout && s.debounce.Some? && s.tapCount == 3
    ensures var r := FireDebounce(s);
      r.expression == GrowingSmile && r.untracked == s.untracked + [Scheduled(Timer(s.now + 2500, s.issued), EndScript)]
  {
    CorrectedDelays();
  }
}
