// The invariant of the face engine and the properties App.tsx promises, proved
// about the transition functions of AppModel.

module AppProperties {
  import opened Types
  import C = Constants
  import S = DeviceSensors
  import R = Random
  import opened AppModel

  // ---- counting pending jobs ----

  /** A script ending counts one. */
  function EndWeight(j: Job): nat
  {
    if j.EndScript? then 1 else 0
  }

  /** An angry pulse owes the sounds its interval has still to play. */
  function OwedAngry(j: Job): nat
  {
    if j.AngryPulse? && j.played < AngryPulses then AngryPulses - j.played else 0
  }

  /** The total weight of the pending untracked jobs. */
  function Tally(u: seq<Scheduled>, w: Job -> nat): nat
  {
    if u == [] then 0 else Tally(u[..|u| - 1], w) + w(u[|u| - 1].step)
  }

  lemma {:induction false} TallyAppend(a: seq<Scheduled>, b: seq<Scheduled>, w: Job -> nat)
    ensures Tally(a + b, w) == Tally(a, w) + Tally(b, w)
  {
    if b == [] {
      assert a + b == a;
    } else {
      var ab := a + b;
      assert ab[..|ab| - 1] == a + b[..|b| - 1];
      TallyAppend(a, b[..|b| - 1], w);
    }
  }

  lemma {:induction false} TallySingle(x: Scheduled, w: Job -> nat)
    ensures Tally([x], w) == w(x.step)
  {
    assert [x][..0] == [];
  }

  /** Removing one pending job removes exactly its weight. */
  lemma {:induction false} TallyWithout(u: seq<Scheduled>, i: nat, w: Job -> nat)
    requires i < |u|
    ensures Tally(Without(u, i), w) + w(u[i].step) == Tally(u, w)
  {
    assert u == (u[..i] + [u[i]]) + u[i + 1..];
    TallyAppend(u[..i] + [u[i]], u[i + 1..], w);
    TallyAppend(u[..i], [u[i]], w);
    TallyAppend(u[..i], u[i + 1..], w);
    TallySingle(u[i], w);
  }

  // ---- the invariant ----

  /** A timer is not yet due and was created before now. */
  predicate Ahead(s: Face, t: Timer)
  {
    s.now <= t.due && t.order < s.issued
  }

  ghost predicate TimersAhead(s: Face)
  {
    && (s.reversion.Some? ==> Ahead(s, s.reversion.value.timer))
    && (s.blink.Some? ==> Ahead(s, s.blink.value))
    && (s.autonomous.Running? ==> Ahead(s, s.autonomous.next))
    && (s.debounce.Some? ==> Ahead(s, s.debounce.value))
    && (forall k :: 0 <= k < |s.untracked| ==> Ahead(s, s.untracked[k].timer))
  }

  /** No blink is pending unless the face has started, no script plays and no
      idle mode is shown; the autonomous interval runs only on a started, neutral,
      undisturbed face. */
  ghost predicate LoopsConsistent(s: Face)
  {
    && (s.blink.Some? ==> BlinkAllowed(s))
    && (s.autonomous.Running? ==> AutonomousAllowed(s))
  }

  /** Everything else the engine keeps between events. */
  ghost predicate Core(s: Face)
  {
    && s.tapCount <= 3
    && (s.debounce.Some? <==> s.tapCount > 0)
    && (s.debounce.Some? ==> s.hasStarted && !s.isInteracting)
    && (s.autonomous.Running? ==> s.hasStarted)
    && Tally(s.untracked, EndWeight) == (if s.isInteracting then 1 else 0)
    && (forall k :: 0 <= k < |s.untracked| ==>
          s.untracked[k].step.AngryPulse? ==> s.untracked[k].step.played < AngryPulses)
    && TimersAhead(s)
    && -30.0 <= s.pupil.x <= 30.0 && -25.0 <= s.pupil.y <= 25.0
    && !s.sensors.data.isShaking && !s.sensors.data.isMoving
  }

  ghost predicate Valid(s: Face)
  {
    Core(s) && LoopsConsistent(s)
  }

  lemma {:induction false} InitValid(timeouts: map<string, nat>)
    ensures Valid(Init(timeouts))
  {
  }

  /** A handler leaves the loops to the effects: any blink or interval it left
      pending was pending before, is allowed, or the effects are about to re-run. */
  ghost predicate HandedOver(p: Face, q: Face)
  {
    && (q.blink.Some? ==> p.blink == q.blink || BlinkAllowed(q) || LoopDepsChanged(p, q))
    && (q.autonomous.Running? ==>
          p.autonomous == q.autonomous || AutonomousAllowed(q) || LoopDepsChanged(p, q))
  }

  lemma {:induction false} BlinkEffectCore(q: Face, d: Draw)
    requires ValidDraw(d) && Core(q)
    ensures var b := BlinkEffect(q, d);
      Core(b) && (b.blink.Some? ==> BlinkAllowed(q))
      && b == q.(blink := b.blink, issued := b.issued)
  {
  }

  lemma {:induction false} AutonomousEffectCore(q: Face)
    requires Core(q)
    ensures var a := AutonomousEffect(q);
      Core(a) && (a.autonomous.Running? ==> AutonomousAllowed(q))
      && a == q.(autonomous := a.autonomous, issued := a.issued)
  {
  }

  /** Re-running the effects restores the loop conditions. */
  lemma {:induction false} SettleRestores(p: Face, q: Face, d: Draw)
    requires ValidDraw(d) && Core(q) && LoopsConsistent(p) && HandedOver(p, q)
    ensures var r := Settle(p, q, d);
      Valid(r) && r == q.(blink := r.blink, autonomous := r.autonomous, issued := r.issued, pupil := r.pupil)
  {
    var looped := if LoopDepsChanged(p, q) then AutonomousEffect(BlinkEffect(q, d)) else q;
    if LoopDepsChanged(p, q) {
      BlinkEffectCore(q, d);
      AutonomousEffectCore(BlinkEffect(q, d));
    }
    assert Valid(looped);
    LoopsFrame(q, d);
    if MotionDepsChanged(p, q) {
      StillReaction(looped);
      if !looped.isInteracting {
        PupilCore(looped, PupilFromRotation(looped.sensors.data.rotation));
      }
    }
  }

  /** Setting the clock to the due time of the next timer keeps every timer ahead. */
  lemma {:induction false} NextDueKeepsTimersAhead(s: Face)
    requires TimersAhead(s) && HasPending(s)
    ensures TimersAhead(s.(now := NextDue(s).timer.due))
  {
    var c := NextDue(s);
    if s.reversion.Some? { assert IsPending(s, Candidate(FromReversion, s.reversion.value.timer)); }
    if s.blink.Some? { assert IsPending(s, Candidate(FromBlink, s.blink.value)); }
    if s.autonomous.Running? { assert IsPending(s, Candidate(FromAutonomous, s.autonomous.next)); }
    if s.debounce.Some? { assert IsPending(s, Candidate(FromDebounce, s.debounce.value)); }
    forall k | 0 <= k < |s.untracked|
      ensures c.timer.due <= s.untracked[k].timer.due
    {
      assert IsPending(s, Candidate(FromUntracked(k), s.untracked[k].timer));
    }
  }

  lemma {:induction false} WithoutKeepsAhead(s: Face, i: nat)
    requires i < |s.untracked|
    requires forall k :: 0 <= k < |s.untracked| ==> Ahead(s, s.untracked[k].timer)
    ensures var u := Without(s.untracked, i);
      forall k :: 0 <= k < |u| ==> Ahead(s, u[k].timer)
  {
    var u := Without(s.untracked, i);
    forall k | 0 <= k < |u|
      ensures Ahead(s, u[k].timer)
    {
      if k < i { assert u[k] == s.untracked[k]; } else { assert u[k] == s.untracked[k + 1]; }
    }
  }

  lemma {:induction false} WithoutKeepsPulses(u: seq<Scheduled>, i: nat)
    requires i < |u|
    requires forall k :: 0 <= k < |u| ==> u[k].step.AngryPulse? ==> u[k].step.played < AngryPulses
    ensures var v := Without(u, i);
      forall k :: 0 <= k < |v| ==> v[k].step.AngryPulse? ==> v[k].step.played < AngryPulses
  {
    var v := Without(u, i);
    forall k | 0 <= k < |v|
      ensures v[k].step.AngryPulse? ==> v[k].step.played < AngryPulses
    {
      if k < i { assert v[k] == u[k]; } else { assert v[k] == u[k + 1]; }
    }
  }

  // ---- preservation, event by event ----

  lemma {:induction false} StartPreserves(s: Face, granted: bool, d: Draw)
    requires Valid(s) && ValidDraw(d)
    ensures Valid(OnStart(s, granted, d))
  {
    if !s.hasStarted {
      SettleRestores(s, s.(hasStarted := true, sensors := S.WithPermission(s.sensors, granted)), d);
    }
  }

  lemma {:induction false} TapPreserves(s: Face, d: Draw)
    requires Valid(s) && ValidDraw(d)
    ensures Valid(OnTap(s, d))
  {
    if s.hasStarted && !s.isInteracting {
      var q := InteractionStart(s);
      if s.tapCount + 1 >= 4 {
        var extra := [Scheduled(Timer(s.now + AngryPulseGap, s.issued), AngryPulse(0)),
                      Scheduled(Timer(s.now + Duration(s, ["ANGRY"]), s.issued + 1), EndScript)];
        TallyAppend(s.untracked, extra, EndWeight);
        TallyAppend([extra[0]], [extra[1]], EndWeight);
        TallySingle(extra[0], EndWeight);
        TallySingle(extra[1], EndWeight);
        assert [extra[0]] + [extra[1]] == extra;
        assert q.untracked == s.untracked + extra;
      }
      SettleRestores(s, q, d);
    }
  }

  /** Creating timers moves the creation counter on and keeps every timer ahead. */
  lemma {:induction false} IssueKeepsCore(s: Face, k: nat)
    requires Core(s)
    ensures Core(s.(issued := s.issued + k))
  {
  }

  lemma {:induction false} SetTemporaryCore(s: Face, e: EyeExpression, duration: nat)
    requires Core(s)
    ensures Core(SetTemporaryExpression(s, e, duration))
  {
  }

  /** The pending jobs are not yet due, were created before now, and no angry
      pulse has played its last sound. */
  ghost predicate JobsAhead(s: Face)
  {
    && (forall k :: 0 <= k < |s.untracked| ==> Ahead(s, s.untracked[k].timer))
    && (forall k :: 0 <= k < |s.untracked| ==>
          s.untracked[k].step.AngryPulse? ==> s.untracked[k].step.played < AngryPulses)
  }

  /** Scheduling fire-once jobs created now, each ahead and with a pulse left to
      play, keeps the jobs ahead and adds their weight to the tally. */
  lemma {:induction false} ScheduleJobs(r: Face, xs: seq<Scheduled>)
    requires JobsAhead(r)
    requires forall k :: 0 <= k < |xs| ==> r.now <= xs[k].timer.due && xs[k].timer.order < r.issued + |xs|
    requires forall k :: 0 <= k < |xs| ==> xs[k].step.AngryPulse? ==> xs[k].step.played < AngryPulses
    ensures var q := r.(untracked := r.untracked + xs, issued := r.issued + |xs|);
      && JobsAhead(q)
      && Tally(q.untracked, EndWeight) == Tally(r.untracked, EndWeight) + Tally(xs, EndWeight)
  {
    var q := r.(untracked := r.untracked + xs, issued := r.issued + |xs|);
    TallyAppend(r.untracked, xs, EndWeight);
    forall k | 0 <= k < |q.untracked|
      ensures Ahead(q, q.untracked[k].timer)
      ensures q.untracked[k].step.AngryPulse? ==> q.untracked[k].step.played < AngryPulses
    {
      if k < |r.untracked| {
        assert q.untracked[k] == r.untracked[k];
      } else {
        assert q.untracked[k] == xs[k - |r.untracked|];
      }
    }
  }

  lemma {:induction false} EnterIdleCore(s: Face, mode: IdleState, ms: nat)
    requires Core(s)
    ensures Core(EnterIdle(s, mode, ms))
  {
    var r := s.(idleState := mode);
    IdleKeepsCore(s, mode);
    var x := Scheduled(Timer(s.now + ms, s.issued), EndIdle);
    AppendJobCore(r, x);
    assert EnterIdle(s, mode, ms) == r.(untracked := r.untracked + [x], issued := r.issued + 1);
  }

  /** The idle mode shown is none of the core's business. */
  lemma {:induction false} IdleKeepsCore(s: Face, mode: IdleState)
    requires Core(s)
    ensures Core(s.(idleState := mode))
  {
  }

  lemma {:induction false} FireReversionCore(s: Face)
    requires Core(s) && s.reversion.Some?
    ensures Core(FireReversion(s)) && HandedOver(s, FireReversion(s))
  {
    if s.reversion.value.action.DizzyThenAngry? {
      SetTemporaryCore(s.(reversion := None), Angry, Duration(s, ["ANGRY"]));
    }
  }

  lemma {:induction false} FireBlinkCore(s: Face, d: Draw)
    requires Core(s) && LoopsConsistent(s) && s.blink.Some? && ValidDraw(d)
    ensures Core(FireBlink(s, d)) && HandedOver(s, FireBlink(s, d))
  {
    var waited := s.(blink := None);
    if s.expression == Neutral {
      SetTemporaryCore(waited, Blink, Duration(s, ["BLINK"]));
    }
  }

  /** Arming the interval on a started face keeps the core. */
  lemma {:induction false} ArmIntervalCore(s: Face, t: Timer)
    requires Core(s) && s.hasStarted && s.now <= t.due && t.order == s.issued
    ensures Core(s.(autonomous := Running(t), issued := s.issued + 1))
  {
  }

  lemma {:induction false} AutonomousActionCore(s: Face, d: Draw)
    requires Core(s) && ValidDraw(d) && AutonomousAllowed(s)
    ensures var acted := AutonomousAction(s, d);
      Core(acted) && LoopDepsChanged(s, acted) && acted.hasStarted == s.hasStarted
      && acted.now == s.now && acted.blink == s.blink && acted.autonomous == s.autonomous
  {
    match Actions[R.PickIndex(d.action, |Actions|)]
    case LookAround =>
      SetTemporaryCore(s, Looks[R.PickIndex(d.look, |Looks|)], Duration(s, ["LOOK"]));
    case Think => EnterIdleCore(s, Thinking, ThinkingTime);
    case Code => EnterIdleCore(s, Coding, CodingTime);
    case GetBored => EnterIdleCore(s, Bored, BoredTime);
  }

  lemma {:induction false} FireAutonomousCore(s: Face, d: Draw)
    requires Core(s) && LoopsConsistent(s) && s.autonomous.Running? && ValidDraw(d)
    ensures Core(FireAutonomous(s, d)) && HandedOver(s, FireAutonomous(s, d))
  {
    var acted := AutonomousAction(s, d);
    AutonomousActionCore(s, d);
    ArmIntervalCore(acted, Timer(s.now + C.AutonomousInterval, acted.issued));
  }

  /** Resolving the taps into a script that ends once keeps the core. */
  lemma {:induction false} StartScriptCore(s: Face, e: EyeExpression, xs: seq<Scheduled>)
    requires Core(s) && s.debounce.Some?
    requires forall k :: 0 <= k < |xs| ==> s.now <= xs[k].timer.due && xs[k].timer.order < s.issued + |xs|
    requires forall k :: 0 <= k < |xs| ==> !xs[k].step.AngryPulse?
    requires Tally(xs, EndWeight) == 1
    ensures Core(s.(tapCount := 0, isInteracting := true, debounce := None, expression := e,
                    untracked := s.untracked + xs, issued := s.issued + |xs|))
  {
    ScheduleJobs(s, xs);
  }

  /** The happy script ends once, plays no pulse and runs ahead of now. */
  lemma {:induction false} HappyScriptJobs(s: Face)
    ensures var h := HappyScript(s);
      && Tally(h, EndWeight) == 1
      && (forall k :: 0 <= k < |h| ==> s.now <= h[k].timer.due && h[k].timer.order < s.issued + |h|)
      && (forall k :: 0 <= k < |h| ==> !h[k].step.AngryPulse?)
  {
    var h := HappyScript(s);
    assert h == [h[0]] + [h[1]] + [h[2]];
    TallyAppend([h[0]] + [h[1]], [h[2]], EndWeight);
    TallyAppend([h[0]], [h[1]], EndWeight);
    TallySingle(h[0], EndWeight);
    TallySingle(h[1], EndWeight);
    TallySingle(h[2], EndWeight);
  }

  lemma {:induction false} FireDebounceCore(s: Face)
    requires Core(s) && s.debounce.Some?
    ensures Core(FireDebounce(s)) && HandedOver(s, FireDebounce(s))
  {
    var q := FireDebounce(s);
    if s.tapCount == 3 {
      var x := Scheduled(Timer(s.now + Duration(s, ["GROWING_SMILE"]), s.issued), EndScript);
      TallySingle(x, EndWeight);
      StartScriptCore(s, GrowingSmile, [x]);
      assert q == s.(tapCount := 0, isInteracting := true, debounce := None, expression := GrowingSmile,
                     untracked := s.untracked + [x], issued := s.issued + |[x]|);
    } else {
      var h := HappyScript(s);
      HappyScriptJobs(s);
      StartScriptCore(s, Squint, h);
      assert q == s.(tapCount := 0, isInteracting := true, debounce := None, expression := Squint,
                     untracked := s.untracked + h, issued := s.issued + |h|);
    }
  }

  /** Taking the fired entry out of the bag keeps the rest of the invariant and
      lowers the tally by its weight. */
  lemma {:induction false} RemovedCore(s: Face, i: nat)
    requires Core(s) && i < |s.untracked|
    ensures var rest := s.(untracked := Without(s.untracked, i));
      && TimersAhead(rest)
      && (forall k :: 0 <= k < |rest.untracked| ==>
            rest.untracked[k].step.AngryPulse? ==> rest.untracked[k].step.played < AngryPulses)
      && Tally(rest.untracked, EndWeight) + EndWeight(s.untracked[i].step) == Tally(s.untracked, EndWeight)
  {
    TallyWithout(s.untracked, i, EndWeight);
    WithoutKeepsAhead(s, i);
    WithoutKeepsPulses(s.untracked, i);
  }

  /** A script step, or the end of an idle mode, keeps the core. */
  lemma {:induction false} QuietJobCore(s: Face, i: nat)
    requires Core(s) && i < |s.untracked| && (s.untracked[i].step.Show? || s.untracked[i].step.EndIdle?)
    ensures Core(FireUntracked(s, i)) && HandedOver(s, FireUntracked(s, i))
  {
    var rest := s.(untracked := Without(s.untracked, i));
    RemovedKeepsCore(s, i);
    match s.untracked[i].step {
      case Show(e) =>
        assert FireUntracked(s, i) == rest.(expression := e);
      case EndIdle =>
        assert FireUntracked(s, i) == rest.(idleState := NoIdle);
    }
  }

  /** The end of a script takes its one end out of the bag as the flag goes down. */
  lemma {:induction false} EndScriptCore(s: Face, i: nat)
    requires Core(s) && i < |s.untracked| && s.untracked[i].step == EndScript
    ensures Core(FireUntracked(s, i)) && HandedOver(s, FireUntracked(s, i))
  {
    var rest := s.(untracked := Without(s.untracked, i));
    RemovedCore(s, i);
    assert FireUntracked(s, i) == rest.(expression := Neutral, isInteracting := false);
  }

  lemma {:induction false} FireUntrackedCore(s: Face, i: nat)
    requires Core(s) && i < |s.untracked|
    ensures Core(FireUntracked(s, i)) && HandedOver(s, FireUntracked(s, i))
  {
    match s.untracked[i].step
    case Show(e) => QuietJobCore(s, i);
    case EndScript => EndScriptCore(s, i);
    case EndIdle => QuietJobCore(s, i);
    case AngryPulse(n) => PulseCore(s, i);
  }

  /** Scheduling one more fire-once job that ends no script keeps the core. */
  lemma {:induction false} AppendJobCore(r: Face, x: Scheduled)
    requires Core(r) && r.now <= x.timer.due && x.timer.order == r.issued
    requires EndWeight(x.step) == 0 && (x.step.AngryPulse? ==> x.step.played < AngryPulses)
    ensures Core(r.(untracked := r.untracked + [x], issued := r.issued + 1))
  {
    TallySingle(x, EndWeight);
    ScheduleJobs(r, [x]);
    var q := r.(untracked := r.untracked + [x], issued := r.issued + 1);
    assert JobsAhead(q);
    assert Tally(q.untracked, EndWeight) == Tally(r.untracked, EndWeight);
    assert TimersAhead(q);
  }

  /** Playing a sound touches nothing the core speaks of. */
  lemma {:induction false} SoundKeepsCore(s: Face, k: AudioKey)
    requires Core(s)
    ensures Core(s.(sounds := s.sounds + [k]))
  {
  }

  /** Taking out a job that ends no script keeps the core. */
  lemma {:induction false} RemovedKeepsCore(s: Face, i: nat)
    requires Core(s) && i < |s.untracked| && EndWeight(s.untracked[i].step) == 0
    ensures Core(s.(untracked := Without(s.untracked, i)))
  {
    RemovedCore(s, i);
  }

  lemma {:induction false} PulseCore(s: Face, i: nat)
    requires Core(s) && i < |s.untracked| && s.untracked[i].step.AngryPulse?
    ensures Core(FireUntracked(s, i)) && HandedOver(s, FireUntracked(s, i))
  {
    var n := s.untracked[i].step.played;
    var rest := s.(untracked := Without(s.untracked, i));
    RemovedKeepsCore(s, i);
    SoundKeepsCore(rest, AngryKey);
    var played := rest.(sounds := s.sounds + [AngryKey]);
    var q := FireUntracked(s, i);
    if n + 1 < AngryPulses {
      var x := Scheduled(Timer(s.now + AngryPulseGap, s.issued), AngryPulse(n + 1));
      AppendJobCore(played, x);
      assert q == played.(untracked := played.untracked + [x], issued := played.issued + 1);
    } else {
      assert q == played;
    }
    assert q.blink == s.blink && q.autonomous == s.autonomous;
  }

  /** The fired callback keeps the invariant's core and hands the loops over. */
  lemma {:induction false} RunTimerCore(s: Face, c: Candidate, d: Draw)
    requires Valid(s) && ValidDraw(d) && IsPending(s, c) && TimersAhead(s.(now := c.timer.due))
    ensures Core(RunTimer(s, c, d)) && HandedOver(s.(now := c.timer.due), RunTimer(s, c, d))
  {
    var s0 := s.(now := c.timer.due);
    match c.source
    case FromReversion => FireReversionCore(s0);
    case FromBlink => FireBlinkCore(s0, d);
    case FromAutonomous => FireAutonomousCore(s0, d);
    case FromDebounce => FireDebounceCore(s0);
    case FromUntracked(i) => FireUntrackedCore(s0, i);
  }

  lemma {:induction false} FirePreserves(s: Face, d: Draw)
    requires Valid(s) && ValidDraw(d) && HasPending(s)
    ensures Valid(OnFire(s, d))
  {
    var c := NextDue(s);
    NextDueKeepsTimersAhead(s);
    RunTimerCore(s, c, d);
    SettleRestores(s.(now := c.timer.due), RunTimer(s, c, d), d);
  }

  lemma {:induction false} WaitPreserves(s: Face, t: nat)
    requires Valid(s) && Enabled(s, Wait(t))
    ensures Valid(s.(now := t))
  {
    var cs := Candidates(s);
    if s.reversion.Some? { assert Candidate(FromReversion, s.reversion.value.timer) in cs; }
    if s.blink.Some? { assert Candidate(FromBlink, s.blink.value) in cs; }
    if s.autonomous.Running? { assert Candidate(FromAutonomous, s.autonomous.next) in cs; }
    if s.debounce.Some? { assert Candidate(FromDebounce, s.debounce.value) in cs; }
    forall k | 0 <= k < |s.untracked|
      ensures t <= s.untracked[k].timer.due
    {
      assert IsPending(s, Candidate(FromUntracked(k), s.untracked[k].timer));
    }
  }

  /** The sensor record is none of the core's business while both flags are down. */
  lemma {:induction false} SensorsKeepCore(s: Face, x: S.SensorState)
    requires Core(s) && !x.data.isShaking && !x.data.isMoving
    ensures Core(s.(sensors := x))
  {
  }

  /** Going dizzy arms a reversion created now. */
  lemma {:induction false} DizzyCore(a: Face, t: Timer)
    requires Core(a) && a.now <= t.due && t.order == a.issued
    ensures Core(a.(idleState := NoIdle, expression := Dizzy,
                    reversion := Some(PendingReversion(t, DizzyThenAngry)), issued := a.issued + 1))
  {
  }

  /** Any pupil within the eye keeps the core. */
  lemma {:induction false} PupilCore(a: Face, p: PupilPosition)
    requires Core(a) && -30.0 <= p.x <= 30.0 && -25.0 <= p.y <= 25.0
    ensures Core(a.(pupil := p))
  {
  }

  /** The page's reaction to a sensor record keeps the core once the flags are
      down again, and leaves the loops alone. */
  lemma {:induction false} ReactionCore(s: Face, data: DeviceSensorsData, after: S.SensorState)
    requires Core(s.(sensors := after))
    ensures var m := MotionReaction(s, data);
      && Core(m.(sensors := after)) && m.sensors == s.sensors
      && m.blink == s.blink && m.autonomous == s.autonomous
  {
    var a := s.(sensors := after);
    var m := MotionReaction(s, data);
    if s.isInteracting {
      assert m.(sensors := after) == a;
    } else if data.isShaking {
      var t := Timer(s.now + Duration(s, ["DIZZY"]), s.issued);
      DizzyCore(a, t);
      assert m.(sensors := after)
        == a.(idleState := NoIdle, expression := Dizzy,
              reversion := Some(PendingReversion(t, DizzyThenAngry)), issued := s.issued + 1);
    } else if data.isMoving && s.expression == Neutral {
      SquintCore(s, data, after);
    } else {
      PupilCore(a, PupilFromRotation(data.rotation));
      assert m.(sensors := after) == a.(pupil := PupilFromRotation(data.rotation));
    }
  }

  /** Moving a neutral face squints it and moves the pupil. */
  lemma {:induction false} SquintCore(s: Face, data: DeviceSensorsData, after: S.SensorState)
    requires Core(s.(sensors := after)) && !s.isInteracting && !data.isShaking
    requires data.isMoving && s.expression == Neutral
    ensures var m := MotionReaction(s, data);
      && Core(m.(sensors := after)) && m.sensors == s.sensors
      && m.blink == s.blink && m.autonomous == s.autonomous
  {
    var n := s.(sensors := after, idleState := NoIdle);
    IdleKeepsCore(s.(sensors := after), NoIdle);
    var ms := Duration(s, ["SQUINT"]);
    var sq := SetTemporaryExpression(n, Squint, ms);
    SetTemporaryCore(n, Squint, ms);
    var p := PupilFromRotation(data.rotation);
    PupilCore(sq, p);
    SquintReaction(s, data, after);
  }

  /** The squint branch of the motion reaction, as a record of what changes. */
  lemma {:induction false} SquintReaction(s: Face, data: DeviceSensorsData, after: S.SensorState)
    requires !s.isInteracting && !data.isShaking && data.isMoving && s.expression == Neutral
    ensures var m := MotionReaction(s, data);
      var sq := SetTemporaryExpression(s.(sensors := after, idleState := NoIdle), Squint, Duration(s, ["SQUINT"]));
      && m.(sensors := after) == sq.(pupil := PupilFromRotation(data.rotation))
      && m.sensors == s.sensors && m.blink == s.blink && m.autonomous == s.autonomous
  {
    var ms := Duration(s, ["SQUINT"]);
    var m := MotionReaction(s, data);
    assert m == SetTemporaryExpression(s.(idleState := NoIdle), Squint, ms).(pupil := PupilFromRotation(data.rotation));
  }

  lemma {:induction false} MotionPreserves(s: Face, ev: S.MotionEvent, d: Draw)
    requires Valid(s) && ValidDraw(d)
    ensures Valid(OnMotion(s, ev, d))
  {
    if S.Listening(s.sensors, s.hasStarted) {
      var sensed := S.OnMotion(s.sensors, s.hasStarted, ev);
      var down := S.AfterCleanup(sensed);
      SensorsKeepCore(s, down);
      assert s.(sensors := sensed).(sensors := down) == s.(sensors := down);
      ReactionCore(s.(sensors := sensed), sensed.data, down);
      var lowered := MotionReaction(s.(sensors := sensed), sensed.data).(sensors := down);
      assert lowered.(sensors := down) == lowered;
      ReactionCore(lowered, down.data, down);
      var q := MotionReaction(lowered, lowered.sensors.data);
      assert q.(sensors := down) == q;
      SettleRestores(s, q, d);
    }
  }

  lemma {:induction false} OrientationPreserves(s: Face, rotation: Rotation, d: Draw)
    requires Valid(s) && ValidDraw(d)
    ensures Valid(OnOrientation(s, rotation, d))
  {
    if S.Listening(s.sensors, s.hasStarted) {
      var sensed := S.OnOrientation(s.sensors, s.hasStarted, rotation);
      SensorsKeepCore(s, sensed);
      ReactionCore(s.(sensors := sensed), sensed.data, sensed);
      var q := MotionReaction(s.(sensors := sensed), sensed.data);
      assert q.(sensors := sensed) == q;
      SettleRestores(s, q, d);
    }
  }

  /** Every event keeps the invariant. */
  lemma {:induction false} StepPreserves(s: Face, ev: Event, d: Draw)
    requires Valid(s) && ValidDraw(d) && Enabled(s, ev)
    ensures Valid(Step(s, ev, d))
  {
    match ev
    case Start(granted) => StartPreserves(s, granted, d);
    case Tap => TapPreserves(s, d);
    case Fire => FirePreserves(s, d);
    case Wait(t) => WaitPreserves(s, t);
    case Motion(sample) => MotionPreserves(s, sample, d);
    case Orientation(rotation) => OrientationPreserves(s, rotation, d);
  }

  // ---- a script always has its ending pending ----

  lemma {:induction false} TallyFindsEnd(u: seq<Scheduled>)
    requires Tally(u, EndWeight) > 0
    ensures exists k :: 0 <= k < |u| && u[k].step == EndScript
  {
    var last := u[|u| - 1];
    if last.step != EndScript {
      TallyFindsEnd(u[..|u| - 1]);
      var k :| 0 <= k < |u| - 1 && u[..|u| - 1][k].step == EndScript;
      assert u[k].step == EndScript;
    }
  }

  /** While a script plays, the timer that ends it is pending, so the face is
      never left interacting with nothing to release it. */
  lemma {:induction false} ScriptEndPending(s: Face)
    requires Valid(s) && s.isInteracting
    ensures exists k :: 0 <= k < |s.untracked| && s.untracked[k].step == EndScript
  {
    TallyFindsEnd(s.untracked);
  }

  /** Sensor samples never start or end a script. */
  lemma {:induction false} MotionKeepsInteraction(s: Face, ev: S.MotionEvent, d: Draw)
    requires Valid(s) && ValidDraw(d)
    ensures OnMotion(s, ev, d).isInteracting == s.isInteracting
  {
    if S.Listening(s.sensors, s.hasStarted) {
      var sensed := S.OnMotion(s.sensors, s.hasStarted, ev);
      var reacted := MotionReaction(s.(sensors := sensed), sensed.data);
      var lowered := reacted.(sensors := S.AfterCleanup(sensed));
      SettleFrame(s, MotionReaction(lowered, lowered.sensors.data), d);
    }
  }

  lemma {:induction false} OrientationKeepsInteraction(s: Face, rotation: Rotation, d: Draw)
    requires Valid(s) && ValidDraw(d)
    ensures OnOrientation(s, rotation, d).isInteracting == s.isInteracting
  {
    if S.Listening(s.sensors, s.hasStarted) {
      var sensed := S.OnOrientation(s.sensors, s.hasStarted, rotation);
      SettleFrame(s, MotionReaction(s.(sensors := sensed), sensed.data), d);
    }
  }

  lemma {:induction false} RunTimerReleases(s: Face, c: Candidate, d: Draw)
    requires ValidDraw(d) && IsPending(s, c) && s.isInteracting
    requires !RunTimer(s, c, d).isInteracting
    ensures c.source.FromUntracked? && s.untracked[c.source.index].step == EndScript
  {
    var s0 := s.(now := c.timer.due);
    match c.source
    case FromReversion =>
    case FromBlink =>
    case FromAutonomous =>
    case FromDebounce =>
    case FromUntracked(i) =>
      match s.untracked[i].step {
        case Show(e) =>
        case EndScript =>
        case EndIdle =>
        case AngryPulse(n) =>
      }
  }

  lemma {:induction false} FireReleases(s: Face, d: Draw)
    requires Valid(s) && ValidDraw(d) && HasPending(s) && s.isInteracting
    requires !OnFire(s, d).isInteracting
    ensures NextDue(s).source.FromUntracked?
    ensures s.untracked[NextDue(s).source.index].step == EndScript
  {
    var c := NextDue(s);
    var q := RunTimer(s, c, d);
    NextDueKeepsTimersAhead(s);
    RunTimerCore(s, c, d);
    SettleFrame(s.(now := c.timer.due), q, d);
    RunTimerReleases(s, c, d);
  }

  /** Only the end of a script (the angry burst's, the growing smile's or the
      happy script's last step) clears isInteracting. */
  lemma {:induction false} OnlyEndScriptClearsInteraction(s: Face, ev: Event, d: Draw)
    requires Valid(s) && ValidDraw(d) && Enabled(s, ev) && s.isInteracting
    requires !Step(s, ev, d).isInteracting
    ensures ev.Fire? && NextDue(s).source.FromUntracked?
    ensures s.untracked[NextDue(s).source.index].step == EndScript
  {
    match ev
    case Start(granted) =>
    case Tap =>
    case Fire => FireReleases(s, d);
    case Wait(t) =>
    case Motion(sample) => MotionKeepsInteraction(s, sample, d);
    case Orientation(rotation) => OrientationKeepsInteraction(s, rotation, d);
  }

  /** With both sensor flags down, the effects touch only the two loop timers,
      the creation counter and the pupil, which follows the tilt when the
      expression or the script flag changed and no script plays. */
  lemma {:induction false} SettleFrame(p: Face, q: Face, d: Draw)
    requires ValidDraw(d) && !q.sensors.data.isShaking && !q.sensors.data.isMoving
    ensures var r := Settle(p, q, d);
      && r == q.(blink := r.blink, autonomous := r.autonomous, issued := r.issued, pupil := r.pupil)
      && r.pupil == (if MotionDepsChanged(p, q) && !q.isInteracting then PupilFromRotation(q.sensors.data.rotation) else q.pupil)
  {
    var looped := if LoopDepsChanged(p, q) then AutonomousEffect(BlinkEffect(q, d)) else q;
    LoopsFrame(q, d);
    if MotionDepsChanged(p, q) {
      StillReaction(looped);
    }
  }

  /** The two loop effects touch only their timers and the creation counter. */
  lemma {:induction false} LoopsFrame(q: Face, d: Draw)
    requires ValidDraw(d)
    ensures var a := AutonomousEffect(BlinkEffect(q, d));
      a == q.(blink := a.blink, autonomous := a.autonomous, issued := a.issued)
  {
    var b := BlinkEffect(q, d);
    assert b == q.(blink := b.blink, issued := b.issued);
  }

  /** With both flags down, the motion effect only moves the pupil, and only when
      no script plays. */
  lemma {:induction false} StillReaction(s: Face)
    requires !s.sensors.data.isShaking && !s.sensors.data.isMoving
    ensures MotionReaction(s, s.sensors.data)
      == if s.isInteracting then s else s.(pupil := PupilFromRotation(s.sensors.data.rotation))
  {
  }

  // ---- angry sounds ----

  /** How many 'angry' sounds have played. */
  function AngryHeard(sounds: seq<AudioKey>): nat
  {
    multiset(sounds)[AngryKey]
  }

  /** The 'angry' sounds played so far plus those the pending pulses still owe. */
  ghost function Owed(s: Face): nat
  {
    AngryHeard(s.sounds) + Tally(s.untracked, OwedAngry)
  }

  lemma {:induction false} TallyZero(v: seq<Scheduled>, w: Job -> nat)
    requires forall k :: 0 <= k < |v| ==> w(v[k].step) == 0
    ensures Tally(v, w) == 0
  {
    if v != [] {
      TallyZero(v[..|v| - 1], w);
    }
  }

  /** Appending jobs that owe no sound leaves the owed count alone. */
  lemma {:induction false} AppendOwesNothing(s: Face, v: seq<Scheduled>)
    requires forall k :: 0 <= k < |v| ==> OwedAngry(v[k].step) == 0
    ensures Tally(s.untracked + v, OwedAngry) == Tally(s.untracked, OwedAngry)
  {
    TallyZero(v, OwedAngry);
    TallyAppend(s.untracked, v, OwedAngry);
  }

  lemma {:induction false} SetTemporaryOwed(s: Face, e: EyeExpression, duration: nat)
    ensures Owed(SetTemporaryExpression(s, e, duration)) == Owed(s)
  {
    assert multiset(s.sounds + [BlinkKey]) == multiset(s.sounds) + multiset{BlinkKey};
  }

  lemma {:induction false} FireUntrackedOwed(s: Face, i: nat)
    requires i < |s.untracked|
    requires s.untracked[i].step.AngryPulse? ==> s.untracked[i].step.played < AngryPulses
    ensures Owed(FireUntracked(s, i)) == Owed(s)
  {
    var rest := Without(s.untracked, i);
    TallyWithout(s.untracked, i, OwedAngry);
    var job := s.untracked[i].step;
    if job.AngryPulse? {
      assert multiset(s.sounds + [AngryKey]) == multiset(s.sounds) + multiset{AngryKey};
      if job.played + 1 < AngryPulses {
        var x := Scheduled(Timer(s.now + AngryPulseGap, s.issued), AngryPulse(job.played + 1));
        TallyAppend(rest, [x], OwedAngry);
        TallySingle(x, OwedAngry);
      }
    }
  }

  lemma {:induction false} FireReversionOwed(s: Face)
    requires s.reversion.Some?
    ensures Owed(FireReversion(s)) == Owed(s)
  {
    if s.reversion.value.action.DizzyThenAngry? {
      SetTemporaryOwed(s.(reversion := None), Angry, Duration(s, ["ANGRY"]));
    }
  }

  lemma {:induction false} FireBlinkOwed(s: Face, d: Draw)
    requires ValidDraw(d)
    ensures Owed(FireBlink(s, d)) == Owed(s)
  {
    SetTemporaryOwed(s.(blink := None), Blink, Duration(s, ["BLINK"]));
  }

  lemma {:induction false} FireAutonomousOwed(s: Face, d: Draw)
    requires ValidDraw(d)
    ensures Owed(FireAutonomous(s, d)) == Owed(s)
  {
    match Actions[R.PickIndex(d.action, |Actions|)]
    case LookAround =>
      SetTemporaryOwed(s, Looks[R.PickIndex(d.look, |Looks|)], Duration(s, ["LOOK"]));
    case Think => AppendOwesNothing(s, [Scheduled(Timer(s.now + ThinkingTime, s.issued), EndIdle)]);
    case Code => AppendOwesNothing(s, [Scheduled(Timer(s.now + CodingTime, s.issued), EndIdle)]);
    case GetBored => AppendOwesNothing(s, [Scheduled(Timer(s.now + BoredTime, s.issued), EndIdle)]);
  }

  lemma {:induction false} FireDebounceOwed(s: Face)
    ensures Owed(FireDebounce(s)) == Owed(s)
  {
    AppendOwesNothing(s, [Scheduled(Timer(s.now + Duration(s, ["GROWING_SMILE"]), s.issued), EndScript)]);
    AppendOwesNothing(s, HappyScript(s));
  }

  lemma {:induction false} RunTimerOwed(s: Face, c: Candidate, d: Draw)
    requires Core(s) && ValidDraw(d) && IsPending(s, c)
    ensures Owed(RunTimer(s, c, d)) == Owed(s)
  {
    var s0 := s.(now := c.timer.due);
    match c.source
    case FromReversion => FireReversionOwed(s0);
    case FromBlink => FireBlinkOwed(s0, d);
    case FromAutonomous => FireAutonomousOwed(s0, d);
    case FromDebounce => FireDebounceOwed(s0);
    case FromUntracked(i) => FireUntrackedOwed(s0, i);
  }

  lemma {:induction false} MotionReactionOwed(s: Face, data: DeviceSensorsData)
    ensures Owed(MotionReaction(s, data)) == Owed(s)
  {
    if !s.isInteracting && !data.isShaking && data.isMoving && s.expression == Neutral {
      SetTemporaryOwed(s.(idleState := NoIdle), Squint, Duration(s, ["SQUINT"]));
    }
  }

  lemma {:induction false} TapOwed(s: Face, d: Draw)
    requires Valid(s) && ValidDraw(d)
    ensures Owed(OnTap(s, d)) ==
      Owed(s) + (if s.hasStarted && !s.isInteracting && s.tapCount == 3 then AngryPulses else 0)
  {
    if s.hasStarted && !s.isInteracting {
      SettleFrame(s, InteractionStart(s), d);
      InteractionStartOwed(s);
    }
  }

  /** The fourth tap adds a pulse that owes every sound; any other tap owes none. */
  lemma {:induction false} InteractionStartOwed(s: Face)
    requires s.tapCount <= 3
    ensures Owed(InteractionStart(s)) == Owed(s) + (if s.tapCount == 3 then AngryPulses else 0)
  {
    if s.tapCount == 3 {
      var extra := [Scheduled(Timer(s.now + AngryPulseGap, s.issued), AngryPulse(0)),
                    Scheduled(Timer(s.now + Duration(s, ["ANGRY"]), s.issued + 1), EndScript)];
      assert InteractionStart(s).untracked == s.untracked + extra;
      TallyAppend(s.untracked, extra, OwedAngry);
      assert extra == [extra[0]] + [extra[1]];
      TallyAppend([extra[0]], [extra[1]], OwedAngry);
      TallySingle(extra[0], OwedAngry);
      TallySingle(extra[1], OwedAngry);
    }
  }


  lemma {:induction false} FireOwed(s: Face, d: Draw)
    requires Valid(s) && ValidDraw(d) && HasPending(s)
    ensures Owed(OnFire(s, d)) == Owed(s)
  {
    var c := NextDue(s);
    var q := RunTimer(s, c, d);
    NextDueKeepsTimersAhead(s);
    RunTimerCore(s, c, d);
    SettleFrame(s.(now := c.timer.due), q, d);
    RunTimerOwed(s, c, d);
    assert Owed(OnFire(s, d)) == Owed(q);
  }

  lemma {:induction false} MotionOwed(s: Face, ev: S.MotionEvent, d: Draw)
    requires Valid(s) && ValidDraw(d)
    ensures Owed(OnMotion(s, ev, d)) == Owed(s)
  {
    if S.Listening(s.sensors, s.hasStarted) {
      var sensed := S.OnMotion(s.sensors, s.hasStarted, ev);
      var reacted := MotionReaction(s.(sensors := sensed), sensed.data);
      var lowered := reacted.(sensors := S.AfterCleanup(sensed));
      MotionReactionOwed(s.(sensors := sensed), sensed.data);
      MotionReactionOwed(lowered, lowered.sensors.data);
      SettleFrame(s, MotionReaction(lowered, lowered.sensors.data), d);
    }
  }

  lemma {:induction false} OrientationOwed(s: Face, rotation: Rotation, d: Draw)
    requires Valid(s) && ValidDraw(d)
    ensures Owed(OnOrientation(s, rotation, d)) == Owed(s)
  {
    if S.Listening(s.sensors, s.hasStarted) {
      var sensed := S.OnOrientation(s.sensors, s.hasStarted, rotation);
      MotionReactionOwed(s.(sensors := sensed), sensed.data);
      SettleFrame(s, MotionReaction(s.(sensors := sensed), sensed.data), d);
    }
  }

  /** The angry burst is the only source of 'angry' sounds and schedules exactly
      four: every event keeps (sounds played + sounds owed) fixed, except a fourth
      tap, which raises it by exactly four. */
  lemma {:induction false} AngrySoundsConserved(s: Face, ev: Event, d: Draw)
    requires Valid(s) && ValidDraw(d) && Enabled(s, ev)
    ensures Owed(Step(s, ev, d)) ==
      Owed(s) + (if ev.Tap? && s.hasStarted && !s.isInteracting && s.tapCount == 3 then AngryPulses else 0)
  {
    match ev
    case Start(granted) =>
    case Tap => TapOwed(s, d);
    case Fire => FireOwed(s, d);
    case Wait(t) =>
    case Motion(sample) => MotionOwed(s, sample, d);
    case Orientation(rotation) => OrientationOwed(s, rotation, d);
  }

  // ---- setTemporaryExpression ----

  lemma {:induction false} PendingIsAhead(s: Face, c: Candidate)
    requires TimersAhead(s) && IsPending(s, c)
    ensures Ahead(s, c.timer)
  {
  }

  /** The expression shows at once; the reversion slot now holds a timer no
      earlier timer shares, due after `duration`, that returns to NEUTRAL; the
      blink sound plays exactly for BLINK; and when the reversion fires the face is
      NEUTRAL and the slot is empty. */
  lemma {:induction false} TemporaryExpression(s: Face, e: EyeExpression, duration: nat)
    requires Valid(s)
    ensures var t := SetTemporaryExpression(s, e, duration);
      && t.expression == e
      && t.reversion.Some? && t.reversion.value.action == ToNeutral
      && t.reversion.value.timer.due == s.now + duration
      && (forall c :: IsPending(s, c) ==> c.timer != t.reversion.value.timer)
      && |t.sounds| >= |s.sounds| && t.sounds[..|s.sounds|] == s.sounds
      && (|t.sounds| > |s.sounds| <==> e == Blink)
      && (e == Blink ==> t.sounds == s.sounds + [BlinkKey])
      && FireReversion(t).expression == Neutral && FireReversion(t).reversion.None?
      && t.(expression := s.expression, reversion := s.reversion, sounds := s.sounds, issued := s.issued) == s
  {
    var t := SetTemporaryExpression(s, e, duration);
    forall c | IsPending(s, c)
      ensures c.timer != t.reversion.value.timer
    {
      PendingIsAhead(s, c);
    }
  }

  // ---- taps ----

  /** Before the start and while a script plays, a tap changes nothing. */
  lemma {:induction false} TapIgnored(s: Face, d: Draw)
    requires ValidDraw(d) && (!s.hasStarted || s.isInteracting)
    ensures OnTap(s, d) == s
  {
  }

  /** An accepted tap ends any idle mode, counts one more tap (the fourth wraps
      to 0), cancels every timer held in a ref (whatever is pending in a ref
      afterwards was created by this tap or by the effects it woke), and keeps the
      fire-once timers already running. */
  lemma {:induction false} AcceptedTap(s: Face, d: Draw)
    requires Valid(s) && ValidDraw(d) && s.hasStarted && !s.isInteracting
    ensures var r := OnTap(s, d);
      && r.idleState == NoIdle
      && r.tapCount == (s.tapCount + 1) % 4
      && (forall c :: IsPending(r, c) && !c.source.FromUntracked? ==> s.issued <= c.timer.order)
      && !(r.autonomous.Running? && s.autonomous.Running? && r.autonomous == s.autonomous)
      && |r.untracked| >= |s.untracked| && r.untracked[..|s.untracked|] == s.untracked
  {
    var q := InteractionStart(s);
    SettleFrame(s, q, d);
  }

  /** The fourth tap: the count goes back to 0, a script starts showing ANGRY,
      no debounce, blink or reversion timer is pending and the interval is not
      running; the first sound pulse is due 150 ms later and the end of the script
      after the ANGRY duration; and exactly four more 'angry' sounds are owed. */
  lemma {:induction false} AngryBurst(s: Face, d: Draw)
    requires Valid(s) && ValidDraw(d) && s.hasStarted && !s.isInteracting && s.tapCount == 3
    ensures var r := OnTap(s, d);
      && r.tapCount == 0 && r.isInteracting && r.expression == Angry
      && r.debounce.None? && r.blink.None? && r.reversion.None? && !r.autonomous.Running?
      && r.untracked == s.untracked
           + [Scheduled(Timer(s.now + AngryPulseGap, s.issued), AngryPulse(0)),
              Scheduled(Timer(s.now + Duration(s, ["ANGRY"]), s.issued + 1), EndScript)]
      && Owed(r) == Owed(s) + 4
  {
    SettleFrame(s, InteractionStart(s), d);
    AngrySoundsConserved(s, Tap, d);
  }

  /** A first, second or third tap leaves the expression alone and (re)starts
      the 400 ms debounce. */
  lemma {:induction false} TapDebounces(s: Face, d: Draw)
    requires Valid(s) && ValidDraw(d) && s.hasStarted && !s.isInteracting && s.tapCount < 3
    ensures var r := OnTap(s, d);
      && r.tapCount == s.tapCount + 1 && !r.isInteracting && r.expression == s.expression
      && r.debounce == Some(Timer(s.now + DebounceDelay, s.issued))
      && r.reversion.None? && r.untracked == s.untracked
  {
    SettleFrame(s, InteractionStart(s), d);
  }

  /** The end of a script shows NEUTRAL and releases the face. */
  lemma {:induction false} ScriptEndReleases(s: Face, i: nat)
    requires i < |s.untracked| && s.untracked[i].step == EndScript
    ensures var r := FireUntracked(s, i);
      r.expression == Neutral && !r.isInteracting && r.untracked == Without(s.untracked, i)
  {
  }

  // ---- the debounce and its scripts ----

  /** The debounce resolves one, two or three taps: the count goes back to 0 and
      a script starts; three taps give the growing smile and its end, fewer give
      SQUINT and the happy script. */
  lemma {:induction false} DebounceResolves(s: Face)
    requires Core(s) && s.debounce.Some?
    ensures 1 <= s.tapCount <= 3
    ensures var r := FireDebounce(s);
      && r.tapCount == 0 && r.isInteracting && r.debounce.None?
      && (s.tapCount == 3 ==>
            r.expression == GrowingSmile
            && r.untracked == s.untracked
                 + [Scheduled(Timer(s.now + Duration(s, ["GROWING_SMILE"]), s.issued), EndScript)])
      && (s.tapCount < 3 ==> r.expression == Squint && r.untracked == s.untracked + HappyScript(s))
  {
  }

  /** With every duration the engine reads present and positive, the happy script
      shows SHAKE after the squint, HAPPY after the shake and ends after the happy
      face, strictly in that order, and only its last step ends the script. */
  lemma {:induction false} HappyScriptOrdered(s: Face)
    requires C.WellFormed(s.timeouts)
    ensures var h := HappyScript(s);
      && |h| == 3
      && h[0].step == Show(Shake) && h[1].step == Show(Happy) && h[2].step == EndScript
      && s.now < h[0].timer.due < h[1].timer.due < h[2].timer.due
      && h[0].timer.due == s.now + s.timeouts["SQUINT"]
      && h[1].timer.due == h[0].timer.due + s.timeouts["SHAKE"]
      && h[2].timer.due == h[1].timer.due + s.timeouts["HAPPY"]
  {
    var table := s.timeouts;
    assert "SQUINT" in C.KeysRead && "SHAKE" in C.KeysRead && "HAPPY" in C.KeysRead;
    C.CumulativeDelayGrows(table, [], "SQUINT");
    assert [] + ["SQUINT"] == ["SQUINT"];
    C.CumulativeDelayGrows(table, ["SQUINT"], "SHAKE");
    assert ["SQUINT"] + ["SHAKE"] == ["SQUINT", "SHAKE"];
    C.CumulativeDelayGrows(table, ["SQUINT", "SHAKE"], "HAPPY");
    assert ["SQUINT", "SHAKE"] + ["HAPPY"] == ["SQUINT", "SHAKE", "HAPPY"];
  }

  // ---- the blink loop ----

  /** The blink timer changes the expression only from NEUTRAL (to a BLINK that
      reverts after the BLINK duration), and always schedules the next blink
      2000 to 5000 ms later. */
  lemma {:induction false} BlinkTick(s: Face, d: Draw)
    requires ValidDraw(d)
    ensures var r := FireBlink(s, d);
      && r.expression == (if s.expression == Neutral then Blink else s.expression)
      && (s.expression == Neutral ==>
            r.reversion.Some? && r.reversion.value.timer.due == s.now + Duration(s, ["BLINK"]))
      && (s.expression != Neutral ==> r.reversion == s.reversion && r.sounds == s.sounds)
      && r.blink.Some? && s.now + 2000 <= r.blink.value.due < s.now + 5000
  {
  }

  // ---- the autonomous loop ----

  /** The seven equally likely actions: four looks, think, code and bored. */
  lemma {:induction false} ActionsTable()
    ensures |Actions| == 7 && |Looks| == 4
    ensures multiset(Actions)[LookAround] == 4
    ensures multiset(Actions)[Think] == 1 && multiset(Actions)[Code] == 1 && multiset(Actions)[GetBored] == 1
    ensures forall e :: e in Looks <==> IsLook(e)
  {
  }

  /** What one action does to a neutral, undisturbed face. */
  lemma {:induction false} ActionOutcome(s: Face, d: Draw)
    requires ValidDraw(d) && AutonomousAllowed(s)
    ensures var r := AutonomousAction(s, d);
      var a := Actions[R.PickIndex(d.action, |Actions|)];
      && LoopDepsChanged(s, r) && !AutonomousAllowed(r) && r.sensors == s.sensors
      && (a == LookAround ==>
            r.expression == Looks[R.PickIndex(d.look, |Looks|)] && r.idleState == s.idleState
            && r.reversion == Some(PendingReversion(Timer(s.now + Duration(s, ["LOOK"]), s.issued), ToNeutral))
            && r.untracked == s.untracked)
      && (a != LookAround ==>
            r.expression == s.expression
            && r.idleState == (if a == Think then Thinking else if a == Code then Coding else Bored)
            && r.untracked == s.untracked + [Scheduled(Timer(s.now + (if a == Think then ThinkingTime
                                                                     else if a == Code then CodingTime
                                                                     else BoredTime), s.issued), EndIdle)])
  {
  }

  /** Settling a face whose loop dependencies changed and that may no longer
      run the interval leaves the interval forgotten and the rest as it was. */
  lemma {:induction false} SettleDropsInterval(p: Face, q: Face, d: Draw)
    requires ValidDraw(d) && !q.sensors.data.isShaking && !q.sensors.data.isMoving
    requires LoopDepsChanged(p, q) && !AutonomousAllowed(q)
    ensures var r := Settle(p, q, d);
      && r.autonomous == Null && r.expression == q.expression && r.idleState == q.idleState
      && r.reversion == q.reversion && r.untracked == q.untracked
  {
    SettleFrame(p, q, d);
  }

  /** What a tick of the interval leaves, `r`, from the face `s` at the tick's
      time: a look shows one LOOK_* expression for the LOOK duration; think, code
      and bored show their idle mode and schedule its end 4000, 12000 and 6000 ms
      later. Either way the interval is then cleared and forgotten, because the
      face is no longer neutral and undisturbed. */
  predicate TickResult(s: Face, d: Draw, r: Face)
    requires ValidDraw(d)
  {
    var a := Actions[R.PickIndex(d.action, |Actions|)];
    && r.autonomous == Null
    && (a == LookAround ==>
          r.expression == Looks[R.PickIndex(d.look, |Looks|)] && r.idleState == s.idleState
          && r.reversion == Some(PendingReversion(Timer(s.now + Duration(s, ["LOOK"]), s.issued), ToNeutral))
          && r.untracked == s.untracked)
    && (a != LookAround ==>
          r.expression == s.expression
          && r.idleState == (if a == Think then Thinking else if a == Code then Coding else Bored)
          && r.untracked == s.untracked + [Scheduled(Timer(s.now + (if a == Think then ThinkingTime
                                                                   else if a == Code then CodingTime
                                                                   else BoredTime), s.issued), EndIdle)])
  }

  lemma {:induction false} AutonomousTick(s: Face, d: Draw)
    requires LoopsConsistent(s) && !s.sensors.data.isShaking && !s.sensors.data.isMoving
    requires ValidDraw(d) && HasPending(s) && NextDue(s).source == FromAutonomous
    ensures TickResult(s.(now := NextDue(s).timer.due), d, OnFire(s, d))
  {
    var c := NextDue(s);
    var s0 := s.(now := c.timer.due);
    AutonomousRuns(s, c, d);
    TickOutcome(s0, d);
  }

  /** The tick on a face whose clock reads the tick's due time. */
  lemma {:induction false} TickOutcome(s: Face, d: Draw)
    requires ValidDraw(d) && AutonomousAllowed(s) && !s.sensors.data.isShaking && !s.sensors.data.isMoving
    ensures TickResult(s, d, Settle(s, FireAutonomous(s, d), d))
  {
    ActionOutcome(s, d);
    var acted := AutonomousAction(s, d);
    var q := FireAutonomous(s, d);
    assert q == acted.(autonomous := q.autonomous, issued := q.issued);
    SettleDropsInterval(s, q, d);
  }

  /** The interval's callback runs on a neutral, undisturbed face. */
  lemma {:induction false} AutonomousRuns(s: Face, c: Candidate, d: Draw)
    requires ValidDraw(d) && LoopsConsistent(s) && IsPending(s, c) && c.source == FromAutonomous
    ensures RunTimer(s, c, d) == FireAutonomous(s.(now := c.timer.due), d)
    ensures AutonomousAllowed(s.(now := c.timer.due))
  {
  }

  /** The end of an idle mode brings back the face. */
  lemma {:induction false} IdleEnds(s: Face, i: nat)
    requires i < |s.untracked| && s.untracked[i].step == EndIdle
    ensures var r := FireUntracked(s, i);
      r.idleState == NoIdle && r.expression == s.expression && r.isInteracting == s.isInteracting
  {
  }

  // ---- motion ----

  /** While a script plays, sensor samples reach the hook but not the face. */
  lemma {:induction false} MotionIgnoredWhileInteracting(s: Face, ev: S.MotionEvent, rotation: Rotation, d: Draw)
    requires ValidDraw(d) && s.isInteracting
    ensures var r := OnMotion(s, ev, d); r == s.(sensors := r.sensors)
    ensures var r := OnOrientation(s, rotation, d); r == s.(sensors := r.sensors)
  {
  }

  /** A shaking sample makes the face DIZZY at once, ends any idle mode, puts
      the DIZZY-then-ANGRY reversion in the slot after the DIZZY duration, and
      the pupil follows the tilt; the flags are lowered again and the interval is
      not running. */
  lemma {:induction false} ShakeSample(s: Face, ev: S.MotionEvent, d: Draw)
    requires LoopsConsistent(s) && ValidDraw(d) && S.Listening(s.sensors, s.hasStarted) && !s.isInteracting
    requires S.IsShaking(s.sensors.lastAccel, S.RawAcceleration(ev))
    ensures var r := OnMotion(s, ev, d);
      && r.expression == Dizzy && r.idleState == NoIdle
      && r.reversion == Some(PendingReversion(Timer(s.now + Duration(s, ["DIZZY"]), s.issued), DizzyThenAngry))
      && r.pupil == PupilFromRotation(s.sensors.data.rotation)
      && r.sensors.lastAccel == S.Baseline(S.RawAcceleration(ev))
      && !r.sensors.data.isShaking && !r.sensors.data.isMoving
      && !r.autonomous.Running?
  {
    var sensed := S.OnMotion(s.sensors, s.hasStarted, ev);
    var reacted := MotionReaction(s.(sensors := sensed), sensed.data);
    var lowered := reacted.(sensors := S.AfterCleanup(sensed));
    SettleFrame(s, MotionReaction(lowered, lowered.sensors.data), d);
  }

  /** A moving sample on a NEUTRAL face gives a SQUINT that reverts after the
      SQUINT duration, and the pupil follows the tilt. */
  lemma {:induction false} MoveSample(s: Face, ev: S.MotionEvent, d: Draw)
    requires LoopsConsistent(s) && ValidDraw(d) && S.Listening(s.sensors, s.hasStarted) && !s.isInteracting
    requires s.expression == Neutral && S.IsMoving(s.sensors.lastAccel, S.RawAcceleration(ev))
    ensures var r := OnMotion(s, ev, d);
      && r.expression == Squint && r.idleState == NoIdle
      && r.reversion == Some(PendingReversion(Timer(s.now + Duration(s, ["SQUINT"]), s.issued), ToNeutral))
      && r.pupil == PupilFromRotation(s.sensors.data.rotation)
  {
    var sensed := S.OnMotion(s.sensors, s.hasStarted, ev);
    var reacted := MotionReaction(s.(sensors := sensed), sensed.data);
    var lowered := reacted.(sensors := S.AfterCleanup(sensed));
    SettleFrame(s, MotionReaction(lowered, lowered.sensors.data), d);
  }

  /** An orientation sample on an undisturbed face moves the pupil and changes
      nothing else of the face. */
  lemma {:induction false} OrientationMovesPupil(s: Face, rotation: Rotation, d: Draw)
    requires !s.sensors.data.isShaking && !s.sensors.data.isMoving && ValidDraw(d) && S.Listening(s.sensors, s.hasStarted) && !s.isInteracting
    ensures var r := OnOrientation(s, rotation, d);
      r == s.(sensors := S.OnOrientation(s.sensors, s.hasStarted, rotation), pupil := PupilFromRotation(rotation))
  {
  }

  /** The shake chain: DIZZY turns into an ANGRY that reverts after the ANGRY
      duration, and then the face is NEUTRAL with the slot empty. */
  lemma {:induction false} DizzyChain(s: Face)
    requires s.reversion.Some? && s.reversion.value.action == DizzyThenAngry
    ensures var a := FireReversion(s);
      && a.expression == Angry && a.reversion.Some? && a.reversion.value.action == ToNeutral
      && a.reversion.value.timer.due == s.now + Duration(s, ["ANGRY"])
      && var b := FireReversion(a.(now := a.reversion.value.timer.due));
         b.expression == Neutral && b.reversion.None?
  {
  }

  /** With the literal table: a blink lasts 150 ms, a look 1000, a squint 300,
      the shake chain 1500 + 2000 = 3500 ms, and the angry burst 2000. */
  lemma {:induction false} LiteralDurations(s: Face)
    requires s.timeouts == C.ExpressionTimeout
    ensures Duration(s, ["BLINK"]) == 150 && Duration(s, ["LOOK"]) == 1000
    ensures Duration(s, ["SQUINT"]) == 300 && Duration(s, ["ANGRY"]) == 2000
    ensures Duration(s, ["DIZZY"]) + Duration(s, ["ANGRY"]) == 3500
  {
    var t := C.ExpressionTimeout;
    assert t["BLINK"] == 150 && t["LOOK"] == 1000 && t["SQUINT"] == 300 && t["ANGRY"] == 2000 && t["DIZZY"] == 1500;
    C.SingleDelay(t, "BLINK");
    C.SingleDelay(t, "LOOK");
    C.SingleDelay(t, "SQUINT");
    C.SingleDelay(t, "ANGRY");
    C.SingleDelay(t, "DIZZY");
  }

  /** The pupil: gamma 20 and beta 10 give (10, -15); a gamma of 200 is clamped
      to x = 30; missing angles read as 0. */
  lemma {:induction false} PupilExamples()
    ensures PupilFromRotation(Rotation(None, Some(10.0), Some(20.0))) == PupilPosition(10.0, -15.0)
    ensures PupilFromRotation(Rotation(None, Some(10.0), Some(200.0))).x == 30.0
    ensures PupilFromRotation(Rotation(None, None, None)) == PupilPosition(0.0, -20.0)
  {
  }

  /** Every state the event loop can reach from the start is valid. */
  lemma {:induction false} RunKeepsValid(s: Face, events: seq<Event>, draws: seq<Draw>)
    requires Valid(s)
    requires Run(s, events, draws).Some?
    ensures Valid(Run(s, events, draws).value)
    decreases |events|
  {
    if events != [] {
      StepPreserves(s, events[0], draws[0]);
      RunKeepsValid(Step(s, events[0], draws[0]), events[1..], draws[1..]);
    }
  }

  /** Whatever the table, every page reached from the initial one is valid. */
  lemma {:induction false} ReachableValid(timeouts: map<string, nat>, events: seq<Event>, draws: seq<Draw>)
    requires Run(Init(timeouts), events, draws).Some?
    ensures Valid(Run(Init(timeouts), events, draws).value)
  {
    InitValid(timeouts);
    RunKeepsValid(Init(timeouts), events, draws);
  }
}
