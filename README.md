# Gomoji face engine in Dafny

Gomoji is a phone page that shows a glowing face. After the start button, the face does four things:

- It blinks every 2–5 seconds.
- Every 4 seconds it looks around, or it goes "thinking", "coding" or "bored" for a while.
- It reacts to taps:
  - one or two taps play a happy script (SQUINT, SHAKE, HAPPY);
  - three taps play a growing smile;
  - a fourth tap makes it angry, with four 'angry' sounds.
- It reacts to the phone's sensors:
  - a shake makes it DIZZY and then ANGRY;
  - a small move makes it squint;
  - the tilt moves the pupils.

This project models that engine, and the parts around it, and proves properties of the model.

- `types.dfy` (Types): the expression enumeration, idle modes, sound keys and the sensor record.
- `constants.dfy` (Constants): the thresholds, the timing table and the autonomous period. The timing table is a parameter, `map<string, nat>`. `TimerDelay` gives the delay a timer really gets for a sum of table entries: a missing entry makes the whole delay 0 ms.
- `random.dfy` (Random): how a draw of `Math.random()` becomes a list index or a timer delay.
- `device_sensors.dfy` (DeviceSensors): the motion classifier and the sensor hook's state.
  - The classifier and the state transitions are functions.
  - The hook itself is a class, `SensorHook`. Its listeners overwrite its fields, and each is proved against those functions.
- `gomoji.dfy` (Gomoji): the rendering choices as enumeration maps: offset, colour, eye outline, stroke, transforms, eyebrow, mouth, spin.
- `coding_screen.dfy` (CodingScreen): the typewriter of the coding screen. It is a class whose interval tick appends one character.
- `app_model.dfy` (AppModel): the page as a transition system over one state record, `Face`.
  - The clock is explicit. Every timer has a due time and a creation number, and the earliest one fires first; timers due together fire in creation order.
  - The four refs (reversion, blink, autonomous interval, tap debounce) are slots.
  - Fire-once timers nobody keeps a handle on sit in a list: script steps, idle ends, the angry-sound interval.
  - The random draws of an event are a parameter.
  - After every handler, `Settle` re-runs the React effects whose dependencies changed.
- `app_properties.dfy` (AppProperties): the invariant every event keeps, and the properties of taps, scripts, loops, sensors and sounds.
- `app.dfy` (App): the page as a class, `Coordinator`.
  - Its fields are the page's state variables and refs, and the sensor hook is an object it holds.
  - Each handler updates the fields in place and is proved equal to the AppModel transition on the same state.
  - `Handle` also keeps the invariant.
- `findings.dfy` (Findings): the missing-duration defect, as written and corrected, as complete event traces.

## Model

| member | source | states |
|---|---|---|
| Types.Ordinal | types.ts:2-17 | an expression's numeric value is its position in the declaration order |
| Types.ExpressionsAreFourteen | types.ts:2-17 | the enumeration has exactly fourteen distinct members, every expression is one of them, NEUTRAL is 0 |
| Types.OrdinalInjective | types.ts:2-17 | different expressions have different numeric values |
| Constants.ThresholdsOrdered | constants.ts:2-3 | 0 < move threshold (5) < shake threshold (25) |
| Constants.LiteralTableFacts | constants.ts:6-17 | every table entry is positive; GROWING_SMILE and SHAKE are absent; DIZZY + ANGRY = 3500; SQUINT = 300; the interval is 4000 ms |
| Constants.TablesWellFormedness | constants.ts:6-15 | the literal table lacks keys the engine reads; the corrected table has them all, positive |
| Constants.CumulativeDelayGrows | App.tsx:100-105 | with every key present, adding a step adds exactly its entry to a cumulative delay, so the delay strictly grows |
| Constants.LiteralDelays | App.tsx:95-105 | with the literal table the growing smile waits 0 ms, the squint step 300 ms, and the later happy-script steps 0 ms |
| Random.PickIndex | App.tsx:161 | `Math.floor(r * n)` is an index below n, the floor of r·n |
| Random.DelayBetween | App.tsx:131 | `r * 3000 + 2000` truncated to milliseconds: the whole number of milliseconds not above it, within [2000, 5000) |
| DeviceSensors.OrZero | hooks/useDeviceSensors.ts:42-44 | a missing reading counts as 0, a present one as itself |
| DeviceSensors.IsShaking | hooks/useDeviceSensors.ts:42-46 | shaking iff the largest per-axis change is strictly above 25 |
| DeviceSensors.IsMoving | hooks/useDeviceSensors.ts:47 | moving iff the largest change is above 5 and at most 25; never together with shaking |
| DeviceSensors.BaselineIsPreviousSample | hooks/useDeviceSensors.ts:50 | after a sample the baseline is the sample with missing axes as 0, whatever came before, so the next classification depends only on that sample |
| DeviceSensors.MissingAccelerationIsZero | hooks/useDeviceSensors.ts:40 | a sample without acceleration is handled as the zero vector |
| DeviceSensors.FlagsExclusive | hooks/useDeviceSensors.ts:46-47 | a sample never raises both flags |
| DeviceSensors.OrientationChangesOnlyRotation | hooks/useDeviceSensors.ts:35-37 | an orientation sample replaces the rotation and keeps acceleration, flags, permission and baseline |
| DeviceSensors.NothingWithoutPermission | hooks/useDeviceSensors.ts:33 | unless enabled and permitted, samples change nothing |
| DeviceSensors.CleanupLowersFlags | hooks/useDeviceSensors.ts:56-60 | the teardown lowers both flags and keeps the rest |
| DeviceSensors.InitialState | hooks/useDeviceSensors.ts:7-14 | every reading unknown, both flags down, no permission, baseline at the origin |
| DeviceSensors.ClassificationExamples | hooks/useDeviceSensors.ts:46-47 | from rest, a jump of 30 is a shake, exactly 25 a move, 6 a move, 3 neither |
| DeviceSensors.SensorHook.constructor | hooks/useDeviceSensors.ts:7-14 | the hook starts in the initial state |
| DeviceSensors.SensorHook.RequestPermission | hooks/useDeviceSensors.ts:16-30 | a granted answer sets the permission flag, any other leaves the state unchanged |
| DeviceSensors.SensorHook.HandleMotion | hooks/useDeviceSensors.ts:39-51 | the listener's field updates equal the motion transition, and the baseline becomes the sample |
| DeviceSensors.SensorHook.HandleOrientation | hooks/useDeviceSensors.ts:35-37 | the listener's field update equals the orientation transition |
| DeviceSensors.SensorHook.Cleanup | hooks/useDeviceSensors.ts:56-60 | the cleanup's field update equals lowering both flags |
| Gomoji.OffsetFollowsPupil | components/Gomoji.tsx:107-122 | outside the LOOK_* expressions the face is offset by the pupil position |
| Gomoji.LookOffsetsAreFixed | components/Gomoji.tsx:107-122 | LOOK_LEFT (-25,0), LOOK_RIGHT (25,0), LOOK_UP (0,-20), LOOK_DOWN (0,20), whatever the pupil |
| Gomoji.RedIffAngry | components/Gomoji.tsx:13 | the eyes are red exactly when the expression is ANGRY |
| Gomoji.EyePathShared | components/Gomoji.tsx:15-31 | SQUINT and SHAKE share an eye; exactly the expressions without a case of their own get the rounded square |
| Gomoji.StrokeWidthChoice | components/Gomoji.tsx:53 | stroke 10 exactly for BLINK, SQUINT and SHAKE, 4 otherwise |
| Gomoji.OnlyAngryRotatesOnlyNoddingMoves | components/Gomoji.tsx:33-43 | ANGRY rotates the left eye by 15 and the right eye by -15, NODDING lifts both by 15, every other expression leaves them alone |
| Gomoji.DecorationSelection | components/Gomoji.tsx:57-124 | the eyebrow is drawn exactly for ANGRY, the mouth grows exactly for GROWING_SMILE, the face spins exactly for DIZZY (lines 57-58, 90, 124); no expression gets two of these |
| Gomoji.MouthSelection | components/Gomoji.tsx:73-88 | which expressions share the smile, the frown and the small curve, and which have no mouth (both directions) |
| CodingScreen.Typewriter.constructor | components/CodingScreen.tsx:43-47 | the snippet is the one the draw picks (an index below 3), nothing is typed, and the interval runs |
| CodingScreen.Typewriter.Tick | components/CodingScreen.tsx:47-54 | with characters left, one tick appends exactly the next one and advances the index; at the end it clears the interval and appends nothing; the text stays the prefix of length index |
| CodingScreen.Typewriter.Unmount | components/CodingScreen.tsx:56-58 | unmounting clears the interval and keeps the text |
| CodingScreen.Typewriter.TypeOut | components/CodingScreen.tsx:47-54 | left to run, the interval stops with the whole snippet typed |
| AppModel.PupilFromRotation | App.tsx:213-218 | the pupil stays within [-30,30] × [-25,25]; each coordinate is exactly gamma/2 or beta/2 − 20 when that lies in range and saturates at the nearer bound otherwise (missing angles as 0) |
| AppProperties.InitValid | App.tsx:15-30 | the page on mount satisfies the invariant |
| AppProperties.StepPreserves | App.tsx:32-220 | every event keeps the invariant (see below) |
| AppProperties.ReachableValid | App.tsx:15-226 | every page reachable from the mount satisfies the invariant, for any timing table |
| AppProperties.TemporaryExpression | App.tsx:32-47 | the expression shows at once; the one reversion slot holds a new timer due after the duration; the blink sound plays exactly for BLINK; the reversion gives NEUTRAL and empties the slot; nothing else in the page changes besides the timer counter |
| AppProperties.TapIgnored | App.tsx:51 | before the start or while a script plays, a tap changes nothing |
| AppProperties.AcceptedTap | App.tsx:50-60 | an accepted tap ends the idle mode and counts one more tap (the fourth wraps to 0); every timer still in a ref was created by this tap or its effects, the old interval no longer runs, and running fire-once timers are kept |
| AppProperties.AngryBurst | App.tsx:63-81 | the fourth tap: count 0, a script showing ANGRY, no debounce, blink or reversion pending, interval stopped; first sound pulse after 150 ms and the end after the ANGRY duration; exactly four more sounds owed |
| AppProperties.AngrySoundsConserved | App.tsx:69-74 | sounds played plus sounds owed by pending pulses stays fixed under every event, except a fourth tap, which adds exactly 4 |
| AppProperties.TapDebounces | App.tsx:83-107 | a first, second or third tap keeps the expression and (re)starts the 400 ms debounce |
| AppProperties.ScriptEndReleases | App.tsx:76-79 | the end of a script shows NEUTRAL and clears the script flag |
| AppProperties.ScriptEndPending | App.tsx:87-105 | while a script plays, its end is pending |
| AppProperties.OnlyEndScriptClearsInteraction | App.tsx:76-105 | the script flag goes down only when a script's end timer fires |
| AppProperties.DebounceResolves | App.tsx:84-107 | the debounce resolves 1–3 taps: count 0 and a script starts; three taps give the growing smile and its end timer; fewer give SQUINT and the happy script |
| AppProperties.HappyScriptOrdered | App.tsx:97-105 | with every duration present and positive, SHAKE, HAPPY and the end come strictly in that order, at the cumulative offsets, and only the last step ends the script |
| AppProperties.BlinkTick | App.tsx:122-132 | the blink timer changes the expression only from NEUTRAL, to a BLINK reverting after the BLINK duration, and always schedules the next blink 2000–5000 ms later |
| AppProperties.ActionsTable | App.tsx:155-171 | seven actions: four looks, think, code, bored; the four LOOK_* expressions |
| AppProperties.ActionOutcome | App.tsx:161-186 | a look shows the drawn LOOK_* for the LOOK duration; think, code and bored enter their idle mode and schedule its end after 4000, 12000, 6000 ms |
| AppProperties.AutonomousTick | App.tsx:145-189 | a tick of the interval performs the drawn action: a look shows the drawn LOOK_* and reverts after the LOOK duration; think, code and bored enter their idle mode and schedule its end; then the interval is cleared and forgotten |
| AppProperties.IdleEnds | App.tsx:176-184 | the end of an idle mode brings the face back |
| AppProperties.MotionIgnoredWhileInteracting | App.tsx:193 | while a script plays, samples reach the hook but not the face |
| AppProperties.ShakeSample | App.tsx:197-205 | a shaking sample ends the idle mode, shows DIZZY and puts the DIZZY-then-ANGRY reversion, due after the DIZZY duration, in the slot; the interval stops; the baseline becomes the sample, the flags are lowered again and the pupil follows the tilt |
| AppProperties.MoveSample | App.tsx:207-210 | a moving sample on a NEUTRAL face ends the idle mode and gives a SQUINT reverting after the SQUINT duration; the pupil follows the tilt |
| AppProperties.OrientationMovesPupil | App.tsx:212-218 | an orientation sample on an undisturbed face moves the pupil and changes nothing else |
| AppProperties.DizzyChain | App.tsx:201-203 | DIZZY turns into an ANGRY reverting after the ANGRY duration, then NEUTRAL |
| AppProperties.LiteralDurations | App.tsx:125 | with the literal table: blink 150, look 1000, squint 300, angry 2000 ms, shake chain 3500 ms |
| AppProperties.PupilExamples | App.tsx:213-218 | gamma 20, beta 10 give (10, −15); gamma 200 clamps to 30; missing angles give (0, −20) |
| App.Coordinator.constructor | App.tsx:15-30 | the page object starts as the mounted page, valid |
| App.Coordinator.SetTemporaryExpression | App.tsx:32-47 | in-place update equal to the model's setTemporaryExpression |
| App.Coordinator.HandleInteractionStart | App.tsx:50-108 | in-place tap handling equal to the model's tap transition |
| App.Coordinator.BlinkEffect | App.tsx:111-142 | in-place blink effect equal to the model's |
| App.Coordinator.AutonomousEffect | App.tsx:145-189 | in-place autonomous effect equal to the model's |
| App.Coordinator.FireAutonomous | App.tsx:154-187 | in-place interval tick equal to the model's |
| App.Coordinator.FireDebounce | App.tsx:84-107 | in-place debounce equal to the model's |
| App.Coordinator.FireUntracked | App.tsx:70-105 | in-place fire-once timer equal to the model's |
| App.Coordinator.MotionEffect | App.tsx:192-220 | in-place motion effect equal to the model's |
| App.Coordinator.HandleStart | App.tsx:222-226 | in-place start equal to the model's |
| App.Coordinator.Handle | App.tsx:32-226 | one event, in place, equals the model's step and keeps the invariant |
| Findings.OneTapAsWritten | App.tsx:95-105 | as written: start, one tap and four timers leave the face on SHAKE at 700 ms with the script over |
| Findings.ShakeNeverReverts | App.tsx:111-189 | from that state, timers, waiting, orientation samples and non-shaking motion samples keep the face on SHAKE |
| Findings.GrowingSmileAsWritten | App.tsx:92-95 | as written, the growing smile's end is due at once |
| Findings.OneTapCorrected | App.tsx:97-105 | with the two entries added, the same events show SQUINT, SHAKE, HAPPY and end NEUTRAL at 3500 ms with both loops running |
| Findings.GrowingSmileCorrected | App.tsx:92-95 | with the entries added, the growing smile lasts 2500 ms |

`AppProperties.Valid` is the invariant every event keeps. It says:

- At most three taps are counted, and a debounce is pending exactly when some are.
- A pending debounce implies the page has started and no script plays.
- Exactly one script end is pending while a script plays, and none otherwise.
- Every angry pulse still has sounds to play.
- Every timer is ahead of the clock and older than the creation counter.
- The pupil is inside its clamp.
- Both sensor flags are down between events.
- No blink is pending unless the face has started, no script plays and no idle mode shows.
- The interval runs only on a started, NEUTRAL, undisturbed face.

After a shaking sample the pupil follows the tilt:

- The first reaction to a shaking sample leaves the pupil alone.
- The hook's effect, however, depends on the baseline, and every sample changes the baseline. So the hook's cleanup runs right after each sample and lowers both flags.
- The page's motion effect then runs again on the lowered flags and moves the pupil to the tilt.

That is why `ShakeSample` states that, after the event, the pupil follows the tilt.

## Left out

- The audio service is not part of this model. Playing a sound appends its key to the `sounds` log.
- The bored screen is not part of this model: it is static pictures and a random pick.
- SVG path strings, CSS classes and the glow filter are not modelled. Gomoji keeps only the categorical choices and the numeric offsets.
- React's rendering, state batching and `addEventListener` plumbing are not modelled. An event is handled completely, then the effects whose dependencies changed re-run once, in declaration order: blink, autonomous, motion.
- The permission prompt and the awaited start are one `Start(granted)` event. The sound preloading is not modelled.
- The wall clock is explicit `Fire` and `Wait` events. `Math.random()` is an injected `Draw`, and an event reuses its draw wherever it needs one.
- IEEE floating point and NaN are not modelled: sensor and pupil arithmetic is on `real`.
- The browser's minimum nesting delay for timers is not modelled: a delay is exactly what the code passes.
- CodingScreen.Typewriter.Tick models "append the character at index, then advance". React may run the state updater after the index has already moved. That lazy read of `indexRef` is not modelled.

## Findings

| source | as written | input that shows it | evidently intended | confidence | as-written member | corrected member |
|---|---|---|---|---|---|---|
| App.tsx:95-105 | The growing smile's end and the happy script's HAPPY step and the script's end read table entries that do not exist. The timers get 0 ms: the growing smile ends at once, and HAPPY and the end fire before SHAKE. The face is left on SHAKE with no script playing. Neither the blink nor the autonomous loop leaves SHAKE (both need NEUTRAL), so only a tap or a shake moves it again. | start with permission, one tap, then the next four timers (all draws 0) | SQUINT, SHAKE, HAPPY in order, then NEUTRAL; the growing smile lasts its own duration | not executed | Findings.OneTapAsWritten, Findings.ShakeNeverReverts | Findings.OneTapCorrected, AppProperties.HappyScriptOrdered |
