// The data model shared by the face engine, the sensor hook and the renderer (types.ts).

module Types {

  datatype Option<+T> = None | Some(value: T)

  /** The expression the face shows: a closed enumeration of fourteen values,
      declared in this order so that NEUTRAL has ordinal 0. */
  datatype EyeExpression =
    | Neutral
    | Blink
    | Squint
    | LookLeft
    | LookRight
    | LookUp
    | LookDown
    | Dizzy
    | Angry
    | Happy
    | Scared
    | Nodding
    | Shake
    | GrowingSmile

  /** Every expression, in declaration order. */
  const AllExpressions: seq<EyeExpression> :=
    [Neutral, Blink, Squint, LookLeft, LookRight, LookUp, LookDown,
     Dizzy, Angry, Happy, Scared, Nodding, Shake, GrowingSmile]

  /** The numeric value of the enum member. */
  function Ordinal(e: EyeExpression): (n: nat)
    ensures n < |AllExpressions| && AllExpressions[n] == e
  {
    match e
    case Neutral => 0
    case Blink => 1
    case Squint => 2
    case LookLeft => 3
    case LookRight => 4
    case LookUp => 5
    case LookDown => 6
    case Dizzy => 7
    case Angry => 8
    case Happy => 9
    case Scared => 10
    case Nodding => 11
    case Shake => 12
    case GrowingSmile => 13
  }

  /** The enumeration is closed and has exactly fourteen distinct members, and the
      ordinal is a bijection onto 0..13 with NEUTRAL at 0. */
  lemma ExpressionsAreFourteen()
    ensures |AllExpressions| == 14
    ensures forall i, j :: 0 <= i < j < |AllExpressions| ==> AllExpressions[i] != AllExpressions[j]
    ensures forall e: EyeExpression :: e in AllExpressions
    ensures Ordinal(Neutral) == 0
  {
    forall e: EyeExpression ensures e in AllExpressions {
      assert AllExpressions[Ordinal(e)] == e;
    }
  }

  /** Two expressions with the same ordinal are the same expression. */
  lemma OrdinalInjective(a: EyeExpression, b: EyeExpression)
    ensures Ordinal(a) == Ordinal(b) ==> a == b
  {
    if Ordinal(a) == Ordinal(b) {
      calc {
        a;
        AllExpressions[Ordinal(a)];
        AllExpressions[Ordinal(b)];
        b;
      }
    }
  }

  /** The four directions the autonomous loop looks in. */
  predicate IsLook(e: EyeExpression)
  {
    e == LookLeft || e == LookRight || e == LookUp || e == LookDown
  }

  /** The coarse idle mode: 'NONE', 'THINKING', 'CODING' or 'BORED'. */
  datatype IdleState = NoIdle | Thinking | Coding | Bored

  /** The two sound keys: 'blink' and 'angry'. */
  datatype AudioKey = BlinkKey | AngryKey

  /** Pupil offset in pixels. */
  datatype PupilPosition = PupilPosition(x: real, y: real)

  /** Device orientation in degrees; each angle may be missing (null). */
  datatype Rotation = Rotation(alpha: Option<real>, beta: Option<real>, gamma: Option<real>)

  /** Acceleration including gravity; each axis may be missing (null). */
  datatype Acceleration = Acceleration(x: Option<real>, y: Option<real>, z: Option<real>)

  /** What the sensor hook publishes: raw optional readings and two plain flags. */
  datatype DeviceSensorsData = DeviceSensorsData(
    rotation: Rotation,
    acceleration: Acceleration,
    isShaking: bool,
    isMoving: bool)
}
