// What the face renderer (components/Gomoji.tsx) chooses for each expression: the
// container offset, the eye shape, colour, stroke width and transforms, the eyebrow,
// the mouth and the spin animation. Only the categorical choices and the offsets are
// modelled, not the SVG path strings or CSS classes.

module Gomoji {
  import opened Types

  /** The container translation in pixels. */
  datatype Offset = Offset(x: real, y: real)

  /** The offset of the whole face: the pupil position, replaced by a fixed
      direction while a LOOK_* expression is shown. */
  function ContainerOffset(e: EyeExpression, pupil: PupilPosition): Offset
  {
    var transform := Offset(pupil.x, pupil.y);
    var transform := if e == LookLeft then Offset(-25.0, 0.0) else transform;
    var transform := if e == LookRight then Offset(25.0, 0.0) else transform;
    var transform := if e == LookUp then Offset(0.0, -20.0) else transform;
    if e == LookDown then Offset(0.0, 20.0) else transform
  }

  /** Outside the four LOOK_* expressions the face follows the pupil. */
  lemma OffsetFollowsPupil(e: EyeExpression, pupil: PupilPosition)
    requires !IsLook(e)
    ensures ContainerOffset(e, pupil) == Offset(pupil.x, pupil.y)
  {
  }

  /** The LOOK_* offsets are fixed and do not depend on the pupil. */
  lemma LookOffsetsAreFixed(e: EyeExpression, p: PupilPosition, q: PupilPosition)
    requires IsLook(e)
    ensures ContainerOffset(e, p) == ContainerOffset(e, q)
    ensures e == LookLeft ==> ContainerOffset(e, p) == Offset(-25.0, 0.0)
    ensures e == LookRight ==> ContainerOffset(e, p) == Offset(25.0, 0.0)
    ensures e == LookUp ==> ContainerOffset(e, p) == Offset(0.0, -20.0)
    ensures e == LookDown ==> ContainerOffset(e, p) == Offset(0.0, 20.0)
  {
  }

  /** `isAngry` as the page computes it. */
  predicate IsAngry(e: EyeExpression)
  {
    e == Angry
  }

  datatype EyeColor = Red | Cyan

  function EyeColorOf(isAngry: bool): EyeColor
  {
    if isAngry then Red else Cyan
  }

  /** The eyes are red exactly when the expression is ANGRY. */
  lemma RedIffAngry(e: EyeExpression)
    ensures EyeColorOf(IsAngry(e)) == Red <==> e == Angry
  {
  }

  /** The outline of one eye. */
  datatype EyePath = ThinLine | Squinted | CurvedUp | WideCircle | Ring | RoundedSquare

  function EyePathOf(e: EyeExpression): EyePath
  {
    match e
    case Blink => ThinLine
    case Squint => Squinted
    case Shake => Squinted
    case Happy => CurvedUp
    case Scared => WideCircle
    case Angry => Ring
    case _ => RoundedSquare
  }

  /** SQUINT and SHAKE share an eye, and every expression without its own case
      gets the rounded square. */
  lemma EyePathShared(e: EyeExpression)
    ensures EyePathOf(e) == Squinted <==> e == Squint || e == Shake
    ensures EyePathOf(e) == RoundedSquare <==> e !in {Blink, Squint, Shake, Happy, Scared, Angry}
  {
  }

  function StrokeWidth(e: EyeExpression): nat
  {
    if e == Blink || e == Squint || e == Shake then 10 else 4
  }

  /** The stroke is thick exactly for BLINK, SQUINT and SHAKE and thin otherwise. */
  lemma StrokeWidthChoice(e: EyeExpression)
    ensures StrokeWidth(e) == 10 <==> e in {Blink, Squint, Shake}
    ensures StrokeWidth(e) != 10 ==> StrokeWidth(e) == 4
  {
  }

  datatype EyeTransform = Rotate(degrees: int) | TranslateY(pixels: int)

  /** The transforms applied to one eye, in order. */
  function EyeTransforms(e: EyeExpression, isLeft: bool): seq<EyeTransform>
  {
    (if e == Angry then [Rotate(if isLeft then 15 else -15)] else [])
    + (if e == Nodding then [TranslateY(-15)] else [])
  }

  /** Only ANGRY rotates the eyes, inwards and symmetrically; only NODDING moves them. */
  lemma OnlyAngryRotatesOnlyNoddingMoves(e: EyeExpression)
    ensures e == Angry ==> EyeTransforms(e, true) == [Rotate(15)] && EyeTransforms(e, false) == [Rotate(-15)]
    ensures e == Nodding ==> EyeTransforms(e, true) == [TranslateY(-15)] == EyeTransforms(e, false)
    ensures e != Angry && e != Nodding ==> EyeTransforms(e, true) == [] && EyeTransforms(e, false) == []
  {
  }

  datatype MouthPath = BigSmile | Frown | SmallCurve | NoMouth

  function MouthOf(e: EyeExpression): MouthPath
  {
    match e
    case Happy => BigSmile
    case GrowingSmile => BigSmile
    case Angry => Frown
    case Scared => Frown
    case Neutral => SmallCurve
    case Squint => SmallCurve
    case Shake => SmallCurve
    case _ => NoMouth
  }

  /** Which expressions share which mouth. */
  lemma MouthSelection(e: EyeExpression)
    ensures MouthOf(e) == BigSmile <==> e in {Happy, GrowingSmile}
    ensures MouthOf(e) == Frown <==> e in {Angry, Scared}
    ensures MouthOf(e) == SmallCurve <==> e in {Neutral, Squint, Shake}
    ensures MouthOf(e) == NoMouth <==> e in {Blink, LookLeft, LookRight, LookUp, LookDown, Dizzy, Nodding}
  {
  }

  /** The extras drawn on top of the eyes and mouth: the eyebrow, the growing
      animation of the mouth and the slow spin of the whole face. */
  datatype Decoration = Eyebrow | GrowingMouth | Spin

  function Decorations(e: EyeExpression): set<Decoration>
  {
    (if e == Angry then {Eyebrow} else {})
    + (if e == GrowingSmile then {GrowingMouth} else {})
    + (if e == Dizzy then {Spin} else {})
  }

  /** Each extra belongs to exactly one expression, and no expression has two. */
  lemma DecorationSelection(e: EyeExpression)
    ensures Eyebrow in Decorations(e) <==> e == Angry
    ensures GrowingMouth in Decorations(e) <==> e == GrowingSmile
    ensures Spin in Decorations(e) <==> e == Dizzy
    ensures |Decorations(e)| <= 1
    ensures Decorations(e) == {} <==> e !in {Angry, GrowingSmile, Dizzy}
  {
  }
}
