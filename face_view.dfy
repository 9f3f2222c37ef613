/** The face view: a circle for the face, two circles for the eyes and a cubic
    Bezier curve for the mouth, all sized from the view's bounds and `scale`.
    The paths are returned as values instead of being stroked; a pinch gesture
    rescales the face. */
module Face {
  import opened Platform

  // The `Scaling` ratios: each feature's size is the face radius divided by one.
  const FaceRadiusToEyeRadiusRatio: real := 10.0
  const FaceRadiusToEyeOffsetRatio: real := 3.0
  const FaceRadiusToEyeSeparationRatio: real := 1.5
  const FaceRadiusToMouthWidthRatio: real := 1.0
  const FaceRadiusToMouthHeightRatio: real := 3.0
  const FaceRadiusToMouthOffsetRatio: real := 3.0

  datatype Eye = Left | Right

  /** The mouth curve: from `start` to `end`, bent by two control points. */
  datatype Mouth = Mouth(start: Point, end: Point, controlPoint1: Point, controlPoint2: Point)

  /** A stroked path: a full circle, or the mouth curve. */
  datatype Path =
    | Circle(center: Point, radius: real, lineWidth: real)
    | Curve(mouth: Mouth, lineWidth: real)

  function Min(a: real, b: real): real {
    if a <= b then a else b
  }

  /** `faceRadius`: half the shorter side of the bounds, times `scale`, so that
      (for a scale in [0, 1]) the face fits the view in both directions; a
      pinch can push `scale` past 1, and the face then overflows the view. */
  function FaceRadius(bounds: Size, scale: real): (r: real)
    ensures r == bounds.width / 2.0 * scale || r == bounds.height / 2.0 * scale
    ensures 0.0 <= scale ==> r <= bounds.width / 2.0 * scale && r <= bounds.height / 2.0 * scale
    ensures scale <= 0.0 ==> bounds.width / 2.0 * scale <= r && bounds.height / 2.0 * scale <= r
  {
    Min(bounds.width, bounds.height) / 2.0 * scale
  }

  /** An eye's radius is a tenth of the face radius. */
  function EyeRadius(faceRadius: real): (r: real)
    ensures r * 10.0 == faceRadius
  {
    faceRadius / FaceRadiusToEyeRadiusRatio
  }

  /** Centre of one eye: a third of the face radius above the face centre, and
      a third of the face radius to its left or right (half the separation
      `faceRadius / 1.5`). */
  function EyeCenter(eye: Eye, faceCenter: Point, faceRadius: real): (p: Point)
    ensures faceCenter.y - p.y == faceRadius / 3.0
    ensures eye == Left ==> faceCenter.x - p.x == faceRadius / 3.0
    ensures eye == Right ==> p.x - faceCenter.x == faceRadius / 3.0
  {
    var eyeVerticalOffset := faceRadius / FaceRadiusToEyeOffsetRatio;
    var eyeHorizontalSeparation := faceRadius / FaceRadiusToEyeSeparationRatio;
    var above := faceCenter.(y := faceCenter.y - eyeVerticalOffset);
    match eye
    case Left => above.(x := above.x - eyeHorizontalSeparation / 2.0)
    case Right => above.(x := above.x + eyeHorizontalSeparation / 2.0)
  }

  /** The two eyes mirror each other about the vertical line through the face
      centre, at the same height, two thirds of the face radius apart. */
  lemma EyesMirror(faceCenter: Point, faceRadius: real)
    ensures EyeCenter(Left, faceCenter, faceRadius).y == EyeCenter(Right, faceCenter, faceRadius).y
    ensures EyeCenter(Left, faceCenter, faceRadius).x + EyeCenter(Right, faceCenter, faceRadius).x
            == 2.0 * faceCenter.x
    ensures EyeCenter(Right, faceCenter, faceRadius).x - EyeCenter(Left, faceCenter, faceRadius).x
            == faceRadius / FaceRadiusToEyeSeparationRatio
  {
  }

  /** `max(min(fraction, 1), -1)`: the fraction, saturated at -1 and 1. */
  function LimitToUnit(fraction: real): (l: real)
    ensures -1.0 <= l <= 1.0
    ensures -1.0 <= fraction <= 1.0 ==> l == fraction
    ensures 1.0 <= fraction ==> l == 1.0
    ensures fraction <= -1.0 ==> l == -1.0
  {
    var atMostOne := if fraction <= 1.0 then fraction else 1.0;
    if -1.0 <= atMostOne then atMostOne else -1.0
  }

  /** How far the control points sit below the mouth line: the fraction of a
      full smile, limited to [-1, 1], times a third of the face radius. */
  function SmileHeight(fractionOfMaxSmile: real, faceRadius: real): (h: real)
    ensures 3.0 * h == LimitToUnit(fractionOfMaxSmile) * faceRadius
  {
    var mouthHeight := faceRadius / FaceRadiusToMouthHeightRatio;
    LimitToUnit(fractionOfMaxSmile) * mouthHeight
  }

  lemma MultiplyMonotone(a: real, b: real, m: real)
    requires a <= b && 0.0 <= m
    ensures a * m <= b * m
  {
    var d := b - a;
    assert 0.0 <= d * m;
    assert b * m == a * m + d * m;
  }

  /** The smile never bends further than a third of the face radius either
      way, on a face of non-negative radius. */
  lemma SmileHeightBounded(fractionOfMaxSmile: real, faceRadius: real)
    requires 0.0 <= faceRadius
    ensures -faceRadius <= 3.0 * SmileHeight(fractionOfMaxSmile, faceRadius) <= faceRadius
  {
    var l := LimitToUnit(fractionOfMaxSmile);
    MultiplyMonotone(-1.0, l, faceRadius);
    MultiplyMonotone(l, 1.0, faceRadius);
  }

  /** A larger smile fraction never raises the control points (on a face of
      non-negative radius), so happier faces curve further downwards. */
  lemma SmileHeightMonotone(f1: real, f2: real, faceRadius: real)
    requires f1 <= f2 && 0.0 <= faceRadius
    ensures SmileHeight(f1, faceRadius) <= SmileHeight(f2, faceRadius)
  {
    MultiplyMonotone(LimitToUnit(f1), LimitToUnit(f2), faceRadius / FaceRadiusToMouthHeightRatio);
  }

  /** The mouth: a curve from a point half the mouth width (= the face radius)
      left of the centre to one the same distance right of it, a third of the
      face radius below the centre; the control points sit at one and two
      thirds of the width, `SmileHeight` below the mouth line. */
  function MouthFor(faceCenter: Point, faceRadius: real, fractionOfMaxSmile: real): (m: Mouth)
    ensures m.start.y == m.end.y == faceCenter.y + faceRadius / 3.0
    ensures m.end.x - m.start.x == faceRadius
    ensures m.start.x + m.end.x == 2.0 * faceCenter.x
    ensures m.controlPoint1.y == m.controlPoint2.y == m.start.y + SmileHeight(fractionOfMaxSmile, faceRadius)
    ensures 3.0 * (m.controlPoint1.x - m.start.x) == m.end.x - m.start.x
    ensures 3.0 * (m.controlPoint2.x - m.start.x) == 2.0 * (m.end.x - m.start.x)
  {
    var mouthWidth := faceRadius / FaceRadiusToMouthWidthRatio;
    var mouthVerticalOffset := faceRadius / FaceRadiusToMouthOffsetRatio;
    var smileHeight := SmileHeight(fractionOfMaxSmile, faceRadius);
    var start := Point(faceCenter.x - mouthWidth / 2.0, faceCenter.y + mouthVerticalOffset);
    var end := Point(start.x + mouthWidth, start.y);
    var cp1 := Point(start.x + mouthWidth / 3.0, start.y + smileHeight);
    var cp2 := Point(end.x - mouthWidth / 3.0, cp1.y);
    Mouth(start, end, cp1, cp2)
  }

  /** The smiliness `draw` uses: the data source's answer, or 0 when there is
      no data source (`None`) or it answers nil (`Some(None)`). */
  function DrawnSmiliness(answer: Option<Option<real>>): (s: real)
    ensures answer.Some? && answer.value.Some? ==> s == answer.value.value
    ensures answer.None? || answer.value.None? ==> s == 0.0
  {
    match answer
    case Some(Some(v)) => v
    case _ => 0.0
  }

  /** What a pinch callback leaves: the view's new `scale` and the
      recognizer's new `scale`. */
  datatype PinchOutcome = PinchOutcome(viewScale: real, gestureScale: real)

  /** The pinch handler on values: only `.changed` has an effect; it moves the
      recognizer's scale into the view's and resets the recognizer to 1. */
  function PinchStep(viewScale: real, state: GestureState, gestureScale: real): (o: PinchOutcome)
    ensures o.viewScale * o.gestureScale == viewScale * gestureScale
    ensures state == Changed ==> o.gestureScale == 1.0
    ensures state != Changed ==> o == PinchOutcome(viewScale, gestureScale)
  {
    if state == Changed then PinchOutcome(viewScale * gestureScale, 1.0)
    else PinchOutcome(viewScale, gestureScale)
  }

  /** The view's scale after a pinch delivered as successive `.changed`
      callbacks, `factors[i]` being the recognizer's scale at the i-th one. */
  function Pinch(viewScale: real, factors: seq<real>): real
    decreases |factors|
  {
    if factors == [] then viewScale
    else Pinch(PinchStep(viewScale, Changed, factors[0]).viewScale, factors[1..])
  }

  function Product(factors: seq<real>): real
    decreases |factors|
  {
    if factors == [] then 1.0 else factors[0] * Product(factors[1..])
  }

  /** Because each callback resets the recognizer to 1, the factors of a whole
      pinch compose: the face is scaled by their product. */
  lemma {:induction false} PinchComposes(viewScale: real, factors: seq<real>)
    ensures Pinch(viewScale, factors) == viewScale * Product(factors)
    decreases |factors|
  {
    if factors != [] {
      PinchComposes(viewScale * factors[0], factors[1..]);
      assert viewScale * factors[0] * Product(factors[1..]) == viewScale * (factors[0] * Product(factors[1..]));
    }
  }

  class FaceView {
    var lineWidth: real
    var scale: real
    /** Set by the platform's layout; read by `faceRadius`. */
    var bounds: Size
    /** How many times `setNeedsDisplay` has been called. */
    var displayRequests: nat

    constructor (bounds: Size)
      ensures lineWidth == 3.0 && scale == 0.90
      ensures this.bounds == bounds && displayRequests == 0
    {
      lineWidth := 3.0;
      scale := 0.90;
      this.bounds := bounds;
      displayRequests := 0;
    }

    /** `setNeedsDisplay`: a request for one more redraw. */
    method SetNeedsDisplay()
      modifies this`displayRequests
      ensures displayRequests == old(displayRequests) + 1
    {
      displayRequests := displayRequests + 1;
    }

    /** Assigning `lineWidth`: its observer asks for a redraw. */
    method SetLineWidth(w: real)
      modifies this`lineWidth, this`displayRequests
      ensures lineWidth == w && displayRequests == old(displayRequests) + 1
    {
      lineWidth := w;
      SetNeedsDisplay();
    }

    /** Assigning `scale`: its observer asks for a redraw. */
    method SetScale(s: real)
      modifies this`scale, this`displayRequests
      ensures scale == s && displayRequests == old(displayRequests) + 1
    {
      scale := s;
      SetNeedsDisplay();
    }

    /** The pinch handler `scale(_:)`. */
    method Scale(gesture: PinchGestureRecognizer)
      modifies this`scale, this`displayRequests, gesture`scale
      ensures PinchOutcome(scale, gesture.scale) == PinchStep(old(scale), gesture.state, old(gesture.scale))
      ensures displayRequests == old(displayRequests) + (if gesture.state == Changed then 1 else 0)
    {
      if gesture.state == Changed {
        SetScale(scale * gesture.scale);
        gesture.scale := 1.0;
      }
    }

    /** `draw(_:)`: the paths it strokes, in order — face, left eye, right eye,
        mouth — each with the view's line width. `faceCenter` is the view's
        centre in its own coordinates; `answer` is what the data source gives. */
    method Draw(faceCenter: Point, answer: Option<Option<real>>) returns (strokes: seq<Path>)
      ensures |strokes| == 4
      ensures strokes[0] == Circle(faceCenter, FaceRadius(bounds, scale), lineWidth)
      ensures strokes[1] == Circle(EyeCenter(Left, faceCenter, FaceRadius(bounds, scale)),
                                   EyeRadius(FaceRadius(bounds, scale)), lineWidth)
      ensures strokes[2] == Circle(EyeCenter(Right, faceCenter, FaceRadius(bounds, scale)),
                                   EyeRadius(FaceRadius(bounds, scale)), lineWidth)
      ensures strokes[3] == Curve(MouthFor(faceCenter, FaceRadius(bounds, scale), DrawnSmiliness(answer)), lineWidth)
    {
      var faceRadius := FaceRadius(bounds, scale);
      var facePath := Circle(faceCenter, faceRadius, lineWidth);
      var leftEye := BezierPathForEye(Left, faceCenter);
      var rightEye := BezierPathForEye(Right, faceCenter);
      var smiliness := DrawnSmiliness(answer);
      var smilePath := Curve(MouthFor(faceCenter, faceRadius, smiliness), lineWidth);
      strokes := [facePath, leftEye, rightEye, smilePath];
    }

    /** `bezierPathForEye(_:)`. */
    method BezierPathForEye(eye: Eye, faceCenter: Point) returns (path: Path)
      ensures path == Circle(EyeCenter(eye, faceCenter, FaceRadius(bounds, scale)),
                             EyeRadius(FaceRadius(bounds, scale)), lineWidth)
    {
      var faceRadius := FaceRadius(bounds, scale);
      path := Circle(EyeCenter(eye, faceCenter, faceRadius), EyeRadius(faceRadius), lineWidth);
    }
  }
}
