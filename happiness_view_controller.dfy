/** The happiness controller: its model is one integer, kept in [0, 100] by
    re-clamping on every assignment, each assignment asking the face view to
    redraw. It answers the face view's data-source question with the
    smiliness fraction, and a pan gesture raises or lowers the happiness. */
module Happiness {
  import opened Platform
  import Face

  /** Points of vertical pan per point of happiness (`Constants.HappinessGestureScale`). */
  const HappinessGestureScale: real := 4.0

  const InitialHappiness: int := 25

  /** What the property observer stores: the assigned value, limited to [0, 100]. */
  function Clamp(v: int): (r: int)
    ensures 0 <= r <= 100
    ensures 0 <= v <= 100 ==> r == v
    ensures v < 0 ==> r == 0
    ensures 100 < v ==> r == 100
  {
    var atLeastZero := if v < 0 then 0 else v;
    if atLeastZero < 100 then atLeastZero else 100
  }

  /** Clamping never moves two values further apart: moving a value by
      `change` moves its clamped value by no more than `change`. */
  lemma ClampStep(h: int, change: int)
    ensures 0 <= change ==> Clamp(h) <= Clamp(h + change) <= Clamp(h) + change
    ensures change <= 0 ==> Clamp(h) + change <= Clamp(h + change) <= Clamp(h)
  {
  }

  /** The data source's fraction of a full smile: -1 at happiness 0, 0 at 50,
      1 at 100, linear in between. */
  function Smiliness(happiness: int): (s: real)
    ensures 50.0 * s + 50.0 == happiness as real
    ensures 0 <= happiness <= 100 ==> -1.0 <= s <= 1.0
  {
    (happiness - 50) as real / 50.0
  }

  lemma SmilinessAnchors()
    ensures Smiliness(0) == -1.0 && Smiliness(50) == 0.0 && Smiliness(100) == 1.0
  {
  }

  lemma SmilinessMonotone(h1: int, h2: int)
    requires h1 <= h2
    ensures Smiliness(h1) <= Smiliness(h2)
  {
  }

  /** The happiness change a vertical pan translation asks for: one point for
      each whole `HappinessGestureScale` points, upward (negative y) making
      happier; a remainder short of a whole step counts for nothing. */
  function HappinessChange(translationY: real): (c: int)
    ensures translationY <= 0.0 ==> 0 <= c
    ensures translationY <= 0.0 ==> c as real * HappinessGestureScale <= -translationY < (c + 1) as real * HappinessGestureScale
    ensures 0.0 <= translationY ==> c <= 0
    ensures 0.0 <= translationY ==> -c as real * HappinessGestureScale <= translationY < (-c + 1) as real * HappinessGestureScale
  {
    -Truncate(translationY / HappinessGestureScale)
  }

  /** The gesture states in which the pan handler acts. */
  predicate IsPanUpdate(state: GestureState) {
    state == Changed || state == Ended
  }

  /** The pan handler runs without trapping: `Int(_:)` must fit the truncated
      quotient, its negation must fit, and so must the sum `happiness += change`. */
  predicate PanFitsInInt(happiness: int, translationY: real) {
    var q := Truncate(translationY / HappinessGestureScale);
    IsInt(q) && IsInt(-q) && IsInt(happiness - q)
  }

  /** What a pan callback leaves: the new happiness, and whether the
      recognizer's translation was reset to zero. */
  datatype PanOutcome = PanOutcome(happiness: int, translationReset: bool)

  /** The pan handler on values. */
  function PanStep(happiness: int, state: GestureState, translationY: real): (o: PanOutcome)
    ensures !IsPanUpdate(state) ==> o == PanOutcome(happiness, false)
    ensures o.translationReset <==> IsPanUpdate(state) && HappinessChange(translationY) != 0
    ensures o.translationReset ==> o.happiness == Clamp(happiness + HappinessChange(translationY))
    ensures !o.translationReset ==> o.happiness == happiness
    ensures IsPanUpdate(state) && !o.translationReset ==> Abs(translationY) < HappinessGestureScale
    ensures 0 <= happiness <= 100 ==> 0 <= o.happiness <= 100
    ensures 0 <= happiness <= 100 ==>
              HappinessGestureScale * Abs((o.happiness - happiness) as real) <= Abs(translationY)
  {
    if IsPanUpdate(state) then
      var change := HappinessChange(translationY);
      if change != 0 then
        ClampStep(happiness, change);
        PanOutcome(Clamp(happiness + change), true)
      else
        PanOutcome(happiness, false)
    else
      PanOutcome(happiness, false)
  }

  /** A pan of -40 points (upward) on happiness 25 gives 35. */
  lemma PanUpwardExample()
    ensures PanStep(25, Changed, -40.0) == PanOutcome(35, true)
    ensures PanStep(25, Ended, -40.0) == PanOutcome(35, true)
  {
    assert Truncate(-40.0 / HappinessGestureScale) == -10;
  }

  /** A pan shorter than one step changes nothing, and truncation (not
      rounding) makes -7 points still count as only one step. */
  lemma PanTruncatesExample()
    ensures PanStep(25, Changed, 3.0) == PanOutcome(25, false)
    ensures PanStep(25, Changed, -7.0) == PanOutcome(26, true)
  {
    assert Truncate(3.0 / HappinessGestureScale) == 0;
    assert Truncate(-7.0 / HappinessGestureScale) == -1;
  }

  /** A continuous drag delivered as `.changed` callbacks: before each one the
      finger moves by `moves[i]` (added to the translation accumulated so far);
      the result is the final happiness and the final accumulated translation. */
  function Drag(happiness: int, translationY: real, moves: seq<real>): (int, real)
    decreases |moves|
  {
    if moves == [] then (happiness, translationY)
    else
      var t := translationY + moves[0];
      var o := PanStep(happiness, Changed, t);
      Drag(o.happiness, if o.translationReset then 0.0 else t, moves[1..])
  }

  function TotalTravel(moves: seq<real>): real
    decreases |moves|
  {
    if moves == [] then 0.0 else Abs(moves[0]) + TotalTravel(moves[1..])
  }

  /** A drag keeps happiness in range, and moves it by at most one point per
      `HappinessGestureScale` points the finger travelled (plus whatever
      translation was pending before the drag and minus what is still pending). */
  lemma {:induction false} DragTravelBound(happiness: int, translationY: real, moves: seq<real>)
    requires 0 <= happiness <= 100
    ensures 0 <= Drag(happiness, translationY, moves).0 <= 100
    ensures HappinessGestureScale * Abs((Drag(happiness, translationY, moves).0 - happiness) as real)
            <= Abs(translationY) + TotalTravel(moves) - Abs(Drag(happiness, translationY, moves).1)
    decreases |moves|
  {
    if moves != [] {
      var t := translationY + moves[0];
      var o := PanStep(happiness, Changed, t);
      var t' := if o.translationReset then 0.0 else t;
      DragTravelBound(o.happiness, t', moves[1..]);
      assert Abs(t) <= Abs(translationY) + Abs(moves[0]);
    }
  }

  /** Drawing a face for this controller: the face view draws the
      controller's data-source answer as it is, and the mouth's control points
      sit `Smiliness(happiness) * faceRadius / 3` below the mouth line, no
      clamping being needed for a happiness in range. */
  lemma SmileFollowsHappiness(c: HappinessViewController, faceCenter: Point, faceRadius: real)
    requires c.Valid()
    ensures Face.DrawnSmiliness(Some(c.SmilinessForFaceView())) == Smiliness(c.happiness)
    ensures var m := Face.MouthFor(faceCenter, faceRadius, Face.DrawnSmiliness(Some(c.SmilinessForFaceView())));
            3.0 * (m.controlPoint1.y - m.start.y) == Smiliness(c.happiness) * faceRadius
  {
  }

  /** A happier controller draws a mouth whose control points are no higher. */
  lemma HappierSmilesMore(h1: int, h2: int, faceCenter: Point, faceRadius: real)
    requires 0 <= h1 <= h2 <= 100 && 0.0 <= faceRadius
    ensures Face.MouthFor(faceCenter, faceRadius, Smiliness(h1)).controlPoint1.y
            <= Face.MouthFor(faceCenter, faceRadius, Smiliness(h2)).controlPoint1.y
  {
    SmilinessMonotone(h1, h2);
    Face.SmileHeightMonotone(Smiliness(h1), Smiliness(h2), faceRadius);
  }

  class HappinessViewController {
    /** The model: 0 = very sad, 100 = ecstatic. */
    var happiness: int
    /** The face view outlet; the data source is this controller. */
    var faceView: Face.FaceView

    ghost predicate Valid()
      reads this
    {
      0 <= happiness <= 100
    }

    /** A new controller starts at happiness 25 (the initial value does not run
        the observer, so nothing is redrawn yet). */
    constructor (faceView: Face.FaceView)
      ensures Valid() && happiness == InitialHappiness && this.faceView == faceView
    {
      happiness := InitialHappiness;
      this.faceView := faceView;
    }

    /** Assigning `happiness`: the observer re-clamps the stored value and asks
        the face view for exactly one redraw. */
    method SetHappiness(v: int)
      modifies this`happiness, faceView`displayRequests
      ensures Valid() && happiness == Clamp(v)
      ensures faceView.displayRequests == old(faceView.displayRequests) + 1
    {
      happiness := v;
      happiness := Clamp(happiness);
      UpdateUI();
    }

    /** `updateUI`: ask the face view to redraw. */
    method UpdateUI()
      modifies faceView`displayRequests
      ensures faceView.displayRequests == old(faceView.displayRequests) + 1
    {
      faceView.SetNeedsDisplay();
    }

    /** The data-source answer: always present; in [-1, 1] while the model
        is valid, and -1, 0, 1 at happiness 0, 50, 100. */
    function SmilinessForFaceView(): (s: Option<real>)
      reads this
      ensures s.Some? && 50.0 * s.value + 50.0 == happiness as real
      ensures Valid() ==> -1.0 <= s.value <= 1.0
    {
      Some(Smiliness(happiness))
    }

    /** The pan handler `changeHappiness(_:)`. In `.changed` or `.ended` it
        applies a non-zero change through the observer (one redraw) and resets
        the gesture's translation; otherwise nothing changes. */
    method ChangeHappiness(gesture: PanGestureRecognizer)
      requires Valid()
      requires IsPanUpdate(gesture.state) ==> PanFitsInInt(happiness, gesture.translation.y)
      modifies this`happiness, faceView`displayRequests, gesture`translation
      ensures Valid()
      ensures var o := PanStep(old(happiness), gesture.state, old(gesture.translation.y));
              happiness == o.happiness
      ensures var o := PanStep(old(happiness), gesture.state, old(gesture.translation.y));
              o.translationReset ==>
                gesture.translation == Origin && faceView.displayRequests == old(faceView.displayRequests) + 1
      ensures var o := PanStep(old(happiness), gesture.state, old(gesture.translation.y));
              !o.translationReset ==>
                gesture.translation == old(gesture.translation) && faceView.displayRequests == old(faceView.displayRequests)
    {
      match gesture.state {
        case Ended | Changed =>
          var translation := gesture.translation;
          var happinessChange := HappinessChange(translation.y);
          if happinessChange != 0 {
            SetHappiness(happiness + happinessChange);
            gesture.SetTranslation(Origin);
          }
        case _ =>
      }
    }
  }
}
