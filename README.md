# Happiness — a Dafny model

The Happiness app draws a face whose smile shows a "happiness" value from 0
(very sad) to 100 (ecstatic). Two classes make up the app:

- `HappinessViewController` owns the model, a single integer. Every
  assignment re-clamps the integer to [0, 100] and asks the face view to
  redraw. As the face view's data source, the controller reports the
  smiliness `(happiness - 50) / 50`. Its vertical pan handler raises or
  lowers the happiness by one point per whole 4 points of translation. When
  the computed change is non-zero, it assigns the happiness (which redraws
  even if clamping leaves the value unchanged) and resets the gesture's
  translation; a translation shorter than 4 points is kept and adds up.
- `FaceView` draws a circle for the face, two eye circles and a Bezier curve
  for the mouth. Every size comes from the face radius, which is half the
  shorter side of the view's bounds times `scale`. A pinch handler multiplies
  `scale` by the pinch factor.

The model has three modules:

- `Platform` (`platform.dfy`) models the platform types the app uses.
  `CGPoint` and `CGSize` use `real` coordinates. `Int` is modelled with its
  64-bit range. `Int(_:)` is modelled as truncation toward zero. The pan and
  pinch gesture recognizers are classes whose fields the handlers read and
  reset.
- `Face` (`face_view.dfy`) models the face geometry as pure functions over
  `real`. The pinch handler also has a pure partner, `PinchStep`. The
  `FaceView` class holds `lineWidth`, `scale`, `bounds` and a count of
  `setNeedsDisplay` requests. Its `Draw` method returns the paths it would
  stroke, in order.
- `Happiness` (`happiness_view_controller.dfy`) models the controller as a
  class whose invariant is `0 <= happiness <= 100`. Its pan handler is
  specified by the pure function `PanStep`. The module also proves facts
  about whole gestures:
  - A drag never moves happiness by more than one point per 4 points of
    travel, counting any translation already pending when the drag starts.
  - On a face of non-negative radius, a happier model never draws a mouth
    whose control points sit higher.

The happiness change is `-Int(translation.y / 4)`. This truncates toward
zero; it does not round to nearest. A pan of 7 points upward counts as one
step, not two (`PanTruncatesExample`).

## Model

| member | source | states |
|---|---|---|
| `Platform.Truncate` | Happiness/Happiness/HappinessViewController.swift:62 | `Int(_:)` on a floating-point value keeps the sign, never grows in magnitude, and lands less than 1 from its input (truncation toward zero) |
| `Platform.PanGestureRecognizer.SetTranslation` | Happiness/Happiness/HappinessViewController.swift:68 | resetting the pan translation stores exactly the given point |
| `Happiness.Clamp` | Happiness/Happiness/HappinessViewController.swift:19 | the stored value always lies in [0, 100]; a value already in range is stored unchanged; values below 0 become 0 and values above 100 become 100 |
| `Happiness.ClampStep` | Happiness/Happiness/HappinessViewController.swift:19 | moving the assigned value by `change` moves the stored value in the same direction by at most `change` |
| `Happiness.HappinessViewController.constructor` | Happiness/Happiness/HappinessViewController.swift:16 | happiness starts at 25, satisfies the invariant, and starting does not request a redraw |
| `Happiness.HappinessViewController.SetHappiness` | Happiness/Happiness/HappinessViewController.swift:16-22 | after any assignment of `v`, happiness is `Clamp(v)` and in [0, 100]; the face view gets exactly one more redraw request |
| `Happiness.HappinessViewController.UpdateUI` | Happiness/Happiness/HappinessViewController.swift:25-28 | `updateUI` asks the face view for exactly one redraw |
| `Happiness.Smiliness` | Happiness/Happiness/HappinessViewController.swift:31-34 | smiliness `s` satisfies `50 s + 50 = happiness`; it lies in [-1, 1] for a happiness in [0, 100] |
| `Happiness.SmilinessAnchors` | Happiness/Happiness/HappinessViewController.swift:33 | smiliness is -1, 0 and 1 at happiness 0, 50 and 100 |
| `Happiness.SmilinessMonotone` | Happiness/Happiness/HappinessViewController.swift:33 | smiliness is non-decreasing in happiness |
| `Happiness.HappinessViewController.SmilinessForFaceView` | Happiness/Happiness/HappinessViewController.swift:31-34 | the data source always answers, with the smiliness of the current happiness, which lies in [-1, 1] while the invariant holds |
| `Happiness.HappinessChange` | Happiness/Happiness/HappinessViewController.swift:52-62 | a translation asks for one point per whole 4 points of travel; upward (negative y) is happier; any leftover short of 4 points counts for nothing |
| `Happiness.PanStep` | Happiness/Happiness/HappinessViewController.swift:56-72 | outside `.changed`/`.ended` nothing changes; the translation is reset exactly when the change is non-zero, and then happiness becomes `Clamp(old + change)`; a translation left pending is shorter than 4 points; the range is kept; happiness moves at most one point per 4 points of translation |
| `Happiness.HappinessViewController.ChangeHappiness` | Happiness/Happiness/HappinessViewController.swift:56-72 | the pan handler leaves happiness as `PanStep` says. When it applies a change, it resets the translation to zero and requests exactly one redraw. Otherwise the translation and the redraw count are unchanged. The invariant is kept |
| `Happiness.PanUpwardExample` | Happiness/Happiness/HappinessViewController.swift:58-64 | a -40 point pan on happiness 25 gives 35, in `.changed` and in `.ended` alike |
| `Happiness.PanTruncatesExample` | Happiness/Happiness/HappinessViewController.swift:62-63 | a 3 point pan changes nothing; a -7 point pan raises happiness by 1, not 2 |
| `Happiness.DragTravelBound` | Happiness/Happiness/HappinessViewController.swift:56-72 | over any drag of `.changed` callbacks, happiness stays in [0, 100]. It moves by at most a quarter of the distance travelled, counting translation pending before the drag and subtracting translation still pending after it |
| `Happiness.SmileFollowsHappiness` | Happiness/Happiness/HappinessViewController.swift:31-34 | for a valid controller, the face view draws the controller's data-source answer as it is, which is `Smiliness(happiness)`. The mouth's control points sit `smiliness × faceRadius / 3` below the mouth line, and no clamping applies |
| `Happiness.HappierSmilesMore` | Happiness/Happiness/HappinessViewController.swift:31-34 | for a larger happiness, the mouth's control points sit no higher (with a non-negative face radius) |
| `Face.FaceRadius` | Happiness/Happiness/FaceView.swift:33-35 | the face radius is half the width or half the height, times `scale`: the smaller of the two for a non-negative scale (so the face fits the view when `scale` is at most 1) and the larger for a negative one, which is `min(width, height) / 2 × scale` for every scale |
| `Face.EyeRadius` | Happiness/Happiness/FaceView.swift:90 | an eye's radius is a tenth of the face radius |
| `Face.EyeCenter` | Happiness/Happiness/FaceView.swift:91-99 | each eye centre is a third of the face radius above the face centre, and a third of the face radius to the left or right of it |
| `Face.EyesMirror` | Happiness/Happiness/FaceView.swift:92-99 | the eyes share one height, mirror each other about the face centre's vertical line, and lie `faceRadius / 1.5` apart |
| `Face.LimitToUnit` | Happiness/Happiness/FaceView.swift:118 | `max(min(fraction, 1), -1)` lies in [-1, 1]. It is the fraction itself inside that range, 1 above it and -1 below it |
| `Face.SmileHeight` | Happiness/Happiness/FaceView.swift:115-118 | three times the smile height is the limited fraction times the face radius. So it is `fraction × faceRadius / 3` inside [-1, 1] and saturates beyond |
| `Face.SmileHeightBounded` | Happiness/Happiness/FaceView.swift:115-118 | for a non-negative face radius, the smile height never exceeds `faceRadius / 3` in either direction |
| `Face.SmileHeightMonotone` | Happiness/Happiness/FaceView.swift:118 | a larger smile fraction never gives a smaller smile height (for a non-negative face radius) |
| `Face.MouthFor` | Happiness/Happiness/FaceView.swift:112-123 | the mouth ends share the height `centre.y + faceRadius / 3`. They are `faceRadius` apart and symmetric about `centre.x`. Both control points sit `SmileHeight` below the mouth line, at one third and two thirds of the width |
| `Face.DrawnSmiliness` | Happiness/Happiness/FaceView.swift:69-71 | the smiliness drawn is the data source's answer, or 0 when there is no data source or it answers nil |
| `Face.PinchStep` | Happiness/Happiness/FaceView.swift:45-50 | in `.changed`, the recognizer's scale is reset to 1, and the product of the view's scale and the recognizer's scale is unchanged; in any other state nothing changes |
| `Face.PinchComposes` | Happiness/Happiness/FaceView.swift:45-50 | after a pinch delivered as successive `.changed` callbacks, the view's scale is the initial scale times the product of the reported factors |
| `Face.FaceView.constructor` | Happiness/Happiness/FaceView.swift:22-26 | a new face view has line width 3, scale 0.90 and no pending redraw request |
| `Face.FaceView.SetNeedsDisplay` | Happiness/Happiness/HappinessViewController.swift:27 | each `setNeedsDisplay` adds exactly one redraw request |
| `Face.FaceView.SetLineWidth` | Happiness/Happiness/FaceView.swift:22 | assigning the line width stores it and requests one redraw |
| `Face.FaceView.SetScale` | Happiness/Happiness/FaceView.swift:26 | assigning the scale stores it and requests one redraw |
| `Face.FaceView.Scale` | Happiness/Happiness/FaceView.swift:45-50 | the pinch handler leaves the view's scale and the recognizer's scale as `PinchStep` says. It requests one redraw exactly when the state is `.changed` |
| `Face.FaceView.Draw` | Happiness/Happiness/FaceView.swift:53-75 | draws four paths in order: the face circle (centre, face radius), the left eye, the right eye, and the mouth curve for the drawn smiliness. Each uses the view's line width |
| `Face.FaceView.BezierPathForEye` | Happiness/Happiness/FaceView.swift:88-110 | an eye path is a circle at `EyeCenter` with radius `EyeRadius`, stroked at the view's line width |

## Left out

- Rendering is left out: `UIBezierPath` construction, stroking, arcs drawn as angles, `color.set()`, and `@IBDesignable`/`@IBInspectable`. Paths are returned as values, and a full arc is modelled as a circle.
- The `color` property and its redraw observer are left out, because a `UIColor` carries no behaviour to state.
- `faceCenter` (`convert(center, from: superview)`) is a platform coordinate transform, so `Draw` takes the face centre as a parameter.
- `Face.FaceView.Draw` takes the data source's answer as a parameter (`None` means no data source). Asking the weak `dataSource` reference is left out, because the face module cannot import the controller module that answers. `SmileFollowsHappiness` connects the two instead.
- The outlet's `didSet` is object-graph wiring and is left out: it sets the data source and adds the pinch recognizer.
- The pan recognizer's `translation(in:)` is read as the stored translation, already in the face view's coordinates. How recognizers move between states is platform behaviour and is left out.
- `CGFloat` and `Double` are idealised as `real`, so IEEE rounding, NaN and infinities are not modelled.
- `Happiness.HappinessViewController.ChangeHappiness`: its requires excludes inputs on which the source traps. Those are a translation whose truncated quarter does not fit in `Int`, or whose negation does not, and an `Int` overflow in `happiness += change`. The trapping behaviour itself is not modelled.
- `Happiness.HappinessViewController.SetHappiness` accepts any mathematical integer, not just a 64-bit `Int`. The clamped result is the same either way.
- The unused `sender` argument of `smilinessForFaceView(_:)` is dropped.
