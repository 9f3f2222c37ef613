/** The few platform types the Happiness app relies on: CoreGraphics points and
    sizes (CGFloat idealised as `real`), Swift's 64-bit `Int` and its truncating
    conversion from a floating-point value, Swift optionals, and the two UIKit
    gesture recognizers whose fields the app reads and resets. */
module Platform {

  /** Swift's `Optional`. */
  datatype Option<+T> = None | Some(value: T)

  /** `CGPoint`; y grows downwards, as in UIKit. */
  datatype Point = Point(x: real, y: real)

  /** `CGPoint.zero`. */
  const Origin: Point := Point(0.0, 0.0)

  /** `CGSize`. */
  datatype Size = Size(width: real, height: real)

  function Abs(x: real): real {
    if x < 0.0 then -x else x
  }

  /** Bounds of Swift's `Int` on a 64-bit device. */
  const IntMin: int := -0x8000_0000_0000_0000
  const IntMax: int := 0x7FFF_FFFF_FFFF_FFFF

  predicate IsInt(n: int) {
    IntMin <= n <= IntMax
  }

  /** `Int(_:)` applied to a floating-point value: rounds toward zero (it does
      not round to nearest). Whether the result fits in an `Int` is checked by
      callers with `IsInt`, since the conversion traps otherwise. */
  function Truncate(x: real): (n: int)
    ensures 0.0 <= x ==> 0 <= n && n as real <= x < n as real + 1.0
    ensures x <= 0.0 ==> n <= 0 && n as real - 1.0 < x <= n as real
    ensures Abs(n as real) <= Abs(x)
  {
    if 0.0 <= x then x.Floor else -((-x).Floor)
  }

  /** `UIGestureRecognizer.State` (`.recognized` is an alias of `.ended`). */
  datatype GestureState = Possible | Began | Changed | Ended | Cancelled | Failed

  /** The parts of a `UIPanGestureRecognizer` the app touches: its state and the
      translation accumulated since the gesture began or was last reset. The
      translation is taken as already expressed in the face view's coordinates. */
  class PanGestureRecognizer {
    var state: GestureState
    var translation: Point

    constructor (state: GestureState, translation: Point)
      ensures this.state == state && this.translation == translation
    {
      this.state := state;
      this.translation := translation;
    }

    /** `setTranslation(_:in:)`. */
    method SetTranslation(p: Point)
      modifies this`translation
      ensures translation == p
    {
      translation := p;
    }
  }

  /** The parts of a `UIPinchGestureRecognizer` the app touches: its state and
      the scale factor accumulated since the gesture began or was last reset. */
  class PinchGestureRecognizer {
    var state: GestureState
    var scale: real

    constructor (state: GestureState, scale: real)
      ensures this.state == state && this.scale == scale
    {
      this.state := state;
      this.scale := scale;
    }
  }
}
