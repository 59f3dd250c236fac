/**
 * JRAAnimationHelper: the selection logic of the keyframe-animation
 * factories. A CAKeyframeAnimation is represented by the record of the
 * properties the factories set.
 */
module AnimationHelper {

  /** Whether the element enters or leaves. */
  datatype Entry = Enter | Leave

  /** The side the element moves from; `NoDirection` is Swift's `.none`. */
  datatype Direction = Top | Bottom | Left | Right | NoDirection

  /** Final position of a modal on its host. */
  datatype Position = Start | Center | End

  /** Moving away from the main position (`From`) or back to it (`To`). */
  datatype Move = From | To

  datatype Keyframe = Keyframe(
    keyPath: string,
    values: seq<real>,
    duration: real,
    repeatCount: real,
    easeInEaseOut: bool,
    fillBoth: bool,
    removedOnCompletion: bool)

  const OpacityPath := "opacity"
  const TranslationX := "transform.translation.x"
  const TranslationY := "transform.translation.y"

  /** The default offset of `move`. */
  const DefaultOffset: real := 80.0

  predicate IsHorizontal(d: Direction) {
    d == Left || d == Right
  }

  /**
   * `fade(_:duration:)`: a two-frame opacity animation that ends opaque
   * when entering and transparent when leaving, starting at the other end.
   */
  function Fade(entry: Entry, duration: real): (a: Keyframe)
    ensures a.keyPath == OpacityPath && a.duration == duration && a.repeatCount == 1.0
    ensures |a.values| == 2 && a.values[0] + a.values[1] == 1.0
    ensures a.values[1] == 1.0 <==> entry == Enter
    ensures a.values[1] == 0.0 <==> entry == Leave
    ensures a.easeInEaseOut && a.fillBoth && !a.removedOnCompletion
  {
    Keyframe(OpacityPath, if entry == Enter then [0.0, 1.0] else [1.0, 0.0],
             duration, 1.0, true, true, false)
  }

  /**
   * `move(_:direction:offset:duration:)`: a two-frame translation along x
   * for left and right, along y for top, bottom and none; `From` leaves the
   * rest position for `offset`, `To` returns from `offset` to rest.
   */
  function MoveAnimation(move: Move, direction: Direction, offset: real, duration: real): (a: Keyframe)
    ensures a.keyPath == (if IsHorizontal(direction) then TranslationX else TranslationY)
    ensures |a.values| == 2
    ensures move == From ==> a.values[0] == 0.0 && a.values[1] == offset
    ensures move == To ==> a.values[0] == offset && a.values[1] == 0.0
    ensures a.duration == duration && a.repeatCount == 1.0
    ensures !a.easeInEaseOut && a.fillBoth && !a.removedOnCompletion
  {
    var path := match direction
      case Top | NoDirection | Bottom => TranslationY
      case Left | Right => TranslationX;
    var values := match move
      case From => [0.0, offset]
      case To => [offset, 0.0];
    Keyframe(path, values, duration, 1.0, false, true, false)
  }

  /** Leaving plays entering's opacity frames backwards. */
  lemma FadeLeaveReversesEnter(d1: real, d2: real)
    ensures Fade(Leave, d1).values == [Fade(Enter, d2).values[1], Fade(Enter, d2).values[0]]
  {
  }

  /** Moving from the rest position plays moving to it backwards, on the same axis. */
  lemma MoveFromReversesTo(direction: Direction, offset: real, d1: real, d2: real)
    ensures MoveAnimation(From, direction, offset, d1).keyPath == MoveAnimation(To, direction, offset, d2).keyPath
    ensures MoveAnimation(From, direction, offset, d1).values
         == [MoveAnimation(To, direction, offset, d2).values[1], MoveAnimation(To, direction, offset, d2).values[0]]
  {
  }
}
