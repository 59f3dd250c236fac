/**
 * The parts of a UIKit view that the framework's core reads or writes.
 * A view is an identity (a heap object); composite views of the framework
 * (cards, stack views, dividers, overlays) refer to their own view through
 * an `asView` field, since the model has no subclassing.
 */
module Views {

  /** UILayoutPriority is a float; these are UIKit's `.defaultLow` and `.defaultHigh`. */
  type Priority = real

  const DefaultLow: Priority := 250.0
  const DefaultHigh: Priority := 750.0

  datatype Color = Clear | White | Black | Rgba(red: real, green: real, blue: real, alpha: real)

  datatype Axis = Horizontal | Vertical

  class View {
    /** The view this one is a subview of, if any. */
    var superview: View?
    /** Horizontal content-hugging priority. */
    var hugging: Priority
    /** Horizontal compression-resistance priority. */
    var compression: Priority
    /** `text` of a label, empty for other views. */
    var text: string
    /** `placeholder` of a text field, empty for other views. */
    var placeholder: string
    var background: Color

    /** A new detached view with UIKit's default priorities. */
    constructor ()
      ensures superview == null && text == "" && placeholder == "" && background == Clear
      ensures hugging == DefaultLow && compression == DefaultHigh
    {
      superview := null;
      hugging := DefaultLow;
      compression := DefaultHigh;
      text := "";
      placeholder := "";
      background := Clear;
    }
  }
}
