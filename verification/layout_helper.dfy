/**
 * The UIView layout extensions: each helper creates and activates one
 * constraint per given offset and returns the handles in a ConstraintStruct.
 * They only add new constraints: no existing constraint is in any frame.
 */
module LayoutHelper {
  import opened Options
  import opened Views
  import opened Constraints

  /** Creates the constraint `item.anchor == target.anchor + constant` and activates it. */
  method Activate(item: View, anchor: Anchor, target: View?, constant: real) returns (c: Constraint)
    ensures fresh(c)
    ensures c.item == item && c.anchor == anchor && c.target == target
    ensures c.constant == constant && c.active
  {
    c := new Constraint(item, anchor, target, constant);
    c.active := true;
  }

  /** Activates a constraint when `value` is given; `None` otherwise. */
  method ActivateIf(item: View, anchor: Anchor, target: View?, value: Option<real>) returns (h: Option<Constraint>)
    ensures fresh(Handle(h))
    ensures Holds(h, item, anchor, target, value)
  {
    h := None;
    if value.Some? {
      var c := Activate(item, anchor, target, value.value);
      h := Some(c);
    }
  }

  /**
   * `jraLayoutHookToAllSide(of:top:right:bottom:left:)`: one side
   * constraint per given offset; right and bottom are negated.
   */
  method HookToAllSide(view: View, parent: View, top: Option<real>, right: Option<real>,
                       bottom: Option<real>, left: Option<real>) returns (r: ConstraintStruct)
    ensures fresh(r.Handles()) && r.Distinct()
    ensures Holds(r.top, view, Top, parent, top)
    ensures Holds(r.right, view, Right, parent, Inward(right))
    ensures Holds(r.bottom, view, Bottom, parent, Inward(bottom))
    ensures Holds(r.left, view, Left, parent, left)
    ensures r.centerX.None? && r.centerY.None? && r.width.None? && r.height.None?
  {
    var t := ActivateIf(view, Top, parent, top);
    var ri := ActivateIf(view, Right, parent, Inward(right));
    var b := ActivateIf(view, Bottom, parent, Inward(bottom));
    var l := ActivateIf(view, Left, parent, left);
    r := Empty().(top := t, right := ri, bottom := b, left := l);
  }

  /** `jraLayoutSet(width:height:)`: constant width and/or height constraints. */
  method SetSize(view: View, width: Option<real>, height: Option<real>) returns (r: ConstraintStruct)
    ensures fresh(r.Handles()) && r.Distinct()
    ensures Holds(r.width, view, Width, null, width)
    ensures Holds(r.height, view, Height, null, height)
    ensures r.top.None? && r.bottom.None? && r.left.None? && r.right.None?
    ensures r.centerX.None? && r.centerY.None?
  {
    var w := ActivateIf(view, Width, null, width);
    var h := ActivateIf(view, Height, null, height);
    r := Empty().(width := w, height := h);
  }

  /** `jraLayoutCenter(to:x:y:)`: center constraints, offsets not negated. */
  method Center(view: View, parent: View, x: Option<real>, y: Option<real>) returns (r: ConstraintStruct)
    ensures fresh(r.Handles()) && r.Distinct()
    ensures Holds(r.centerX, view, CenterX, parent, x)
    ensures Holds(r.centerY, view, CenterY, parent, y)
    ensures r.top.None? && r.bottom.None? && r.left.None? && r.right.None?
    ensures r.width.None? && r.height.None?
  {
    var cx := ActivateIf(view, CenterX, parent, x);
    var cy := ActivateIf(view, CenterY, parent, y);
    r := Empty().(centerX := cx, centerY := cy);
  }

  /**
   * `jraLayoutAddWrapper`: a fresh wrapper view becomes the view's
   * superview, and the returned struct gathers the side, center and size
   * constraints of the view relative to the wrapper.
   */
  method AddWrapper(view: View, top: Option<real>, right: Option<real>, bottom: Option<real>,
                    left: Option<real>, x: Option<real>, y: Option<real>,
                    width: Option<real>, height: Option<real>) returns (wrapper: View, r: ConstraintStruct)
    modifies view`superview
    ensures fresh(wrapper) && wrapper.superview == null && view.superview == wrapper
    ensures fresh(r.Handles())
    ensures Holds(r.top, view, Top, wrapper, top)
    ensures Holds(r.right, view, Right, wrapper, Inward(right))
    ensures Holds(r.bottom, view, Bottom, wrapper, Inward(bottom))
    ensures Holds(r.left, view, Left, wrapper, left)
    ensures Holds(r.centerX, view, CenterX, wrapper, x)
    ensures Holds(r.centerY, view, CenterY, wrapper, y)
    ensures Holds(r.width, view, Width, null, width)
    ensures Holds(r.height, view, Height, null, height)
  {
    wrapper := new View();
    view.superview := wrapper;
    r := Gather(view, wrapper, top, right, bottom, left, x, y, width, height);
  }

  /** The three helper calls of `jraLayoutAddWrapper`, merged field by field. */
  method Gather(view: View, wrapper: View, top: Option<real>, right: Option<real>, bottom: Option<real>,
                left: Option<real>, x: Option<real>, y: Option<real>,
                width: Option<real>, height: Option<real>) returns (r: ConstraintStruct)
    ensures fresh(r.Handles())
    ensures Holds(r.top, view, Top, wrapper, top)
    ensures Holds(r.right, view, Right, wrapper, Inward(right))
    ensures Holds(r.bottom, view, Bottom, wrapper, Inward(bottom))
    ensures Holds(r.left, view, Left, wrapper, left)
    ensures Holds(r.centerX, view, CenterX, wrapper, x)
    ensures Holds(r.centerY, view, CenterY, wrapper, y)
    ensures Holds(r.width, view, Width, null, width)
    ensures Holds(r.height, view, Height, null, height)
  {
    var side := HookToAllSide(view, wrapper, top, right, bottom, left);
    var center := Center(view, wrapper, x, y);
    var size := SetSize(view, width, height);
    r := ConstraintStruct(side.top, side.bottom, side.left, side.right,
                          center.centerX, center.centerY, size.width, size.height);
  }
}
