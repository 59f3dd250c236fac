/**
 * JRADivider: a line view whose thickness (`fatness`) is one size
 * constraint, along the axis it is laid out on. Assigning fatness, axis or
 * color re-runs `Set`.
 */
module Divider {
  import opened Options
  import opened Views
  import opened Constraints
  import LayoutHelper

  /** The size constraint a divider on `axis` tracks: height when horizontal, width when vertical. */
  function Thickness(s: Option<ConstraintStruct>, axis: Axis): Option<Constraint> {
    if s.None? then None
    else if axis == Horizontal then s.value.height
    else s.value.width
  }

  function Other(axis: Axis): Axis {
    if axis == Horizontal then Vertical else Horizontal
  }

  class Divider {
    const asView: View
    var fatness: real
    var axis: Axis
    var color: Color
    /** `widthHeightConstraintStruct`: the struct returned by the last `Set`. */
    var tracked: Option<ConstraintStruct>
    /** The size constraints installed on the divider view (its `constraints`). */
    var installed: set<Constraint>

    ghost predicate Valid()
      reads this
    {
      tracked.Some? ==> tracked.value.Distinct() && tracked.value.Handles() <= installed
    }

    function TrackedHandles(): set<Constraint>
      reads this
    {
      if tracked.Some? then tracked.value.Handles() else {}
    }

    /**
     * `init(axis:fatness:color:)`: stores the three arguments (property
     * observers do not fire inside the initializer), then runs `Set` once.
     */
    constructor (axis: Axis, fatness: real, color: Color)
      ensures Valid() && fresh(asView)
      ensures this.axis == axis && this.fatness == fatness && this.color == color
      ensures tracked.Some? && Holds(Thickness(tracked, axis), asView, if axis == Horizontal then Height else Width, null, Some(fatness))
      ensures Thickness(tracked, Other(axis)).None?
      ensures installed == TrackedHandles() && asView.background == color
    {
      asView := new View();
      this.fatness := fatness;
      this.axis := axis;
      this.color := color;
      tracked := None;
      installed := {};
      new;
      Set();
    }

    /**
     * `set()`: removes only the previously tracked constraint of the current
     * axis's dimension, then tracks a new one whose constant is `fatness`;
     * the background becomes `color`. After an axis switch the constraint of
     * the other dimension therefore stays installed.
     */
    method Set()
      requires Valid()
      modifies this, asView`background, Handle(Thickness(tracked, axis))
      ensures Valid()
      ensures fatness == old(fatness) && axis == old(axis) && color == old(color)
      ensures tracked.Some? && fresh(tracked.value.Handles())
      ensures Holds(Thickness(tracked, axis), asView, if axis == Horizontal then Height else Width, null, Some(fatness))
      ensures Thickness(tracked, Other(axis)).None?
      ensures tracked.value.top.None? && tracked.value.bottom.None? && tracked.value.left.None?
      ensures tracked.value.right.None? && tracked.value.centerX.None? && tracked.value.centerY.None?
      ensures installed == old(installed) - Handle(Thickness(old(tracked), axis)) + TrackedHandles()
      ensures Thickness(old(tracked), axis).Some? ==> !Thickness(old(tracked), axis).value.active
      ensures var kept := Thickness(old(tracked), Other(axis));
              kept.Some? ==> kept.value in installed
      ensures asView.background == color
    {
      asView.background := color;
      var gone := Thickness(tracked, axis);
      if gone.Some? {
        installed := installed - {gone.value};
        gone.value.active := false;
      }
      Track();
    }

    /** The second half of `set()`: `jraLayoutSet` of the thickness only, tracked and installed. */
    method Track()
      modifies this`tracked, this`installed
      ensures tracked.Some? && fresh(tracked.value.Handles())
      ensures Holds(Thickness(tracked, axis), asView, if axis == Horizontal then Height else Width, null, Some(fatness))
      ensures Thickness(tracked, Other(axis)).None?
      ensures tracked.value.top.None? && tracked.value.bottom.None? && tracked.value.left.None?
      ensures tracked.value.right.None? && tracked.value.centerX.None? && tracked.value.centerY.None?
      ensures tracked.value.Distinct()
      ensures installed == old(installed) + TrackedHandles()
    {
      var s;
      if axis == Horizontal {
        s := LayoutHelper.SetSize(asView, None, Some(fatness));
      } else {
        s := LayoutHelper.SetSize(asView, Some(fatness), None);
      }
      tracked := Some(s);
      installed := installed + s.Handles();
    }

    /** `fatness` didSet. */
    method SetFatness(f: real)
      requires Valid()
      modifies this, asView`background, Handle(Thickness(tracked, axis))
      ensures Valid() && fatness == f && axis == old(axis) && color == old(color)
      ensures Holds(Thickness(tracked, axis), asView, if axis == Horizontal then Height else Width, null, Some(f))
      ensures Thickness(tracked, Other(axis)).None?
      ensures installed == old(installed) - Handle(Thickness(old(tracked), axis)) + TrackedHandles()
      ensures Thickness(old(tracked), axis).Some? ==> !Thickness(old(tracked), axis).value.active
      ensures asView.background == color
    {
      fatness := f;
      Set();
    }

    /** `axis` didSet. */
    method SetAxis(a: Axis)
      requires Valid()
      modifies this, asView`background, Handle(Thickness(tracked, a))
      ensures Valid() && axis == a && fatness == old(fatness) && color == old(color)
      ensures Holds(Thickness(tracked, a), asView, if a == Horizontal then Height else Width, null, Some(fatness))
      ensures Thickness(tracked, Other(a)).None?
      ensures installed == old(installed) - Handle(Thickness(old(tracked), a)) + TrackedHandles()
      ensures var kept := Thickness(old(tracked), Other(a));
              kept.Some? ==> kept.value in installed
      ensures Thickness(old(tracked), a).Some? ==> !Thickness(old(tracked), a).value.active
      ensures asView.background == color
    {
      axis := a;
      Set();
    }

    /** `color` didSet. */
    method SetColor(c: Color)
      requires Valid()
      modifies this, asView`background, Handle(Thickness(tracked, axis))
      ensures Valid() && color == c && fatness == old(fatness) && axis == old(axis)
      ensures asView.background == c
      ensures Holds(Thickness(tracked, axis), asView, if axis == Horizontal then Height else Width, null, Some(fatness))
      ensures Thickness(tracked, Other(axis)).None?
      ensures installed == old(installed) - Handle(Thickness(old(tracked), axis)) + TrackedHandles()
      ensures Thickness(old(tracked), axis).Some? ==> !Thickness(old(tracked), axis).value.active
    {
      color := c;
      Set();
    }
  }
}
