/**
 * JRAConstraintStruct: up to eight optional handles to layout constraints,
 * returned by every layout helper so that callers can change the
 * constants later.
 */
module Constraints {
  import opened Options
  import opened Views

  datatype Anchor = Top | Bottom | Left | Right | CenterX | CenterY | Width | Height

  /** An NSLayoutConstraint `item.anchor == target.anchor + constant` (or `== constant` without target). */
  class Constraint {
    const item: View
    const anchor: Anchor
    const target: View?
    var constant: real
    var active: bool

    /** `anchor.constraint(equalTo:constant:)`: a new constraint, not yet active. */
    constructor (item: View, anchor: Anchor, target: View?, constant: real)
      ensures this.item == item && this.anchor == anchor && this.target == target
      ensures this.constant == constant && !active
    {
      this.item := item;
      this.anchor := anchor;
      this.target := target;
      this.constant := constant;
      active := false;
    }
  }

  /** Two optional handles do not refer to the same constraint. */
  predicate Apart(a: Option<Constraint>, b: Option<Constraint>) {
    a.Some? && b.Some? ==> a.value != b.value
  }

  function Handle(h: Option<Constraint>): set<Constraint> {
    if h.Some? then {h.value} else {}
  }

  /**
   * `h` is present exactly when `value` is, and then is an active
   * constraint of `item.anchor` to `target` whose constant is `value`.
   */
  ghost predicate Holds(h: Option<Constraint>, item: View, anchor: Anchor, target: View?, value: Option<real>)
    reads Handle(h)
  {
    && (h.Some? <==> value.Some?)
    && (h.Some? ==>
          && h.value.item == item && h.value.anchor == anchor && h.value.target == target
          && h.value.constant == value.value && h.value.active)
  }

  datatype ConstraintStruct = ConstraintStruct(
    top: Option<Constraint>, bottom: Option<Constraint>,
    left: Option<Constraint>, right: Option<Constraint>,
    centerX: Option<Constraint>, centerY: Option<Constraint>,
    width: Option<Constraint>, height: Option<Constraint>)
  {
    /** Every constraint the struct refers to. */
    function Handles(): set<Constraint> {
      Handle(top) + Handle(bottom) + Handle(left) + Handle(right)
      + Handle(centerX) + Handle(centerY) + Handle(width) + Handle(height)
    }

    /** The constraints `SetSpacing` may write. */
    function SideHandles(): set<Constraint> {
      Handle(top) + Handle(bottom) + Handle(left) + Handle(right)
    }

    /** No two fields refer to the same constraint (true of every struct the helpers build). */
    predicate Distinct() {
      && Apart(top, bottom) && Apart(top, left) && Apart(top, right) && Apart(top, centerX)
      && Apart(top, centerY) && Apart(top, width) && Apart(top, height) && Apart(bottom, left)
      && Apart(bottom, right) && Apart(bottom, centerX) && Apart(bottom, centerY) && Apart(bottom, width)
      && Apart(bottom, height) && Apart(left, right) && Apart(left, centerX) && Apart(left, centerY)
      && Apart(left, width) && Apart(left, height) && Apart(right, centerX) && Apart(right, centerY)
      && Apart(right, width) && Apart(right, height) && Apart(centerX, centerY) && Apart(centerX, width)
      && Apart(centerX, height) && Apart(centerY, width) && Apart(centerY, height) && Apart(width, height)
    }

    /**
     * `setSpacing`: rewrites the constant of each side constraint that
     * exists and whose argument is given; right and bottom take the
     * negated argument. It creates nothing and leaves center and size alone.
     */
    method SetSpacing(top': Option<real>, right': Option<real>, bottom': Option<real>, left': Option<real>)
      requires Distinct()
      modifies SideHandles()
      ensures top.Some? ==> top.value.constant == top'.GetOr(old(top.value.constant))
      ensures right.Some? ==> right.value.constant == Inward(right').GetOr(old(right.value.constant))
      ensures bottom.Some? ==> bottom.value.constant == Inward(bottom').GetOr(old(bottom.value.constant))
      ensures left.Some? ==> left.value.constant == left'.GetOr(old(left.value.constant))
      ensures top.Some? ==> top.value.active == old(top.value.active)
      ensures right.Some? ==> right.value.active == old(right.value.active)
      ensures bottom.Some? ==> bottom.value.active == old(bottom.value.active)
      ensures left.Some? ==> left.value.active == old(left.value.active)
      ensures centerX.Some? ==> centerX.value.active == old(centerX.value.active) && centerX.value.constant == old(centerX.value.constant)
      ensures centerY.Some? ==> centerY.value.active == old(centerY.value.active) && centerY.value.constant == old(centerY.value.constant)
      ensures width.Some? ==> width.value.active == old(width.value.active) && width.value.constant == old(width.value.constant)
      ensures height.Some? ==> height.value.active == old(height.value.active) && height.value.constant == old(height.value.constant)
    {
      if top'.Some? && top.Some? {
        top.value.constant := top'.value;
      }
      if right'.Some? && right.Some? {
        right.value.constant := -right'.value;
      }
      if bottom'.Some? && bottom.Some? {
        bottom.value.constant := -bottom'.value;
      }
      if left'.Some? && left.Some? {
        left.value.constant := left'.value;
      }
    }
  }

  /** A struct whose fields refer to pairwise different constraints. */
  type DistinctStruct = s: ConstraintStruct | s.Distinct() witness Empty()

  /** `JRAConstraintStruct()`: a fresh struct refers to no constraint. */
  function Empty(): (r: ConstraintStruct)
    ensures r.Handles() == {}
  {
    ConstraintStruct(None, None, None, None, None, None, None, None)
  }
}
