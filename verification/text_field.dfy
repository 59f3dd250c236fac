/**
 * JRATextField: a text field placed on its own card (`textFieldCard`),
 * between an optional left and an optional right side stack, inside a base
 * card that also holds a title, a divider and an info label. A side stack
 * sits in the text-field row exactly while it holds at least one view.
 */
module TextField {
  import opened Options
  import opened Views
  import opened Sequences
  import opened Card
  import LayoutHelper
  import Divider

  const TitleRowKey: string := "textFieldTitleRow_JRA88933421"
  const TextFieldRowKey: string := "textFieldRow_JRA8890323"
  const InfoRowKey: string := "textFieldInfoRow_JRA8894412"
  const CardRowKey: string := "textFieldCardRow_JRA8891212"
  const DividerRowKey: string := "textFieldDividerRow_JRA8896123"

  /** `titleLabel`'s initial text. */
  const DefaultTitle: string := "Default header"

  /** The view both hugs and resists compression at low priority. */
  ghost predicate AtLow(v: View)
    reads v
  {
    v.hugging == DefaultLow && v.compression == DefaultLow
  }

  /** The text-field card's margins: `setMarginSpace(top: 5, right: 0, bottom: 0, left: 0)`. */
  const FieldCardTop: real := 5.0

  /** A horizontal JRAStackView: its view and its arranged subviews. */
  class StackView {
    const asView: View
    var arranged: seq<View>

    constructor ()
      ensures fresh(asView) && arranged == []
    {
      asView := new View();
      arranged := [];
    }
  }

  /** What a side stack contributes to the text-field row: itself while it is not empty, nothing otherwise. */
  function Side(stack: View, arranged: seq<View>): (r: seq<View>)
    ensures stack in r <==> arranged != []
    ensures |r| <= 1
  {
    if arranged == [] then [] else [stack]
  }

  /** The text-field row: the left stack if used, the field, the right stack if used. */
  function FieldRow(left: View, leftArranged: seq<View>, field: View, right: View, rightArranged: seq<View>): seq<View>
  {
    Side(left, leftArranged) + [field] + Side(right, rightArranged)
  }

  /**
   * The shape of the text-field row: the field is always there, each side
   * stack is there exactly while it holds views, on its own side of the
   * field, and nothing occurs twice.
   */
  lemma {:induction false} FieldRowShape(left: View, leftArranged: seq<View>, field: View, right: View, rightArranged: seq<View>)
    requires left != field && right != field && left != right
    ensures var row := FieldRow(left, leftArranged, field, right, rightArranged);
            && NoDup(row) && field in row
            && (left in row <==> leftArranged != []) && (right in row <==> rightArranged != [])
            && (leftArranged != [] ==> row[0] == left && row[1] == field)
            && (leftArranged == [] ==> row[0] == field)
            && (rightArranged != [] ==> row[|row| - 1] == right && row[|row| - 2] == field)
            && (rightArranged == [] ==> row[|row| - 1] == field)
  {
    var row := FieldRow(left, leftArranged, field, right, rightArranged);
    assert row == Side(left, leftArranged) + [field] + Side(right, rightArranged);
  }

  /** A view joining the left stack brings the stack to the front of the row only when the stack was empty. */
  lemma LeftGrows(left: View, leftArranged: seq<View>, field: View, right: View, rightArranged: seq<View>, v: View)
    ensures FieldRow(left, leftArranged + [v], field, right, rightArranged)
         == if leftArranged == [] then [left] + FieldRow(left, leftArranged, field, right, rightArranged)
            else FieldRow(left, leftArranged, field, right, rightArranged)
  {
    assert Side(left, leftArranged + [v]) == [left];
  }

  /** A view joining the right stack brings the stack to the end of the row only when the stack was empty. */
  lemma RightGrows(left: View, leftArranged: seq<View>, field: View, right: View, rightArranged: seq<View>, v: View)
    ensures FieldRow(left, leftArranged, field, right, rightArranged + [v])
         == if rightArranged == [] then FieldRow(left, leftArranged, field, right, rightArranged) + [right]
            else FieldRow(left, leftArranged, field, right, rightArranged)
  {
    assert Side(right, rightArranged + [v]) == [right];
  }

  /** Taking the left stack out of the row leaves the field and the right side. */
  lemma LeftEmptied(left: View, leftArranged: seq<View>, field: View, right: View, rightArranged: seq<View>)
    requires left != field && right != field && left != right
    ensures Without(FieldRow(left, leftArranged, field, right, rightArranged), left)
         == FieldRow(left, [], field, right, rightArranged)
  {
    var rest := [field] + Side(right, rightArranged);
    assert FieldRow(left, [], field, right, rightArranged) == rest;
    WithoutAbsent(rest, left);
    if leftArranged != [] {
      assert FieldRow(left, leftArranged, field, right, rightArranged) == [left] + rest;
      assert Without([left] + rest, left) == Without(rest, left);
    }
  }

  /** Taking the right stack out of the row leaves the left side and the field. */
  lemma RightEmptied(left: View, leftArranged: seq<View>, field: View, right: View, rightArranged: seq<View>)
    requires left != field && right != field && left != right
    ensures Without(FieldRow(left, leftArranged, field, right, rightArranged), right)
         == FieldRow(left, leftArranged, field, right, [])
  {
    var rest := Side(left, leftArranged) + [field];
    assert FieldRow(left, leftArranged, field, right, []) == rest;
    WithoutAbsent(rest, right);
    WithoutAbsent([], right);
    if rightArranged != [] {
      assert FieldRow(left, leftArranged, field, right, rightArranged) == rest + [right];
      WithoutAppend(rest, [right], right);
    }
  }

  /** The rows `setupUI()` gives the base card, in order, each holding its one element. */
  ghost predicate BaseRows(base: Card, title: View, fieldCard: View, divider: View, info: View)
    reads base
  {
    && base.rowKeys == [TitleRowKey, CardRowKey, DividerRowKey, InfoRowKey]
    && TitleRowKey in base.viewMap && base.viewMap[TitleRowKey].views == [title]
    && CardRowKey in base.viewMap && base.viewMap[CardRowKey].views == [fieldCard]
    && DividerRowKey in base.viewMap && base.viewMap[DividerRowKey].views == [divider]
    && InfoRowKey in base.viewMap && base.viewMap[InfoRowKey].views == [info]
  }

  /** The text-field card's one row, holding only the field. */
  ghost predicate FieldCardRows(c: Card, field: View)
    reads c
  {
    c.rowKeys == [TextFieldRowKey] && TextFieldRowKey in c.viewMap && c.viewMap[TextFieldRowKey].views == [field]
  }

  /** The text-field card's margins: 5 points at the top, none on the other three sides. */
  ghost predicate FieldCardMargins(c: Card)
    reads c, c.baseStackMargin.SideHandles()
  {
    var m := c.baseStackMargin;
    && m.top.Some? && m.right.Some? && m.bottom.Some? && m.left.Some?
    && m.top.value.constant == FieldCardTop && m.right.value.constant == 0.0
    && m.bottom.value.constant == 0.0 && m.left.value.constant == 0.0
  }

  /**
   * `textFieldCard`: the card's one row, under the text-field key, holds
   * the field at low priority, with a top margin of 5 and no other margin.
   */
  method FillFieldCard(c: Card, field: View)
    requires c.Valid() && c.rowKeys == []
    requires var m := c.baseStackMargin; m.top.Some? && m.right.Some? && m.bottom.Some? && m.left.Some?
    modifies c`arranged, c`viewMap, c`rowKeys, c.baseStackMargin.SideHandles(), field`hugging, field`compression
    ensures c.Valid() && FieldCardRows(c, field) && FieldCardMargins(c)
    ensures AtLow(field)
  {
    c.AppendRowWith(TextFieldRowKey, NoMargins, field);
    c.SetMarginSpace(Some(FieldCardTop), Some(0.0), Some(0.0), Some(0.0));
  }

  /** `textFieldCard`: a new card with the field's row. */
  method NewFieldCard(field: View) returns (c: Card)
    modifies field`hugging, field`compression
    ensures fresh(c) && fresh(c.asView) && c.Valid() && FieldCardRows(c, field) && FieldCardMargins(c)
    ensures AtLow(field)
  {
    c := new Card();
    FillFieldCard(c, field);
  }

  /** `JRALabel(text:)`: a new label showing `text`. */
  method NewLabel(text: string) returns (v: View)
    ensures fresh(v) && v.text == text
  {
    v := new View();
    v.text := text;
  }

  /** `textFieldDivider`: horizontal, 2 points thick, black. */
  method NewDivider() returns (d: Divider.Divider)
    ensures fresh(d) && fresh(d.asView)
    ensures d.axis == Horizontal && d.fatness == 2.0 && d.color == Black
  {
    d := new Divider.Divider(Horizontal, 2.0, Black);
  }

  class TextField {
    const asView: View
    /** `base`: the card holding every row of the text field. */
    const base: Card
    /** `textFieldCard`: the card holding the side stacks and the field. */
    const fieldCard: Card
    const field: View
    const leftStack: StackView
    const rightStack: StackView
    const titleLabel: View
    const infoLabel: View
    const divider: Divider.Divider

    /** The text-field row as the side stacks' contents determine it. */
    ghost function Row(): seq<View>
      reads this, leftStack, rightStack
    {
      FieldRow(leftStack.asView, leftStack.arranged, field, rightStack.asView, rightStack.arranged)
    }

    ghost predicate Valid()
      reads this, base, fieldCard, leftStack, rightStack
    {
      && base != fieldCard && base.Valid() && fieldCard.Valid()
      && leftStack.asView != field && rightStack.asView != field && leftStack.asView != rightStack.asView
      && TextFieldRowKey in fieldCard.viewMap
      && fieldCard.viewMap[TextFieldRowKey].views == Row()
    }

    /**
     * `init()` and `setupUI()`: the base card is hooked to all sides of the
     * text field and gets four rows, title, text-field card, divider and
     * info, each holding its one element at low priority.
     */
    constructor ()
      ensures Valid()
      ensures fresh(base) && fresh(fieldCard) && fresh(leftStack) && fresh(rightStack)
      ensures BaseRows(base, titleLabel, fieldCard.asView, divider.asView, infoLabel)
      ensures FieldCardRows(fieldCard, field) && FieldCardMargins(fieldCard)
      ensures AtLow(titleLabel)
      ensures AtLow(fieldCard.asView)
      ensures AtLow(divider.asView)
      ensures AtLow(infoLabel)
      ensures AtLow(field)
      ensures leftStack.arranged == [] && rightStack.arranged == []
      ensures titleLabel.text == DefaultTitle && infoLabel.text == ""
      ensures divider.axis == Horizontal && divider.fatness == 2.0 && divider.color == Black
      ensures base.asView.superview == asView
    {
      var me := new View();
      var f, fc, title, info, d, ls, rs, b := Assemble(me);
      asView, field, fieldCard, titleLabel, infoLabel, divider, base := me, f, fc, title, info, d, b;
      leftStack, rightStack := ls, rs;
    }

    /** Every part of a new text field whose view is `me`, set up as `setupUI()` leaves it. */
    static method Assemble(me: View)
      returns (f: View, fc: Card, title: View, info: View, d: Divider.Divider, ls: StackView, rs: StackView, b: Card)
      ensures fresh(b) && fresh(fc) && fresh(ls) && fresh(rs) && b != fc
      ensures ls.asView != f && rs.asView != f && ls.asView != rs.asView
      ensures b.Valid() && fc.Valid() && BaseRows(b, title, fc.asView, d.asView, info)
      ensures FieldCardRows(fc, f) && FieldCardMargins(fc)
      ensures AtLow(title) && AtLow(fc.asView) && AtLow(d.asView) && AtLow(info) && AtLow(f)
      ensures ls.arranged == [] && rs.arranged == []
      ensures title.text == DefaultTitle && info.text == ""
      ensures d.axis == Horizontal && d.fatness == 2.0 && d.color == Black
      ensures b.asView.superview == me
    {
      f := new View();
      fc := NewFieldCard(f);
      title, info, d, ls, rs := NewParts();
      b := NewBase(me, title, fc.asView, d.asView, info);
    }

    /** The labels, the divider and the two empty side stacks of a new text field. */
    static method NewParts() returns (title: View, info: View, d: Divider.Divider, ls: StackView, rs: StackView)
      ensures fresh(title) && fresh(info) && fresh(d) && fresh(d.asView) && fresh(ls) && fresh(rs)
      ensures fresh(ls.asView) && fresh(rs.asView) && ls.asView != rs.asView
      ensures ls.arranged == [] && rs.arranged == []
      ensures title.text == DefaultTitle && info.text == ""
      ensures d.axis == Horizontal && d.fatness == 2.0 && d.color == Black
    {
      d := NewDivider();
      title := NewLabel(DefaultTitle);
      info := NewLabel("");
      ls := new StackView();
      rs := new StackView();
    }

    /** `base` in `setupUI()`: hooked to all sides of the text field, then the four rows in order. */
    static method NewBase(parent: View, title: View, fieldCard: View, divider: View, info: View) returns (base: Card)
      modifies title`hugging, title`compression, fieldCard`hugging, fieldCard`compression
      modifies divider`hugging, divider`compression, info`hugging, info`compression
      ensures fresh(base) && fresh(base.asView) && base.Valid() && base.asView.superview == parent
      ensures BaseRows(base, title, fieldCard, divider, info)
      ensures AtLow(title)
      ensures AtLow(fieldCard)
      ensures AtLow(divider)
      ensures AtLow(info)
    {
      base := new Card();
      var _ := LayoutHelper.HookToAllSide(base.asView, parent, Some(0.0), Some(0.0), Some(0.0), Some(0.0));
      SetupRows(base, title, fieldCard, divider, info);
      base.asView.superview := parent;
    }

    /** `setupUI()`: the four base rows, in order. */
    static method SetupRows(base: Card, title: View, fieldCard: View, divider: View, info: View)
      requires base.Valid() && base.rowKeys == []
      modifies base`arranged, base`viewMap, base`rowKeys
      modifies title`hugging, title`compression, fieldCard`hugging, fieldCard`compression
      modifies divider`hugging, divider`compression, info`hugging, info`compression
      ensures base.Valid()
      ensures BaseRows(base, title, fieldCard, divider, info)
      ensures AtLow(title)
      ensures AtLow(fieldCard)
      ensures AtLow(divider)
      ensures AtLow(info)
    {
      assert TitleRowKey[9] != CardRowKey[9] && TitleRowKey[9] != DividerRowKey[9] && TitleRowKey[9] != InfoRowKey[9];
      assert CardRowKey[9] != DividerRowKey[9] && CardRowKey[9] != InfoRowKey[9] && DividerRowKey[9] != InfoRowKey[9];
      AppendTwoRows(base, TitleRowKey, title, CardRowKey, fieldCard);
      AppendTwoRows(base, DividerRowKey, divider, InfoRowKey, info);
    }

    /** Two one-element rows appended in order, under two new keys. */
    static method AppendTwoRows(base: Card, key1: string, view1: View, key2: string, view2: View)
      requires base.Valid() && key1 != key2 && key1 !in base.rowKeys && key2 !in base.rowKeys
      modifies base`arranged, base`viewMap, base`rowKeys
      modifies view1`hugging, view1`compression, view2`hugging, view2`compression
      ensures base.Valid() && base.rowKeys == old(base.rowKeys) + [key1, key2]
      ensures key1 in base.viewMap && base.viewMap[key1].views == [view1]
      ensures key2 in base.viewMap && base.viewMap[key2].views == [view2]
      ensures base.viewMap == (old(base.viewMap) - {key1} - {key2})[key1 := base.viewMap[key1]][key2 := base.viewMap[key2]]
      ensures AtLow(view1)
      ensures AtLow(view2)
    {
      base.AppendRowWith(key1, NoMargins, view1);
      base.AppendRowWith(key2, NoMargins, view2);
    }

    /** `set(title:)`. */
    method SetTitle(title: string)
      modifies titleLabel`text
      ensures titleLabel.text == title
    {
      titleLabel.text := title;
    }

    /** `set(placeHolder:)`. */
    method SetPlaceHolder(placeHolder: string)
      modifies field`placeholder
      ensures field.placeholder == placeHolder
    {
      field.placeholder := placeHolder;
    }

    /**
     * `addViewTo(left:)`: the first view brings the left stack into the
     * text-field row, in front of the field with high priority; every view
     * is appended to the left stack.
     */
    method AddViewToLeft(view: View)
      requires Valid() && view != leftStack.asView && view != rightStack.asView
      modifies leftStack`arranged, fieldCard`viewMap, leftStack.asView`hugging, leftStack.asView`compression
      ensures Valid()
      ensures leftStack.arranged == old(leftStack.arranged) + [view]
      ensures fieldCard.viewMap == old(fieldCard.viewMap)[TextFieldRowKey := fieldCard.viewMap[TextFieldRowKey]]
      ensures fieldCard.viewMap[TextFieldRowKey]
           == old(fieldCard.viewMap[TextFieldRowKey]).(views := fieldCard.viewMap[TextFieldRowKey].views)
      ensures old(leftStack.arranged) == [] ==>
                leftStack.asView.hugging == DefaultHigh && leftStack.asView.compression == DefaultHigh
      ensures old(leftStack.arranged) != [] ==>
                leftStack.asView.hugging == old(leftStack.asView.hugging)
                && leftStack.asView.compression == old(leftStack.asView.compression)
    {
      LeftGrows(leftStack.asView, leftStack.arranged, field, rightStack.asView, rightStack.arranged, view);
      if leftStack.arranged == [] {
        PlacedFront(Row(), leftStack.asView);
        fieldCard.AddViewTo(TextFieldRowKey, leftStack.asView, DefaultHigh, 0);
      }
      leftStack.arranged := leftStack.arranged + [view];
    }

    /**
     * `addViewTo(right:)`: the first view brings the right stack into the
     * text-field row, after the field with high priority; every view is
     * appended to the right stack.
     */
    method AddViewToRight(view: View)
      requires Valid() && view != leftStack.asView && view != rightStack.asView
      modifies rightStack`arranged, fieldCard`viewMap, rightStack.asView`hugging, rightStack.asView`compression
      ensures Valid()
      ensures rightStack.arranged == old(rightStack.arranged) + [view]
      ensures fieldCard.viewMap == old(fieldCard.viewMap)[TextFieldRowKey := fieldCard.viewMap[TextFieldRowKey]]
      ensures fieldCard.viewMap[TextFieldRowKey]
           == old(fieldCard.viewMap[TextFieldRowKey]).(views := fieldCard.viewMap[TextFieldRowKey].views)
      ensures old(rightStack.arranged) == [] ==>
                rightStack.asView.hugging == DefaultHigh && rightStack.asView.compression == DefaultHigh
      ensures old(rightStack.arranged) != [] ==>
                rightStack.asView.hugging == old(rightStack.asView.hugging)
                && rightStack.asView.compression == old(rightStack.asView.compression)
    {
      RightGrows(leftStack.asView, leftStack.arranged, field, rightStack.asView, rightStack.arranged, view);
      if rightStack.arranged == [] {
        PlacedAppend(Row(), rightStack.asView);
        fieldCard.AddViewTo(TextFieldRowKey, rightStack.asView, DefaultHigh, -1);
      }
      rightStack.arranged := rightStack.arranged + [view];
    }

    /**
     * `removeViewFrom(left:)`: the view leaves the left stack, and the left
     * stack leaves the text-field row when that empties it.
     */
    method RemoveViewFromLeft(view: View)
      requires Valid()
      modifies leftStack`arranged, fieldCard`viewMap
      ensures Valid()
      ensures leftStack.arranged == Without(old(leftStack.arranged), view)
      ensures fieldCard.viewMap == old(fieldCard.viewMap)[TextFieldRowKey := fieldCard.viewMap[TextFieldRowKey]]
      ensures fieldCard.viewMap[TextFieldRowKey]
           == old(fieldCard.viewMap[TextFieldRowKey]).(views := fieldCard.viewMap[TextFieldRowKey].views)
      ensures (leftStack.asView in fieldCard.viewMap[TextFieldRowKey].views) <==> leftStack.arranged != []
    {
      leftStack.arranged := Without(leftStack.arranged, view);
      if leftStack.arranged == [] {
        LeftEmptied(leftStack.asView, old(leftStack.arranged), field, rightStack.asView, rightStack.arranged);
        fieldCard.DetachFromRow(TextFieldRowKey, leftStack.asView);
      }
    }

    /**
     * `removeViewFrom(right:)`: the view leaves the right stack, and the
     * right stack leaves the text-field row when that empties it.
     */
    method RemoveViewFromRight(view: View)
      requires Valid()
      modifies rightStack`arranged, fieldCard`viewMap
      ensures Valid()
      ensures rightStack.arranged == Without(old(rightStack.arranged), view)
      ensures fieldCard.viewMap == old(fieldCard.viewMap)[TextFieldRowKey := fieldCard.viewMap[TextFieldRowKey]]
      ensures fieldCard.viewMap[TextFieldRowKey]
           == old(fieldCard.viewMap[TextFieldRowKey]).(views := fieldCard.viewMap[TextFieldRowKey].views)
      ensures (rightStack.asView in fieldCard.viewMap[TextFieldRowKey].views) <==> rightStack.arranged != []
    {
      rightStack.arranged := Without(rightStack.arranged, view);
      if rightStack.arranged == [] {
        RightEmptied(leftStack.asView, leftStack.arranged, field, rightStack.asView, old(rightStack.arranged));
        fieldCard.DetachFromRow(TextFieldRowKey, rightStack.asView);
      }
    }
  }
}
