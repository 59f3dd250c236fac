/**
 * JRABaseCard: a card with 15-point margins on a white background and two
 * reserved rows at the bottom, a header row and the divider row under it.
 * The card part is the `card` field (the model has no subclassing).
 */
module BaseCard {
  import opened Options
  import opened Views
  import opened Sequences
  import opened Card
  import Divider

  const HeaderRowKey: string := "headerRowKeyJRA_800098"
  const HeaderDividerRowKey: string := "headerDividerRowKeyJRA_800098"

  /** The divider row's margins: `marginBottom: 5`, the others at `addRow`'s default 0. */
  const DividerMargins := Insets(Some(0.0), Some(0.0), Some(5.0), Some(0.0))

  /** The row order after the header is rebuilt: both reserved keys move to the end, header first. */
  function WithHeader(keys: seq<string>): (r: seq<string>)
    ensures |r| >= 2 && r[|r| - 2] == HeaderRowKey && r[|r| - 1] == HeaderDividerRowKey
  {
    Without(Without(keys, HeaderRowKey), HeaderDividerRowKey) + [HeaderRowKey, HeaderDividerRowKey]
  }

  /**
   * Rebuilding the header twice is rebuilding it once: the reserved rows
   * never pile up, and the other rows keep their order.
   */
  lemma {:induction false} WithHeaderIdempotent(keys: seq<string>)
    ensures WithHeader(WithHeader(keys)) == WithHeader(keys)
  {
    var rest := Without(Without(keys, HeaderRowKey), HeaderDividerRowKey);
    WithoutAbsent(rest, HeaderRowKey);
    WithoutAbsent(rest, HeaderDividerRowKey);
    WithoutAppend(rest, [HeaderRowKey, HeaderDividerRowKey], HeaderRowKey);
    assert Without([HeaderRowKey, HeaderDividerRowKey], HeaderRowKey) == [HeaderDividerRowKey];
    WithoutAppend(rest, [HeaderDividerRowKey], HeaderDividerRowKey);
    assert Without([HeaderDividerRowKey], HeaderDividerRowKey) == [];
  }

  /** `WithHeader` appends the header key, then the divider key. */
  lemma WithHeaderAppends(keys: seq<string>)
    ensures WithHeader(keys) == Without(Without(keys, HeaderRowKey), HeaderDividerRowKey) + [HeaderRowKey] + [HeaderDividerRowKey]
  {
  }

  /** Each reserved key occurs exactly once after a rebuild, whatever the rows were before. */
  lemma WithHeaderOnce(keys: seq<string>)
    requires NoDup(keys)
    ensures NoDup(WithHeader(keys))
    ensures multiset(WithHeader(keys))[HeaderRowKey] == 1
    ensures multiset(WithHeader(keys))[HeaderDividerRowKey] == 1
  {
    var rest := Without(Without(keys, HeaderRowKey), HeaderDividerRowKey);
    var r := WithHeader(keys);
    assert r == rest + [HeaderRowKey, HeaderDividerRowKey];
    assert NoDup(r) by {
      forall i, j | 0 <= i < j < |r|
        ensures r[i] != r[j]
      {
        if j < |rest| {
          assert r[i] == rest[i] && r[j] == rest[j];
        } else if i < |rest| {
          assert r[i] in rest;
        }
      }
    }
    OccursOnce(r, HeaderRowKey);
    OccursOnce(r, HeaderDividerRowKey);
  }

  /** The views of a custom header, in order. */
  function HeaderViews(headerViews: seq<(View, Priority)>): (r: seq<View>)
    ensures |r| == |headerViews| && forall i | 0 <= i < |r| :: r[i] == headerViews[i].0
  {
    seq(|headerViews|, i requires 0 <= i < |headerViews| => headerViews[i].0)
  }

  /** Entry `j` is the last one for its view among the first `n`: its priority is the one that stays. */
  predicate LastFor(headerViews: seq<(View, Priority)>, j: nat, n: nat)
    requires j < n <= |headerViews|
  {
    forall k | j < k < n :: headerViews[k].0 != headerViews[j].0
  }

  /** The card part of `init()`: a white card with all four margins at 15 and no rows. */
  method NewCard() returns (c: Card)
    ensures c.Valid() && fresh(c) && c.asView.background == White
    ensures var m := c.baseStackMargin;
            && m.top.Some? && m.top.value.constant == 15.0
            && m.right.Some? && m.right.value.constant == -15.0
            && m.bottom.Some? && m.bottom.value.constant == -15.0
            && m.left.Some? && m.left.value.constant == 15.0
    ensures c.rowKeys == []
  {
    c := new Card();
    c.SetBackground(White);
    c.SetMarginSpace(Some(15.0), Some(15.0), Some(15.0), Some(15.0));
  }

  class BaseCard {
    const card: Card
    const header: View
    const divider: Divider.Divider

    ghost predicate Valid()
      reads this, card
    {
      card.Valid()
    }

    /**
     * `init()`: a card with all four margins at 15 and a white background;
     * the header label is empty and the divider is horizontal, 2 points thick,
     * in `dividerColor` (the shared configuration's primary colour).
     */
    constructor (dividerColor: Color)
      ensures Valid() && divider.Valid() && fresh(card) && fresh(header) && fresh(divider)
      ensures card.asView.background == White
      ensures var m := card.baseStackMargin;
              && m.top.Some? && m.top.value.constant == 15.0
              && m.right.Some? && m.right.value.constant == -15.0
              && m.bottom.Some? && m.bottom.value.constant == -15.0
              && m.left.Some? && m.left.value.constant == 15.0
      ensures card.rowKeys == [] && header.text == ""
      ensures divider.axis == Horizontal && divider.fatness == 2.0 && divider.color == dividerColor
    {
      var c := NewCard();
      card := c;
      header := new View();
      divider := new Divider.Divider(Horizontal, 2.0, dividerColor);
    }

    /**
     * `addHeader(text:)`: removes both reserved rows, appends the header row
     * holding only the header label and then the divider row holding only
     * the divider, and sets the label's text. The other rows are untouched.
     */
    method AddHeader(text: string)
      requires Valid()
      modifies card`arranged, card`viewMap, card`rowKeys
      modifies header`hugging, header`compression, header`text
      modifies divider.asView`hugging, divider.asView`compression
      ensures Valid()
      ensures card.rowKeys == WithHeader(old(card.rowKeys))
      ensures HeaderRowKey in card.viewMap && HeaderDividerRowKey in card.viewMap
      ensures card.viewMap[HeaderRowKey] == card.viewMap[HeaderRowKey].(views := [header], spacing := DefaultElementSpacing,
                                                                        distribution := Fill, margins := NoMargins)
      ensures card.viewMap[HeaderDividerRowKey] == card.viewMap[HeaderDividerRowKey].(views := [divider.asView],
                                                                                      spacing := DefaultElementSpacing,
                                                                                      distribution := Fill, margins := DividerMargins)
      ensures card.viewMap == (old(card.viewMap) - {HeaderRowKey} - {HeaderDividerRowKey})
                              [HeaderRowKey := card.viewMap[HeaderRowKey]][HeaderDividerRowKey := card.viewMap[HeaderDividerRowKey]]
      ensures header.text == text && header.hugging == DefaultLow && header.compression == DefaultLow
      ensures divider.asView.hugging == DefaultLow && divider.asView.compression == DefaultLow
    {
      AddEmptyHeader();
      card.AddViewTo(HeaderRowKey, header, DefaultLow, -1);
      PlacedAppend([], header);
      header.text := text;
    }

    /**
     * `addCustomHeader(with:)`: as `AddHeader`, but the header row is filled
     * with the given views in order, each with its own priority, and no
     * label text is set.
     */
    method AddCustomHeader(headerViews: seq<(View, Priority)>)
      requires Valid()
      modifies card`arranged, card`viewMap, card`rowKeys
      modifies (set p | p in headerViews :: p.0)`hugging, (set p | p in headerViews :: p.0)`compression
      modifies divider.asView`hugging, divider.asView`compression
      ensures Valid()
      ensures card.rowKeys == WithHeader(old(card.rowKeys))
      ensures HeaderRowKey in card.viewMap && HeaderDividerRowKey in card.viewMap
      ensures card.viewMap[HeaderRowKey] == card.viewMap[HeaderRowKey].(views := HeaderViews(headerViews),
                                                                        spacing := DefaultElementSpacing,
                                                                        distribution := Fill, margins := NoMargins)
      ensures card.viewMap[HeaderDividerRowKey] == card.viewMap[HeaderDividerRowKey].(views := [divider.asView],
                                                                                      spacing := DefaultElementSpacing,
                                                                                      distribution := Fill, margins := DividerMargins)
      ensures (forall p | p in headerViews :: p.0 != divider.asView) ==>
                divider.asView.hugging == DefaultLow && divider.asView.compression == DefaultLow
      ensures card.viewMap == (old(card.viewMap) - {HeaderRowKey} - {HeaderDividerRowKey})
                              [HeaderRowKey := card.viewMap[HeaderRowKey]][HeaderDividerRowKey := card.viewMap[HeaderDividerRowKey]]
      ensures forall j | 0 <= j < |headerViews| && LastFor(headerViews, j, |headerViews|) ::
                headerViews[j].0.hugging == headerViews[j].1 && headerViews[j].0.compression == headerViews[j].1
    {
      AddEmptyHeader();
      FillHeader(headerViews);
    }

    /** The first half of `addCustomHeader(with:)`: both reserved rows rebuilt, the header row still empty. */
    method AddEmptyHeader()
      requires Valid()
      modifies card`arranged, card`viewMap, card`rowKeys
      modifies divider.asView`hugging, divider.asView`compression
      ensures Valid()
      ensures card.rowKeys == WithHeader(old(card.rowKeys))
      ensures HeaderRowKey in card.viewMap && HeaderDividerRowKey in card.viewMap
      ensures card.viewMap[HeaderRowKey] == card.viewMap[HeaderRowKey].(views := [], spacing := DefaultElementSpacing,
                                                                        distribution := Fill, margins := NoMargins)
      ensures card.viewMap[HeaderDividerRowKey] == card.viewMap[HeaderDividerRowKey].(views := [divider.asView],
                                                                                      spacing := DefaultElementSpacing,
                                                                                      distribution := Fill, margins := DividerMargins)
      ensures divider.asView.hugging == DefaultLow && divider.asView.compression == DefaultLow
      ensures card.viewMap == (old(card.viewMap) - {HeaderRowKey} - {HeaderDividerRowKey})
                              [HeaderRowKey := card.viewMap[HeaderRowKey]][HeaderDividerRowKey := card.viewMap[HeaderDividerRowKey]]
    {
      RemoveRows();
      card.AppendRow(HeaderRowKey, NoMargins);
      card.AppendRowWith(HeaderDividerRowKey, DividerMargins, divider.asView);
      WithHeaderAppends(old(card.rowKeys));
    }

    /** The loop of `addCustomHeader`: each view joins the end of the (empty) header row with its priority. */
    method FillHeader(headerViews: seq<(View, Priority)>)
      requires card.Valid() && HeaderRowKey in card.viewMap && card.viewMap[HeaderRowKey].views == []
      modifies card`viewMap, (set p | p in headerViews :: p.0)`hugging, (set p | p in headerViews :: p.0)`compression
      ensures card.Valid() && card.rowKeys == old(card.rowKeys) && card.arranged == old(card.arranged)
      ensures card.viewMap == old(card.viewMap)[HeaderRowKey := old(card.viewMap)[HeaderRowKey].(views := HeaderViews(headerViews))]
      ensures forall j | 0 <= j < |headerViews| && LastFor(headerViews, j, |headerViews|) ::
                headerViews[j].0.hugging == headerViews[j].1 && headerViews[j].0.compression == headerViews[j].1
    {
      ghost var row := card.viewMap[HeaderRowKey];
      for i := 0 to |headerViews|
        invariant card.Valid() && card.rowKeys == old(card.rowKeys) && card.arranged == old(card.arranged)
        invariant card.viewMap == old(card.viewMap)[HeaderRowKey := row.(views := HeaderViews(headerViews[..i]))]
        invariant forall j | 0 <= j < i && LastFor(headerViews, j, i) ::
                    headerViews[j].0.hugging == headerViews[j].1 && headerViews[j].0.compression == headerViews[j].1
      {
        label before:
        AppendHeaderView(headerViews, i, headerViews[i].0);
        forall j | 0 <= j < i + 1 && LastFor(headerViews, j, i + 1)
          ensures headerViews[j].0.hugging == headerViews[j].1 && headerViews[j].0.compression == headerViews[j].1
        {
          if j < i {
            assert headerViews[i].0 != headerViews[j].0 && LastFor(headerViews, j, i);
            assert old@before(headerViews[j].0.hugging) == headerViews[j].1;
            assert old@before(headerViews[j].0.compression) == headerViews[j].1;
          }
        }
      }
      assert headerViews[..|headerViews|] == headerViews;
    }

    /** One step of `addCustomHeader`'s loop: entry `i` joins the end of the header row with its priority. */
    method AppendHeaderView(headerViews: seq<(View, Priority)>, i: nat, v: View)
      requires i < |headerViews| && v == headerViews[i].0 && card.Valid() && HeaderRowKey in card.viewMap
      requires card.viewMap[HeaderRowKey].views == HeaderViews(headerViews[..i])
      modifies card`viewMap, v`hugging, v`compression
      ensures card.Valid() && card.rowKeys == old(card.rowKeys) && card.arranged == old(card.arranged)
      ensures card.viewMap == old(card.viewMap)[HeaderRowKey := old(card.viewMap)[HeaderRowKey].(views := HeaderViews(headerViews[..i + 1]))]
      ensures headerViews[i].0.hugging == headerViews[i].1 && headerViews[i].0.compression == headerViews[i].1
    {
      card.AddViewTo(HeaderRowKey, v, headerViews[i].1, -1);
      PlacedAppend(HeaderViews(headerViews[..i]), v);
      assert HeaderViews(headerViews[..i]) + [v] == HeaderViews(headerViews[..i + 1]);
    }

    /** The two `removeRow` calls that open both header methods. */
    method RemoveRows()
      requires Valid()
      modifies card`arranged, card`viewMap, card`rowKeys
      ensures Valid()
      ensures card.rowKeys == Without(Without(old(card.rowKeys), HeaderRowKey), HeaderDividerRowKey)
      ensures card.viewMap == old(card.viewMap) - {HeaderRowKey} - {HeaderDividerRowKey}
    {
      card.RemoveRow(HeaderRowKey);
      card.RemoveRow(HeaderDividerRowKey);
    }
  }
}
