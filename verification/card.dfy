/**
 * JRACard: a view holding a vertical base stack of rows. Each row is a
 * horizontal stack inside a wrapper view (which carries the row's margins);
 * rows are registered in `viewMap` under unique string keys.
 */
module Card {
  import opened Options
  import opened Views
  import opened Constraints
  import opened Sequences
  import LayoutHelper

  datatype Distribution = Fill | FillEqually | FillProportionally | EqualSpacing | EqualCentering

  /** Margins from a row's wrapper to its stack; `None` adds no constraint on that side. */
  datatype Insets = Insets(top: Option<real>, right: Option<real>, bottom: Option<real>, left: Option<real>)

  /** `addRow`'s default margins. */
  const NoMargins := Insets(Some(0.0), Some(0.0), Some(0.0), Some(0.0))

  /** `addRow`'s default spacing between the elements of a row. */
  const DefaultElementSpacing: real := 10.0

  /**
   * `ViewRefStruct` with the state of its row stack: the wrapper arranged in
   * the base stack, the row's own stack, the views arranged in it, and the
   * configuration the row was created with. The row stack is private to the
   * card, so it is kept here by value.
   */
  datatype Row = Row(wrapper: View, stack: View, views: seq<View>, spacing: real,
                     distribution: Distribution, margins: Insets)

  /** A new row: an empty horizontal stack. */
  predicate Fresh(r: Row, spacing: real, distribution: Distribution, margins: Insets) {
    r.views == [] && r.spacing == spacing && r.distribution == distribution && r.margins == margins
  }

  /** `addViewTo`'s placement: append for an index of -1 or less, otherwise insert there. */
  function ViewSlot(indexPosition: int): (p: Option<int>)
    ensures p.Some? ==> p.value >= 0
  {
    if indexPosition <= -1 then None else Some(indexPosition)
  }

  /**
   * The card's invariant on values: `keys` lists the registered keys in
   * base-stack order and `wrappers` the base stack. Read from the front:
   * the first key is registered and its wrapper comes first and nowhere
   * else, and the rest is a registry of the map without that key; so every
   * key of the map is listed once and every listed wrapper is its key's.
   */
  ghost predicate Registry(keys: seq<string>, wrappers: seq<View>, m: map<string, Row>)
    decreases |keys|
  {
    if keys == [] then wrappers == [] && m == map[]
    else
      && wrappers != [] && keys[0] in m && wrappers[0] == m[keys[0]].wrapper
      && wrappers[0] !in wrappers[1..]
      && Registry(keys[1..], wrappers[1..], m - {keys[0]})
  }

  /** The registry lists each key's wrapper at the key's index. */
  lemma {:induction false} RegistryAt(keys: seq<string>, wrappers: seq<View>, m: map<string, Row>)
    requires Registry(keys, wrappers, m)
    ensures |keys| == |wrappers|
    ensures forall i | 0 <= i < |keys| :: keys[i] in m && wrappers[i] == m[keys[i]].wrapper
    decreases |keys|
  {
    if keys != [] {
      var m' := m - {keys[0]};
      RegistryAt(keys[1..], wrappers[1..], m');
      forall i | 0 < i < |keys|
        ensures keys[i] in m && wrappers[i] == m[keys[i]].wrapper
      {
        assert keys[i] == keys[1..][i - 1] && wrappers[i] == wrappers[1..][i - 1];
      }
    }
  }

  /** The registry lists exactly the map's keys. */
  lemma {:induction false} RegistryKeys(keys: seq<string>, wrappers: seq<View>, m: map<string, Row>)
    requires Registry(keys, wrappers, m)
    ensures forall k | k in m :: k in keys
    ensures forall k | k in keys :: k in m
    decreases |keys|
  {
    if keys != [] {
      var m' := m - {keys[0]};
      RegistryKeys(keys[1..], wrappers[1..], m');
      assert keys == [keys[0]] + keys[1..];
      forall k | k in m
        ensures k in keys
      {
        if k != keys[0] {
          assert k in m';
        }
      }
    }
  }

  /** The registry lists no key and no wrapper twice. */
  lemma {:induction false} RegistryNoDup(keys: seq<string>, wrappers: seq<View>, m: map<string, Row>)
    requires Registry(keys, wrappers, m)
    ensures NoDup(keys) && NoDup(wrappers)
    decreases |keys|
  {
    if keys != [] {
      var m' := m - {keys[0]};
      RegistryNoDup(keys[1..], wrappers[1..], m');
      RegistryKeys(keys[1..], wrappers[1..], m');
      RegistryAt(keys[1..], wrappers[1..], m');
      NoDupCons(keys);
      NoDupCons(wrappers);
    }
  }

  /** A registered key and its wrapper are listed. */
  lemma RegistryHas(keys: seq<string>, wrappers: seq<View>, m: map<string, Row>, key: string)
    requires Registry(keys, wrappers, m) && key in m
    ensures key in keys && m[key].wrapper in wrappers
  {
    RegistryKeys(keys, wrappers, m);
    RegistryAt(keys, wrappers, m);
    var i :| 0 <= i < |keys| && keys[i] == key;
    assert wrappers[i] == m[key].wrapper;
  }

  /** Removing a key and its wrapper keeps the registry invariant. */
  lemma {:induction false} RegistryRemove(keys: seq<string>, wrappers: seq<View>, m: map<string, Row>, key: string)
    requires Registry(keys, wrappers, m) && key in m
    ensures Registry(Without(keys, key), Without(wrappers, m[key].wrapper), m - {key})
    decreases |keys|
  {
    var m' := m - {keys[0]};
    if keys[0] == key {
      RegistryKeys(keys[1..], wrappers[1..], m');
      WithoutAbsent(keys[1..], key);
      WithoutAbsent(wrappers[1..], wrappers[0]);
    } else {
      RegistryHas(keys[1..], wrappers[1..], m', key);
      RegistryRemove(keys[1..], wrappers[1..], m', key);
      assert m - {key} - {keys[0]} == m' - {key};
    }
  }

  /** Changing a row's contents but not its wrapper keeps the registry invariant. */
  lemma {:induction false} RegistryUpdate(keys: seq<string>, wrappers: seq<View>, m: map<string, Row>, key: string, r: Row)
    requires Registry(keys, wrappers, m) && key in m && r.wrapper == m[key].wrapper
    ensures Registry(keys, wrappers, m[key := r])
    decreases |keys|
  {
    if keys[0] == key {
      assert m[key := r] - {key} == m - {key};
    } else {
      RegistryUpdate(keys[1..], wrappers[1..], m - {keys[0]}, key, r);
      assert m[key := r] - {keys[0]} == (m - {keys[0]})[key := r];
    }
  }

  /** Inserting a new key and its new wrapper at the same index keeps the registry invariant. */
  lemma {:induction false} RegistryInsert(keys: seq<string>, wrappers: seq<View>, m: map<string, Row>, key: string, r: Row, k: nat)
    requires Registry(keys, wrappers, m) && key !in m && r.wrapper !in wrappers && k <= |keys|
    ensures |keys| == |wrappers|
    ensures Registry(keys[..k] + [key] + keys[k..], wrappers[..k] + [r.wrapper] + wrappers[k..], m[key := r])
    decreases k
  {
    RegistryAt(keys, wrappers, m);
    if k == 0 {
      assert keys[..0] + [key] + keys[0..] == [key] + keys;
      assert wrappers[..0] + [r.wrapper] + wrappers[0..] == [r.wrapper] + wrappers;
      assert m[key := r] - {key} == m;
    } else {
      var m' := m - {keys[0]};
      RegistryInsert(keys[1..], wrappers[1..], m', key, r, k - 1);
      assert keys[..k] + [key] + keys[k..] == [keys[0]] + (keys[1..][..k - 1] + [key] + keys[1..][k - 1..]);
      assert wrappers[..k] + [r.wrapper] + wrappers[k..]
          == [wrappers[0]] + (wrappers[1..][..k - 1] + [r.wrapper] + wrappers[1..][k - 1..]);
      assert m[key := r] - {keys[0]} == m'[key := r];
    }
  }

  /** `Placed` on both sequences at once keeps the registry invariant. */
  lemma RegistryAdd(keys: seq<string>, wrappers: seq<View>, m: map<string, Row>, key: string, r: Row, position: Option<int>)
    requires Registry(keys, wrappers, m) && key !in m && r.wrapper !in wrappers
    requires position.Some? ==> position.value >= 0
    ensures Registry(Placed(keys, key, position), Placed(wrappers, r.wrapper, position), m[key := r])
  {
    RegistryInsert(keys, wrappers, m, key, r, Slot(|keys|, position));
  }

  /**
   * The row stack `addRow` builds (a horizontal JRAStackView) and the
   * wrapper `jraLayoutAddWrapper` puts around it with the given margins.
   */
  method NewRowStack(margins: Insets) returns (row: View, wrapper: View)
    ensures fresh(row) && fresh(wrapper) && row.superview == wrapper
  {
    row := new View();
    var margin;
    wrapper, margin := LayoutHelper.AddWrapper(row, margins.top, margins.right, margins.bottom, margins.left,
                                           None, None, None, None);
  }

  class Card {
    const asView: View
    /** The base JRAStackView, the card's only subview. */
    const baseStack: View
    /** `baseStackMargin`: the base stack hooked to all sides of the card. */
    const baseStackMargin: DistinctStruct
    /** The base stack's `spacing`. */
    var rowSpacing: real
    /** The base stack's arranged subviews: one wrapper per row. */
    var arranged: seq<View>
    var viewMap: map<string, Row>
    /** The key of each arranged wrapper, in stack order. */
    ghost var rowKeys: seq<string>

    ghost predicate Valid()
      reads this
    {
      Registry(rowKeys, arranged, viewMap)
    }

    /**
     * `init()`: a clear card whose one subview is the base stack (spacing
     * 10), hooked to all four sides with constant 0, and no rows.
     */
    constructor ()
      ensures Valid() && fresh(asView) && fresh(baseStack) && fresh(baseStackMargin.Handles())
      ensures asView.background == Clear && baseStack.superview == asView
      ensures rowSpacing == 10.0
      ensures Holds(baseStackMargin.top, baseStack, Top, asView, Some(0.0))
      ensures Holds(baseStackMargin.right, baseStack, Right, asView, Some(0.0))
      ensures Holds(baseStackMargin.bottom, baseStack, Bottom, asView, Some(0.0))
      ensures Holds(baseStackMargin.left, baseStack, Left, asView, Some(0.0))
      ensures arranged == [] && viewMap == map[] && rowKeys == []
    {
      var v := new View();
      var s := new View();
      var m := LayoutHelper.HookToAllSide(s, v, Some(0.0), Some(0.0), Some(0.0), Some(0.0));
      s.superview := v;
      asView, baseStack, baseStackMargin := v, s, m;
      rowSpacing := 10.0;
      arranged, viewMap, rowKeys := [], map[], [];
    }

    /** `setBackground(color:)`. */
    method SetBackground(color: Color)
      modifies asView`background
      ensures asView.background == color
    {
      asView.background := color;
    }

    /** `setRowSpacing(to:)`. */
    method SetRowSpacing(val: real)
      requires Valid()
      modifies this`rowSpacing
      ensures Valid() && rowSpacing == val
    {
      rowSpacing := val;
    }

    /** `setMarginSpace`: `setSpacing` on the base stack's margin constraints. */
    method SetMarginSpace(top: Option<real>, right: Option<real>, bottom: Option<real>, left: Option<real>)
      requires Valid()
      modifies baseStackMargin.SideHandles()
      ensures Valid()
      ensures baseStackMargin.top.Some? ==> baseStackMargin.top.value.constant == top.GetOr(old(baseStackMargin.top.value.constant))
      ensures baseStackMargin.right.Some? ==> baseStackMargin.right.value.constant == Inward(right).GetOr(old(baseStackMargin.right.value.constant))
      ensures baseStackMargin.bottom.Some? ==> baseStackMargin.bottom.value.constant == Inward(bottom).GetOr(old(baseStackMargin.bottom.value.constant))
      ensures baseStackMargin.left.Some? ==> baseStackMargin.left.value.constant == left.GetOr(old(baseStackMargin.left.value.constant))
      ensures var m := baseStackMargin;
              && (m.top.Some? ==> m.top.value.active == old(m.top.value.active))
              && (m.right.Some? ==> m.right.value.active == old(m.right.value.active))
              && (m.bottom.Some? ==> m.bottom.value.active == old(m.bottom.value.active))
              && (m.left.Some? ==> m.left.value.active == old(m.left.value.active))
    {
      baseStackMargin.SetSpacing(top, right, bottom, left);
    }

    /**
     * `removeRow(key:)`: an unknown key changes nothing; a known key's
     * wrapper leaves the base stack and its entry leaves the map, the other
     * rows keeping their order.
     */
    method RemoveRow(key: string)
      requires Valid()
      modifies this`arranged, this`viewMap, this`rowKeys
      ensures Valid()
      ensures key !in old(viewMap) ==> arranged == old(arranged) && viewMap == old(viewMap) && rowKeys == old(rowKeys)
      ensures key in old(viewMap) ==> arranged == Without(old(arranged), old(viewMap)[key].wrapper)
      ensures viewMap == old(viewMap) - {key}
      ensures rowKeys == Without(old(rowKeys), key)
    {
      if key in viewMap {
        var ref := viewMap[key];
        RegistryRemove(rowKeys, arranged, viewMap, key);
        arranged := Without(arranged, ref.wrapper);
        viewMap := viewMap - {key};
        rowKeys := Without(rowKeys, key);
      } else {
        RegistryKeys(rowKeys, arranged, viewMap);
        WithoutAbsent(rowKeys, key);
        assert viewMap == old(viewMap) - {key};
      }
    }

    /**
     * `addRow`: drops any row already under `key`, then inserts a new empty
     * row at `position` when the base stack holds more rows than that, or
     * else at the end, and registers it under `key`.
     */
    method AddRow(key: string, spacing: real, margins: Insets, distribution: Distribution, position: Option<int>)
      requires Valid()
      requires position.Some? ==> position.value >= 0
      modifies this`arranged, this`viewMap, this`rowKeys
      ensures Valid()
      ensures rowKeys == Placed(Without(old(rowKeys), key), key, position)
      ensures key in viewMap && Fresh(viewMap[key], spacing, distribution, margins)
      ensures fresh(viewMap[key].wrapper) && fresh(viewMap[key].stack)
      ensures multiset(arranged)[viewMap[key].wrapper] == 1
      ensures viewMap == (old(viewMap) - {key})[key := viewMap[key]]
    {
      var row, wrapper := NewRowStack(margins);
      RemoveRow(key);
      assert forall y | y in arranged :: y in old(arranged);
      Insert(key, Row(wrapper, row, [], spacing, distribution, margins), position);
    }

    /** The insertion half of `addRow`, once `key` is free and the wrapper is new. */
    method Insert(key: string, r: Row, position: Option<int>)
      requires Valid() && key !in viewMap && r.wrapper !in arranged
      requires position.Some? ==> position.value >= 0
      modifies this`arranged, this`viewMap, this`rowKeys
      ensures Valid()
      ensures arranged == Placed(old(arranged), r.wrapper, position)
      ensures rowKeys == Placed(old(rowKeys), key, position)
      ensures viewMap == old(viewMap)[key := r]
      ensures multiset(arranged)[r.wrapper] == 1
    {
      RegistryAdd(rowKeys, arranged, viewMap, key, r, position);
      arranged := Placed(arranged, r.wrapper, position);
      viewMap := viewMap[key := r];
      rowKeys := Placed(rowKeys, key, position);
      RegistryNoDup(rowKeys, arranged, viewMap);
      OccursOnce(arranged, r.wrapper);
    }

    /** `addRow(key:…)` of a new key with the defaults but `margins`: an empty row at the end. */
    method AppendRow(key: string, margins: Insets)
      requires Valid() && key !in rowKeys
      modifies this`arranged, this`viewMap, this`rowKeys
      ensures Valid()
      ensures rowKeys == old(rowKeys) + [key]
      ensures key in viewMap
      ensures viewMap[key] == viewMap[key].(views := [], spacing := DefaultElementSpacing,
                                            distribution := Fill, margins := margins)
      ensures viewMap == (old(viewMap) - {key})[key := viewMap[key]]
    {
      WithoutAbsent(rowKeys, key);
      PlacedAppend(rowKeys, key);
      AddRow(key, DefaultElementSpacing, margins, Fill, None);
    }

    /** `AppendRow`, then `addViewTo(key:view:)` of `view` with the default low priority. */
    method AppendRowWith(key: string, margins: Insets, view: View)
      requires Valid() && key !in rowKeys
      modifies this`arranged, this`viewMap, this`rowKeys, view`hugging, view`compression
      ensures Valid()
      ensures rowKeys == old(rowKeys) + [key]
      ensures key in viewMap
      ensures viewMap[key] == viewMap[key].(views := [view], spacing := DefaultElementSpacing,
                                            distribution := Fill, margins := margins)
      ensures viewMap == (old(viewMap) - {key})[key := viewMap[key]]
      ensures view.hugging == DefaultLow && view.compression == DefaultLow
    {
      AppendRow(key, margins);
      AddViewTo(key, view, DefaultLow, -1);
      PlacedAppend([], view);
    }

    /**
     * `addViewTo(key:view:huggingPriority:indexPosition:)`: an unknown key
     * changes nothing; otherwise the view is appended to the key's row for
     * an index of -1 or less and inserted at the index otherwise, and both
     * of its horizontal priorities become `huggingPriority`.
     */
    method AddViewTo(key: string, view: View, huggingPriority: Priority, indexPosition: int)
      requires Valid()
      requires key in viewMap && indexPosition > -1 ==> indexPosition <= |viewMap[key].views|
      modifies this`viewMap, view`hugging, view`compression
      ensures Valid() && arranged == old(arranged) && rowKeys == old(rowKeys)
      ensures key !in old(viewMap) ==> viewMap == old(viewMap)
      ensures key !in old(viewMap) ==> view.hugging == old(view.hugging) && view.compression == old(view.compression)
      ensures key in old(viewMap) ==>
                viewMap == old(viewMap)[key := old(viewMap)[key].(views := Placed(old(viewMap)[key].views, view, ViewSlot(indexPosition)))]
      ensures key in old(viewMap) ==> view.hugging == huggingPriority && view.compression == huggingPriority
    {
      if key in viewMap {
        var ref := viewMap[key];
        var r := ref.(views := Placed(ref.views, view, ViewSlot(indexPosition)));
        RegistryUpdate(rowKeys, arranged, viewMap, key, r);
        viewMap := viewMap[key := r];
        view.compression := huggingPriority;
        view.hugging := huggingPriority;
      }
    }

    /**
     * `removeFromSuperview()` of a view arranged in the row under `key`:
     * the view leaves that row; nothing else changes.
     */
    method DetachFromRow(key: string, view: View)
      requires Valid()
      modifies this`viewMap
      ensures Valid() && arranged == old(arranged) && rowKeys == old(rowKeys)
      ensures key !in old(viewMap) ==> viewMap == old(viewMap)
      ensures key in old(viewMap) ==>
                viewMap == old(viewMap)[key := old(viewMap)[key].(views := Without(old(viewMap)[key].views, view))]
    {
      if key in viewMap {
        var ref := viewMap[key];
        var r := ref.(views := Without(ref.views, view));
        RegistryUpdate(rowKeys, arranged, viewMap, key, r);
        viewMap := viewMap[key := r];
      }
    }

    /** `removeAllView()`: removes every row, in whatever order the map yields them. */
    method RemoveAllView()
      requires Valid()
      modifies this`arranged, this`viewMap, this`rowKeys
      ensures Valid() && viewMap == map[] && arranged == [] && rowKeys == []
    {
      while viewMap != map[]
        invariant Valid()
        decreases |viewMap|
      {
        var key :| key in viewMap;
        RemoveRow(key);
      }
      viewMap := map[];
    }
  }
}
