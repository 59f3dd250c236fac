/**
 * Ordered-collection operations shared by the card's base stack, its rows
 * and the text field's side stacks (UIStackView's arranged subviews).
 */
module Sequences {
  import opened Options

  /** No element occurs twice. */
  predicate NoDup<T(==)>(s: seq<T>) {
    forall i, j | 0 <= i < j < |s| :: s[i] != s[j]
  }

  /** A sequence has no duplicates when its head is not in its tail and its tail has none. */
  lemma NoDupCons<T>(s: seq<T>)
    requires s != [] && s[0] !in s[1..] && NoDup(s[1..])
    ensures NoDup(s)
  {
    forall i, j | 0 <= i < j < |s|
      ensures s[i] != s[j]
    {
      assert s[j] == s[1..][j - 1];
      if i > 0 {
        assert s[i] == s[1..][i - 1];
      }
    }
  }

  /** Appending an element that is not there yet keeps a sequence free of duplicates. */
  lemma NoDupSnoc<T>(s: seq<T>, x: T)
    requires NoDup(s) && x !in s
    ensures NoDup(s + [x])
  {
    var r := s + [x];
    forall i, j | 0 <= i < j < |r|
      ensures r[i] != r[j]
    {
      if j < |s| {
        assert r[i] == s[i] && r[j] == s[j];
      } else {
        assert r[i] == s[i] && r[i] in s;
      }
    }
  }

  /** `s` with every occurrence of `x` removed, the rest in order. */
  function Without<T(==)>(s: seq<T>, x: T): (r: seq<T>)
    ensures forall y | y in r :: y in s && y != x
    ensures forall y | y in s && y != x :: y in r
    ensures |r| <= |s|
    ensures x in s ==> |r| < |s|
    ensures NoDup(s) ==> NoDup(r)
  {
    if s == [] then []
    else if s[0] == x then Without(s[1..], x)
    else
      var rest := Without(s[1..], x);
      assert NoDup(s) ==> NoDup(s[1..]) && s[0] !in s[1..];
      [s[0]] + rest
  }

  /** `s` with the element at index `i` taken out. */
  function RemoveAt<T>(s: seq<T>, i: nat): (r: seq<T>)
    requires i < |s|
    ensures |r| == |s| - 1
    ensures forall j | 0 <= j < |r| :: r[j] == if j < i then s[j] else s[j + 1]
  {
    s[..i] + s[i + 1..]
  }

  /** On a sequence without duplicates, removing a value is removing its one index. */
  lemma {:induction false} WithoutAt<T>(s: seq<T>, i: nat)
    requires NoDup(s) && i < |s|
    ensures Without(s, s[i]) == RemoveAt(s, i)
  {
    if i == 0 {
      assert forall j | 0 < j < |s| :: s[j] != s[0];
      WithoutAbsent(s[1..], s[0]);
      assert s[1..] == RemoveAt(s, 0);
    } else {
      assert NoDup(s[1..]);
      WithoutAt(s[1..], i - 1);
      assert s[0] != s[i];
      assert [s[0]] + RemoveAt(s[1..], i - 1) == RemoveAt(s, i);
    }
  }

  /** Removing a value that does not occur changes nothing. */
  lemma {:induction false} WithoutAbsent<T>(s: seq<T>, x: T)
    requires x !in s
    ensures Without(s, x) == s
  {
    if s != [] {
      assert s[1..] + [] == s[1..];
      WithoutAbsent(s[1..], x);
      assert [s[0]] + s[1..] == s;
    }
  }

  /** Removal distributes over concatenation. */
  lemma {:induction false} WithoutAppend<T>(s: seq<T>, t: seq<T>, x: T)
    ensures Without(s + t, x) == Without(s, x) + Without(t, x)
  {
    if s != [] {
      assert (s + t)[1..] == s[1..] + t;
      WithoutAppend(s[1..], t, x);
    } else {
      assert s + t == t;
    }
  }

  /** The index at which `Placed` puts its element: `position` when it is below `n`, else the end. */
  function Slot(n: nat, position: Option<int>): (k: nat)
    requires position.Some? ==> position.value >= 0
    ensures k <= n
    ensures k < n <==> position.Some? && position.value < n
  {
    if position.Some? && position.value < n then position.value else n
  }

  /**
   * UIStackView insertion as the card uses it: insert at `position` when
   * the stack holds more elements than that, otherwise append.
   */
  function Placed<T>(s: seq<T>, x: T, position: Option<int>): (r: seq<T>)
    requires position.Some? ==> position.value >= 0
    ensures |r| == |s| + 1
    ensures r[Slot(|s|, position)] == x
    ensures RemoveAt(r, Slot(|s|, position)) == s
  {
    var k := Slot(|s|, position);
    var r := s[..k] + [x] + s[k..];
    assert RemoveAt(r, k) == s;
    r
  }

  /** `Placed` is UIStackView's `insertArrangedSubview(_:at:)` below the count and `addArrangedSubview` otherwise. */
  lemma PlacedIsInsertOrAppend<T>(s: seq<T>, x: T, position: Option<int>)
    requires position.Some? ==> position.value >= 0
    ensures Placed(s, x, position)
         == if position.Some? && |s| > position.value then s[..position.value] + [x] + s[position.value..] else s + [x]
  {
  }

  /** Without a position, `Placed` appends. */
  lemma PlacedAppend<T>(s: seq<T>, x: T)
    ensures Placed(s, x, None) == s + [x]
  {
  }

  /** At position 0 of a non-empty sequence, `Placed` prepends. */
  lemma PlacedFront<T>(s: seq<T>, x: T)
    requires s != []
    ensures Placed(s, x, Some(0)) == [x] + s
  {
  }

  /** Element `j` of a placed sequence, by where it lies relative to the slot. */
  lemma PlacedAt<T>(s: seq<T>, x: T, position: Option<int>, j: nat)
    requires position.Some? ==> position.value >= 0
    requires j < |s| + 1
    ensures var k := Slot(|s|, position);
            Placed(s, x, position)[j] == if j < k then s[j] else if j == k then x else s[j - 1]
  {
    var k := Slot(|s|, position);
    var r := Placed(s, x, position);
    if j != k {
      assert RemoveAt(r, k)[if j < k then j else j - 1] == r[j];
    }
  }

  /** Placing a new element keeps a sequence free of duplicates. */
  lemma PlacedNoDup<T>(s: seq<T>, x: T, position: Option<int>)
    requires position.Some? ==> position.value >= 0
    requires NoDup(s) && x !in s
    ensures NoDup(Placed(s, x, position))
    ensures forall y | y in Placed(s, x, position) :: y in s || y == x
    ensures x in Placed(s, x, position) && forall y | y in s :: y in Placed(s, x, position)
  {
    var r := Placed(s, x, position);
    var k := Slot(|s|, position);
    assert r == s[..k] + [x] + s[k..] && s == s[..k] + s[k..];
    forall i, j | 0 <= i < j < |r|
      ensures r[i] != r[j]
    {
      PlacedAt(s, x, position, i);
      PlacedAt(s, x, position, j);
    }
  }

  /** An element of a sequence without duplicates occurs exactly once. */
  lemma {:induction false} OccursOnce<T>(s: seq<T>, x: T)
    requires NoDup(s) && x in s
    ensures multiset(s)[x] == 1
  {
    assert s == [s[0]] + s[1..];
    assert NoDup(s[1..]);
    if s[0] == x {
      assert x !in s[1..];
    } else {
      OccursOnce(s[1..], x);
    }
  }
}
