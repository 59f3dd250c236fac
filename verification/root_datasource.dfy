/**
 * JRARootDatasource: the list of items a table shows, one row per item in
 * a single section, and the reloads the list asks of its table view when
 * an item is set.
 */
module RootDatasource {
  import opened Options

  /** The default reuse identifier of the table's cells. */
  const CellId := "JRARootDatasource_Cell_ID"

  /** UITableView.RowAnimation. */
  datatype RowAnimation = Fade | Right | Left | Top | Bottom | NoAnimation | Middle | Automatic

  /** A reload asked of the table view: all of it, or the given rows of section 0. */
  datatype Reload = Whole | Rows(rows: seq<int>, animation: RowAnimation)

  /**
   * The list after `set(data:at:)`: a negative index puts the item first,
   * an index past the last item appends it, any other index replaces the
   * item there.
   */
  function Updated<T>(items: seq<T>, item: T, index: int): (r: seq<T>)
    ensures |r| == if 0 <= index < |items| then |items| else |items| + 1
    ensures index < 0 ==> r[0] == item && r[1..] == items
    ensures index >= |items| ==> r[|items|] == item && r[..|items|] == items
    ensures 0 <= index < |items| ==>
              r[index] == item && forall j | 0 <= j < |items| && j != index :: r[j] == items[j]
  {
    if index < 0 then [item] + items
    else if |items| - 1 >= index then items[index := item]
    else items + [item]
  }

  /**
   * The reloads `set(data:at:)` asks for: none without `triggerReload`,
   * the one replaced row when an item is replaced, the whole table when
   * the list grows.
   */
  function ReloadFor(count: nat, index: int, triggerReload: bool, animation: RowAnimation): (r: seq<Reload>)
    ensures |r| <= 1
    ensures r == [] <==> !triggerReload
    ensures triggerReload && 0 <= index < count ==> r == [Rows([index], animation)]
    ensures triggerReload && !(0 <= index < count) ==> r == [Whole]
  {
    if !triggerReload then []
    else if index < 0 || count - 1 < index then [Whole]
    else [Rows([index], animation)]
  }

  /** A single-row reload names exactly the row that now holds the item. */
  lemma ReloadedRowHoldsItem<T>(items: seq<T>, item: T, index: int, animation: RowAnimation)
    requires ReloadFor(|items|, index, true, animation) != [Whole]
    ensures var reload := ReloadFor(|items|, index, true, animation)[0];
            && reload.Rows? && |reload.rows| == 1
            && 0 <= reload.rows[0] < |Updated(items, item, index)|
            && Updated(items, item, index)[reload.rows[0]] == item
  {
  }

  /** Every item set is in the list afterwards, and every item kept from before is too, except the one replaced. */
  lemma {:induction false} UpdatedKeeps<T>(items: seq<T>, item: T, index: int)
    ensures item in Updated(items, item, index)
    ensures forall j | 0 <= j < |items| && j != index :: items[j] in Updated(items, item, index)
  {
    var r := Updated(items, item, index);
    if index < 0 {
      assert r == [item] + items;
      assert forall j | 0 <= j < |items| :: r[j + 1] == items[j];
    } else if index >= |items| {
      assert r == items + [item];
      assert forall j | 0 <= j < |items| :: r[j] == items[j];
    } else {
      assert r[index] == item;
    }
  }

  class Datasource<T> {
    /** `datas`: the items, one per row. */
    var datas: seq<T>
    /** The reloads asked of the table view so far, in order. */
    var reloads: seq<Reload>
    /** The reuse identifier of every cell. */
    const singleCellIdentifier: string

    constructor (singleCellIdentifier: string)
      ensures datas == [] && reloads == [] && this.singleCellIdentifier == singleCellIdentifier
    {
      datas := [];
      reloads := [];
      this.singleCellIdentifier := singleCellIdentifier;
    }

    /** `init` without a reuse identifier: every cell uses the default one. */
    constructor WithDefaultIdentifier()
      ensures datas == [] && reloads == [] && singleCellIdentifier == CellId
    {
      datas := [];
      reloads := [];
      singleCellIdentifier := CellId;
    }

    /** `set(data:at:triggerReload:with:)`. */
    method Set(data: T, index: int, triggerReload: bool, animation: RowAnimation)
      modifies this`datas, this`reloads
      ensures datas == Updated(old(datas), data, index)
      ensures reloads == old(reloads) + ReloadFor(|old(datas)|, index, triggerReload, animation)
    {
      if index < 0 {
        datas := [data] + datas;
        if triggerReload { ReloadTable(None, NoAnimation); }
        return;
      }
      if |datas| - 1 < index {
        datas := datas + [data];
        if triggerReload { ReloadTable(None, NoAnimation); }
        return;
      }
      datas := datas[index := data];
      if triggerReload { ReloadTable(Some([index]), animation); }
    }

    /** `setDatas(_:triggerReload:)`: the list is replaced as a whole; a trigger reloads the whole table. */
    method SetDatas(datas: seq<T>, triggerReload: bool)
      modifies this`datas, this`reloads
      ensures this.datas == datas
      ensures reloads == old(reloads) + if triggerReload then [Whole] else []
    {
      this.datas := datas;
      if triggerReload { ReloadTable(None, NoAnimation); }
    }

    /** `tableView(_:numberOfRowsInSection:)`: one row per item, in whichever section. */
    function NumberOfRows(section: int): (n: nat)
      reads this
      ensures n == |datas|
    {
      |datas|
    }

    /** `reloadTable(at:with:)`: no rows reloads the whole table, otherwise just the given rows. */
    method ReloadTable(indexPaths: Option<seq<int>>, animation: RowAnimation)
      modifies this`reloads
      ensures reloads == old(reloads) + [if indexPaths.None? then Whole else Rows(indexPaths.value, animation)]
    {
      match indexPaths {
        case None => reloads := reloads + [Whole];
        case Some(rows) => reloads := reloads + [Rows(rows, animation)];
      }
    }
  }
}
