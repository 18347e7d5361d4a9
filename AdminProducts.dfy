/** The sorting state of the admin products table: the columns, the initial
    page and sort, the `handleSort` updater and the header click that calls
    it unless the column disables sorting. */
module AdminProducts {

  /** `{ id, desc }`: the sorted column's id ("" for none) and direction. */
  datatype SortBy = SortBy(id: string, desc: bool)

  /** A table column: its header text, its id (the accessor, or the header
      text when there is no accessor) and whether sorting is disabled. */
  datatype Column = Column(header: string, id: string, disableSortBy: bool)

  const Columns: seq<Column> := [
    Column("Image", "photo", true),
    Column("Product", "name", false),
    Column("Category", "category", false),
    Column("Stock", "stock", false),
    Column("Price", "price", false),
    Column("Actions", "Actions", true)
  ]

  /** The ids a header click can sort by. */
  function SortableIds(): set<string>
  {
    set c | c in Columns && !c.disableSortBy :: c.id
  }

  datatype TableState = TableState(page: int, limit: int, sortBy: SortBy)

  /** Page 1, ten rows, nothing sorted. */
  const InitialState: TableState := TableState(1, 10, SortBy("", false))

  /** `handleSort(columnId)` as the updater it passes to setSortBy. */
  function HandleSort(prev: SortBy, columnId: string): (next: SortBy)
    ensures next.id == columnId
    ensures prev.id == columnId ==> next.desc == !prev.desc
    ensures prev.id != columnId ==> !next.desc
  {
    if prev.id == columnId then SortBy(columnId, !prev.desc) else SortBy(columnId, false)
  }

  /** Sorting by the sorted column twice restores the sort; sorting by a new
      column twice leaves it sorted descending. */
  lemma HandleSortTwice(prev: SortBy, columnId: string)
    ensures prev.id == columnId ==> HandleSort(HandleSort(prev, columnId), columnId) == prev
    ensures prev.id != columnId ==> HandleSort(HandleSort(prev, columnId), columnId) == SortBy(columnId, true)
  {
  }

  /** A header's onClick: `!disableSortBy && handleSort(id)`. */
  function HeaderClick(prev: SortBy, column: Column): (next: SortBy)
    ensures column.disableSortBy ==> next == prev
    ensures !column.disableSortBy ==> next == HandleSort(prev, column.id)
  {
    if column.disableSortBy then prev else HandleSort(prev, column.id)
  }

  /** The sort after clicking the headers at the given column positions,
      one after the other. */
  function AfterClicks(start: SortBy, clicks: seq<int>): SortBy
    requires forall i :: 0 <= i < |clicks| ==> 0 <= clicks[i] < |Columns|
    decreases clicks
  {
    if clicks == [] then start
    else AfterClicks(HeaderClick(start, Columns[clicks[0]]), clicks[1..])
  }

  /** Whatever headers are clicked, the table is never sorted by the image
      or the actions column: the sort id stays "" or a sortable id. */
  lemma {:induction false} ClicksKeepSortable(start: SortBy, clicks: seq<int>)
    requires forall i :: 0 <= i < |clicks| ==> 0 <= clicks[i] < |Columns|
    requires start.id == "" || start.id in SortableIds()
    ensures AfterClicks(start, clicks).id == "" || AfterClicks(start, clicks).id in SortableIds()
    ensures AfterClicks(start, clicks).id != "photo" && AfterClicks(start, clicks).id != "Actions"
    decreases clicks
  {
    assert SortableIds() == {"name", "category", "stock", "price"} by {
      assert Columns[1] in Columns && Columns[2] in Columns && Columns[3] in Columns && Columns[4] in Columns;
    }
    if clicks != [] {
      var next := HeaderClick(start, Columns[clicks[0]]);
      assert next.id == "" || next.id in SortableIds() by {
        if !Columns[clicks[0]].disableSortBy {
          assert Columns[clicks[0]] in Columns;
        }
      }
      ClicksKeepSortable(next, clicks[1..]);
    }
  }

  /** From the initial state in particular. */
  lemma InitialSortStaysSortable(clicks: seq<int>)
    requires forall i :: 0 <= i < |clicks| ==> 0 <= clicks[i] < |Columns|
    ensures AfterClicks(InitialState.sortBy, clicks).id == "" || AfterClicks(InitialState.sortBy, clicks).id in SortableIds()
  {
    ClicksKeepSortable(InitialState.sortBy, clicks);
  }
}
