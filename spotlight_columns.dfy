/** How many columns of reflection groups the spotlight view shows, from
    packages/client/hooks/useSpotlightColumns.ts.

    The card width `ElementWidth.MEETING_CARD_WITH_MARGIN` and the cap
    `MAX_SPOTLIGHT_COLUMNS` are defined elsewhere in the repository; they are
    the constants `cardWidth` and `maxColumns` of a `SpotlightColumnsHook` object. */
module SpotlightColumns {
  import opened Wrappers

  /** A card width in pixels; the source's constant is positive. */
  type CardWidth = w: nat | w > 0 witness 1

  /** `minColumns`: never fewer than one column. */
  const MIN_COLUMNS: int := 1

  /** `minGroupsPerColumn`: below this many groups per column, drop a column. */
  const MIN_GROUPS_PER_COLUMN: int := 2

  function Max(a: int, b: int): int
  {
    if a >= b then a else b
  }

  /** `maxPossibleColumns`: as many whole cards as fit in the width, capped
      by `maxColumns`, and never fewer than one. */
  function MaxPossibleColumns(width: nat, cardWidth: CardWidth, maxColumns: int): (m: int)
    ensures MIN_COLUMNS <= m <= Max(maxColumns, MIN_COLUMNS)
    ensures m == MIN_COLUMNS || (m <= maxColumns && m * cardWidth <= width)
    ensures m == MIN_COLUMNS || m == maxColumns || width < (m + 1) * cardWidth
    ensures m == MIN_COLUMNS ==> width < 2 * cardWidth || maxColumns <= MIN_COLUMNS
  {
    var maxColumnsInRef := width / cardWidth;
    var capped := if maxColumnsInRef <= maxColumns then maxColumnsInRef else maxColumns;
    Max(capped, MIN_COLUMNS)
  }

  /** `columnsCount`: the possible columns, one fewer when the smallest column
      would hold fewer than two groups (unless there is only one column). */
  function ColumnsCount(width: nat, groupsCount: nat, cardWidth: CardWidth, maxColumns: int): (n: int)
    ensures var m := MaxPossibleColumns(width, cardWidth, maxColumns);
      && (n == m - 1 <==> groupsCount / m < MIN_GROUPS_PER_COLUMN && m != MIN_COLUMNS)
      && (n == m || n == m - 1)
    ensures MIN_COLUMNS <= n <= Max(maxColumns, MIN_COLUMNS)
  {
    var maxPossibleColumns := MaxPossibleColumns(width, cardWidth, maxColumns);
    var groupsInSmallestColumn := groupsCount / maxPossibleColumns;
    if groupsInSmallestColumn < MIN_GROUPS_PER_COLUMN && maxPossibleColumns != MIN_COLUMNS then
      maxPossibleColumns - 1
    else
      maxPossibleColumns
  }

  /** `[...Array(n).keys()]`: the column indices `0, 1, ..., n - 1`. */
  function Range(n: nat): (r: seq<nat>)
    ensures |r| == n
    ensures forall i :: 0 <= i < |r| ==> r[i] == i
  {
    seq(n, i requires 0 <= i => i)
  }

  /** The column list a measured, non-zero width produces. */
  function ColumnsFor(width: nat, groupsCount: nat, cardWidth: CardWidth, maxColumns: int): (cols: seq<nat>)
    ensures groupsCount <= 2 ==> cols == [0]
    ensures groupsCount > 2 ==> |cols| == ColumnsCount(width, groupsCount, cardWidth, maxColumns)
    ensures MIN_COLUMNS <= |cols| <= Max(maxColumns, MIN_COLUMNS)
    ensures forall i :: 0 <= i < |cols| ==> cols[i] == i
    ensures forall i, j :: 0 <= i < j < |cols| ==> cols[i] < cols[j]
  {
    if groupsCount <= 2 then [0] else Range(ColumnsCount(width, groupsCount, cardWidth, maxColumns))
  }

  /** The `columns` state of the hook; `None` is its initial `null`. */
  class SpotlightColumnsHook {
    const cardWidth: CardWidth
    const maxColumns: int
    var columns: Option<seq<nat>>

    constructor (cardWidth: CardWidth, maxColumns: int)
      ensures this.cardWidth == cardWidth && this.maxColumns == maxColumns
      ensures columns == None
    {
      this.cardWidth := cardWidth;
      this.maxColumns := maxColumns;
      columns := None;
    }

    /** `getColumns`: `width` is the element's `clientWidth`, `None` when the
        element is missing. A missing element or a zero width leaves the
        columns as they were. */
    method GetColumns(width: Option<nat>, groupsCount: nat)
      modifies this`columns
      ensures width.None? || width.value == 0 ==> columns == old(columns)
      ensures width.Some? && width.value > 0 ==>
        columns == Some(ColumnsFor(width.value, groupsCount, cardWidth, maxColumns))
    {
      if width.None? || width.value == 0 {
        return;
      }
      columns := Some(ColumnsFor(width.value, groupsCount, cardWidth, maxColumns));
    }
  }
}
