/**
 * The files list's grid layout and its placeholders: how `FilesGridContent` cuts
 * the links into rows of `itemsPerRow` cells, and which parts the empty and the
 * error placeholders show.
 */
module FilesListLayout {
  import opened Wrappers

  /** `require(itemsPerRow > 0)` failed. */
  datatype GridError = ItemsPerRowNotPositive(itemsPerRow: int)

  /** One grid cell: the link shown there, or a spacer of the same weight. */
  datatype Cell<T> = Item(link: T) | Spacer

  /** Integer ceiling of `n / k`, which the float `ceil(size / itemsPerRow)` computes. */
  function CeilDiv(n: nat, k: nat): nat
    requires k > 0
  {
    (n + k - 1) / k
  }

  /** The list element at `index`; a null paging slot and an index past the end give none. */
  function ItemAt<T>(items: seq<Option<T>>, index: int): Option<T> {
    if 0 <= index < |items| then items[index] else None
  }

  /** The list index the cell at (row, slot) looks up. */
  function CellIndex(itemsPerRow: nat, row: nat, slot: nat): nat {
    row * itemsPerRow + slot
  }

  function CellAt<T>(items: seq<Option<T>>, itemsPerRow: nat, row: nat, slot: nat): Cell<T> {
    var link := ItemAt(items, CellIndex(itemsPerRow, row, slot));
    if link.Some? then Item(link.value) else Spacer
  }

  function GridRow<T>(items: seq<Option<T>>, itemsPerRow: nat, row: nat): seq<Cell<T>> {
    seq(itemsPerRow, slot requires 0 <= slot < itemsPerRow => CellAt(items, itemsPerRow, row, slot))
  }

  /** The rows of the grid, or the failure of its precondition on `itemsPerRow`. */
  function FilesGridContent<T>(items: seq<Option<T>>, itemsPerRow: int): (r: Result<seq<seq<Cell<T>>>, GridError>)
    ensures r.Failure? <==> itemsPerRow <= 0
    ensures r.Failure? ==> r.error == ItemsPerRowNotPositive(itemsPerRow)
    ensures r.Success? ==> |r.value| == CeilDiv(|items|, itemsPerRow)
    ensures r.Success? ==> forall row :: 0 <= row < |r.value| ==> |r.value[row]| == itemsPerRow
  {
    if itemsPerRow <= 0 then Failure(ItemsPerRowNotPositive(itemsPerRow))
    else Success(seq(CeilDiv(|items|, itemsPerRow), row requires 0 <= row => GridRow(items, itemsPerRow, row)))
  }

  // ---------------------------------------------------------------------------
  // Arithmetic helpers

  lemma MulMonotone(a: nat, b: nat, k: nat)
    requires a <= b
    ensures a * k <= b * k
  {
    assert b * k == a * k + (b - a) * k;
  }

  /** `row * k + slot` with `slot < k` is the Euclidean split of that index. */
  lemma SplitIsUnique(row: nat, slot: nat, k: nat)
    requires 0 <= slot < k
    ensures (row * k + slot) / k == row && (row * k + slot) % k == slot
  {
    var i := row * k + slot;
    var q, s := i / k, i % k;
    assert i == q * k + s;
    assert (q + 1) * k == q * k + k;
    assert (row + 1) * k == row * k + k;
    if q < row {
      MulMonotone(q + 1, row, k);
    } else if q > row {
      MulMonotone(row + 1, q, k);
    }
  }

  // ---------------------------------------------------------------------------
  // Properties of the grid

  /** The row count is the least number of rows of `k` cells that hold every item. */
  lemma RowCountIsCeiling(size: nat, k: nat)
    requires k > 0
    ensures CeilDiv(size, k) * k >= size
    ensures CeilDiv(size, k) > 0 ==> (CeilDiv(size, k) - 1) * k < size
    ensures size == 0 <==> CeilDiv(size, k) == 0
  {
    var q := CeilDiv(size, k);
    var r := (size + k - 1) % k;
    assert size + k - 1 == q * k + r;
    assert (q + 1) * k == q * k + k;
    if q > 0 {
      assert (q - 1) * k == q * k - k;
    }
    if size == 0 {
      SplitIsUnique(0, k - 1, k);
    }
  }

  /** The cell at (row, slot) shows item `row * k + slot`, or a spacer when there is none. */
  lemma CellShowsItemAtIndex<T>(items: seq<Option<T>>, k: int, row: nat, slot: nat)
    requires k > 0
    requires row < CeilDiv(|items|, k) && slot < k
    ensures var grid := FilesGridContent(items, k).value;
            && (grid[row][slot] == Spacer <==> ItemAt(items, row * k + slot).None?)
            && (grid[row][slot].Item? ==> grid[row][slot].link == items[row * k + slot].value)
  {
  }

  /**
   * Every item index lies in exactly one cell: row `i / k`, slot `i % k`, and
   * no other (row, slot) looks it up.
   */
  lemma EveryIndexHasExactlyOneCell(size: nat, k: nat, i: nat)
    requires k > 0 && i < size
    ensures i / k < CeilDiv(size, k) && i % k < k && (i / k) * k + i % k == i
    ensures forall row: nat, slot: nat :: slot < k && CellIndex(k, row, slot) == i ==> row == i / k && slot == i % k
  {
    RowCountIsCeiling(size, k);
    var q := CeilDiv(size, k);
    if i / k >= q {
      MulMonotone(q, i / k, k);
    }
    forall row: nat, slot: nat | slot < k && CellIndex(k, row, slot) == i
      ensures row == i / k && slot == i % k
    {
      SplitIsUnique(row, slot, k);
    }
  }

  /** Every looked-up index is below `rows * k`; cells past the last item are spacers. */
  lemma CellIndicesAreBelowCapacity<T>(items: seq<Option<T>>, k: int, row: nat, slot: nat)
    requires k > 0
    requires row < CeilDiv(|items|, k) && slot < k
    ensures row * k + slot < CeilDiv(|items|, k) * k
    ensures row * k + slot >= |items| ==> FilesGridContent(items, k).value[row][slot] == Spacer
  {
    MulMonotone(row + 1, CeilDiv(|items|, k), k);
    assert (row + 1) * k == row * k + k;
  }

  // ---------------------------------------------------------------------------
  // Placeholders

  /** The parts of the empty placeholder, top to bottom. */
  datatype EmptyPart =
    | EmptyImage(imageResId: int)
    | EmptyTitle(titleResId: int)
    | EmptyDescription(descriptionResId: int)
    | EmptyAction(actionResId: int)

  function FilesListEmpty(imageResId: int, titleResId: int, descriptionResId: int, actionResId: int): seq<EmptyPart> {
    [EmptyImage(imageResId), EmptyTitle(titleResId)]
    + (if descriptionResId != 0 then [EmptyDescription(descriptionResId)] else [])
    + (if actionResId != 0 then [EmptyAction(actionResId)] else [])
  }

  /** The image and title are always shown; the description and the action only for a non-zero resource id. */
  lemma EmptyPlaceholderParts(imageResId: int, titleResId: int, descriptionResId: int, actionResId: int)
    ensures var parts := FilesListEmpty(imageResId, titleResId, descriptionResId, actionResId);
            && |parts| >= 2 && parts[0] == EmptyImage(imageResId) && parts[1] == EmptyTitle(titleResId)
            && ((exists p :: p in parts && p.EmptyDescription?) <==> descriptionResId != 0)
            && ((exists p :: p in parts && p.EmptyAction?) <==> actionResId != 0)
            && (EmptyDescription(descriptionResId) in parts <==> descriptionResId != 0)
            && (EmptyAction(actionResId) in parts <==> actionResId != 0)
  {
    var parts := FilesListEmpty(imageResId, titleResId, descriptionResId, actionResId);
    if descriptionResId != 0 {
      assert parts[2] == EmptyDescription(descriptionResId);
    }
    if actionResId != 0 {
      assert parts[|parts| - 1] == EmptyAction(actionResId);
    }
  }

  /** The error placeholder: the message with an action button, or the message alone. */
  datatype ErrorView = ErrorMessageWithAction(message: string, actionResId: int) | ErrorMessage(message: string)

  function FilesListError(message: string, actionResId: Option<int>): ErrorView {
    if actionResId.Some? then ErrorMessageWithAction(message, actionResId.value) else ErrorMessage(message)
  }

  lemma ErrorPlaceholderAction(message: string, actionResId: Option<int>)
    ensures FilesListError(message, actionResId).message == message
    ensures FilesListError(message, actionResId).ErrorMessageWithAction? <==> actionResId.Some?
    ensures actionResId.Some? ==> FilesListError(message, actionResId).actionResId == actionResId.value
  {
  }
}
