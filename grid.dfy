/**
 * Card grids: the product and category pages lay their cards out
 * `cards_per_row` to a row, advancing a column counter and wrapping it into
 * the next row.
 */
module Grid {

  const CardsPerRow: nat := 4

  /** A card in the grid layout: the item shown and its cell. */
  datatype Cell<T> = Cell(item: T, row: nat, col: nat)

  /** The k-th card sits at `(k / 4, k % 4)`. */
  function Cells<T>(items: seq<T>): (cells: seq<Cell<T>>)
    ensures |cells| == |items|
    ensures forall k | 0 <= k < |items| ::
      cells[k].item == items[k] && cells[k].col < CardsPerRow && cells[k].row * CardsPerRow + cells[k].col == k
  {
    seq(|items|, k requires 0 <= k < |items| => Cell(items[k], k / CardsPerRow, k % CardsPerRow))
  }

  /** No two cards share a cell, and the cards fill the rows left to right, top to bottom. */
  lemma CellsDistinct<T>(items: seq<T>, i: nat, j: nat)
    requires i < j < |items|
    ensures var cells := Cells(items);
      && (cells[i].row, cells[i].col) != (cells[j].row, cells[j].col)
      && (cells[i].row < cells[j].row || (cells[i].row == cells[j].row && cells[i].col < cells[j].col))
  {
    var cells := Cells(items);
    assert cells[i].row * CardsPerRow + cells[i].col == i;
    assert cells[j].row * CardsPerRow + cells[j].col == j;
  }

  /** The loop that adds one card per item: `col += 1`, and at `cards_per_row` back to 0 on the next row. */
  method PlaceCards<T>(items: seq<T>) returns (cells: seq<Cell<T>>)
    ensures cells == Cells(items)
  {
    cells := [];
    var row: nat, col: nat := 0, 0;
    var k := 0;
    while k < |items|
      invariant 0 <= k <= |items|
      invariant row == k / CardsPerRow && col == k % CardsPerRow
      invariant cells == Cells(items[..k])
    {
      cells := cells + [Cell(items[k], row, col)];
      col := col + 1;
      if col >= CardsPerRow {
        col := 0;
        row := row + 1;
      }
      k := k + 1;
      assert items[..k][..k - 1] == items[..k - 1];
    }
    assert items[..k] == items;
  }
}
