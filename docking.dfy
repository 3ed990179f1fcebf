/**
 * Positions of dockable windows (DockableWindowConstants) and the validity
 * test DockableWindow.isValidPosition. Neither class is part of this model:
 * the values are the indices of the placement combo box of the source
 * browser options panel, which lists top, left, bottom, right and floating
 * in that order and is read and written with the position as its index.
 */
module Docking {

  const TOP: int := 0
  const LEFT: int := 1
  const BOTTOM: int := 2
  const RIGHT: int := 3
  const FLOATING: int := 4

  predicate IsValidPosition(position: int) {
    TOP <= position <= FLOATING
  }

  /**
   * The validation idiom shared by the options panels and the preferences:
   * keep a valid position, otherwise use the fallback.
   */
  function PositionOr(position: int, fallback: int): (r: int)
    ensures IsValidPosition(position) ==> r == position
    ensures !IsValidPosition(position) ==> r == fallback
    ensures IsValidPosition(fallback) ==> IsValidPosition(r)
  {
    if IsValidPosition(position) then position else fallback
  }
}
