/**
 * The selection cursor of a list panel: ratatui's `ListState`, with the
 * two moves the application uses, `select_next` and `select_previous`.
 * Both work on Rust's `usize` and saturate at its bounds instead of
 * wrapping; neither looks at the length of the list being shown.
 */
module Cursor {
  import opened Wrappers

  /** The largest `usize` on a 64-bit target. */
  const USIZE_MAX: int := 0xFFFF_FFFF_FFFF_FFFF

  type Usize = n: int | 0 <= n <= USIZE_MAX

  /** The selected row, if any, and the index of the first visible row. */
  datatype ListState = ListState(selected: Option<Usize>, offset: Usize)

  /** `ListState::default()`: nothing selected, not scrolled. */
  function Default(): ListState
  {
    ListState(None, 0)
  }

  /** `select_next`: one row further down; with nothing selected, the first row. */
  function SelectNext(c: ListState): (d: ListState)
    ensures d.offset == c.offset && d.selected.Some?
    ensures c.selected.None? ==> d.selected == Some(0)
    ensures c.selected.Some? && c.selected.value < USIZE_MAX ==> d.selected.value == c.selected.value + 1
    ensures c.selected == Some(USIZE_MAX) ==> d == c
  {
    var next := match c.selected
      case None => 0
      case Some(i) => if i < USIZE_MAX then i + 1 else USIZE_MAX;
    c.(selected := Some(next))
  }

  /** `select_previous`: one row further up; with nothing selected, the last possible row. */
  function SelectPrevious(c: ListState): (d: ListState)
    ensures d.offset == c.offset && d.selected.Some?
    ensures c.selected.None? ==> d.selected == Some(USIZE_MAX)
    ensures c.selected.Some? && c.selected.value > 0 ==> d.selected.value == c.selected.value - 1
    ensures c.selected == Some(0) ==> d == c
  {
    var previous := match c.selected
      case None => USIZE_MAX
      case Some(i) => if i > 0 then i - 1 else 0;
    c.(selected := Some(previous))
  }

  /** Moving down and then up returns to the row it started on, unless the cursor was pinned at the bottom. */
  lemma PreviousUndoesNext(c: ListState)
    requires c.selected.Some? && c.selected.value < USIZE_MAX
    ensures SelectPrevious(SelectNext(c)) == c
  {
  }

  /** Moving up and then down returns to the row it started on, unless the cursor was pinned at the top. */
  lemma NextUndoesPrevious(c: ListState)
    requires c.selected.Some? && c.selected.value > 0
    ensures SelectNext(SelectPrevious(c)) == c
  {
  }
}
