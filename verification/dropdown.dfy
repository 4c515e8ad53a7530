/**
 * Keyboard navigation of `useDropdownNavigation`: the active index over a
 * list of items, moved by arrow keys, reset by Escape or a new list, and
 * selected with Enter.
 */
module DropdownNavigation {
  import opened Wrappers

  /** The `KeyboardEvent.key` names the handler reacts to; every other name is ignored. */
  const ArrowDown := "ArrowDown"
  const ArrowUp := "ArrowUp"
  const Enter := "Enter"
  const Escape := "Escape"

  /** `opts`: the optional `isOpen` flag and `loop` (default false). */
  datatype DropdownOptions = DropdownOptions(isOpen: Option<bool>, loop: bool)

  const DefaultOptions: DropdownOptions := DropdownOptions(None, false)

  const InitialIndex: int := -1

  /**
   * What a key press does: the new active index, the item handed to
   * `onSelect` (if any), and whether `preventDefault` was called.
   */
  datatype KeyOutcome<T> = KeyOutcome(activeIndex: int, selected: Option<T>, preventDefault: bool)

  /** `selectActive`: the item at the active index, when there is one. */
  function SelectActive<T>(idx: int, items: seq<T>): (r: Option<T>)
    ensures r.Some? <==> 0 <= idx < |items|
    ensures r.Some? ==> r.value == items[idx]
  {
    if 0 <= idx < |items| then Some(items[idx]) else None
  }

  predicate Active<T>(opts: DropdownOptions, items: seq<T>) {
    opts.isOpen != Some(false) && |items| > 0
  }

  /**
   * `onKeydown(e)` for the key name `e.key`: an inactive dropdown ignores the
   * key; otherwise the arrows move the index, Enter selects, Escape resets.
   */
  function OnKeydown<T>(idx: int, key: string, items: seq<T>, opts: DropdownOptions): (r: KeyOutcome<T>)
    ensures !Active(opts, items) ==> r == KeyOutcome(idx, None, false)
    ensures -1 <= idx < |items| ==> -1 <= r.activeIndex < |items|
    ensures r.preventDefault <==> Active(opts, items) && key in {ArrowDown, ArrowUp, Enter}
    ensures r.selected.Some? <==> Active(opts, items) && key == Enter && 0 <= idx < |items|
    ensures r.selected.Some? ==> r.selected.value == items[idx]
    ensures key !in {ArrowDown, ArrowUp, Enter, Escape} ==> r == KeyOutcome(idx, None, false)
  {
    if opts.isOpen == Some(false) || |items| == 0 then KeyOutcome(idx, None, false)
    else
      var len := |items|;
      if key == ArrowDown then
        KeyOutcome(if idx < len - 1 then idx + 1 else if opts.loop then 0 else idx, None, true)
      else if key == ArrowUp then
        KeyOutcome(if idx > 0 then idx - 1 else if opts.loop then len - 1 else idx, None, true)
      else if key == Enter then KeyOutcome(idx, SelectActive(idx, items), true)
      else if key == Escape then KeyOutcome(InitialIndex, None, false)
      else KeyOutcome(idx, None, false)
  }

  /**
   * `watch(items, reset)`: a new item list resets the index, so the index is
   * in range for the new list and Enter selects nothing until it moves.
   */
  function OnItemsChanged<T>(idx: int, newItems: seq<T>): (r: int)
    ensures -1 <= r < |newItems|
    ensures SelectActive(r, newItems).None?
  {
    InitialIndex
  }

  /** `setActive(i)`: the index becomes `i`, whatever it was. */
  function SetActive(idx: int, i: int): (r: int)
    ensures r == i
  {
    i
  }

  /** After `setActive(i)`, Enter on an active dropdown selects item `i` exactly when `i` indexes the list. */
  lemma SetActiveThenEnter<T>(idx: int, i: int, items: seq<T>, opts: DropdownOptions)
    requires Active(opts, items)
    ensures OnKeydown(SetActive(idx, i), Enter, items, opts).selected.Some? <==> 0 <= i < |items|
    ensures 0 <= i < |items| ==> OnKeydown(SetActive(idx, i), Enter, items, opts).selected == Some(items[i])
  {
  }

  /** A closed dropdown or an empty list ignores every key. */
  lemma InactiveIgnoresKeys<T>(idx: int, key: string, items: seq<T>, opts: DropdownOptions)
    requires !Active(opts, items)
    ensures OnKeydown(idx, key, items, opts) == KeyOutcome(idx, None, false)
  {
  }

  /** ArrowDown and ArrowUp move by one inside the list, wrap only with `loop`, else stay. */
  lemma ArrowKeys<T>(idx: int, items: seq<T>, opts: DropdownOptions)
    requires Active(opts, items)
    ensures var d := OnKeydown(idx, ArrowDown, items, opts).activeIndex;
      && (idx < |items| - 1 ==> d == idx + 1)
      && (idx >= |items| - 1 && opts.loop ==> d == 0)
      && (idx >= |items| - 1 && !opts.loop ==> d == idx)
    ensures var u := OnKeydown(idx, ArrowUp, items, opts).activeIndex;
      && (idx > 0 ==> u == idx - 1)
      && (idx <= 0 && opts.loop ==> u == |items| - 1)
      && (idx <= 0 && !opts.loop ==> u == idx)
  {
  }

  /** From an index in [-1, len - 1], every key keeps it in [-1, len - 1]. */
  lemma IndexStaysInRange<T>(idx: int, key: string, items: seq<T>, opts: DropdownOptions)
    requires -1 <= idx < |items|
    ensures -1 <= OnKeydown(idx, key, items, opts).activeIndex < |items| || |items| == 0
  {
  }

  /**
   * Enter selects the active item exactly when the index points into the
   * list, and never moves the index; Escape resets it; other keys do nothing.
   */
  lemma EnterEscapeOther<T>(idx: int, name: string, items: seq<T>, opts: DropdownOptions)
    requires Active(opts, items) && name !in {ArrowDown, ArrowUp, Enter, Escape}
    ensures var e := OnKeydown(idx, Enter, items, opts);
      e.activeIndex == idx && (e.selected.Some? <==> 0 <= idx < |items|)
      && (e.selected.Some? ==> e.selected.value == items[idx])
    ensures OnKeydown(idx, Escape, items, opts).activeIndex == -1
    ensures OnKeydown(idx, name, items, opts) == KeyOutcome(idx, None, false)
    ensures OnKeydown(idx, ArrowDown, items, opts).selected.None?
    ensures OnKeydown(idx, ArrowUp, items, opts).selected.None?
  {
  }

  /** With `loop`, ArrowUp undoes ArrowDown and vice versa on every item index. */
  lemma LoopingArrowsAreInverse<T>(idx: int, items: seq<T>, opts: DropdownOptions)
    requires Active(opts, items) && opts.loop && 0 <= idx < |items|
    ensures OnKeydown(OnKeydown(idx, ArrowDown, items, opts).activeIndex, ArrowUp, items, opts).activeIndex == idx
    ensures OnKeydown(OnKeydown(idx, ArrowUp, items, opts).activeIndex, ArrowDown, items, opts).activeIndex == idx
  {
  }
}
