/**
 * The accessible dialog shell: Escape closes, Tab and Shift+Tab are trapped inside the
 * dialog, and the page body cannot scroll while it is open. The dialog's focusable
 * elements are abstracted as their count, in document order, and the focused element as
 * an index among them (None: focus is outside them).
 */
module Dialog {
  import opened Optional

  const EscapeKey: string := "Escape"
  const TabKey: string := "Tab"
  const OverflowHidden: string := "hidden"

  /** What the Tab handler does: nothing, or prevent the default and focus the element at `index`. */
  datatype TabAction = NoIntervention | WrapTo(index: nat)

  /**
   * handleTabKey's decision. It intervenes only at the boundaries: Tab on the last element
   * goes to the first, Shift+Tab on the first goes to the last; with no focusable elements it does nothing.
   */
  function TabWrap(count: nat, active: Option<nat>, shift: bool): (r: TabAction)
    ensures r.WrapTo? <==> count > 0 && (if shift then active == Some(0) else active == Some(count - 1))
    ensures r.WrapTo? ==> r.index < count && r.index == (if shift then count - 1 else 0)
  {
    if count == 0 then NoIntervention
    else if shift then (if active == Some(0) then WrapTo(count - 1) else NoIntervention)
    else (if active == Some(count - 1) then WrapTo(0) else NoIntervention)
  }

  /**
   * The browser's own move when nothing intervenes, as assumed here: to the next (or, with
   * Shift, the previous) focusable element in document order, and out of the dialog past either end.
   */
  function BrowserTabMove(count: nat, i: nat, shift: bool): Option<nat> {
    if shift then (if i == 0 then None else Some(i - 1))
    else (if i + 1 < count then Some(i + 1) else None)
  }

  /** Where focus is after a Tab press with the trap installed. With focus inside the dialog, it never leaves. */
  function FocusAfterTab(count: nat, active: Option<nat>, shift: bool): (r: Option<nat>)
    requires active.Some? ==> active.value < count
    ensures active.Some? ==> r.Some? && r.value < count
    ensures active.None? ==> r.None?
  {
    match TabWrap(count, active, shift)
    case WrapTo(j) => Some(j)
    case NoIntervention =>
      match active
      case None => None
      case Some(i) => BrowserTabMove(count, i, shift)
  }

  /** Focus after n presses of Tab (or Shift+Tab) starting on element i. */
  function TabPresses(count: nat, i: nat, shift: bool, n: nat): (r: Option<nat>)
    requires i < count
    ensures r.Some? && r.value < count
  {
    if n == 0 then Some(i) else FocusAfterTab(count, TabPresses(count, i, shift, n - 1), shift)
  }

  /** Tab walks forward through the focusable elements in order, one per press, until the last. */
  lemma {:induction false} TabWalksForward(count: nat, i: nat, n: nat)
    requires i + n < count
    ensures TabPresses(count, i, false, n) == Some(i + n)
  {
    if n > 0 {
      TabWalksForward(count, i, n - 1);
    }
  }

  /** Shift+Tab walks backward through the focusable elements in order, one per press, until the first. */
  lemma {:induction false} ShiftTabWalksBackward(count: nat, i: nat, n: nat)
    requires n <= i < count
    ensures TabPresses(count, i, true, n) == Some(i - n)
  {
    if n > 0 {
      ShiftTabWalksBackward(count, i, n - 1);
    }
  }

  /** Pressing Tab as many times as there are focusable elements visits them all and comes back to the first. */
  lemma TabCyclesToFirst(count: nat)
    requires count > 0
    ensures TabPresses(count, 0, false, count) == Some(0)
  {
    TabWalksForward(count, 0, count - 1);
  }

  /** Pressing Shift+Tab as many times as there are focusable elements comes back to the last. */
  lemma ShiftTabCyclesToLast(count: nat)
    requires count > 0
    ensures TabPresses(count, count - 1, true, count) == Some(count - 1)
  {
    ShiftTabWalksBackward(count, count - 1, count - 1);
  }

  /** One mounted dialog: its open prop, the focus, the body's overflow style and the calls to `onClose`. */
  class DialogState {
    var mounted: bool
    var isOpen: bool
    const focusableCount: nat
    var focused: Option<nat>
    /** `document.body.style.overflow`. */
    var bodyOverflow: string
    /** How many times `onClose` was called. */
    var closeCalls: nat

    /** The body is locked exactly while the dialog is shown, and focus is on one of its elements only then. */
    ghost predicate Valid()
      reads this
    {
      && bodyOverflow == (if mounted && isOpen then OverflowHidden else "")
      && (focused.Some? ==> mounted && isOpen && focused.value < focusableCount)
    }

    /** A closed dialog renders nothing and has no key listeners. */
    predicate IsRendered()
      reads this
    {
      mounted && isOpen
    }

    /** Mounting: the overflow effect runs, and when open the first focusable element takes focus. */
    constructor(isOpen: bool, focusableCount: nat)
      ensures Valid() && mounted
      ensures this.isOpen == isOpen && this.focusableCount == focusableCount
      ensures focused == if isOpen && focusableCount > 0 then Some(0) else None
      ensures closeCalls == 0
    {
      mounted := true;
      this.isOpen := isOpen;
      this.focusableCount := focusableCount;
      focused := if isOpen && focusableCount > 0 then Some(0) else None;
      bodyOverflow := if isOpen then OverflowHidden else "";
      closeCalls := 0;
    }

    /**
     * A new `isOpen` prop. Opening focuses the first focusable element, if any; closing
     * restores focus to where it was before, outside the dialog; the body lock follows the prop.
     */
    method SetOpen(isOpen: bool)
      requires Valid() && mounted
      modifies this`isOpen, this`focused, this`bodyOverflow
      ensures Valid() && this.isOpen == isOpen
      ensures bodyOverflow == if isOpen then OverflowHidden else ""
      ensures isOpen && !old(this.isOpen) ==> focused == if focusableCount > 0 then Some(0) else None
      ensures isOpen && old(this.isOpen) ==> focused == old(focused)
      ensures !isOpen ==> focused == None
    {
      if isOpen && !this.isOpen {
        focused := if focusableCount > 0 then Some(0) else None;
      } else if !isOpen {
        focused := None;
      }
      this.isOpen := isOpen;
      bodyOverflow := if isOpen then OverflowHidden else "";
    }

    /** Unmounting: the effects' cleanups unlock the body and return focus outside. */
    method Unmount()
      requires Valid()
      modifies this`mounted, this`focused, this`bodyOverflow
      ensures Valid() && !mounted && bodyOverflow == "" && focused == None
    {
      mounted := false;
      focused := None;
      bodyOverflow := "";
    }

    /**
     * A keydown on the document. While the dialog is shown, Escape calls `onClose` and Tab
     * goes through the focus trap; `prevented` tells whether the default action was prevented.
     */
    method KeyDown(key: string, shift: bool) returns (prevented: bool)
      requires Valid()
      modifies this`focused, this`closeCalls
      ensures Valid()
      ensures !IsRendered() || (key != EscapeKey && key != TabKey) ==>
                !prevented && focused == old(focused) && closeCalls == old(closeCalls)
      ensures IsRendered() && key == EscapeKey ==>
                !prevented && focused == old(focused) && closeCalls == old(closeCalls) + 1
      ensures IsRendered() && key == TabKey ==>
                closeCalls == old(closeCalls)
                && prevented == TabWrap(focusableCount, old(focused), shift).WrapTo?
                && focused == FocusAfterTab(focusableCount, old(focused), shift)
    {
      prevented := false;
      if !IsRendered() {
        return;
      }
      if key == EscapeKey {
        closeCalls := closeCalls + 1;
      } else if key == TabKey {
        var action := TabWrap(focusableCount, focused, shift);
        prevented := action.WrapTo?;
        focused := FocusAfterTab(focusableCount, focused, shift);
      }
    }
  }

  /** Escape on an open dialog calls `onClose` exactly once; on a closed one it does nothing. */
  method EscapeClosesOnce()
  {
    var d := new DialogState(true, 3);
    assert d.bodyOverflow == OverflowHidden && d.focused == Some(0);
    var prevented := d.KeyDown(EscapeKey, false);
    assert d.closeCalls == 1;
    d.SetOpen(false);
    prevented := d.KeyDown(EscapeKey, false);
    assert d.closeCalls == 1 && d.bodyOverflow == "";
  }
}
