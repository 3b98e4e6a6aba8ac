/**
 * `CustomTabWidget`: a row of checkable tab buttons over a stack of pages.
 * Selecting a tab checks its button and unchecks every other, so once a tab
 * exists exactly one button is checked: the current one.
 */
module TabWidget {

  /** The checked flags of `n` buttons with only button `i` checked. */
  function OneHot(n: nat, i: int): (flags: seq<bool>)
    ensures |flags| == n && forall k | 0 <= k < n :: flags[k] <==> k == i
  {
    seq(n, k => k == i)
  }

  /** The number of checked buttons. */
  function CountChecked(flags: seq<bool>): nat {
    if flags == [] then 0 else CountChecked(flags[..|flags| - 1]) + (if flags[|flags| - 1] then 1 else 0)
  }

  /** One-hot flags have exactly one checked button when the index is in range, and none otherwise. */
  lemma {:induction false} OneHotCount(n: nat, i: int)
    ensures CountChecked(OneHot(n, i)) == (if 0 <= i < n then 1 else 0)
  {
    if n > 0 {
      assert OneHot(n, i)[..n - 1] == OneHot(n - 1, i);
      OneHotCount(n - 1, i);
    }
  }

  class Widget<W> {
    /** The pages, in the order they were added. */
    var tabs: seq<W>
    /** The tab buttons' labels and checked flags, one per page. */
    var labels: seq<string>
    var checked: seq<bool>
    var currentIndex: int
    /** The page the stacked widget shows, -1 while it is empty. */
    var stackIndex: int
    /** The indices sent by `currentChanged`, oldest first. */
    var changes: seq<int>

    /** One button per page; with pages, the current tab is in range, shown, and the only checked button. */
    predicate Valid()
      reads this
    {
      && |labels| == |tabs| && |checked| == |tabs|
      && (tabs == [] ==> currentIndex == 0 && stackIndex == -1)
      && (tabs != [] ==> 0 <= currentIndex < |tabs| && stackIndex == currentIndex && checked == OneHot(|tabs|, currentIndex))
    }

    /** `__init__`: no tabs and a current index of 0. */
    constructor ()
      ensures Valid() && tabs == [] && labels == [] && checked == [] && currentIndex == 0 && changes == []
    {
      tabs := [];
      labels := [];
      checked := [];
      currentIndex := 0;
      stackIndex := -1;
      changes := [];
    }

    /** `addTab(widget, label)`: the new tab's index is the number of tabs before it; only the first starts checked. */
    method AddTab(widget: W, text: string) returns (index: int)
      requires Valid()
      modifies this
      ensures Valid()
      ensures index == |old(tabs)|
      ensures tabs == old(tabs) + [widget] && labels == old(labels) + [text]
      ensures checked == old(checked) + [index == 0]
      ensures currentIndex == old(currentIndex) && changes == old(changes)
    {
      index := |tabs|;
      tabs := tabs + [widget];
      // QStackedWidget shows the first page added to it
      if stackIndex == -1 {
        stackIndex := 0;
      }
      labels := labels + [text];
      checked := checked + [false];
      if index == 0 {
        checked := checked[index := true];
      }
    }

    /** `setCurrentIndex(index)`: an index out of range changes nothing. */
    method SetCurrentIndex(index: int)
      requires |checked| == |tabs| && |labels| == |tabs|
      modifies this
      ensures 0 <= index < |tabs| ==> Valid()
      ensures 0 <= index < |tabs| ==>
        && currentIndex == index && stackIndex == index && checked == OneHot(|tabs|, index)
        && changes == old(changes) + [index]
      ensures !(0 <= index < |tabs|) ==>
        currentIndex == old(currentIndex) && stackIndex == old(stackIndex) && checked == old(checked) && changes == old(changes)
      ensures tabs == old(tabs) && labels == old(labels)
    {
      if 0 <= index < |tabs| {
        currentIndex := index;
        stackIndex := index;
        var flags := checked;
        var i := 0;
        while i < |flags|
          invariant 0 <= i <= |flags| == |tabs|
          invariant forall k | 0 <= k < i :: flags[k] == (k == index)
        {
          flags := flags[i := i == index];
          i := i + 1;
        }
        checked := flags;
        changes := changes + [index];
      }
    }

    /** A click on tab button `index`: the button toggles its own check, then its slot selects the tab. */
    method ClickTab(index: int)
      requires Valid() && 0 <= index < |tabs|
      modifies this
      ensures Valid()
      ensures currentIndex == index && CountChecked(checked) == 1 && checked[index]
      ensures changes == old(changes) + [index] && tabs == old(tabs) && labels == old(labels)
    {
      checked := checked[index := !checked[index]];
      SetCurrentIndex(index);
      OneHotCount(|tabs|, index);
    }

    /** `currentIndex()`: the last index set in range, 0 before any. */
    function CurrentIndex(): (i: int)
      reads this
      requires Valid()
      ensures tabs == [] ==> i == 0
      ensures tabs != [] ==> 0 <= i < |tabs| && checked[i]
    {
      currentIndex
    }
  }

  /** Once a tab exists, exactly one button is checked; before, none. */
  lemma ExactlyOneChecked<W>(w: Widget<W>)
    requires w.Valid()
    ensures CountChecked(w.checked) == (if w.tabs == [] then 0 else 1)
  {
    if w.tabs != [] {
      OneHotCount(|w.tabs|, w.currentIndex);
    }
  }
}
