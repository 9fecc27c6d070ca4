/**
 * The archive page's category filter: a row of `.filter-btn` buttons, each
 * carrying a `data-filter` value, and a list of `.archive-item` entries, each
 * carrying a `data-category` value.
 */
module ArchiveFilter {
  import opened Wrappers

  const ACTIVE := "active"
  const HIDDEN := "hidden"
  const ALL := "all"

  /** A filter button: its `data-filter` (None when absent) and its class list. */
  datatype FilterButton = FilterButton(filter: Option<string>, classes: set<string>)

  /** An archive item: its `data-category` (None when absent) and its class list. */
  datatype ArchiveItem = ArchiveItem(category: Option<string>, classes: set<string>)

  /** An item stays visible under `filter`: the filter is `all` or equals the item's category. */
  predicate Shows(filter: Option<string>, item: ArchiveItem)
    ensures filter == Some(ALL) ==> Shows(filter, item)
    ensures item.category == filter ==> Shows(filter, item)
    ensures filter != Some(ALL) && item.category != filter ==> !Shows(filter, item)
  {
    filter == Some(ALL) || item.category == filter
  }

  /** The indices of the buttons carrying the active class. */
  function ActiveIndices(buttons: seq<FilterButton>): set<nat>
  {
    set j: nat | j < |buttons| && ACTIVE in buttons[j].classes
  }

  /** The buttons after button `k` was clicked: the active class is removed everywhere, then added to `k`. */
  function ActivateOnly(buttons: seq<FilterButton>, k: nat): (r: seq<FilterButton>)
    requires k < |buttons|
    ensures |r| == |buttons|
    ensures forall j :: 0 <= j < |r| ==> r[j].filter == buttons[j].filter
    ensures forall j :: 0 <= j < |r| ==> (ACTIVE in r[j].classes <==> j == k)
    ensures forall j :: 0 <= j < |r| ==> r[j].classes - {ACTIVE} == buttons[j].classes - {ACTIVE}
  {
    seq(|buttons|, j requires 0 <= j < |buttons| =>
      buttons[j].(classes := if j == k then buttons[j].classes + {ACTIVE} else buttons[j].classes - {ACTIVE}))
  }

  /** The items after filtering by `filter`: an item is hidden exactly when the filter does not show it. */
  function FilterItems(items: seq<ArchiveItem>, filter: Option<string>): (r: seq<ArchiveItem>)
    ensures |r| == |items|
    ensures forall i :: 0 <= i < |r| ==> r[i].category == items[i].category
    ensures forall i :: 0 <= i < |r| ==> (HIDDEN in r[i].classes <==> !Shows(filter, items[i]))
    ensures forall i :: 0 <= i < |r| ==> r[i].classes - {HIDDEN} == items[i].classes - {HIDDEN}
  {
    seq(|items|, i requires 0 <= i < |items| =>
      items[i].(classes := if Shows(filter, items[i]) then items[i].classes - {HIDDEN} else items[i].classes + {HIDDEN}))
  }

  /** After a click, exactly the clicked button is active. */
  lemma ExactlyOneActive(buttons: seq<FilterButton>, k: nat)
    requires k < |buttons|
    ensures ActiveIndices(ActivateOnly(buttons, k)) == {k}
  {
  }

  /** The `all` filter shows every item. */
  lemma AllShowsEverything(items: seq<ArchiveItem>)
    ensures forall i :: 0 <= i < |items| ==> HIDDEN !in FilterItems(items, Some(ALL))[i].classes
  {
  }

  /** Visibility depends only on the latest click, not on earlier ones. */
  lemma LastFilterWins(items: seq<ArchiveItem>, first: Option<string>, second: Option<string>)
    ensures FilterItems(FilterItems(items, first), second) == FilterItems(items, second)
  {
    var a := FilterItems(FilterItems(items, first), second);
    var b := FilterItems(items, second);
    forall i | 0 <= i < |items| ensures a[i] == b[i] {
      assert a[i].classes == b[i].classes;
    }
  }

  /** Which button is active depends only on the latest click. */
  lemma LastActivationWins(buttons: seq<FilterButton>, j: nat, k: nat)
    requires j < |buttons| && k < |buttons|
    ensures ActivateOnly(ActivateOnly(buttons, j), k) == ActivateOnly(buttons, k)
  {
    var a := ActivateOnly(ActivateOnly(buttons, j), k);
    var b := ActivateOnly(buttons, k);
    forall i | 0 <= i < |buttons| ensures a[i] == b[i] {
      assert a[i].classes == b[i].classes;
    }
  }

  /**
   * The click handler of button `k`: reads its filter, moves the active class
   * to it, then shows or hides every item.
   */
  method OnFilterClick(buttons: array<FilterButton>, items: array<ArchiveItem>, k: nat)
    requires k < buttons.Length
    modifies buttons, items
    ensures buttons[..] == ActivateOnly(old(buttons[..]), k)
    ensures items[..] == FilterItems(old(items[..]), old(buttons[k].filter))
  {
    var filter := buttons[k].filter;
    for j := 0 to buttons.Length
      modifies buttons
      invariant forall i :: 0 <= i < j ==> buttons[i] == old(buttons[i]).(classes := old(buttons[i].classes) - {ACTIVE})
      invariant forall i :: j <= i < buttons.Length ==> buttons[i] == old(buttons[i])
    {
      buttons[j] := buttons[j].(classes := buttons[j].classes - {ACTIVE});
    }
    buttons[k] := buttons[k].(classes := buttons[k].classes + {ACTIVE});
    assert buttons[k].classes == old(buttons[k].classes) + {ACTIVE};
    assert buttons[..] == ActivateOnly(old(buttons[..]), k);
    for i := 0 to items.Length
      modifies items
      invariant forall m :: 0 <= m < i ==> items[m] == FilterItems(old(items[..]), filter)[m]
      invariant forall m :: i <= m < items.Length ==> items[m] == old(items[m])
    {
      var item := items[i];
      if filter == Some(ALL) {
        items[i] := item.(classes := item.classes - {HIDDEN});
      } else if item.category == filter {
        items[i] := item.(classes := item.classes - {HIDDEN});
      } else {
        items[i] := item.(classes := item.classes + {HIDDEN});
      }
    }
  }
}
