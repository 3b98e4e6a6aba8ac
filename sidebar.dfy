/**
 * The sidebar: one checkable navigation button per page the user's role may
 * open, keyed by tab index. Clicking a button, or selecting a tab from code,
 * unchecks every button and checks the chosen one.
 */
module Sidebar {
  import opened Wrappers

  const TabDashboard: int := 0
  const TabProducts: int := 1
  const TabCategories: int := 2
  const TabSales: int := 3
  const TabReports: int := 4
  const TabProfile: int := 5

  /** Managers and administrators see every page; everyone else only the profile. */
  predicate SeesAllPages(role: Option<string>) {
    role == Some("manager") || role == Some("admin")
  }

  /** The tabs that get a button. */
  function NavTabs(role: Option<string>): (tabs: set<int>)
    ensures TabProfile in tabs
    ensures SeesAllPages(role) <==> TabDashboard in tabs
    ensures forall t | t in tabs :: TabDashboard <= t <= TabProfile
    ensures !SeesAllPages(role) ==> tabs == {TabProfile}
  {
    if SeesAllPages(role) then {TabDashboard, TabProducts, TabCategories, TabSales, TabReports, TabProfile}
    else {TabProfile}
  }

  /** Each of the six pages has a button for managers and administrators. */
  lemma AllTabsForManagers(role: Option<string>, t: int)
    requires SeesAllPages(role) && TabDashboard <= t <= TabProfile
    ensures t in NavTabs(role)
  {
  }

  /** The text of each tab's button. */
  function ButtonText(t: int): string {
    if t == TabDashboard then "Dashboard"
    else if t == TabProducts then "Products"
    else if t == TabCategories then "Categories"
    else if t == TabSales then "Sales"
    else if t == TabReports then "Reports"
    else "Profile"
  }

  /** `texts` and `checked` have the same keys, and each button shows its tab's text. */
  predicate Buttons(texts: map<int, string>, checked: map<int, bool>) {
    && texts.Keys == checked.Keys
    && (forall t | t in texts :: texts[t] == ButtonText(t))
  }

  /** Only the button for `t`, if there is one, is checked. */
  predicate CheckedOnly(checked: map<int, bool>, t: int) {
    forall k | k in checked :: checked[k] == (k == t)
  }

  /** No button is checked. */
  predicate NoneChecked(checked: map<int, bool>) {
    forall k | k in checked :: !checked[k]
  }

  /** The sidebar's invariant on its values: only the current tab's button may be checked, and it is when it exists. */
  predicate Consistent(texts: map<int, string>, checked: map<int, bool>, currentTab: int) {
    && Buttons(texts, checked)
    && (forall t | t in checked && checked[t] :: t == currentTab)
    && (currentTab in checked ==> checked[currentTab])
  }

  /** A non-empty set of buttons has one for the loop to visit next. */
  lemma NonEmptyHasElement(s: set<int>)
    requires s != {}
    ensures exists t :: t in s
  {
    if forall t :: t !in s {
      assert false;
    }
  }

  class Bar {
    const role: Option<string>
    /** Whether a `switch_callback` was given. */
    const hasCallback: bool
    /** `nav_buttons`: each button's text and checked flag, by tab index. */
    var texts: map<int, string>
    var checked: map<int, bool>
    var currentTab: int
    /** The indices sent by `tab_selected`, oldest first. */
    var selections: seq<int>
    /** The indices passed to the switch callback, oldest first. */
    var callbacks: seq<int>

    predicate Valid()
      reads this
    {
      Consistent(texts, checked, currentTab)
    }

    /** `__init__` and `init_ui()`: the buttons the role allows, Dashboard current and, when present, checked. */
    constructor (role: Option<string>, hasCallback: bool)
      ensures this.role == role && this.hasCallback == hasCallback
      ensures Valid() && currentTab == TabDashboard
      ensures forall t :: t in checked <==> t in NavTabs(role)
      ensures CheckedOnly(checked, TabDashboard)
      ensures selections == [] && callbacks == []
    {
      this.role := role;
      this.hasCallback := hasCallback;
      texts := map[];
      checked := map[];
      currentTab := TabDashboard;
      selections := [];
      callbacks := [];
      new;
      if role == Some("manager") || role == Some("admin") {
        CreateNavButton(TabDashboard);
        CreateNavButton(TabProducts);
        CreateNavButton(TabCategories);
        CreateNavButton(TabSales);
        CreateNavButton(TabReports);
      }
      CreateNavButton(TabProfile);
    }

    /** `create_nav_button(text, tab_index, ...)`: a new button, checked only for the Dashboard. */
    method CreateNavButton(t: int)
      requires Buttons(texts, checked) && CheckedOnly(checked, TabDashboard)
      modifies this
      ensures Buttons(texts, checked) && CheckedOnly(checked, TabDashboard)
      ensures checked.Keys == old(checked).Keys + {t}
      ensures texts == old(texts)[t := ButtonText(t)] && checked == old(checked)[t := t == TabDashboard]
      ensures currentTab == old(currentTab) && selections == old(selections) && callbacks == old(callbacks)
    {
      texts := texts[t := ButtonText(t)];
      checked := checked[t := t == TabDashboard];
    }

    /** The loop over `nav_buttons.values()` that unchecks them all, in whatever order. */
    method UncheckAll()
      modifies this
      ensures checked.Keys == old(checked).Keys && NoneChecked(checked)
      ensures texts == old(texts) && currentTab == old(currentTab)
      ensures selections == old(selections) && callbacks == old(callbacks)
    {
      var flags := checked;
      var remaining := checked.Keys;
      while remaining != {}
        invariant remaining <= flags.Keys && flags.Keys == old(checked).Keys
        invariant forall t | t in flags && t !in remaining :: !flags[t]
        invariant texts == old(texts) && checked == old(checked) && currentTab == old(currentTab)
        invariant selections == old(selections) && callbacks == old(callbacks)
        decreases remaining
      {
        NonEmptyHasElement(remaining);
        var t :| t in remaining;
        flags := flags[t := false];
        remaining := remaining - {t};
      }
      checked := flags;
    }

    /** `on_tab_clicked(i, button)`: the click toggles the button, then only it is left checked and `i` becomes current. */
    method OnTabClicked(t: int)
      requires Valid() && t in checked
      modifies this
      ensures Valid()
      ensures checked.Keys == old(checked).Keys && CheckedOnly(checked, t) && currentTab == t
      ensures selections == old(selections) + [t]
      ensures callbacks == old(callbacks) + (if hasCallback then [t] else [])
      ensures texts == old(texts)
    {
      checked := checked[t := !checked[t]];
      UncheckAll();
      checked := checked[t := true];
      currentTab := t;
      selections := selections + [t];
      if hasCallback {
        callbacks := callbacks + [t];
      }
    }

    /** `set_current_tab(i)`: for a tab with a button, only it is left checked; any other index changes nothing. */
    method SetCurrentTab(t: int)
      requires Valid()
      modifies this
      ensures Valid()
      ensures checked.Keys == old(checked).Keys && texts == old(texts)
      ensures t in old(checked) ==> CheckedOnly(checked, t) && currentTab == t
      ensures t !in old(checked) ==> checked == old(checked) && currentTab == old(currentTab)
      ensures selections == old(selections) && callbacks == old(callbacks)
    {
      if t in checked {
        UncheckAll();
        checked := checked[t := true];
        currentTab := t;
      }
    }
  }

  /** At most one button is ever checked, and it is the current tab's. */
  lemma AtMostOneChecked(b: Bar, s: int, t: int)
    requires b.Valid() && s in b.checked && t in b.checked && b.checked[s] && b.checked[t]
    ensures s == t == b.currentTab
  {
  }

  /** Users who see only the profile start with no button checked at all, although the Dashboard is current. */
  lemma StaffStartUnchecked(role: Option<string>, checked: map<int, bool>)
    requires !SeesAllPages(role) && CheckedOnly(checked, TabDashboard)
    requires forall t :: t in checked <==> t in NavTabs(role)
    ensures checked == map[TabProfile := false]
  {
    assert NavTabs(role) == {TabProfile};
    assert forall t :: t in checked.Keys <==> t == TabProfile;
    assert checked.Keys == {TabProfile};
  }
}
