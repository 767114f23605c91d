/** The persisted user-interface state: the sidebar, the expanded groups and dashboards of the
    navigation accordion, the search box and the scroll-into-view target. */
module UiStore {
  import opened Wrappers
  import opened Text

  // ---------------------------------------------------------------- name lists

  /** No name occurs twice. */
  predicate NoDuplicates(names: seq<string>) {
    forall i, j :: 0 <= i < j < |names| ==> names[i] != names[j]
  }

  /** `names.filter((n) => n !== name)`. */
  function RemoveAll(names: seq<string>, name: string): (r: seq<string>)
    ensures |r| <= |names|
    ensures name !in r
  {
    if names == [] then []
    else if names[0] != name then [names[0]] + RemoveAll(names[1..], name)
    else RemoveAll(names[1..], name)
  }

  /** Removing drops exactly the name, keeps the rest in order, and does nothing when the name
      is absent. */
  lemma {:induction false} RemoveAllProperties(names: seq<string>, name: string, other: string)
    ensures other in RemoveAll(names, name) <==> other in names && other != name
    ensures IsSubsequence(RemoveAll(names, name), names)
    ensures name !in names ==> RemoveAll(names, name) == names
  {
    if names == [] {
      assert IsSubsequence<string>([], []);
    } else {
      RemoveAllProperties(names[1..], name, other);
      var rest := RemoveAll(names[1..], name);
      assert names == [names[0]] + names[1..];
      if names[0] != name {
        assert ([names[0]] + rest)[0] == names[0] && ([names[0]] + rest)[1..] == rest;
      } else {
        SubsequenceSkip(rest, names[1..], names[0]);
      }
    }
  }

  /** Every other name keeps all of its copies; the removed name has none. */
  lemma {:induction false} RemoveAllCount(names: seq<string>, name: string, other: string)
    ensures multiset(RemoveAll(names, name))[other] == if other != name then multiset(names)[other] else 0
  {
    if names != [] {
      RemoveAllCount(names[1..], name, other);
      assert names == [names[0]] + names[1..];
    }
  }

  /** Removing from a list without duplicates leaves a list without duplicates. */
  lemma {:induction false} RemoveAllKeepsNoDuplicates(names: seq<string>, name: string)
    requires NoDuplicates(names)
    ensures NoDuplicates(RemoveAll(names, name))
  {
    if names != [] {
      RemoveAllKeepsNoDuplicates(names[1..], name);
      var rest := RemoveAll(names[1..], name);
      if names[0] != name {
        RemoveAllProperties(names[1..], name, names[0]);
        assert names[0] !in names[1..] by {
          forall k | 0 <= k < |names[1..]| ensures names[1..][k] != names[0] {
            assert names[1..][k] == names[k + 1];
          }
        }
        forall k | 0 <= k < |rest| ensures rest[k] != names[0] {
          assert rest[k] in rest;
        }
      }
    }
  }

  /** `toggleGroup`/`toggleDashboard`: remove the name if present, append it otherwise. */
  function Toggle(names: seq<string>, name: string): seq<string> {
    if name in names then RemoveAll(names, name) else names + [name]
  }

  /** `expandGroup`/`expandDashboard`: append the name unless present. */
  function Expand(names: seq<string>, name: string): seq<string> {
    if name in names then names else names + [name]
  }

  /** `collapseGroup`/`collapseDashboard`. */
  function Collapse(names: seq<string>, name: string): seq<string> {
    RemoveAll(names, name)
  }

  /** Appending a new name keeps a list free of duplicates. */
  lemma AppendNewKeepsNoDuplicates(names: seq<string>, name: string)
    requires NoDuplicates(names) && name !in names
    ensures NoDuplicates(names + [name])
  {
    var r := names + [name];
    forall i, j | 0 <= i < j < |r| ensures r[i] != r[j] {
      if j == |names| {
        assert r[i] == names[i];
      }
    }
  }

  /** Toggling flips whether the name is listed and touches no other name. */
  lemma ToggleProperties(names: seq<string>, name: string, other: string)
    ensures name in Toggle(names, name) <==> name !in names
    ensures other != name ==> (other in Toggle(names, name) <==> other in names)
    ensures NoDuplicates(names) ==> NoDuplicates(Toggle(names, name))
  {
    RemoveAllProperties(names, name, other);
    if NoDuplicates(names) {
      if name in names {
        RemoveAllKeepsNoDuplicates(names, name);
      } else {
        AppendNewKeepsNoDuplicates(names, name);
      }
    }
  }

  /** Toggling twice lists the same names as before; when the name was absent it gives back
      the very same list. */
  lemma ToggleTwice(names: seq<string>, name: string, other: string)
    ensures other in Toggle(Toggle(names, name), name) <==> other in names
    ensures name !in names ==> Toggle(Toggle(names, name), name) == names
  {
    ToggleProperties(names, name, other);
    ToggleProperties(Toggle(names, name), name, other);
    if name !in names {
      assert name in names + [name];
      RemoveAllAppended(names, name);
    }
  }

  /** Removing a name that was just appended to a list without it restores the list. */
  lemma {:induction false} RemoveAllAppended(names: seq<string>, name: string)
    requires name !in names
    ensures RemoveAll(names + [name], name) == names
  {
    if names == [] {
      assert [] + [name] == [name];
      assert [name][1..] == [];
    } else {
      assert (names + [name])[1..] == names[1..] + [name];
      RemoveAllAppended(names[1..], name);
      assert [names[0]] + names[1..] == names;
    }
  }

  /** Expanding lists the name, changes nothing when it was listed, is idempotent and keeps a
      list free of duplicates. */
  lemma ExpandProperties(names: seq<string>, name: string)
    ensures name in Expand(names, name)
    ensures name in names ==> Expand(names, name) == names
    ensures Expand(Expand(names, name), name) == Expand(names, name)
    ensures NoDuplicates(names) ==> NoDuplicates(Expand(names, name))
  {
    assert name in names + [name];
    if NoDuplicates(names) && name !in names {
      AppendNewKeepsNoDuplicates(names, name);
    }
  }

  /** Collapsing unlists the name, keeps the order of the rest, and keeps a list free of
      duplicates. */
  lemma CollapseProperties(names: seq<string>, name: string, other: string)
    ensures name !in Collapse(names, name)
    ensures other != name ==> (other in Collapse(names, name) <==> other in names)
    ensures IsSubsequence(Collapse(names, name), names)
    ensures NoDuplicates(names) ==> NoDuplicates(Collapse(names, name))
  {
    RemoveAllProperties(names, name, other);
    if NoDuplicates(names) {
      RemoveAllKeepsNoDuplicates(names, name);
    }
  }

  // ---------------------------------------------------------------- the store

  /** What the navigation should scroll into view after a search. */
  datatype FocusKind = GroupFocus | DashboardFocus | TabFocus
  datatype FocusTarget = FocusTarget(kind: FocusKind, group: Option<string>, dashboard: Option<string>,
                                     tab: Option<string>)

  /** The whole state of the store as a value. */
  datatype UiSnapshot = UiSnapshot(
    sidebarCollapsed: bool,
    expandedGroups: seq<string>,
    expandedDashboards: seq<string>,
    searchQuery: string,
    searchOpen: bool,
    focusTarget: Option<FocusTarget>)

  class UiState {
    var sidebarCollapsed: bool
    var expandedGroups: seq<string>
    var expandedDashboards: seq<string>
    var searchQuery: string
    var searchOpen: bool
    var focusTarget: Option<FocusTarget>

    function Snapshot(): UiSnapshot
      reads this
    {
      UiSnapshot(sidebarCollapsed, expandedGroups, expandedDashboards, searchQuery, searchOpen, focusTarget)
    }

    /** The initial state: sidebar open, nothing expanded, no search, no focus target. */
    constructor()
      ensures Snapshot() == UiSnapshot(false, [], [], "", false, None)
    {
      sidebarCollapsed := false;
      expandedGroups := [];
      expandedDashboards := [];
      searchQuery := "";
      searchOpen := false;
      focusTarget := None;
    }

    method SetSidebarCollapsed(collapsed: bool)
      modifies this
      ensures Snapshot() == old(Snapshot()).(sidebarCollapsed := collapsed)
    {
      sidebarCollapsed := collapsed;
    }

    method ToggleSidebar()
      modifies this
      ensures Snapshot() == old(Snapshot()).(sidebarCollapsed := !old(sidebarCollapsed))
    {
      sidebarCollapsed := !sidebarCollapsed;
    }

    method ToggleGroup(group: string)
      modifies this
      ensures Snapshot() == old(Snapshot()).(expandedGroups := Toggle(old(expandedGroups), group))
    {
      expandedGroups := if group in expandedGroups then RemoveAll(expandedGroups, group)
                        else expandedGroups + [group];
    }

    method ExpandGroup(group: string)
      modifies this
      ensures Snapshot() == old(Snapshot()).(expandedGroups := Expand(old(expandedGroups), group))
    {
      if group !in expandedGroups {
        expandedGroups := expandedGroups + [group];
      }
    }

    method CollapseGroup(group: string)
      modifies this
      ensures Snapshot() == old(Snapshot()).(expandedGroups := Collapse(old(expandedGroups), group))
    {
      expandedGroups := RemoveAll(expandedGroups, group);
    }

    method ToggleDashboard(dashboard: string)
      modifies this
      ensures Snapshot() == old(Snapshot()).(expandedDashboards := Toggle(old(expandedDashboards), dashboard))
    {
      expandedDashboards := if dashboard in expandedDashboards then RemoveAll(expandedDashboards, dashboard)
                            else expandedDashboards + [dashboard];
    }

    method ExpandDashboard(dashboard: string)
      modifies this
      ensures Snapshot() == old(Snapshot()).(expandedDashboards := Expand(old(expandedDashboards), dashboard))
    {
      if dashboard !in expandedDashboards {
        expandedDashboards := expandedDashboards + [dashboard];
      }
    }

    method CollapseDashboard(dashboard: string)
      modifies this
      ensures Snapshot() == old(Snapshot()).(expandedDashboards := Collapse(old(expandedDashboards), dashboard))
    {
      expandedDashboards := RemoveAll(expandedDashboards, dashboard);
    }

    method SetSearchQuery(query: string)
      modifies this
      ensures Snapshot() == old(Snapshot()).(searchQuery := query)
    {
      searchQuery := query;
    }

    method SetSearchOpen(open: bool)
      modifies this
      ensures Snapshot() == old(Snapshot()).(searchOpen := open)
    {
      searchOpen := open;
    }

    method SetFocusTarget(target: Option<FocusTarget>)
      modifies this
      ensures Snapshot() == old(Snapshot()).(focusTarget := target)
    {
      focusTarget := target;
    }

    method ClearFocusTarget()
      modifies this
      ensures Snapshot() == old(Snapshot()).(focusTarget := None)
    {
      focusTarget := None;
    }
  }
}
