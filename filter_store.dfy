/** Per-tab filter settings of the grid, keyed by dashboard and tab. */
module FilterStore {
  import opened Text

  /** The status filter choices of the toolbar. */
  datatype StatusFilter = All | Pass | Fail | Skip | Flaky | Empty

  /** The filter settings of one tab. */
  datatype Filters = Filters(statusFilter: StatusFilter, textFilter: string, showOnlyFailures: bool)

  /** The settings a tab has before any filter was set. */
  const DefaultFilters := Filters(All, "", false)

  /** The store key of a tab: dashboard and tab joined by a slash. */
  function FilterKey(dashboard: string, tab: string): (key: string)
    ensures |key| == |dashboard| + 1 + |tab|
    ensures key[..|dashboard|] == dashboard && key[|dashboard|] == '/' && key[|dashboard| + 1..] == tab
  {
    dashboard + "/" + tab
  }

  /** Keys identify their tab as long as dashboard names contain no slash. */
  lemma FilterKeyInjective(d1: string, t1: string, d2: string, t2: string)
    requires '/' !in d1 && '/' !in d2
    requires FilterKey(d1, t1) == FilterKey(d2, t2)
    ensures d1 == d2 && t1 == t2
  {
    SeparatedPairInjective(d1, t1, d2, t2, '/');
  }

  /** A slash in a dashboard name lets two different tabs share one key. */
  lemma FilterKeyCollision()
    ensures FilterKey("a/b", "c") == FilterKey("a", "b/c")
  {
  }

  /** The stored settings of `key`, or the defaults. */
  function Lookup(filters: map<string, Filters>, key: string): (f: Filters)
    ensures key !in filters ==> f == DefaultFilters
    ensures key in filters ==> f == filters[key]
  {
    if key in filters then filters[key] else DefaultFilters
  }

  /** The store after setting one tab's status filter, starting from its current or default settings. */
  function WithStatus(filters: map<string, Filters>, key: string, status: StatusFilter): map<string, Filters> {
    filters[key := Lookup(filters, key).(statusFilter := status)]
  }

  /** The store after setting one tab's text filter. */
  function WithText(filters: map<string, Filters>, key: string, text: string): map<string, Filters> {
    filters[key := Lookup(filters, key).(textFilter := text)]
  }

  /** The store after setting one tab's failures-only switch. */
  function WithOnlyFailures(filters: map<string, Filters>, key: string, show: bool): map<string, Filters> {
    filters[key := Lookup(filters, key).(showOnlyFailures := show)]
  }

  /** Each setter changes exactly its own field of its own key: other fields and other keys
      read back as before. */
  lemma SettersAreLocal(filters: map<string, Filters>, key: string, other: string,
                        status: StatusFilter, text: string, show: bool)
    requires other != key
    ensures Lookup(WithStatus(filters, key, status), key) == Lookup(filters, key).(statusFilter := status)
    ensures Lookup(WithText(filters, key, text), key) == Lookup(filters, key).(textFilter := text)
    ensures Lookup(WithOnlyFailures(filters, key, show), key) == Lookup(filters, key).(showOnlyFailures := show)
    ensures Lookup(WithStatus(filters, key, status), other) == Lookup(filters, other)
    ensures Lookup(WithText(filters, key, text), other) == Lookup(filters, other)
    ensures Lookup(WithOnlyFailures(filters, key, show), other) == Lookup(filters, other)
  {
  }

  /** Setting different fields in either order gives the same store. */
  lemma SettersCommute(filters: map<string, Filters>, key: string, status: StatusFilter, text: string)
    ensures WithText(WithStatus(filters, key, status), key, text) == WithStatus(WithText(filters, key, text), key, status)
  {
  }

  /** Clearing a tab makes it read back as the defaults and leaves other tabs alone. */
  lemma ClearRestoresDefaults(filters: map<string, Filters>, key: string, other: string)
    requires other != key
    ensures Lookup(filters - {key}, key) == DefaultFilters
    ensures Lookup(filters - {key}, other) == Lookup(filters, other)
  {
  }

  /** The persisted filter store. */
  class Store {
    var filters: map<string, Filters>

    constructor()
      ensures filters == map[]
    {
      filters := map[];
    }

    /** `getFilters`. */
    function GetFilters(dashboard: string, tab: string): Filters
      reads this
    {
      Lookup(filters, FilterKey(dashboard, tab))
    }

    /** `setStatusFilter`. */
    method SetStatusFilter(dashboard: string, tab: string, status: StatusFilter)
      modifies this
      ensures filters == WithStatus(old(filters), FilterKey(dashboard, tab), status)
      ensures GetFilters(dashboard, tab) == old(GetFilters(dashboard, tab)).(statusFilter := status)
    {
      filters := WithStatus(filters, FilterKey(dashboard, tab), status);
    }

    /** `setTextFilter`. */
    method SetTextFilter(dashboard: string, tab: string, text: string)
      modifies this
      ensures filters == WithText(old(filters), FilterKey(dashboard, tab), text)
      ensures GetFilters(dashboard, tab) == old(GetFilters(dashboard, tab)).(textFilter := text)
    {
      filters := WithText(filters, FilterKey(dashboard, tab), text);
    }

    /** `setShowOnlyFailures`. */
    method SetShowOnlyFailures(dashboard: string, tab: string, show: bool)
      modifies this
      ensures filters == WithOnlyFailures(old(filters), FilterKey(dashboard, tab), show)
      ensures GetFilters(dashboard, tab) == old(GetFilters(dashboard, tab)).(showOnlyFailures := show)
    {
      filters := WithOnlyFailures(filters, FilterKey(dashboard, tab), show);
    }

    /** `clearFilters`: forget one tab's settings. */
    method ClearFilters(dashboard: string, tab: string)
      modifies this
      ensures filters == old(filters) - {FilterKey(dashboard, tab)}
      ensures GetFilters(dashboard, tab) == DefaultFilters
    {
      filters := filters - {FilterKey(dashboard, tab)};
    }

    /** `clearAllFilters`. */
    method ClearAllFilters()
      modifies this
      ensures filters == map[]
    {
      filters := map[];
    }
  }
}
