/** Subscriptions to dashboards, tabs and tests, their ids, the storage envelope and the
    notification settings. */
module Subscription {
  import opened Wrappers
  import opened Text

  /** The three kinds of subscription. */
  datatype Kind = DashboardKind | TabKind | TestKind

  /** What a subscription points at (a subscription without its id and creation time). */
  datatype Target =
    | DashboardTarget(dashboardName: string)
    | TabTarget(dashboardName: string, tabName: string)
    | TestTarget(dashboardName: string, tabName: string, testName: string)
  {
    function Kind(): Kind {
      match this
      case DashboardTarget(_) => DashboardKind
      case TabTarget(_, _) => TabKind
      case TestTarget(_, _, _) => TestKind
    }

    /** The tab a subscription names, present exactly for tab and test subscriptions. */
    function TabName(): (r: Option<string>)
      ensures r.Some? <==> Kind() != DashboardKind
    {
      match this
      case DashboardTarget(_) => None
      case TabTarget(_, t) => Some(t)
      case TestTarget(_, t, _) => Some(t)
    }

    /** The test a subscription names, present exactly for test subscriptions. */
    function TestName(): (r: Option<string>)
      ensures r.Some? <==> Kind() == TestKind
    {
      match this
      case TestTarget(_, _, n) => Some(n)
      case _ => None
    }
  }

  /** A stored subscription: its id and creation time, then its target. Imported
      subscriptions keep the id they were stored with. */
  datatype Subscription = Subscription(id: string, createdAt: string, target: Target)

  /** The type tag written in front of an id. */
  function KindName(k: Kind): string {
    match k
    case DashboardKind => "dashboard"
    case TabKind => "tab"
    case TestKind => "test"
  }

  /** The id of a target: its type tag and its names, joined by colons. */
  function GenerateId(t: Target): string {
    match t
    case DashboardTarget(d) => "dashboard:" + d
    case TabTarget(d, tab) => "tab:" + d + ":" + tab
    case TestTarget(d, tab, n) => "test:" + d + ":" + tab + ":" + n
  }

  /** The ids the repository's own tests expect. */
  lemma GenerateIdExamples()
    ensures GenerateId(DashboardTarget("sig-release")) == "dashboard:sig-release"
    ensures GenerateId(TabTarget("sig-release", "kind-master")) == "tab:sig-release:kind-master"
  {
    assert "dashboard:sig-release" == "dashboard:" + "sig-release";
    assert "tab:sig-release:kind-master" == "tab:" + "sig-release" + ":" + "kind-master";
  }

  lemma GenerateIdTestExample()
    ensures GenerateId(TestTarget("sig-release", "kind-master", "e2e-test"))
            == "test:sig-release:kind-master:e2e-test"
  {
    assert "test:sig-release:kind-master:e2e-test" == "test:" + "sig-release" + ":" + "kind-master" + ":" + "e2e-test";
  }

  /** Targets of different kinds never share an id, whatever their names: the type tags
      differ in their first or second character. */
  lemma DifferentKindsDifferentIds(t1: Target, t2: Target)
    requires t1.Kind() != t2.Kind()
    ensures GenerateId(t1) != GenerateId(t2)
  {
    var a, b := GenerateId(t1), GenerateId(t2);
    if t1.Kind() == DashboardKind || t2.Kind() == DashboardKind {
      assert a[0] != b[0];
    } else {
      assert a[1] != b[1];
    }
  }

  /** Every name of a target except the last one is free of colons. */
  predicate ColonFreePrefixNames(t: Target) {
    match t
    case DashboardTarget(_) => true
    case TabTarget(d, _) => ':' !in d
    case TestTarget(d, tab, _) => ':' !in d && ':' !in tab
  }

  /** The names after the type tag, joined by colons. */
  function Names(t: Target): string {
    match t
    case DashboardTarget(d) => d
    case TabTarget(d, tab) => d + [':'] + tab
    case TestTarget(d, tab, n) => d + [':'] + (tab + [':'] + n)
  }

  /** An id is the type tag, a colon, and the names. */
  lemma IdShape(t: Target)
    ensures GenerateId(t) == KindName(t.Kind()) + ":" + Names(t)
    ensures GenerateId(t)[|KindName(t.Kind())| + 1..] == Names(t)
  {
    var tag := KindName(t.Kind()) + ":";
    match t
    case DashboardTarget(d) =>
      assert "dashboard:" == tag;
    case TabTarget(d, tab) =>
      assert "tab:" == tag;
      assert "tab:" + d + ":" + tab == tag + (d + [':'] + tab);
    case TestTarget(d, tab, n) =>
      assert "test:" == tag;
      assert "test:" + d + ":" + tab + ":" + n == tag + (d + [':'] + (tab + [':'] + n));
  }

  /** Ids identify their target as long as no name but the last contains a colon. */
  lemma IdInjective(t1: Target, t2: Target)
    requires ColonFreePrefixNames(t1) && ColonFreePrefixNames(t2)
    requires GenerateId(t1) == GenerateId(t2)
    ensures t1 == t2
  {
    if t1.Kind() != t2.Kind() {
      DifferentKindsDifferentIds(t1, t2);
    } else {
      IdShape(t1);
      IdShape(t2);
      assert Names(t1) == Names(t2);
      match t1
      case DashboardTarget(d1) =>
      case TabTarget(d1, x1) =>
        SeparatedPairInjective(d1, x1, t2.dashboardName, t2.tabName, ':');
      case TestTarget(d1, x1, n1) =>
        var d2, x2, n2 := t2.dashboardName, t2.tabName, t2.testName;
        SeparatedPairInjective(d1, x1 + [':'] + n1, d2, x2 + [':'] + n2, ':');
        SeparatedPairInjective(x1, n1, x2, n2, ':');
    }
  }

  /** Dashboard ids are injective with no restriction on the name. */
  lemma DashboardIdInjective(d1: string, d2: string)
    requires GenerateId(DashboardTarget(d1)) == GenerateId(DashboardTarget(d2))
    ensures d1 == d2
  {
    IdInjective(DashboardTarget(d1), DashboardTarget(d2));
  }

  /** A colon in a dashboard or tab name lets two different tabs, or two different tests, share an id. */
  lemma IdCollision()
    ensures TabTarget("a:b", "c") != TabTarget("a", "b:c")
    ensures GenerateId(TabTarget("a:b", "c")) == GenerateId(TabTarget("a", "b:c"))
    ensures GenerateId(TestTarget("d", "a:b", "c")) == GenerateId(TestTarget("d", "a", "b:c"))
  {
  }

  /** The only storage format version there is. */
  const STORAGE_VERSION := 1

  /** The exported or persisted subscription list. */
  datatype StoredSubscriptions = StoredSubscriptions(version: int, subscriptions: seq<Subscription>,
                                                     exportedAt: Option<string>)

  /** Stored data is accepted only with the current version. */
  predicate ValidStorage(s: StoredSubscriptions) {
    s.version == STORAGE_VERSION
  }

  /** Desktop and browser notification preferences. The quiet hours are `HH:mm` strings. */
  datatype NotificationSettings = NotificationSettings(
    enabled: bool,
    pollIntervalSeconds: real,
    quietHoursStart: Option<string>,
    quietHoursEnd: Option<string>,
    browserNotifications: bool)

  const MIN_POLL_INTERVAL_SECONDS: real := 30.0
  const MAX_POLL_INTERVAL_SECONDS: real := 3600.0

  /** Settings accepted on load: a poll interval between half a minute and an hour. */
  predicate ValidSettings(s: NotificationSettings) {
    MIN_POLL_INTERVAL_SECONDS <= s.pollIntervalSeconds <= MAX_POLL_INTERVAL_SECONDS
  }

  /** The settings before the user changes anything. */
  const DefaultSettings := NotificationSettings(true, 60.0, None, None, true)

  /** The defaults are valid settings, with notifications on and no quiet hours. */
  lemma DefaultSettingsValid()
    ensures ValidSettings(DefaultSettings)
    ensures DefaultSettings.enabled && DefaultSettings.browserNotifications
    ensures DefaultSettings.quietHoursStart.None? && DefaultSettings.quietHoursEnd.None?
  {
  }
}
