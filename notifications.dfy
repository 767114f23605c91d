/** The desktop notifier: which tab summaries are watched, when a failure is announced, and
    the polling switch. */
module Notifications {
  import opened Wrappers

  /** A subscription as the desktop side receives it. */
  datatype NotifySubscription = NotifySubscription(id: string, subscriptionType: string, dashboardName: string,
                                                   tabName: Option<string>, testName: Option<string>)

  /** The part of a tab summary the notifier reads. */
  datatype TabSummary = TabSummary(tabName: string, overallStatus: string)

  datatype TabStatus = Unknown | Passing | Failing | Flaky | Stale

  /** `TabStatus::from`: exact, case-sensitive names; anything else is unknown. */
  function StatusFrom(status: string): (t: TabStatus)
    ensures t == Passing <==> status == "PASSING"
    ensures t == Failing <==> status == "FAILING"
    ensures t == Flaky <==> status == "FLAKY"
    ensures t == Stale <==> status == "STALE"
  {
    match status
    case "PASSING" => Passing
    case "FAILING" => Failing
    case "FLAKY" => Flaky
    case "STALE" => Stale
    case _ => Unknown
  }

  /** Lower-case names are not recognised. */
  lemma StatusFromIsCaseSensitive()
    ensures StatusFrom("failing") == Unknown
  {
  }

  /** A notification's title and body. */
  datatype Notification = Notification(title: string, body: string)

  /** The key under which a tab's last status is recorded. */
  function StatusKey(dashboard: string, tab: string): string {
    dashboard + ":" + tab
  }

  /** The key does not separate names that contain a colon: two different tabs of two
      different dashboards can share one record. */
  lemma StatusKeyCollision()
    ensures StatusKey("a:b", "c") == StatusKey("a", "b:c")
  {
  }

  /** A summary is watched when some subscription names its dashboard and either no tab or
      this tab. */
  predicate IsSubscribed(subs: seq<NotifySubscription>, dashboard: string, tab: string) {
    exists i :: 0 <= i < |subs| && subs[i].dashboardName == dashboard
                 && (subs[i].tabName.None? || subs[i].tabName.value == tab)
  }

  /** The announcement for a tab that started failing. */
  function FailureNotification(dashboard: string, tab: string): Notification {
    Notification("Test Failure: " + tab, "Dashboard '" + dashboard + "' tab '" + tab + "' is now failing")
  }

  /** The outcome of one summary: whether to announce, and the new record of last statuses. */
  datatype StepResult = StepResult(notification: Option<Notification>, lastStatus: map<string, TabStatus>)

  function Step(subs: seq<NotifySubscription>, lastStatus: map<string, TabStatus>, dashboard: string,
                summary: TabSummary): StepResult
  {
    var key := StatusKey(dashboard, summary.tabName);
    var current := StatusFrom(summary.overallStatus);
    if !IsSubscribed(subs, dashboard, summary.tabName) then StepResult(None, lastStatus)
    else
      var previous := if key in lastStatus then Some(lastStatus[key]) else None;
      var note := if current == Failing && previous != Some(Failing)
                  then Some(FailureNotification(dashboard, summary.tabName)) else None;
      StepResult(note, lastStatus[key := current])
  }

  /** An unwatched summary announces nothing and records nothing. A watched one is announced
      exactly when it is failing now and was not recorded as failing, and afterwards its
      current status is recorded while every other key keeps its record. */
  lemma StepProperties(subs: seq<NotifySubscription>, lastStatus: map<string, TabStatus>, dashboard: string,
                       summary: TabSummary, other: string)
    ensures var r := Step(subs, lastStatus, dashboard, summary);
            var key := StatusKey(dashboard, summary.tabName);
            && (!IsSubscribed(subs, dashboard, summary.tabName) ==> r.notification.None? && r.lastStatus == lastStatus)
            && (IsSubscribed(subs, dashboard, summary.tabName) ==>
                  && (r.notification.Some? <==> summary.overallStatus == "FAILING"
                                                && (key !in lastStatus || lastStatus[key] != Failing))
                  && (r.notification.Some? ==> r.notification.value.title == "Test Failure: " + summary.tabName)
                  && key in r.lastStatus && r.lastStatus[key] == StatusFrom(summary.overallStatus)
                  && (other != key ==> (other in r.lastStatus <==> other in lastStatus))
                  && (other != key && other in lastStatus ==> r.lastStatus[other] == lastStatus[other]))
  {
  }

  /** Seeing the same failing summary twice in a row announces it once. */
  lemma FailingTwiceNotifiesOnce(subs: seq<NotifySubscription>, lastStatus: map<string, TabStatus>,
                                 dashboard: string, summary: TabSummary)
    requires IsSubscribed(subs, dashboard, summary.tabName)
    requires summary.overallStatus == "FAILING"
    ensures var first := Step(subs, lastStatus, dashboard, summary);
            Step(subs, first.lastStatus, dashboard, summary).notification.None?
  {
    var first := Step(subs, lastStatus, dashboard, summary);
    StepProperties(subs, lastStatus, dashboard, summary, "");
    assert first.lastStatus[StatusKey(dashboard, summary.tabName)] == Failing;
  }

  /** A failure that recovers and fails again is announced again. */
  lemma RecoveryRearms(subs: seq<NotifySubscription>, lastStatus: map<string, TabStatus>, dashboard: string,
                       failing: TabSummary, passing: TabSummary)
    requires IsSubscribed(subs, dashboard, failing.tabName)
    requires passing.tabName == failing.tabName
    requires failing.overallStatus == "FAILING" && passing.overallStatus == "PASSING"
    ensures var mid := Step(subs, lastStatus, dashboard, passing);
            Step(subs, mid.lastStatus, dashboard, failing).notification.Some?
  {
    StepProperties(subs, lastStatus, dashboard, passing, "");
  }

  /** The notifier's global state. */
  class Notifier {
    var subscriptions: seq<NotifySubscription>
    var lastStatus: map<string, TabStatus>
    var pollingActive: bool
    /** The period of the running poll loop, in seconds. */
    var pollSeconds: nat

    constructor()
      ensures subscriptions == [] && lastStatus == map[] && !pollingActive
    {
      subscriptions := [];
      lastStatus := map[];
      pollingActive := false;
      pollSeconds := 0;
    }

    /** `set_subscriptions`: replace the whole list. */
    method SetSubscriptions(subs: seq<NotifySubscription>)
      modifies this
      ensures subscriptions == subs
      ensures lastStatus == old(lastStatus) && pollingActive == old(pollingActive) && pollSeconds == old(pollSeconds)
    {
      subscriptions := subs;
    }

    /** `start_polling`: nothing happens when polling is already on; otherwise polling starts
        with the interval raised to at least one minute. */
    method StartPolling(intervalMinutes: nat)
      modifies this
      ensures old(pollingActive) ==> pollSeconds == old(pollSeconds)
      ensures !old(pollingActive) ==> pollSeconds == (if intervalMinutes < 1 then 1 else intervalMinutes) * 60
      ensures !old(pollingActive) ==> pollSeconds >= 60
      ensures subscriptions == old(subscriptions) && lastStatus == old(lastStatus)
      ensures pollingActive
    {
      if pollingActive {
        return;
      }
      pollingActive := true;
      var intervalMins := if intervalMinutes < 1 then 1 else intervalMinutes;
      pollSeconds := intervalMins * 60;
    }

    /** `stop_polling`. */
    method StopPolling()
      modifies this
      ensures !pollingActive
      ensures subscriptions == old(subscriptions) && lastStatus == old(lastStatus) && pollSeconds == old(pollSeconds)
    {
      pollingActive := false;
    }

    /** `is_polling`. */
    function IsPolling(): bool
      reads this
    {
      pollingActive
    }

    /** One summary of a dashboard's response. */
    method ProcessSummary(dashboard: string, summary: TabSummary) returns (notification: Option<Notification>)
      modifies this
      ensures Step(old(subscriptions), old(lastStatus), dashboard, summary) == StepResult(notification, lastStatus)
      ensures subscriptions == old(subscriptions) && pollingActive == old(pollingActive) && pollSeconds == old(pollSeconds)
    {
      var key := StatusKey(dashboard, summary.tabName);
      var current := StatusFrom(summary.overallStatus);
      var subscribed := false;
      for i := 0 to |subscriptions|
        invariant subscribed <==> IsSubscribed(subscriptions[..i], dashboard, summary.tabName)
      {
        var s := subscriptions[i];
        if s.dashboardName == dashboard && (s.tabName.None? || s.tabName.value == summary.tabName) {
          subscribed := true;
        }
        assert forall j :: 0 <= j < i ==> subscriptions[..i + 1][j] == subscriptions[..i][j];
      }
      assert subscriptions[..|subscriptions|] == subscriptions;
      notification := None;
      if !subscribed {
        return;
      }
      var previous := if key in lastStatus then Some(lastStatus[key]) else None;
      if current == Failing && previous != Some(Failing) {
        notification := Some(FailureNotification(dashboard, summary.tabName));
      }
      lastStatus := lastStatus[key := current];
    }

    /** All summaries of one dashboard's response, in order; returns the announcements. */
    method ProcessSummaries(dashboard: string, summaries: seq<TabSummary>) returns (sent: seq<Notification>)
      modifies this
      ensures sent == Run(old(subscriptions), old(lastStatus), dashboard, summaries).0
      ensures lastStatus == Run(old(subscriptions), old(lastStatus), dashboard, summaries).1
      ensures subscriptions == old(subscriptions) && pollingActive == old(pollingActive) && pollSeconds == old(pollSeconds)
    {
      sent := [];
      for i := 0 to |summaries|
        invariant subscriptions == old(subscriptions) && pollingActive == old(pollingActive) && pollSeconds == old(pollSeconds)
        invariant sent == Run(subscriptions, old(lastStatus), dashboard, summaries[..i]).0
        invariant lastStatus == Run(subscriptions, old(lastStatus), dashboard, summaries[..i]).1
      {
        RunSnoc(subscriptions, old(lastStatus), dashboard, summaries[..i], summaries[i]);
        assert summaries[..i + 1] == summaries[..i] + [summaries[i]];
        ghost var prev := lastStatus;
        var n := ProcessSummary(dashboard, summaries[i]);
        assert Step(subscriptions, prev, dashboard, summaries[i]) == StepResult(n, lastStatus);
        if n.Some? {
          sent := sent + [n.value];
        }
      }
      assert summaries[..|summaries|] == summaries;
    }
  }

  /** The announcements and the final record after processing summaries in order. */
  function Run(subs: seq<NotifySubscription>, lastStatus: map<string, TabStatus>, dashboard: string,
               summaries: seq<TabSummary>): (seq<Notification>, map<string, TabStatus>)
    decreases |summaries|
  {
    if summaries == [] then ([], lastStatus)
    else
      var before := Run(subs, lastStatus, dashboard, summaries[..|summaries| - 1]);
      var r := Step(subs, before.1, dashboard, summaries[|summaries| - 1]);
      (before.0 + (if r.notification.Some? then [r.notification.value] else []), r.lastStatus)
  }

  lemma RunSnoc(subs: seq<NotifySubscription>, lastStatus: map<string, TabStatus>, dashboard: string,
                summaries: seq<TabSummary>, next: TabSummary)
    ensures var before := Run(subs, lastStatus, dashboard, summaries);
            var r := Step(subs, before.1, dashboard, next);
            && Run(subs, lastStatus, dashboard, summaries + [next]).0
               == before.0 + (if r.notification.Some? then [r.notification.value] else [])
            && Run(subs, lastStatus, dashboard, summaries + [next]).1 == r.lastStatus
  {
    assert (summaries + [next])[..|summaries|] == summaries;
  }

  /** Summaries of unwatched tabs never produce announcements nor records. */
  lemma {:induction false} RunIgnoresUnwatched(subs: seq<NotifySubscription>, lastStatus: map<string, TabStatus>,
                                               dashboard: string, summaries: seq<TabSummary>)
    requires forall k :: 0 <= k < |summaries| ==> !IsSubscribed(subs, dashboard, summaries[k].tabName)
    ensures Run(subs, lastStatus, dashboard, summaries) == ([], lastStatus)
    decreases |summaries|
  {
    if summaries != [] {
      var init := summaries[..|summaries| - 1];
      assert forall k :: 0 <= k < |init| ==> init[k] == summaries[k];
      RunIgnoresUnwatched(subs, lastStatus, dashboard, init);
      var last := summaries[|summaries| - 1];
      assert !IsSubscribed(subs, dashboard, last.tabName);
      assert Step(subs, lastStatus, dashboard, last) == StepResult(None, lastStatus);
      assert Run(subs, lastStatus, dashboard, summaries).0 == [];
      assert Run(subs, lastStatus, dashboard, summaries).1 == lastStatus;
    }
  }
}
