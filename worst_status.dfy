/** The worst overall status of a list of tabs or dashboards. */
module WorstStatus {

  /** The overall status of a tab or dashboard. */
  datatype OverallStatus = PASSING | FLAKY | FAILING | STALE

  /** Lower is worse: failing, then flaky, then stale, then passing. */
  function Priority(s: OverallStatus): (p: nat)
    ensures p <= 3
  {
    match s
    case FAILING => 0
    case FLAKY => 1
    case STALE => 2
    case PASSING => 3
  }

  /** Different statuses have different priorities. */
  lemma PriorityInjective(a: OverallStatus, b: OverallStatus)
    requires Priority(a) == Priority(b)
    ensures a == b
  {
  }

  /** One step of the reduction: the current status replaces the worst so far only when it
      is strictly worse. */
  function Worse(worst: OverallStatus, current: OverallStatus): OverallStatus {
    if Priority(current) < Priority(worst) then current else worst
  }

  /** `statuses.reduce(step, initial)`. */
  function Reduce(initial: OverallStatus, statuses: seq<OverallStatus>): OverallStatus
    decreases |statuses|
  {
    if statuses == [] then initial else Reduce(Worse(initial, statuses[0]), statuses[1..])
  }

  /** `getWorstStatus`. */
  function GetWorstStatus(statuses: seq<OverallStatus>): OverallStatus {
    Reduce(PASSING, statuses)
  }

  /** The reduction yields the initial value or an element, and nothing in the list or the
      initial value is worse than it. */
  lemma {:induction false} ReduceMinimal(initial: OverallStatus, statuses: seq<OverallStatus>)
    ensures Reduce(initial, statuses) == initial || Reduce(initial, statuses) in statuses
    ensures Priority(Reduce(initial, statuses)) <= Priority(initial)
    ensures forall s :: s in statuses ==> Priority(Reduce(initial, statuses)) <= Priority(s)
    decreases |statuses|
  {
    if statuses != [] {
      ReduceMinimal(Worse(initial, statuses[0]), statuses[1..]);
      assert statuses == [statuses[0]] + statuses[1..];
    }
  }

  /** The worst status is passing for an empty list; otherwise it is passing or one of the
      statuses, and no status in the list is worse. */
  lemma WorstStatusProperties(statuses: seq<OverallStatus>)
    ensures statuses == [] ==> GetWorstStatus(statuses) == PASSING
    ensures GetWorstStatus(statuses) == PASSING || GetWorstStatus(statuses) in statuses
    ensures forall s :: s in statuses ==> Priority(GetWorstStatus(statuses)) <= Priority(s)
    ensures FAILING in statuses ==> GetWorstStatus(statuses) == FAILING
  {
    ReduceMinimal(PASSING, statuses);
  }

  /** The worst status depends only on which statuses occur, not on their order or count. */
  lemma WorstStatusOrderIndependent(a: seq<OverallStatus>, b: seq<OverallStatus>)
    requires forall s :: s in a <==> s in b
    ensures GetWorstStatus(a) == GetWorstStatus(b)
  {
    WorstStatusProperties(a);
    WorstStatusProperties(b);
    var x, y := GetWorstStatus(a), GetWorstStatus(b);
    assert Priority(x) <= Priority(y) by {
      if y != PASSING { assert y in a; }
    }
    assert Priority(y) <= Priority(x) by {
      if x != PASSING { assert x in b; }
    }
    PriorityInjective(x, y);
  }
}
