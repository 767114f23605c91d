/** The subscription store: the list of subscriptions and the notification settings, with the
    actions that replace them and the queries over them. */
module SubscriptionStore {
  import opened Wrappers
  import opened Text
  import opened Subscription

  // ---------------------------------------------------------------- queries

  /** Some subscription in `subs` has id `id`. */
  predicate HasId(subs: seq<Subscription>, id: string) {
    exists i :: 0 <= i < |subs| && subs[i].id == id
  }

  /** No two subscriptions share an id. */
  predicate UniqueIds(subs: seq<Subscription>) {
    forall i, j :: 0 <= i < j < |subs| ==> subs[i].id != subs[j].id
  }

  /** `isSubscribed`: the target's id is present. */
  predicate IsSubscribed(subs: seq<Subscription>, t: Target) {
    HasId(subs, GenerateId(t))
  }

  /** The position of the first subscription with id `id`, or -1 (`findIndex`). */
  function FindIndex(subs: seq<Subscription>, id: string): (i: int)
    ensures -1 <= i < |subs|
    ensures i == -1 <==> !HasId(subs, id)
    ensures 0 <= i ==> subs[i].id == id && forall j :: 0 <= j < i ==> subs[j].id != id
  {
    if subs == [] then -1
    else if subs[0].id == id then 0
    else
      var k := FindIndex(subs[1..], id);
      assert HasId(subs, id) ==> HasId(subs[1..], id) by {
        if HasId(subs, id) {
          var m :| 0 <= m < |subs| && subs[m].id == id;
          assert subs[1..][m - 1].id == id;
        }
      }
      if k == -1 then -1 else k + 1
  }

  /** `getSubscription`: the first subscription with id `id`. */
  function GetSubscription(subs: seq<Subscription>, id: string): (r: Option<Subscription>)
    ensures r.None? <==> !HasId(subs, id)
    ensures r.Some? ==> r.value.id == id && r.value == subs[FindIndex(subs, id)]
  {
    var i := FindIndex(subs, id);
    if i < 0 then None else Some(subs[i])
  }

  // ---------------------------------------------------------------- order-preserving filters

  /** The filters the store applies to its list. */
  datatype Criterion =
    | IdIsNot(id: string)              // `unsubscribe`
    | KindIs(kind: Kind)               // `getSubscriptionsByType`
    | DashboardIs(dashboard: string)   // `getSubscriptionsByDashboard`
    | IdNotIn(ids: set<string>)        // the import merge

  predicate Meets(s: Subscription, c: Criterion) {
    match c
    case IdIsNot(id) => s.id != id
    case KindIs(k) => s.target.Kind() == k
    case DashboardIs(d) => s.target.dashboardName == d
    case IdNotIn(ids) => s.id !in ids
  }

  /** `subs.filter(...)` for one criterion. */
  function Select(subs: seq<Subscription>, c: Criterion): (r: seq<Subscription>)
    ensures |r| <= |subs|
    ensures forall k :: 0 <= k < |r| ==> Meets(r[k], c)
  {
    if subs == [] then []
    else if Meets(subs[0], c) then [subs[0]] + Select(subs[1..], c)
    else Select(subs[1..], c)
  }

  /** An entry is selected exactly when it is in the list and meets the criterion. */
  lemma {:induction false} SelectMembership(subs: seq<Subscription>, c: Criterion, s: Subscription)
    ensures s in Select(subs, c) <==> s in subs && Meets(s, c)
  {
    if subs != [] {
      SelectMembership(subs[1..], c, s);
      assert subs == [subs[0]] + subs[1..];
    }
  }

  /** An entry meeting the criterion keeps every one of its copies; any other entry has none. */
  lemma {:induction false} SelectCount(subs: seq<Subscription>, c: Criterion, s: Subscription)
    ensures multiset(Select(subs, c))[s] == if Meets(s, c) then multiset(subs)[s] else 0
  {
    if subs != [] {
      SelectCount(subs[1..], c, s);
      assert subs == [subs[0]] + subs[1..];
    }
  }

  /** Selecting keeps the original order. */
  lemma {:induction false} SelectInOrder(subs: seq<Subscription>, c: Criterion)
    ensures IsSubsequence(Select(subs, c), subs)
  {
    if subs == [] {
      assert IsSubsequence<Subscription>([], []);
    } else {
      SelectInOrder(subs[1..], c);
      var rest := Select(subs[1..], c);
      if Meets(subs[0], c) {
        assert ([subs[0]] + rest)[0] == subs[0] && ([subs[0]] + rest)[1..] == rest;
      } else {
        SubsequenceSkip(rest, subs[1..], subs[0]);
        assert [subs[0]] + subs[1..] == subs;
      }
    }
  }

  /** Selecting again with the same criterion changes nothing. */
  lemma {:induction false} SelectIdempotent(subs: seq<Subscription>, c: Criterion)
    ensures Select(Select(subs, c), c) == Select(subs, c)
  {
    if subs != [] {
      SelectIdempotent(subs[1..], c);
    }
  }

  /** When every entry meets the criterion, nothing is dropped. */
  lemma {:induction false} SelectAll(subs: seq<Subscription>, c: Criterion)
    requires forall k :: 0 <= k < |subs| ==> Meets(subs[k], c)
    ensures Select(subs, c) == subs
  {
    if subs != [] {
      SelectAll(subs[1..], c);
      assert [subs[0]] + subs[1..] == subs;
    }
  }

  /** A sublist of a list with unique ids has unique ids. */
  lemma {:induction false} SelectKeepsUnique(subs: seq<Subscription>, c: Criterion)
    requires UniqueIds(subs)
    ensures UniqueIds(Select(subs, c))
  {
    if subs != [] {
      SelectKeepsUnique(subs[1..], c);
      var rest := Select(subs[1..], c);
      if Meets(subs[0], c) {
        forall k | 0 <= k < |rest|
          ensures rest[k].id != subs[0].id
        {
          SelectMembership(subs[1..], c, rest[k]);
          var m :| 0 <= m < |subs[1..]| && subs[1..][m] == rest[k];
          assert subs[m + 1] == rest[k];
        }
      }
    }
  }

  /** `getSubscriptionsByType`. */
  function ByKind(subs: seq<Subscription>, k: Kind): seq<Subscription> {
    Select(subs, KindIs(k))
  }

  /** `getSubscriptionsByDashboard`. */
  function ByDashboard(subs: seq<Subscription>, d: string): seq<Subscription> {
    Select(subs, DashboardIs(d))
  }

  /** The type and dashboard queries return, in order, exactly the entries of that type
      or dashboard. */
  lemma QueriesAreFilters(subs: seq<Subscription>, k: Kind, d: string, s: Subscription)
    ensures s in ByKind(subs, k) <==> s in subs && s.target.Kind() == k
    ensures s in ByDashboard(subs, d) <==> s in subs && s.target.dashboardName == d
    ensures IsSubsequence(ByKind(subs, k), subs) && IsSubsequence(ByDashboard(subs, d), subs)
  {
    SelectMembership(subs, KindIs(k), s);
    SelectMembership(subs, DashboardIs(d), s);
    SelectInOrder(subs, KindIs(k));
    SelectInOrder(subs, DashboardIs(d));
  }

  // ---------------------------------------------------------------- list updates

  /** The list after `subscribe(t)` at time `createdAt`: the new entry is appended unless an
      entry with its id exists. */
  function AfterSubscribe(subs: seq<Subscription>, t: Target, createdAt: string): seq<Subscription> {
    if HasId(subs, GenerateId(t)) then subs else subs + [Subscription(GenerateId(t), createdAt, t)]
  }

  /** After subscribing the target is subscribed, and ids stay unique. */
  lemma SubscribeProperties(subs: seq<Subscription>, t: Target, createdAt: string)
    ensures IsSubscribed(AfterSubscribe(subs, t, createdAt), t)
    ensures UniqueIds(subs) ==> UniqueIds(AfterSubscribe(subs, t, createdAt))
    ensures |AfterSubscribe(subs, t, createdAt)| == |subs| + (if IsSubscribed(subs, t) then 0 else 1)
  {
    var r := AfterSubscribe(subs, t, createdAt);
    if !HasId(subs, GenerateId(t)) {
      assert r[|subs|].id == GenerateId(t);
    } else {
      var m :| 0 <= m < |subs| && subs[m].id == GenerateId(t);
      assert r[m].id == GenerateId(t);
    }
  }

  /** Subscribing twice to the same target is the same as subscribing once. */
  lemma SubscribeIdempotent(subs: seq<Subscription>, t: Target, c1: string, c2: string)
    ensures AfterSubscribe(AfterSubscribe(subs, t, c1), t, c2) == AfterSubscribe(subs, t, c1)
  {
    SubscribeProperties(subs, t, c1);
  }

  /** The list after `unsubscribe(id)`: every entry with that id removed, the rest in order. */
  function RemoveId(subs: seq<Subscription>, id: string): seq<Subscription> {
    Select(subs, IdIsNot(id))
  }

  /** After removing an id it is gone, and every other entry stays, in order. */
  lemma RemoveIdProperties(subs: seq<Subscription>, id: string, s: Subscription)
    ensures !HasId(RemoveId(subs, id), id)
    ensures s in RemoveId(subs, id) <==> s in subs && s.id != id
    ensures IsSubsequence(RemoveId(subs, id), subs)
    ensures !HasId(subs, id) ==> RemoveId(subs, id) == subs
  {
    SelectMembership(subs, IdIsNot(id), s);
    SelectInOrder(subs, IdIsNot(id));
    if !HasId(subs, id) {
      SelectAll(subs, IdIsNot(id));
    }
  }

  /** Unsubscribing a target after subscribing it leaves it unsubscribed. */
  lemma UnsubscribeByTargetProperty(subs: seq<Subscription>, t: Target, createdAt: string)
    ensures !IsSubscribed(RemoveId(AfterSubscribe(subs, t, createdAt), GenerateId(t)), t)
  {
    RemoveIdProperties(AfterSubscribe(subs, t, createdAt), GenerateId(t), Subscription(GenerateId(t), createdAt, t));
  }

  /** The ids present in a list. */
  function IdSet(subs: seq<Subscription>): (ids: set<string>)
    ensures forall id :: id in ids <==> HasId(subs, id)
  {
    set i | 0 <= i < |subs| :: subs[i].id
  }

  /** The import merge: the existing list followed by the imported entries whose id is not
      already present. Only ids of the existing list are looked at. */
  function NewEntries(existing: seq<Subscription>, imported: seq<Subscription>): seq<Subscription> {
    Select(imported, IdNotIn(IdSet(existing)))
  }

  function Merge(existing: seq<Subscription>, imported: seq<Subscription>): seq<Subscription> {
    existing + NewEntries(existing, imported)
  }

  /** The merge keeps the existing list as its prefix and appends, in their order, exactly the
      imported entries whose ids are new. */
  lemma MergeProperties(existing: seq<Subscription>, imported: seq<Subscription>, s: Subscription)
    ensures Merge(existing, imported)[..|existing|] == existing
    ensures s in NewEntries(existing, imported) <==> s in imported && !HasId(existing, s.id)
    ensures IsSubsequence(NewEntries(existing, imported), imported)
    ensures |Merge(existing, imported)| == |existing| + |NewEntries(existing, imported)|
  {
    SelectMembership(imported, IdNotIn(IdSet(existing)), s);
    SelectInOrder(imported, IdNotIn(IdSet(existing)));
  }

  /** Re-importing the store's own list adds nothing. */
  lemma MergeSelf(subs: seq<Subscription>)
    ensures NewEntries(subs, subs) == []
    ensures Merge(subs, subs) == subs
  {
    var rest := NewEntries(subs, subs);
    if rest != [] {
      SelectMembership(subs, IdNotIn(IdSet(subs)), rest[0]);
      assert false;
    }
  }

  /** Ids stay unique through an import when both lists have unique ids. */
  lemma MergeKeepsUnique(existing: seq<Subscription>, imported: seq<Subscription>)
    requires UniqueIds(existing) && UniqueIds(imported)
    ensures UniqueIds(Merge(existing, imported))
  {
    var added := NewEntries(existing, imported);
    SelectKeepsUnique(imported, IdNotIn(IdSet(existing)));
    var m := Merge(existing, imported);
    forall i, j | 0 <= i < j < |m|
      ensures m[i].id != m[j].id
    {
      if j >= |existing| && i < |existing| {
        assert Meets(added[j - |existing|], IdNotIn(IdSet(existing)));
        assert HasId(existing, m[i].id);
      } else if i >= |existing| {
        assert m[i] == added[i - |existing|] && m[j] == added[j - |existing|];
      }
    }
  }

  /** A file that lists the same id twice brings both copies into an empty store. */
  lemma ImportCanDuplicate(s: Subscription)
    ensures Merge([], [s, s]) == [s, s]
    ensures !UniqueIds(Merge([], [s, s]))
  {
    var c := IdNotIn(IdSet([]));
    assert Meets(s, c);
    assert [s, s][1..] == [s] && [s][1..] == [];
    assert Select([s], c) == [s];
    assert Select([s, s], c) == [s, s];
    assert [s, s][0].id == [s, s][1].id;
  }

  // ---------------------------------------------------------------- settings updates

  /** The fields of a partial settings update; absent fields are kept. The quiet hours can be
      supplied as cleared. */
  datatype SettingsPatch = SettingsPatch(
    enabled: Option<bool>,
    pollIntervalSeconds: Option<real>,
    quietHoursStart: Option<Option<string>>,
    quietHoursEnd: Option<Option<string>>,
    browserNotifications: Option<bool>)

  const EmptyPatch := SettingsPatch(None, None, None, None, None)

  /** `{ ...settings, ...patch }`. */
  function ApplyPatch(s: NotificationSettings, p: SettingsPatch): NotificationSettings {
    NotificationSettings(
      p.enabled.GetOr(s.enabled),
      p.pollIntervalSeconds.GetOr(s.pollIntervalSeconds),
      p.quietHoursStart.GetOr(s.quietHoursStart),
      p.quietHoursEnd.GetOr(s.quietHoursEnd),
      p.browserNotifications.GetOr(s.browserNotifications))
  }

  /** A supplied field reads back as supplied; an absent one keeps its value. An empty patch
      changes nothing, and applying a patch twice is applying it once. */
  lemma PatchProperties(s: NotificationSettings, p: SettingsPatch)
    ensures p.enabled.Some? ==> ApplyPatch(s, p).enabled == p.enabled.value
    ensures p.enabled.None? ==> ApplyPatch(s, p).enabled == s.enabled
    ensures p.pollIntervalSeconds.Some? ==> ApplyPatch(s, p).pollIntervalSeconds == p.pollIntervalSeconds.value
    ensures p.pollIntervalSeconds.None? ==> ApplyPatch(s, p).pollIntervalSeconds == s.pollIntervalSeconds
    ensures p.browserNotifications.None? ==> ApplyPatch(s, p).browserNotifications == s.browserNotifications
    ensures ApplyPatch(s, EmptyPatch) == s
    ensures ApplyPatch(ApplyPatch(s, p), p) == ApplyPatch(s, p)
  {
  }

  /** A patch keeps the settings valid when its interval, if any, is in range; the update
      itself checks nothing, so an out-of-range interval is stored as given. */
  lemma PatchValidity(s: NotificationSettings, p: SettingsPatch)
    ensures ValidSettings(s) && (p.pollIntervalSeconds.None? || MIN_POLL_INTERVAL_SECONDS <= p.pollIntervalSeconds.value <= MAX_POLL_INTERVAL_SECONDS)
            ==> ValidSettings(ApplyPatch(s, p))
    ensures !ValidSettings(ApplyPatch(DefaultSettings, EmptyPatch.(pollIntervalSeconds := Some(5.0))))
  {
  }

  // ---------------------------------------------------------------- the store

  class Store {
    var subscriptions: seq<Subscription>
    var notificationSettings: NotificationSettings

    /** The initial state before hydration: no subscriptions and the default settings. */
    constructor()
      ensures subscriptions == [] && notificationSettings == DefaultSettings
    {
      subscriptions := [];
      notificationSettings := DefaultSettings;
    }

    /** `subscribe`: append a new entry unless the target's id is present. */
    method Subscribe(t: Target, createdAt: string)
      modifies this
      ensures subscriptions == AfterSubscribe(old(subscriptions), t, createdAt)
      ensures notificationSettings == old(notificationSettings)
      ensures IsSubscribed(subscriptions, t)
    {
      var id := GenerateId(t);
      var existing := GetSubscription(subscriptions, id);
      if existing.Some? {
        SubscribeProperties(subscriptions, t, createdAt);
        return;
      }
      subscriptions := subscriptions + [Subscription(id, createdAt, t)];
      SubscribeProperties(old(subscriptions), t, createdAt);
    }

    /** `unsubscribe`: drop every entry with the id. */
    method Unsubscribe(id: string)
      modifies this
      ensures subscriptions == RemoveId(old(subscriptions), id)
      ensures notificationSettings == old(notificationSettings)
      ensures !HasId(subscriptions, id)
    {
      subscriptions := RemoveId(subscriptions, id);
      RemoveIdProperties(old(subscriptions), id, Subscription(id, "", DashboardTarget("")));
    }

    /** `unsubscribeByTarget`. */
    method UnsubscribeByTarget(t: Target)
      modifies this
      ensures subscriptions == RemoveId(old(subscriptions), GenerateId(t))
      ensures notificationSettings == old(notificationSettings)
      ensures !IsSubscribed(subscriptions, t)
    {
      Unsubscribe(GenerateId(t));
    }

    /** `clearAll`. */
    method ClearAll()
      modifies this
      ensures subscriptions == [] && notificationSettings == old(notificationSettings)
    {
      subscriptions := [];
    }

    /** `importFromJson`, given the parsed file (`None` when it is not JSON). A file that is
        not JSON or not of the current version leaves the store untouched and fails with
        count 0; otherwise the new entries are merged in and counted. */
    method ImportFromJson(parsed: Option<StoredSubscriptions>) returns (success: bool, count: nat)
      modifies this
      ensures notificationSettings == old(notificationSettings)
      ensures success <==> parsed.Some? && ValidStorage(parsed.value)
      ensures !success ==> count == 0 && subscriptions == old(subscriptions)
      ensures success ==> subscriptions == Merge(old(subscriptions), parsed.value.subscriptions)
      ensures success ==> count == |subscriptions| - |old(subscriptions)|
    {
      if parsed.None? || !ValidStorage(parsed.value) {
        return false, 0;
      }
      var imported := parsed.value.subscriptions;
      var existingIds := set s | s in subscriptions :: s.id;
      assert existingIds == IdSet(subscriptions) by {
        forall id ensures id in existingIds <==> id in IdSet(subscriptions) {
          if id in IdSet(subscriptions) {
            var i :| 0 <= i < |subscriptions| && subscriptions[i].id == id;
            assert subscriptions[i] in subscriptions;
          }
        }
      }
      var newSubscriptions := Select(imported, IdNotIn(existingIds));
      subscriptions := subscriptions + newSubscriptions;
      return true, |newSubscriptions|;
    }

    /** `updateNotificationSettings`: overwrite the supplied fields only. */
    method UpdateNotificationSettings(patch: SettingsPatch)
      modifies this
      ensures notificationSettings == ApplyPatch(old(notificationSettings), patch)
      ensures subscriptions == old(subscriptions)
    {
      notificationSettings := ApplyPatch(notificationSettings, patch);
    }
  }

  /** The merge example of the repository's tests: importing one known and one new
      subscription adds only the new one. */
  lemma MergeExample(known: Subscription, other: Subscription)
    requires known.id != other.id
    ensures Merge([known], [known, other]) == [known, other]
    ensures |NewEntries([known], [known, other])| == 1
  {
    var c := IdNotIn(IdSet([known]));
    assert HasId([known], known.id) by { assert [known][0].id == known.id; }
    assert IdSet([known]) == {known.id};
    assert !Meets(known, c) && Meets(other, c);
    assert [known, other][1..] == [other] && [other][1..] == [];
    assert Select([other], c) == [other];
    assert Select([known, other], c) == [other];
  }

  /** The settings-update example of the repository's tests. */
  lemma UpdateExample()
    ensures ApplyPatch(DefaultSettings, EmptyPatch.(enabled := Some(false), pollIntervalSeconds := Some(120.0)))
            == NotificationSettings(false, 120.0, None, None, true)
  {
  }
}
