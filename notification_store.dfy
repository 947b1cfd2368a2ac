/**
 * The frontend's notification store: a list of notification records, each stamped with an id from a
 * counter that starts at 1 and with its creation time, with add, remove-by-id and clear.
 * A record is a JavaScript object, modelled as a map from property names to values. The clock is an
 * input, and the five-second timer that removes a notification is a later `RemoveNotification` call.
 */
module NotificationStore {
  import opened Sequences

  /** The property values a notification carries; times are milliseconds since the epoch. */
  datatype Value = Number(n: int) | Text(s: string) | Date(millis: int) | Flag(b: bool)

  type Record = map<string, Value>

  /**
   * The stored record `{ id, ...notification, timestamp }`: the counter's id, then the caller's
   * properties (which override it if they include an `id`), then the creation time.
   */
  function Stamp(id: int, notification: Record, now: int): (r: Record)
    ensures "id" in r && "timestamp" in r && r["timestamp"] == Date(now)
    ensures "id" !in notification ==> r["id"] == Number(id)
    ensures forall key :: key in notification && key != "timestamp" ==> key in r && r[key] == notification[key]
    ensures r.Keys == notification.Keys + {"id", "timestamp"}
  {
    map["id" := Number(id)] + notification + map["timestamp" := Date(now)]
  }

  /** `n.id === id`. */
  predicate HasId(n: Record, id: int) {
    "id" in n && n["id"] == Number(id)
  }

  /** `findIndex`: the first position holding `id`, or -1. */
  function IndexOf(ns: seq<Record>, id: int): (r: int)
    ensures -1 <= r < |ns|
    ensures r == -1 <==> forall k :: 0 <= k < |ns| ==> !HasId(ns[k], id)
    ensures r >= 0 ==> HasId(ns[r], id) && forall k :: 0 <= k < r ==> !HasId(ns[k], id)
  {
    if ns == [] then -1
    else if HasId(ns[0], id) then 0
    else
      var r := IndexOf(ns[1..], id);
      assert forall k :: 1 <= k < |ns| ==> ns[k] == ns[1..][k - 1];
      if r == -1 then -1 else r + 1
  }

  /** `removeNotification` on a list: the first record with the id spliced out, if there is one. */
  function RemoveFirst(ns: seq<Record>, id: int): seq<Record>
  {
    var i := IndexOf(ns, id);
    if i == -1 then ns else ns[..i] + ns[i + 1..]
  }

  /**
   * Every record carries a counter id in `[1, nextId)`, and ids strictly increase along the list, so no
   * two records carry the same id.
   */
  predicate StoreInvariant(ns: seq<Record>, nextId: int) {
    && nextId >= 1
    && (forall i :: 0 <= i < |ns| ==> "id" in ns[i] && ns[i]["id"].Number? && 1 <= ns[i]["id"].n < nextId)
    && (forall i, j :: 0 <= i < j < |ns| ==> ns[i]["id"].n < ns[j]["id"].n)
  }

  function Lacks(id: int): Record -> bool {
    (n: Record) => !HasId(n, id)
  }

  /** Removing an absent id changes nothing; otherwise exactly one record goes. */
  lemma RemoveFirstSpec(ns: seq<Record>, id: int)
    ensures IndexOf(ns, id) == -1 ==> RemoveFirst(ns, id) == ns
    ensures IndexOf(ns, id) >= 0 ==> |RemoveFirst(ns, id)| == |ns| - 1
    ensures forall k :: 0 <= k < |RemoveFirst(ns, id)| ==> RemoveFirst(ns, id)[k] in ns
  {
  }

  /**
   * In a store that keeps its invariant, removing the first record with an id is the same as dropping
   * every record with it, keeping the others in their order.
   */
  lemma RemoveFirstIsFilter(ns: seq<Record>, nextId: int, id: int)
    requires StoreInvariant(ns, nextId)
    ensures RemoveFirst(ns, id) == Filter(ns, Lacks(id))
  {
    var i := IndexOf(ns, id);
    if i == -1 {
      FilterAll(ns, Lacks(id));
    } else {
      forall k | 0 <= k < |ns| && k != i
        ensures Lacks(id)(ns[k])
      {
        if k > i {
          assert ns[i]["id"] != ns[k]["id"];
        }
      }
      FilterDropsOne(ns, i, Lacks(id));
    }
  }

  /** An added record, with a payload that has no `id` of its own, keeps the invariant: its id is the largest. */
  lemma AddKeepsInvariant(ns: seq<Record>, nextId: int, notification: Record, now: int)
    requires StoreInvariant(ns, nextId)
    requires "id" !in notification
    ensures StoreInvariant(ns + [Stamp(nextId, notification, now)], nextId + 1)
  {
    var ns': seq<Record> := ns + [Stamp(nextId, notification, now)];
    forall i, j | 0 <= i < j < |ns'|
      ensures ns'[i]["id"].n < ns'[j]["id"].n
    {
      assert ns'[i] == ns[i];
      if j < |ns| {
        assert ns'[j] == ns[j];
      }
    }
  }

  /** Removing a record keeps the invariant. */
  lemma RemoveKeepsInvariant(ns: seq<Record>, nextId: int, id: int)
    requires StoreInvariant(ns, nextId)
    ensures StoreInvariant(RemoveFirst(ns, id), nextId)
  {
    var i := IndexOf(ns, id);
    if i >= 0 {
      var r := RemoveFirst(ns, id);
      assert forall k :: 0 <= k < |r| ==> r[k] == if k < i then ns[k] else ns[k + 1];
    }
  }

  class NotificationStore {
    var notifications: seq<Record>
    var nextId: int

    ghost predicate Valid()
      reads this
    {
      StoreInvariant(notifications, nextId)
    }

    constructor()
      ensures notifications == [] && nextId == 1
      ensures Valid()
    {
      notifications := [];
      nextId := 1;
    }

    /**
     * `addNotification`: takes the next id, advances the counter by one and appends the stamped
     * record; earlier records are untouched.
     */
    method AddNotification(notification: Record, now: int)
      modifies this
      ensures nextId == old(nextId) + 1
      ensures notifications == old(notifications) + [Stamp(old(nextId), notification, now)]
      ensures old(Valid()) && "id" !in notification ==> Valid()
    {
      var id := nextId;
      nextId := nextId + 1;
      ghost var ns := notifications;
      notifications := notifications + [Stamp(id, notification, now)];
      if StoreInvariant(ns, id) && "id" !in notification {
        AddKeepsInvariant(ns, id, notification, now);
      }
    }

    /** `findIndex(n => n.id === id)`. */
    method FindIndex(id: int) returns (index: int)
      ensures index == IndexOf(notifications, id)
    {
      var i := 0;
      while i < |notifications|
        invariant 0 <= i <= |notifications|
        invariant forall k :: 0 <= k < i ==> !HasId(notifications[k], id)
      {
        if "id" in notifications[i] && notifications[i]["id"] == Number(id) {
          return i;
        }
        i := i + 1;
      }
      return -1;
    }

    /** `removeNotification`: splices out the first record with the id; nothing happens if none has it. */
    method RemoveNotification(id: int)
      modifies this
      ensures notifications == RemoveFirst(old(notifications), id)
      ensures nextId == old(nextId)
      ensures old(Valid()) ==> Valid()
    {
      ghost var ns := notifications;
      var index := FindIndex(id);
      if index != -1 {
        notifications := notifications[..index] + notifications[index + 1..];
      }
      if StoreInvariant(ns, nextId) {
        RemoveKeepsInvariant(ns, nextId, id);
      }
    }

    /** `clearNotifications`: empties the list; the counter is not reset, so ids are never reused. */
    method ClearNotifications()
      modifies this
      ensures notifications == [] && nextId == old(nextId)
      ensures old(Valid()) ==> Valid()
    {
      notifications := [];
    }
  }
}
