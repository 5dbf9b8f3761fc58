/**
 * The notification list of the front end's application store, changed in
 * place by its actions, and the health flag the store keeps. The clock
 * (`Date.now()`) is the parameter `now`, in milliseconds; the five-second
 * timer is the flag `AddNotification` returns, whose firing is a later call of
 * `RemoveNotification` with the same id.
 */
module Notifications {
  import opened Wrappers
  import opened Text

  datatype Kind = Success | Error | Warning | Info

  datatype Notification = Notification(id: string, kind: Kind, title: string, message: string, timestamp: int)

  /** `findIndex` on the id: the first position holding `id`, or -1. */
  function FirstIndexOf(ns: seq<Notification>, id: string): (k: int)
    ensures -1 <= k < |ns|
    ensures k >= 0 ==> ns[k].id == id && forall j :: 0 <= j < k ==> ns[j].id != id
    ensures k == -1 <==> forall j :: 0 <= j < |ns| ==> ns[j].id != id
  {
    if ns == [] then -1
    else if ns[0].id == id then 0
    else
      var k := FirstIndexOf(ns[1..], id);
      if k < 0 then -1 else k + 1
  }

  /** The list without its first entry carrying `id`; unchanged when none does. */
  function Removed(ns: seq<Notification>, id: string): seq<Notification>
  {
    var k := FirstIndexOf(ns, id);
    if k < 0 then ns else ns[..k] + ns[k + 1..]
  }

  /** Removing an id no entry carries changes nothing. */
  lemma RemovedAbsent(ns: seq<Notification>, id: string)
    requires forall j :: 0 <= j < |ns| ==> ns[j].id != id
    ensures Removed(ns, id) == ns
  {
  }

  /** Removing an id that occurs drops exactly one entry, the first with that id,
    * and keeps the others in their order. */
  lemma RemovedPresent(ns: seq<Notification>, id: string, k: nat)
    requires k < |ns| && ns[k].id == id && forall j :: 0 <= j < k ==> ns[j].id != id
    ensures |Removed(ns, id)| == |ns| - 1
    ensures multiset(Removed(ns, id)) + multiset{ns[k]} == multiset(ns)
    ensures forall j :: 0 <= j < k ==> Removed(ns, id)[j] == ns[j]
    ensures forall j :: k <= j < |ns| - 1 ==> Removed(ns, id)[j] == ns[j + 1]
  {
    assert FirstIndexOf(ns, id) == k;
    assert ns == ns[..k] + [ns[k]] + ns[k + 1..];
  }

  /** An entry added under an id no other entry carries is the one its timer removes,
    * leaving the list as it was before the addition. */
  lemma RemoveUndoesAdd(ns: seq<Notification>, n: Notification)
    requires forall j :: 0 <= j < |ns| ==> ns[j].id != n.id
    ensures Removed(ns + [n], n.id) == ns
  {
    var all := ns + [n];
    RemovedPresent(all, n.id, |ns|);
    assert Removed(all, n.id) == all[..|ns|];
  }

  /** Whether a notification of this kind is removed automatically. */
  predicate AutoRemoved(kind: Kind)
  {
    kind == Success || kind == Info
  }

  /** `findIndex`, scanning from the front. */
  method FindIndex(ns: seq<Notification>, id: string) returns (index: int)
    ensures index == FirstIndexOf(ns, id)
  {
    index := 0;
    while index < |ns|
      invariant 0 <= index <= |ns|
      invariant forall j :: 0 <= j < index ==> ns[j].id != id
    {
      if ns[index].id == id {
        return;
      }
      index := index + 1;
    }
    index := -1;
  }

  /** The application store's state that its actions change. */
  class AppStore {
    var notifications: seq<Notification>
    var isHealthy: bool

    constructor ()
      ensures notifications == [] && isHealthy
    {
      notifications := [];
      isHealthy := true;
    }

    /** `addNotification`: one entry at the end, with the millisecond clock as its
      * id and time; `autoRemove` says whether its five-second timer is set. */
    method AddNotification(kind: Kind, title: string, message: string, now: int)
      returns (id: string, autoRemove: bool)
      modifies this
      ensures id == Itoa(now)
      ensures notifications == old(notifications) + [Notification(id, kind, title, message, now)]
      ensures autoRemove <==> AutoRemoved(kind)
      ensures isHealthy == old(isHealthy)
    {
      id := Itoa(now);
      notifications := notifications + [Notification(id, kind, title, message, now)];
      autoRemove := kind == Success || kind == Info;
    }

    /** `removeNotification`: splice out the first entry with `id`, if any. */
    method RemoveNotification(id: string)
      modifies this
      ensures notifications == Removed(old(notifications), id)
      ensures isHealthy == old(isHealthy)
    {
      var index := FindIndex(notifications, id);
      if index > -1 {
        notifications := notifications[..index] + notifications[index + 1..];
      }
    }

    /** `clearNotifications`. */
    method ClearNotifications()
      modifies this
      ensures notifications == [] && isHealthy == old(isHealthy)
    {
      notifications := [];
    }

    /** `loadAppInfo` and `checkHealth` after their request: healthy exactly when
      * the detailed health answer arrived with status "ok". */
    method RecordHealth(status: Result<string>)
      modifies this
      ensures isHealthy <==> status.Ok? && status.value == "ok"
      ensures notifications == old(notifications)
    {
      if status.Err? {
        isHealthy := false;
      } else {
        isHealthy := status.value == "ok";
      }
    }
  }
}
