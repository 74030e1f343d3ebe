/** The notifications store: a list of `{ id, type, message }` entries, ids
    drawn from a module-level counter shared by every instance. The
    `setTimeout` that removes an entry later is left out; `Show` reports
    whether it would be scheduled. */
module Notifications {
  import opened Geometry

  datatype Notification = Notification(id: nat, kind: string, message: string)

  const DefaultKind: string := "info"
  /** Milliseconds before an entry is removed, when the caller gives none. */
  const DefaultTimeout: real := 3000.0

  /** The module-level `nextId`, starting at 1. */
  class IdCounter {
    var next: nat

    constructor ()
      ensures next == 1
    {
      next := 1;
    }
  }

  /** `notifications.filter(n => n.id !== id)`. */
  function Without(ns: seq<Notification>, id: nat): (r: seq<Notification>)
    ensures |r| <= |ns|
    ensures forall n :: n in r <==> n in ns && n.id != id
  {
    if |ns| == 0 then []
    else (if ns[0].id == id then [] else [ns[0]]) + Without(ns[1..], id)
  }

  /** Filtering works entry by entry, so the kept entries stay in order. */
  lemma {:induction false} WithoutConcat(a: seq<Notification>, b: seq<Notification>, id: nat)
    ensures Without(a + b, id) == Without(a, id) + Without(b, id)
  {
    if |a| == 0 {
      assert a + b == b;
    } else {
      assert (a + b)[1..] == a[1..] + b;
      WithoutConcat(a[1..], b, id);
    }
  }

  /** Removing an id no entry has leaves the list as it was. */
  lemma {:induction false} WithoutAbsent(ns: seq<Notification>, id: nat)
    requires forall i :: 0 <= i < |ns| ==> ns[i].id != id
    ensures Without(ns, id) == ns
  {
    if |ns| > 0 {
      WithoutAbsent(ns[1..], id);
      assert [ns[0]] + ns[1..] == ns;
    }
  }

  /** Entries are in strictly increasing id order. */
  predicate IncreasingIds(ns: seq<Notification>) {
    forall i, j :: 0 <= i < j < |ns| ==> ns[i].id < ns[j].id
  }

  /** Filtering keeps the ids increasing (and so unique). */
  lemma {:induction false} WithoutIncreasing(ns: seq<Notification>, id: nat)
    requires IncreasingIds(ns)
    ensures IncreasingIds(Without(ns, id))
  {
    if |ns| > 0 {
      var rest := Without(ns[1..], id);
      WithoutIncreasing(ns[1..], id);
      forall n | n in rest ensures ns[0].id < n.id {
        var k :| 0 <= k < |ns[1..]| && ns[1..][k] == n;
        assert ns[k + 1] == n;
      }
    }
  }

  class NotificationStore {
    var notifications: seq<Notification>
    const ids: IdCounter

    /** Ids increase along the list and are all below the next one to hand out. */
    predicate Valid()
      reads this, ids
    {
      IncreasingIds(notifications) && forall i :: 0 <= i < |notifications| ==> notifications[i].id < ids.next
    }

    constructor (ids: IdCounter)
      ensures this.ids == ids && notifications == [] && Valid()
    {
      this.ids := ids;
      notifications := [];
    }

    /** `show({ type = 'info', message, timeout = 3000 })`: a missing argument
        is None (JavaScript's undefined). Appends one entry with the counter's current value, which then
        moves on; `autoRemove` says whether the timer would be set. */
    method Show(kind: Option<string>, message: string, timeout: Option<real>) returns (id: nat, autoRemove: bool)
      requires Valid()
      modifies this, ids
      ensures Valid()
      ensures id == old(ids.next) && ids.next == id + 1
      ensures notifications == old(notifications) + [Notification(id, if kind.Some? then kind.value else DefaultKind, message)]
      ensures autoRemove <==> (if timeout.Some? then timeout.value else DefaultTimeout) > 0.0
    {
      id := ids.next;
      ids.next := ids.next + 1;
      var k := if kind.Some? then kind.value else DefaultKind;
      notifications := notifications + [Notification(id, k, message)];
      var t := if timeout.Some? then timeout.value else DefaultTimeout;
      autoRemove := t > 0.0;
    }

    /** `remove(id)`: every entry with that id goes, the rest keep their order. */
    method Remove(id: nat)
      requires Valid()
      modifies this
      ensures Valid()
      ensures notifications == Without(old(notifications), id)
    {
      WithoutIncreasing(notifications, id);
      notifications := Without(notifications, id);
    }
  }
}
