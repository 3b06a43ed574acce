/** The browser's notification store (web-app/src/stores/notifications.js): one
    list of notifications, mutated by the SSE and REST code of the web app and
    mirrored into `localStorage` after each change. The unread badge counts the
    entries that are `pending` or `delivered`. */
module ClientStore {
  import opened Wrappers
  import Endpoints

  /** A date field: absent (or empty, hence falsy), present but not a valid date,
      or a valid instant in milliseconds. */
  datatype Stamp = Absent | Invalid | At(ms: int)

  /** A notification as the browser keeps it. `status` is the raw string; `deliveredAt`
      and `readAt` are `None` when absent or empty; `body` is every other field, which
      the object spread in `addNotification` copies from the incoming notification. */
  datatype Notification = Notification(
    messageId: string,
    status: string,
    deliveredAt: Option<string>,
    readAt: Option<string>,
    createdAt: Stamp,
    timestamp: Stamp,
    body: Json)

  const Pending: string := "pending"
  const Delivered: string := "delivered"
  const Read: string := "read"

  // ---------------------------------------------------------------------------
  // The unread count
  // ---------------------------------------------------------------------------

  predicate Unread(n: Notification) {
    n.status == Pending || n.status == Delivered
  }

  /** `unreadCount`: the entries whose status is `pending` or `delivered`. */
  function UnreadCount(ns: seq<Notification>): (count: nat)
    ensures count <= |ns|
    ensures count == 0 <==> forall i :: 0 <= i < |ns| ==> !Unread(ns[i])
    ensures count == |ns| <==> forall i :: 0 <= i < |ns| ==> Unread(ns[i])
  {
    if ns == [] then 0
    else
      var rest := UnreadCount(ns[1..]);
      assert forall i :: 1 <= i < |ns| ==> ns[i] == ns[1..][i - 1];
      (if Unread(ns[0]) then 1 else 0) + rest
  }

  /** Replacing one entry moves the count by what the old and new entry contribute. */
  lemma {:induction false} UnreadCountUpdate(ns: seq<Notification>, k: nat, x: Notification)
    requires k < |ns|
    ensures UnreadCount(ns[k := x]) + (if Unread(ns[k]) then 1 else 0)
         == UnreadCount(ns) + (if Unread(x) then 1 else 0)
  {
    if k > 0 {
      UnreadCountUpdate(ns[1..], k - 1, x);
      assert ns[k := x][1..] == ns[1..][k - 1 := x];
    } else {
      assert ns[k := x][1..] == ns[1..];
    }
  }

  // ---------------------------------------------------------------------------
  // Lookup by messageId
  // ---------------------------------------------------------------------------

  predicate HasId(ns: seq<Notification>, id: string) {
    exists i :: 0 <= i < |ns| && ns[i].messageId == id
  }

  predicate UniqueIds(ns: seq<Notification>) {
    forall i, j :: 0 <= i < j < |ns| ==> ns[i].messageId != ns[j].messageId
  }

  /** `findIndex(n => n.messageId === id)`: the first matching position, or -1. */
  function IndexOfId(ns: seq<Notification>, id: string): (k: int)
    ensures -1 <= k < |ns|
    ensures k == -1 <==> !HasId(ns, id)
    ensures k >= 0 ==> ns[k].messageId == id && forall i :: 0 <= i < k ==> ns[i].messageId != id
  {
    if ns == [] then -1
    else if ns[0].messageId == id then 0
    else
      var k := IndexOfId(ns[1..], id);
      assert forall i :: 1 <= i < |ns| ==> ns[i] == ns[1..][i - 1];
      if k == -1 then -1 else k + 1
  }

  // ---------------------------------------------------------------------------
  // addNotification
  // ---------------------------------------------------------------------------

  predicate Truthy(s: Option<string>) {
    s.Some? && s.value != ""
  }

  /** The entry that replaces `existing` when `incoming` has the same id: the incoming
      fields, with `delivered` and a delivery time when a pending entry is confirmed
      delivered, and otherwise with the existing status and read time. */
  function Merge(existing: Notification, incoming: Notification, nowIso: string): (m: Notification)
    ensures m.messageId == incoming.messageId && m.body == incoming.body
    ensures m.createdAt == incoming.createdAt && m.timestamp == incoming.timestamp
    ensures m.status == existing.status || (existing.status == Pending && m.status == Delivered)
    ensures existing.status == Pending && incoming.status == Delivered ==>
      m.status == Delivered && m.readAt == incoming.readAt
      && (Truthy(incoming.deliveredAt) ==> m.deliveredAt == incoming.deliveredAt)
      && (!Truthy(incoming.deliveredAt) ==> m.deliveredAt == Some(nowIso))
    ensures !(existing.status == Pending && incoming.status == Delivered) ==>
      m.status == existing.status && m.readAt == existing.readAt && m.deliveredAt == incoming.deliveredAt
  {
    if existing.status == Pending && incoming.status == Delivered then
      incoming.(status := Delivered, deliveredAt := if Truthy(incoming.deliveredAt) then incoming.deliveredAt else Some(nowIso))
    else
      incoming.(status := existing.status, readAt := existing.readAt)
  }

  /** A redelivery never takes an entry out of `read`, and never changes whether it is unread. */
  lemma MergeNeverDowngrades(existing: Notification, incoming: Notification, nowIso: string)
    ensures existing.status == Read ==> Merge(existing, incoming, nowIso).status == Read
    ensures Unread(Merge(existing, incoming, nowIso)) == Unread(existing)
  {
  }

  /** The list after `addNotification(n)`: a new id goes to the front; a known id has
      its first entry merged in place. */
  function Added(ns: seq<Notification>, n: Notification, nowIso: string): (r: seq<Notification>)
    ensures !HasId(ns, n.messageId) ==> |r| == |ns| + 1 && r[0] == n && r[1..] == ns
    ensures HasId(ns, n.messageId) ==>
      var k := IndexOfId(ns, n.messageId);
      && |r| == |ns|
      && r[k] == Merge(ns[k], n, nowIso)
      && forall i :: 0 <= i < |ns| && i != k ==> r[i] == ns[i]
    ensures HasId(r, n.messageId)
  {
    var k := IndexOfId(ns, n.messageId);
    if k == -1 then
      var r := [n] + ns;
      assert r[0].messageId == n.messageId;
      r
    else
      ns[k := Merge(ns[k], n, nowIso)]
  }

  /** Ids that were unique stay unique. */
  lemma AddedKeepsIdsUnique(ns: seq<Notification>, n: Notification, nowIso: string)
    requires UniqueIds(ns)
    ensures UniqueIds(Added(ns, n, nowIso))
  {
    var r := Added(ns, n, nowIso);
    if !HasId(ns, n.messageId) {
      forall i, j | 0 <= i < j < |r|
        ensures r[i].messageId != r[j].messageId
      {
        if i == 0 {
          assert r[j] == ns[j - 1];
        } else {
          assert r[i] == ns[i - 1] && r[j] == ns[j - 1];
        }
      }
    } else {
      var k := IndexOfId(ns, n.messageId);
      forall i, j | 0 <= i < j < |r|
        ensures r[i].messageId != r[j].messageId
      {
        assert forall m :: 0 <= m < |r| ==> r[m].messageId == ns[m].messageId;
      }
    }
  }

  /** The badge after an add: a new id adds one when it arrives unread; a known id
      leaves the count as it was. */
  lemma AddedUnreadCount(ns: seq<Notification>, n: Notification, nowIso: string)
    ensures !HasId(ns, n.messageId) ==>
      UnreadCount(Added(ns, n, nowIso)) == UnreadCount(ns) + (if Unread(n) then 1 else 0)
    ensures HasId(ns, n.messageId) ==> UnreadCount(Added(ns, n, nowIso)) == UnreadCount(ns)
  {
    var r := Added(ns, n, nowIso);
    if !HasId(ns, n.messageId) {
      assert r[1..] == ns;
    } else {
      var k := IndexOfId(ns, n.messageId);
      assert r == ns[k := Merge(ns[k], n, nowIso)];
      UnreadCountUpdate(ns, k, Merge(ns[k], n, nowIso));
      MergeNeverDowngrades(ns[k], n, nowIso);
    }
  }

  // ---------------------------------------------------------------------------
  // markNotificationAsRead
  // ---------------------------------------------------------------------------

  /** The list after `markNotificationAsRead(id)`: the first entry with that id gets
      status `read` (its `readAt` is left alone); an unknown id changes nothing. */
  function MarkedRead(ns: seq<Notification>, id: string): (r: seq<Notification>)
    ensures |r| == |ns|
    ensures !HasId(ns, id) ==> r == ns
    ensures HasId(ns, id) ==>
      var k := IndexOfId(ns, id);
      && r[k] == ns[k].(status := Read)
      && forall i :: 0 <= i < |ns| && i != k ==> r[i] == ns[i]
  {
    var k := IndexOfId(ns, id);
    if k == -1 then ns else ns[k := ns[k].(status := Read)]
  }

  /** Marking twice is marking once. */
  lemma MarkedReadIdempotent(ns: seq<Notification>, id: string)
    ensures MarkedRead(MarkedRead(ns, id), id) == MarkedRead(ns, id)
  {
    if HasId(ns, id) {
      var k := IndexOfId(ns, id);
      var r := MarkedRead(ns, id);
      assert IndexOfId(r, id) == k by {
        assert r[k].messageId == id;
        assert forall i :: 0 <= i < k ==> r[i] == ns[i];
      }
    }
  }

  /** Marking an unread entry lowers the badge by one; anything else leaves it. */
  lemma MarkedReadUnreadCount(ns: seq<Notification>, id: string)
    ensures HasId(ns, id) && Unread(ns[IndexOfId(ns, id)]) ==>
      UnreadCount(MarkedRead(ns, id)) + 1 == UnreadCount(ns)
    ensures !(HasId(ns, id) && Unread(ns[IndexOfId(ns, id)])) ==>
      UnreadCount(MarkedRead(ns, id)) == UnreadCount(ns)
  {
    if HasId(ns, id) {
      var k := IndexOfId(ns, id);
      UnreadCountUpdate(ns, k, ns[k].(status := Read));
    }
  }

  // ---------------------------------------------------------------------------
  // cleanOldNotifications
  // ---------------------------------------------------------------------------

  const MsPerDay: int := 86400000

  /** The cutoff: now minus `CLEANUP_DAYS` days. */
  function Cutoff(now: int): int {
    now - Endpoints.CleanupDays * MsPerDay
  }

  /** `new Date(createdAt || timestamp)`: the creation date when it is truthy, else the timestamp. */
  function DateOf(n: Notification): Stamp {
    if n.createdAt != Absent then n.createdAt else n.timestamp
  }

  /** Kept by the cleanup: a valid date strictly after the cutoff (an invalid date
      compares false, so its entry is dropped). */
  predicate Fresh(n: Notification, cutoff: int) {
    DateOf(n).At? && DateOf(n).ms > cutoff
  }

  /** `r` is `s` with some entries left out, the rest in their order. */
  predicate Subsequence(r: seq<Notification>, s: seq<Notification>)
    decreases |s|
  {
    if r == [] then true
    else if s == [] then false
    else (r[0] == s[0] && Subsequence(r[1..], s[1..])) || Subsequence(r, s[1..])
  }

  /** The entries the cleanup keeps, in order. */
  function FreshOnly(ns: seq<Notification>, cutoff: int): (r: seq<Notification>)
    ensures |r| <= |ns|
    ensures forall x :: x in r <==> x in ns && Fresh(x, cutoff)
    ensures Subsequence(r, ns)
    ensures |r| == |ns| ==> r == ns
    ensures forall x :: multiset(r)[x] == if Fresh(x, cutoff) then multiset(ns)[x] else 0
  {
    if ns == [] then []
    else
      var rest := FreshOnly(ns[1..], cutoff);
      assert ns == [ns[0]] + ns[1..];
      assert multiset(ns) == multiset{ns[0]} + multiset(ns[1..]);
      if Fresh(ns[0], cutoff) then
        assert multiset([ns[0]] + rest) == multiset{ns[0]} + multiset(rest);
        [ns[0]] + rest
      else rest
  }

  /** A list filtered once has nothing more to lose to the same cutoff. */
  lemma {:induction false} FreshOnlyIdempotent(ns: seq<Notification>, cutoff: int)
    ensures FreshOnly(FreshOnly(ns, cutoff), cutoff) == FreshOnly(ns, cutoff)
  {
    var r := FreshOnly(ns, cutoff);
    var rr := FreshOnly(r, cutoff);
    forall x | x in r ensures Fresh(x, cutoff) {
    }
    if |rr| < |r| {
      FreshOnlyDropsStale(r, cutoff);
    }
  }

  /** Something is dropped exactly when some entry is not fresh. */
  lemma {:induction false} FreshOnlyDropsStale(ns: seq<Notification>, cutoff: int)
    ensures |FreshOnly(ns, cutoff)| < |ns| <==> exists i :: 0 <= i < |ns| && !Fresh(ns[i], cutoff)
  {
    if ns != [] {
      FreshOnlyDropsStale(ns[1..], cutoff);
      if exists i :: 0 <= i < |ns[1..]| && !Fresh(ns[1..][i], cutoff) {
        var i :| 0 <= i < |ns[1..]| && !Fresh(ns[1..][i], cutoff);
        assert ns[i + 1] == ns[1..][i];
      }
      if exists i :: 0 <= i < |ns| && !Fresh(ns[i], cutoff) {
        var i :| 0 <= i < |ns| && !Fresh(ns[i], cutoff);
        if i > 0 {
          assert ns[1..][i - 1] == ns[i];
        }
      }
    }
  }

  // ---------------------------------------------------------------------------
  // The store object
  // ---------------------------------------------------------------------------

  /** The module-level state of the store: the reactive list, the `localStorage`
      entry as last written (`None` when nothing readable is stored), and the
      mark-as-read function installed by the notifications composable. */
  class NotificationStore {
    var notifications: seq<Notification>
    var saved: Option<seq<Notification>>
    var markAsReadInstalled: bool
    /** Ids handed to the installed mark-as-read function, in call order. */
    var delegated: seq<string>

    /** `localStorage` mirrors the list, except before the first save when nothing
        was stored and the list is still empty. */
    ghost predicate Valid()
      reads this
    {
      saved == Some(notifications) || (saved == None && notifications == [])
    }

    /** Module load: `loadFromStorage`, where `stored` is the parsed `localStorage`
        entry, `None` when it is absent, empty or not valid JSON. */
    constructor Load(stored: Option<seq<Notification>>)
      ensures Valid()
      ensures notifications == (if stored.Some? then stored.value else [])
      ensures saved == stored && !markAsReadInstalled && delegated == []
    {
      notifications := if stored.Some? then stored.value else [];
      saved := stored;
      markAsReadInstalled := false;
      delegated := [];
    }

    /** `setNotifications`: replace the list and save it. */
    method SetNotifications(ns: seq<Notification>)
      modifies this
      ensures Valid()
      ensures notifications == ns && saved == Some(ns)
      ensures markAsReadInstalled == old(markAsReadInstalled) && delegated == old(delegated)
    {
      notifications := ns;
      saved := Some(ns);
    }

    /** The scan of `some`, `findIndex` and `find` over the list. */
    method FindIndex(id: string) returns (k: int)
      ensures k == IndexOfId(notifications, id)
    {
      k := 0;
      while k < |notifications| && notifications[k].messageId != id
        invariant 0 <= k <= |notifications|
        invariant forall i :: 0 <= i < k ==> notifications[i].messageId != id
      {
        k := k + 1;
      }
      if k == |notifications| {
        k := -1;
      }
    }

    /** `addNotification`: a new id is put first; a known id has its first entry
        merged with the incoming one. Either way the list is saved. */
    method AddNotification(n: Notification, nowIso: string)
      modifies this
      ensures Valid()
      ensures notifications == Added(old(notifications), n, nowIso) && saved == Some(notifications)
      ensures markAsReadInstalled == old(markAsReadInstalled) && delegated == old(delegated)
    {
      var k := FindIndex(n.messageId);
      if k == -1 {
        notifications := [n] + notifications;
      } else {
        notifications := notifications[k := Merge(notifications[k], n, nowIso)];
      }
      saved := Some(notifications);
    }

    /** `markNotificationAsRead`: the first entry with the id becomes `read` and the
        list is saved; an unknown id changes nothing and saves nothing. */
    method MarkNotificationAsRead(id: string)
      requires Valid()
      modifies this
      ensures Valid()
      ensures notifications == MarkedRead(old(notifications), id)
      ensures saved == (if HasId(old(notifications), id) then Some(notifications) else old(saved))
      ensures markAsReadInstalled == old(markAsReadInstalled) && delegated == old(delegated)
    {
      var k := FindIndex(id);
      if k != -1 {
        notifications := notifications[k := notifications[k].(status := Read)];
        saved := Some(notifications);
      }
    }

    /** `cleanOldNotifications` at time `now` (milliseconds): keeps the fresh entries;
        the list is replaced and saved only when something was dropped. */
    method CleanOldNotifications(now: int)
      requires Valid()
      modifies this
      ensures Valid()
      ensures notifications == FreshOnly(old(notifications), Cutoff(now))
      ensures notifications == old(notifications) ==> saved == old(saved)
      ensures notifications != old(notifications) ==> saved == Some(notifications)
      ensures markAsReadInstalled == old(markAsReadInstalled) && delegated == old(delegated)
    {
      var cutoff := Cutoff(now);
      var filtered: seq<Notification> := [];
      var i := |notifications|;
      while i > 0
        invariant 0 <= i <= |notifications|
        invariant filtered == FreshOnly(notifications[i..], cutoff)
      {
        i := i - 1;
        assert notifications[i..][1..] == notifications[i + 1..];
        if Fresh(notifications[i], cutoff) {
          filtered := [notifications[i]] + filtered;
        }
      }
      assert notifications[0..] == notifications;
      if |filtered| != |notifications| {
        notifications := filtered;
        saved := Some(notifications);
      }
    }

    /** `setMarkAsReadFunction`: install (or, with `false`, clear) the function. */
    method SetMarkAsReadFunction(installed: bool)
      modifies this
      ensures markAsReadInstalled == installed
      ensures notifications == old(notifications) && saved == old(saved) && delegated == old(delegated)
    {
      markAsReadInstalled := installed;
    }

    /** `markAsRead`: hand the id to the installed function, or else mark it locally. */
    method MarkAsRead(id: string)
      requires Valid()
      modifies this
      ensures Valid() && markAsReadInstalled == old(markAsReadInstalled)
      ensures old(markAsReadInstalled) ==>
        delegated == old(delegated) + [id] && notifications == old(notifications) && saved == old(saved)
      ensures !old(markAsReadInstalled) ==>
        && delegated == old(delegated) && notifications == MarkedRead(old(notifications), id)
        && saved == (if HasId(old(notifications), id) then Some(notifications) else old(saved))
    {
      if markAsReadInstalled {
        delegated := delegated + [id];
      } else {
        MarkNotificationAsRead(id);
      }
    }
  }
}
