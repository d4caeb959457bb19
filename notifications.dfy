/**
 * The notification store (`src/contexts/NotificationContext.tsx`): a reducer
 * over the list of notifications, newest first, the unread count derived from
 * it, and the record `addNotification` builds. The identifier and the time
 * stamp, derived from the clock and a random number, are parameters.
 */
module NotificationContext {
  import opened Wrappers
  import opened Lists
  import opened Types

  datatype Action =
    | AddNotification(notification: Notification)
    | MarkAsRead(id: string)
    | MarkAllAsRead
    | RemoveNotification(id: string)
    | ClearAll
    | LoadNotifications(notifications: seq<Notification>)
    | UnknownAction

  /** `state.map(n => n.id === id ? { ...n, read: true } : n)`. */
  function MarkRead(state: seq<Notification>, id: string): (r: seq<Notification>)
    ensures |r| == |state|
    ensures forall i :: 0 <= i < |state| ==> r[i].read == (state[i].read || state[i].id == id)
    ensures forall i :: 0 <= i < |state| ==> r[i].(read := state[i].read) == state[i]
  {
    if state == [] then []
    else
      var n := state[0];
      [if n.id == id then n.(read := true) else n] + MarkRead(state[1..], id)
  }

  /** `state.map(n => ({ ...n, read: true }))`. */
  function MarkAllRead(state: seq<Notification>): (r: seq<Notification>)
    ensures |r| == |state|
    ensures forall i :: 0 <= i < |state| ==> r[i] == state[i].(read := true)
  {
    if state == [] then [] else [state[0].(read := true)] + MarkAllRead(state[1..])
  }

  /** `state.filter(n => n.id !== id)`. */
  function RemoveId(state: seq<Notification>, id: string): (r: seq<Notification>)
    ensures forall n :: n in r <==> n in state && n.id != id
    ensures Subsequence(r, state)
    ensures (forall i :: 0 <= i < |state| ==> state[i].id != id) ==> r == state
  {
    Filter(state, (n: Notification) => n.id != id)
  }

  /** `notificationReducer`. */
  function Reduce(state: seq<Notification>, action: Action): (r: seq<Notification>)
    ensures action.AddNotification? ==> |r| == |state| + 1 && r[0] == action.notification && r[1..] == state
    ensures action.MarkAsRead? || action.MarkAllAsRead? ==> |r| == |state| && forall i :: 0 <= i < |r| ==> r[i].id == state[i].id
    ensures action.RemoveNotification? ==> forall x :: x in r <==> x in state && x.id != action.id
    ensures action.MarkAllAsRead? ==> forall i :: 0 <= i < |r| ==> r[i].read
    ensures action.ClearAll? ==> r == []
    ensures action.LoadNotifications? ==> r == action.notifications
    ensures action.UnknownAction? ==> r == state
  {
    match action
    case AddNotification(n) => [n] + state
    case MarkAsRead(id) => MarkRead(state, id)
    case MarkAllAsRead => MarkAllRead(state)
    case RemoveNotification(id) => RemoveId(state, id)
    case ClearAll => []
    case LoadNotifications(ns) => ns
    case UnknownAction => state
  }

  predicate IsUnread(n: Notification) { !n.read }

  /** `notifications.filter(n => !n.read).length`. */
  function UnreadCount(state: seq<Notification>): (k: nat)
    ensures k <= |state|
  {
    Count(state, IsUnread)
  }

  /** What `addNotification` is given: everything but the id, the time stamp and the read flag. */
  datatype NotificationData = NotificationData(
    kind: NotificationKind,
    title: string,
    message: string,
    actionUrl: Option<string>,
    actionText: Option<string>)

  /** The record `addNotification` builds from its data, a fresh id and the current time. */
  function NewNotification(data: NotificationData, id: string, timestamp: string): (n: Notification)
    ensures !n.read && n.id == id && n.timestamp == timestamp
    ensures n.kind == data.kind && n.title == data.title && n.message == data.message
    ensures n.actionUrl == data.actionUrl && n.actionText == data.actionText
  {
    Notification(id, data.kind, data.title, data.message, timestamp, false, data.actionUrl, data.actionText)
  }

  /** `addNotification` also schedules its removal after five minutes, for `info` notifications only. */
  function SchedulesAutoRemove(data: NotificationData): (r: bool)
    ensures r <==> data.kind == Info
  {
    data.kind.Info?
  }

  // ----- properties ------------------------------------------------------

  /** Adding puts the new item first and leaves the old list after it. */
  lemma AddPrepends(state: seq<Notification>, n: Notification)
    ensures Reduce(state, AddNotification(n))[0] == n
    ensures Reduce(state, AddNotification(n))[1..] == state
  {
  }

  /** Marking one id read twice is marking it once. */
  lemma MarkAsReadIdempotent(state: seq<Notification>, id: string)
    ensures Reduce(Reduce(state, MarkAsRead(id)), MarkAsRead(id)) == Reduce(state, MarkAsRead(id))
  {
    var once := MarkRead(state, id);
    var twice := MarkRead(once, id);
    forall i | 0 <= i < |state| ensures twice[i] == once[i] {
      assert once[i].id == state[i].id by {
        assert once[i].(read := state[i].read) == state[i];
      }
      assert twice[i].(read := once[i].read) == once[i];
    }
  }

  /** After marking all read nothing is unread. */
  lemma {:induction false} MarkAllClearsUnread(state: seq<Notification>)
    ensures UnreadCount(Reduce(state, MarkAllAsRead)) == 0
  {
    var r := MarkAllRead(state);
    FilterExtremes(r, IsUnread);
  }

  /** The unread count is zero exactly when every notification is read. */
  lemma {:induction false} NoUnreadIffAllRead(state: seq<Notification>)
    ensures UnreadCount(state) == 0 <==> forall i :: 0 <= i < |state| ==> state[i].read
  {
    FilterExtremes(state, IsUnread);
  }

  /** Unread and read notifications split the list. */
  lemma {:induction false} UnreadPlusRead(state: seq<Notification>)
    ensures UnreadCount(state) + |Filter(state, (n: Notification) => n.read)| == |state|
  {
    FilterPartition(state, IsUnread, (n: Notification) => n.read);
  }

  /** Adding a built notification raises the unread count by exactly one. */
  lemma {:induction false} AddRaisesUnread(state: seq<Notification>, data: NotificationData, id: string, timestamp: string)
    ensures UnreadCount(Reduce(state, AddNotification(NewNotification(data, id, timestamp)))) == UnreadCount(state) + 1
  {
    var n := NewNotification(data, id, timestamp);
    FilterAppend([n], state, IsUnread);
    assert [n] + state == Reduce(state, AddNotification(n));
    assert Filter([n], IsUnread) == [n] by {
      assert [n][1..] == [];
    }
  }

  /** Marking read never raises the unread count, and lowers it when an unread item carries the id. */
  lemma {:induction false} MarkAsReadLowersUnread(state: seq<Notification>, id: string)
    ensures UnreadCount(MarkRead(state, id)) <= UnreadCount(state)
    ensures (exists i :: 0 <= i < |state| && state[i].id == id && !state[i].read) ==>
      UnreadCount(MarkRead(state, id)) < UnreadCount(state)
  {
    if state != [] {
      MarkAsReadLowersUnread(state[1..], id);
      var n := state[0];
      var m := if n.id == id then n.(read := true) else n;
      assert MarkRead(state, id) == [m] + MarkRead(state[1..], id);
      FilterAppend([m], MarkRead(state[1..], id), IsUnread);
      FilterAppend([n], state[1..], IsUnread);
      assert state == [n] + state[1..];
      assert [m][1..] == [] && [n][1..] == [];
      if exists i :: 0 <= i < |state| && state[i].id == id && !state[i].read {
        var i :| 0 <= i < |state| && state[i].id == id && !state[i].read;
        if i > 0 { assert state[1..][i - 1] == state[i]; }
      }
    }
  }

  /** Removing an id that was just added, and is not otherwise present, restores the list. */
  lemma AutoRemoveRestores(state: seq<Notification>, n: Notification)
    requires forall i :: 0 <= i < |state| ==> state[i].id != n.id
    ensures Reduce(Reduce(state, AddNotification(n)), RemoveNotification(n.id)) == state
  {
    var p := (x: Notification) => x.id != n.id;
    FilterAppend([n], state, p);
    assert [n][1..] == [];
  }

  /** Clearing, loading and an unknown action. */
  lemma OtherActions(state: seq<Notification>, ns: seq<Notification>)
    ensures Reduce(state, ClearAll) == [] && UnreadCount(Reduce(state, ClearAll)) == 0
    ensures Reduce(state, LoadNotifications(ns)) == ns
    ensures Reduce(state, UnknownAction) == state
  {
  }
}
