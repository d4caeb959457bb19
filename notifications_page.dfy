/**
 * The notifications page (`src/pages/Notifications.tsx`): the status and type
 * filters over the store's list, the counts in the status options, and the
 * actions the click and header buttons send to the store. A confirmation
 * dialog's answer is a parameter; navigation is returned as the target URL.
 */
module NotificationsPage {
  import opened Wrappers
  import opened Lists
  import opened Types
  import opened NotificationContext

  datatype StatusFilter = AllStatuses | UnreadOnly | ReadOnly
  datatype TypeFilter = AllTypes | OnlyKind(kind: NotificationKind)

  predicate StatusKeeps(f: StatusFilter, n: Notification)
  {
    f.AllStatuses? || (f.UnreadOnly? && !n.read) || (f.ReadOnly? && n.read)
  }

  predicate TypeKeeps(f: TypeFilter, n: Notification)
  {
    f.AllTypes? || n.kind == f.kind
  }

  function Keeps(f: StatusFilter, tf: TypeFilter, n: Notification): (r: bool)
    ensures f.AllStatuses? && tf.AllTypes? ==> r
    ensures r && f.UnreadOnly? ==> !n.read
    ensures r && f.ReadOnly? ==> n.read
    ensures r && tf.OnlyKind? ==> n.kind == tf.kind
    ensures (f.AllStatuses? || (f.UnreadOnly? <==> !n.read)) && (tf.AllTypes? || n.kind == tf.kind) ==> r
  {
    StatusKeeps(f, n) && TypeKeeps(tf, n)
  }

  /** `filteredNotifications`. */
  function Visible(list: seq<Notification>, f: StatusFilter, tf: TypeFilter): (r: seq<Notification>)
    ensures forall n :: n in r <==> n in list && StatusKeeps(f, n) && TypeKeeps(tf, n)
    ensures Subsequence(r, list)
  {
    Filter(list, (n: Notification) => Keeps(f, tf, n))
  }

  /** With both filters on "all" every notification is shown, in order. */
  lemma AllShowsEverything(list: seq<Notification>)
    ensures Visible(list, AllStatuses, AllTypes) == list
  {
  }

  /** The one-pass filter is the status filter followed by the type filter. */
  lemma VisibleIsBothFilters(list: seq<Notification>, f: StatusFilter, tf: TypeFilter)
    ensures Visible(list, f, tf) ==
      Filter(Filter(list, (n: Notification) => StatusKeeps(f, n)), (n: Notification) => TypeKeeps(tf, n))
  {
    FilterFilter(list, (n: Notification) => StatusKeeps(f, n), (n: Notification) => TypeKeeps(tf, n),
      (n: Notification) => Keeps(f, tf, n));
  }

  /** A kind filter keeps exactly that kind; the status filters keep exactly the unread or read ones. */
  lemma FiltersKeepExactly(list: seq<Notification>, k: NotificationKind)
    ensures forall n :: n in Visible(list, AllStatuses, OnlyKind(k)) <==> n in list && n.kind == k
    ensures forall n :: n in Visible(list, UnreadOnly, AllTypes) <==> n in list && !n.read
    ensures forall n :: n in Visible(list, ReadOnly, AllTypes) <==> n in list && n.read
  {
  }

  /** The unread and read views split the list. */
  lemma {:induction false} StatusViewsPartition(list: seq<Notification>)
    ensures |Visible(list, UnreadOnly, AllTypes)| + |Visible(list, ReadOnly, AllTypes)| == |list|
  {
    FilterPartition(list, (n: Notification) => Keeps(UnreadOnly, AllTypes, n),
      (n: Notification) => Keeps(ReadOnly, AllTypes, n));
  }

  /** The counts in the "Unread (…)" and "Read (…)" options. */
  function ReadOptionCount(list: seq<Notification>): (k: nat)
    ensures k <= |list|
  {
    Count(list, (n: Notification) => n.read)
  }

  /** The unread option shows the store's unread count, and the two options add up to the total. */
  lemma {:induction false} OptionCountsSum(list: seq<Notification>)
    ensures UnreadCount(list) + ReadOptionCount(list) == |list|
    ensures UnreadCount(list) == |Visible(list, UnreadOnly, AllTypes)|
  {
    UnreadPlusRead(list);
    FilterCongruent(list, IsUnread, (n: Notification) => Keeps(UnreadOnly, AllTypes, n));
  }

  /** The effects of a click: an action for the store and a page to go to. */
  datatype ClickEffect = ClickEffect(dispatch: Option<Action>, navigate: Option<string>)

  /** `handleNotificationClick`: mark read only when unread; follow a non-empty action URL. */
  function HandleClick(n: Notification): (r: ClickEffect)
    ensures r.dispatch.Some? <==> !n.read
    ensures r.dispatch.Some? ==> r.dispatch.value == MarkAsRead(n.id)
    ensures r.navigate.Some? <==> n.actionUrl.Some? && n.actionUrl.value != []
    ensures r.navigate.Some? ==> n.actionUrl == r.navigate
  {
    ClickEffect(if !n.read then Some(MarkAsRead(n.id)) else None,
                if n.actionUrl.Some? && n.actionUrl.value != [] then n.actionUrl else None)
  }

  /** The list after an optional dispatch: no action leaves it, an action goes through the reducer. */
  function Dispatch(state: seq<Notification>, a: Option<Action>): (r: seq<Notification>)
    ensures a.None? ==> r == state
    ensures a.Some? && (a.value.MarkAsRead? || a.value.MarkAllAsRead?) ==>
      |r| == |state| && forall i :: 0 <= i < |state| ==> r[i].id == state[i].id
    ensures a == Some(MarkAllAsRead) ==> forall i :: 0 <= i < |r| ==> r[i].read
  {
    if a.Some? then Reduce(state, a.value) else state
  }

  /**
   * A click changes nothing for a read notification; otherwise it marks read
   * the items with that id and leaves every other item as it was.
   */
  lemma ClickTouchesOnlyItsId(state: seq<Notification>, n: Notification)
    ensures n.read ==> Dispatch(state, HandleClick(n).dispatch) == state
    ensures var r := Dispatch(state, HandleClick(n).dispatch);
      |r| == |state| &&
      (forall i :: 0 <= i < |state| && state[i].id != n.id ==> r[i] == state[i]) &&
      (!n.read ==> forall i :: 0 <= i < |state| && state[i].id == n.id ==> r[i] == state[i].(read := true))
  {
    if !n.read {
      var r := MarkRead(state, n.id);
      forall i | 0 <= i < |state| ensures state[i].id != n.id ==> r[i] == state[i] {
        assert r[i].(read := state[i].read) == state[i];
      }
      forall i | 0 <= i < |state| && state[i].id == n.id ensures r[i] == state[i].(read := true) {
        assert r[i].(read := state[i].read) == state[i];
      }
    }
  }

  /** "Mark All Read" is offered only with unread items and acts only when confirmed. */
  function HandleMarkAllAsRead(list: seq<Notification>, confirmed: bool): (r: Option<Action>)
    ensures r.Some? <==> UnreadCount(list) > 0 && confirmed
    ensures r.Some? ==> r.value == MarkAllAsRead
  {
    if UnreadCount(list) > 0 && confirmed then Some(MarkAllAsRead) else None
  }

  /** "Clear All" is offered only with a non-empty list and acts only when confirmed. */
  function HandleClearAll(list: seq<Notification>, confirmed: bool): (r: Option<Action>)
    ensures r.Some? <==> |list| > 0 && confirmed
    ensures r.Some? ==> r.value == ClearAll
  {
    if |list| > 0 && confirmed then Some(ClearAll) else None
  }

  /** After a confirmed "Mark All Read" the unread view is empty and the badge goes away. */
  lemma MarkAllEmptiesUnreadView(list: seq<Notification>)
    requires UnreadCount(list) > 0
    ensures UnreadCount(Dispatch(list, HandleMarkAllAsRead(list, true))) == 0
    ensures HandleMarkAllAsRead(Dispatch(list, HandleMarkAllAsRead(list, true)), true) == None
  {
    MarkAllClearsUnread(list);
  }
}
