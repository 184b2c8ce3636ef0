/** The notification dropdown under the header: its list of notifications, the
    updates its buttons and swipes make to that list, and the counts and flags
    its header and "View all" button are drawn from. Calls to `onNavigate`,
    `onClose` and `onMarkAllRead` are returned as effects. */
module NotificationDropdown {
  import opened Optional
  import opened Text
  import opened Seqs

  datatype Notification = Notification(
    id: string,
    title: string,
    text: string,
    time: string,
    iconKey: string,
    unread: bool)

  /** The list the dropdown starts with (the `initialNotifications` prop is not used). */
  const INITIAL_NOTIFICATIONS: seq<Notification> := [
    Notification("1", "Electricity Usage Update", "Your electricity usage has increased this month.", "2 hours ago", "electricity", true),
    Notification("2", "Water Usage Update", "Your water consumption is within normal range this month.", "4 hours ago", "water", true),
    Notification("3", "Gas Supply Status", "Scheduled maintenance may affect your gas supply.", "Yesterday", "gas", true)
  ]

  const DROPDOWN_SIZE := 3

  datatype Effect =
    | Navigate(screen: string, id: Option<string>)
    | Close
    | MarkedAllRead

  // ---------------------------------------------------------------------------
  // List updates
  // ---------------------------------------------------------------------------

  /** `prev.map(n => ({ ...n, unread: false }))` */
  function MarkAllRead(ns: seq<Notification>): (r: seq<Notification>)
    ensures |r| == |ns|
    ensures forall i :: 0 <= i < |ns| ==> r[i] == ns[i].(unread := false)
  {
    if ns == [] then [] else [ns[0].(unread := false)] + MarkAllRead(ns[1..])
  }

  /** `prev.map(n => n.id === id ? { ...n, unread: false } : n)` */
  function MarkRead(ns: seq<Notification>, id: string): (r: seq<Notification>)
    ensures |r| == |ns|
    ensures forall i :: 0 <= i < |ns| ==> r[i] == (if ns[i].id == id then ns[i].(unread := false) else ns[i])
  {
    if ns == [] then []
    else [if ns[0].id == id then ns[0].(unread := false) else ns[0]] + MarkRead(ns[1..], id)
  }

  /** `prev.filter(n => n.id !== id)` */
  function RemoveId(ns: seq<Notification>, id: string): seq<Notification> {
    Filter(ns, (n: Notification) => n.id != id)
  }

  /** Accepting, declining or dismissing removes every notification with that id,
      keeps every other one, and removing an id that is not there changes nothing. */
  lemma RemoveIdSpec(ns: seq<Notification>, id: string)
    ensures forall n :: n in RemoveId(ns, id) <==> n in ns && n.id != id
    ensures (forall i :: 0 <= i < |ns| ==> ns[i].id != id) ==> RemoveId(ns, id) == ns
    ensures RemoveId(RemoveId(ns, id), id) == RemoveId(ns, id)
  {
    FilterMembers(ns, (n: Notification) => n.id != id);
    if forall i :: 0 <= i < |ns| ==> ns[i].id != id {
      FilterKeepsAll(ns, (n: Notification) => n.id != id);
    }
    FilterIdempotent(ns, (n: Notification) => n.id != id);
  }

  /** Removal is order preserving: it works piece by piece along the list. */
  lemma RemoveIdKeepsOrder(a: seq<Notification>, b: seq<Notification>, id: string)
    ensures RemoveId(a + b, id) == RemoveId(a, id) + RemoveId(b, id)
  {
    FilterAppend(a, b, (n: Notification) => n.id != id);
  }

  // ---------------------------------------------------------------------------
  // Derived values
  // ---------------------------------------------------------------------------

  /** `notifications.filter(n => n.unread).length` */
  function UnreadCount(ns: seq<Notification>): nat {
    Count(ns, (n: Notification) => n.unread)
  }

  /** The count is positive exactly when some notification is unread. */
  lemma UnreadCountPositive(ns: seq<Notification>)
    ensures UnreadCount(ns) > 0 <==> exists i :: 0 <= i < |ns| && ns[i].unread
  {
    var r := Filter(ns, (n: Notification) => n.unread);
    FilterMembers(ns, (n: Notification) => n.unread);
    if |r| > 0 {
      assert r[0] in r;
      var i :| 0 <= i < |ns| && ns[i] == r[0];
    }
    if exists i :: 0 <= i < |ns| && ns[i].unread {
      var i :| 0 <= i < |ns| && ns[i].unread;
      assert ns[i] in ns;
      assert ns[i] in r;
    }
  }

  /** After "Mark all as read" nothing is unread, and the ids and their order are kept. */
  lemma MarkAllReadClearsCount(ns: seq<Notification>)
    ensures UnreadCount(MarkAllRead(ns)) == 0
    ensures forall i :: 0 <= i < |ns| ==> MarkAllRead(ns)[i].id == ns[i].id
  {
    FilterDropsAll(MarkAllRead(ns), (n: Notification) => n.unread);
  }

  /** Pressing a notification leaves no unread notification with its id. */
  lemma MarkReadClearsId(ns: seq<Notification>, id: string)
    ensures forall i :: 0 <= i < |ns| && MarkRead(ns, id)[i].id == id ==> !MarkRead(ns, id)[i].unread
    ensures UnreadCount(MarkRead(ns, id)) <= UnreadCount(ns)
  {
    MarkReadCount(ns, id);
  }

  lemma {:induction false} MarkReadCount(ns: seq<Notification>, id: string)
    ensures UnreadCount(MarkRead(ns, id)) <= UnreadCount(ns)
  {
    if ns != [] {
      MarkReadCount(ns[1..], id);
      var head := if ns[0].id == id then ns[0].(unread := false) else ns[0];
      assert MarkRead(ns, id) == [head] + MarkRead(ns[1..], id);
      assert ns == [ns[0]] + ns[1..];
      FilterAppend([head], MarkRead(ns[1..], id), (n: Notification) => n.unread);
      FilterAppend([ns[0]], ns[1..], (n: Notification) => n.unread);
    }
  }

  /** `notifications.slice(0, 3)` */
  function DropdownItems(ns: seq<Notification>): (r: seq<Notification>)
    ensures |r| == (if |ns| < DROPDOWN_SIZE then |ns| else DROPDOWN_SIZE)
    ensures forall i :: 0 <= i < |r| ==> r[i] == ns[i]
  {
    if |ns| <= DROPDOWN_SIZE then ns else ns[..DROPDOWN_SIZE]
  }

  predicate HasDropdownItems(ns: seq<Notification>) {
    |DropdownItems(ns)| > 0
  }

  predicate HasMore(ns: seq<Notification>) {
    |ns| > DROPDOWN_SIZE
  }

  /** "Mark all as read" is offered. */
  predicate ShowMarkAllRead(ns: seq<Notification>) {
    HasDropdownItems(ns) && UnreadCount(ns) > 0
  }

  predicate ViewAllDisabled(ns: seq<Notification>) {
    !HasDropdownItems(ns)
  }

  function ViewAllLabel(ns: seq<Notification>): string {
    if HasMore(ns) then "View all " + NatToString(|ns|) + " notifications" else "View all notifications"
  }

  /** The header and footer of the dropdown, stated on the list itself: "Mark all
      as read" exactly when something is unread, "View all" disabled exactly when
      the list is empty, and the count in its label only when more than three
      notifications are hidden behind it. */
  lemma DropdownFlags(ns: seq<Notification>)
    ensures ShowMarkAllRead(ns) <==> exists i :: 0 <= i < |ns| && ns[i].unread
    ensures ViewAllDisabled(ns) <==> ns == []
    ensures HasMore(ns) <==> |DropdownItems(ns)| < |ns|
    ensures !HasMore(ns) ==> DropdownItems(ns) == ns
    ensures ViewAllLabel(ns) == "View all notifications" <==> !HasMore(ns)
  {
    UnreadCountPositive(ns);
    if HasMore(ns) {
      assert |ViewAllLabel(ns)| > |"View all notifications"|;
    }
  }

  lemma InitialDropdown()
    ensures UnreadCount(INITIAL_NOTIFICATIONS) == 3
    ensures DropdownItems(INITIAL_NOTIFICATIONS) == INITIAL_NOTIFICATIONS
    ensures ViewAllLabel(INITIAL_NOTIFICATIONS) == "View all notifications"
  {
    var ns := INITIAL_NOTIFICATIONS;
    assert ns[1..][1..][1..] == [];
  }

  // ---------------------------------------------------------------------------
  // The component
  // ---------------------------------------------------------------------------

  class Dropdown {
    var notifications: seq<Notification>
    /** The id of the card being swiped, `null` when none. */
    var swipingId: Option<string>
    /** Which callback props were passed. */
    const hasOnNavigate: bool
    const hasOnClose: bool
    const hasOnMarkAllRead: bool

    constructor (navigateProp: bool, closeProp: bool, markAllReadProp: bool)
      ensures notifications == INITIAL_NOTIFICATIONS && swipingId == None
      ensures hasOnNavigate == navigateProp && hasOnClose == closeProp && hasOnMarkAllRead == markAllReadProp
    {
      notifications := INITIAL_NOTIFICATIONS;
      swipingId := None;
      hasOnNavigate := navigateProp;
      hasOnClose := closeProp;
      hasOnMarkAllRead := markAllReadProp;
    }

    /** `!!swipingId` */
    predicate Swiping()
      reads this
    {
      swipingId.Some? && swipingId.value != ""
    }

    method MarkAll() returns (effects: seq<Effect>)
      modifies this
      ensures notifications == MarkAllRead(old(notifications)) && swipingId == old(swipingId)
      ensures effects == if hasOnMarkAllRead then [MarkedAllRead] else []
    {
      notifications := MarkAllRead(notifications);
      effects := if hasOnMarkAllRead then [MarkedAllRead] else [];
    }

    /** `handleAccept`: the notification goes and the requests screen opens for it. */
    method Accept(id: string) returns (effects: seq<Effect>)
      modifies this
      ensures notifications == RemoveId(old(notifications), id) && swipingId == old(swipingId)
      ensures effects == if hasOnNavigate then [Navigate("Requests", Some(id))] else []
    {
      notifications := RemoveId(notifications, id);
      effects := if hasOnNavigate then [Navigate("Requests", Some(id))] else [];
    }

    /** `handleDecline`: the notification goes, nothing else happens. */
    method Decline(id: string)
      modifies this
      ensures notifications == RemoveId(old(notifications), id) && swipingId == old(swipingId)
    {
      notifications := RemoveId(notifications, id);
    }

    /** A press on a card body (ignored while a card is being swiped): it is
        marked read, its detail screen opens and the dropdown closes. */
    method Press(id: string) returns (effects: seq<Effect>)
      modifies this
      ensures old(Swiping()) ==> notifications == old(notifications) && effects == []
      ensures !old(Swiping()) ==>
        notifications == MarkRead(old(notifications), id) &&
        effects == (if hasOnNavigate then [Navigate("NotificationDetail", Some(id))] else []) +
                   (if hasOnClose then [Close] else [])
      ensures swipingId == old(swipingId)
    {
      effects := [];
      if Swiping() {
        return;
      }
      notifications := MarkRead(notifications, id);
      if hasOnNavigate {
        effects := effects + [Navigate("NotificationDetail", Some(id))];
      }
      if hasOnClose {
        effects := effects + [Close];
      }
    }

    /** The pan responder takes a card. */
    method SwipeGranted(id: string)
      modifies this
      ensures swipingId == Some(id) && notifications == old(notifications)
    {
      swipingId := Some(id);
    }

    /** The finger lifts: a swipe past the threshold dismisses the card once it
        has slid away (`handleSwipeDismiss`); a shorter one snaps back. */
    method SwipeReleased(id: string, pastThreshold: bool)
      modifies this
      ensures swipingId == None
      ensures notifications == if pastThreshold then RemoveId(old(notifications), id) else old(notifications)
    {
      swipingId := None;
      if pastThreshold {
        notifications := RemoveId(notifications, id);
      }
    }

    method SwipeTerminated()
      modifies this
      ensures swipingId == None && notifications == old(notifications)
    {
      swipingId := None;
    }

    /** "View all": closes the dropdown and opens the notifications screen; the
        button is disabled while the list is empty. */
    method ViewAll() returns (effects: seq<Effect>)
      modifies this
      ensures ViewAllDisabled(notifications) ==> effects == []
      ensures !ViewAllDisabled(notifications) ==>
        effects == (if hasOnClose then [Close] else []) +
                   (if hasOnNavigate then [Navigate("NotificationsScreen", None)] else [])
      ensures notifications == old(notifications) && swipingId == old(swipingId)
    {
      effects := [];
      if ViewAllDisabled(notifications) {
        return;
      }
      if hasOnClose {
        effects := effects + [Close];
      }
      if hasOnNavigate {
        effects := effects + [Navigate("NotificationsScreen", None)];
      }
    }
  }
}
