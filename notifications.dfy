/** The notification centre: a list of notifications keyed by `id` with a
    `read` flag, changed by four handlers, and the unread count derived from
    it. */
module Notifications {
  import opened Wrappers
  import opened Seqs

  datatype Kind = Info | Warning | Success | Urgent

  datatype LinkType = Appointment | MapLink | Health | Resource

  /** One notification; `date` is kept as the ISO text of the source. */
  datatype Notification = Notification(
    id: string,
    title: string,
    description: string,
    date: string,
    read: bool,
    kind: Kind,
    link: Option<string>,
    linkType: Option<LinkType>)

  /** The list the page starts from. */
  const InitialNotifications: seq<Notification> := [
    Notification("1", "New COVID-19 Outbreak",
      "A new COVID-19 outbreak has been reported in your area. Please take necessary precautions.",
      "2023-11-10T09:30:00", false, Warning, Some("/map"), Some(MapLink)),
    Notification("2", "Vaccination Appointment Reminder",
      "Your COVID-19 booster appointment is scheduled for tomorrow at 2:00 PM.",
      "2023-11-09T14:00:00", true, Info, Some("/appointments"), Some(Appointment)),
    Notification("3", "Health Check-up Completed",
      "Your recent health check-up results are now available. All indicators are normal.",
      "2023-11-08T10:15:00", true, Kind.Success, Some("/health"), Some(Health)),
    Notification("4", "Travel Advisory",
      "A travel advisory has been issued for international travel due to rising cases globally.",
      "2023-11-07T16:45:00", false, Urgent, Some("/resources"), Some(Resource)),
    Notification("5", "New Health Resources Available",
      "New resources on pandemic prevention have been added to the resources section.",
      "2023-11-06T11:20:00", false, Info, Some("/resources"), Some(Resource)),
    Notification("6", "Local Quarantine Guidelines Updated",
      "The local health department has updated quarantine guidelines. Please review the changes.",
      "2023-11-05T13:10:00", true, Warning, Some("/resources"), Some(Resource))
  ]

  /** `markAsRead(id)`: every entry with that id becomes read; every other
      entry, every other field, the length and the order stay as they were. */
  function MarkRead(ns: seq<Notification>, id: string): (r: seq<Notification>)
    ensures |r| == |ns|
    ensures forall i :: 0 <= i < |ns| ==> r[i].read == (ns[i].read || ns[i].id == id)
    ensures forall i :: 0 <= i < |ns| ==> r[i].(read := ns[i].read) == ns[i]
  {
    if ns == [] then []
    else
      var n := ns[0];
      [if n.id == id then n.(read := true) else n] + MarkRead(ns[1..], id)
  }

  /** `markAllAsRead`: every entry becomes read, nothing else changes. */
  function MarkAllRead(ns: seq<Notification>): (r: seq<Notification>)
    ensures |r| == |ns|
    ensures forall i :: 0 <= i < |ns| ==> r[i].read && r[i].(read := ns[i].read) == ns[i]
  {
    if ns == [] then [] else [ns[0].(read := true)] + MarkAllRead(ns[1..])
  }

  predicate HasOtherId(n: Notification, id: string)
  {
    n.id != id
  }

  /** `dismissNotification(id)`: the entries with that id are removed, the
      others keep their relative order. */
  function Dismiss(ns: seq<Notification>, id: string): (r: seq<Notification>)
    ensures forall n :: n in r ==> n.id != id
    ensures forall n :: n in ns && n.id != id ==> n in r
    ensures IsSubsequence(r, ns)
  {
    Filter(ns, n => HasOtherId(n, id))
  }

  predicate IsUnread(n: Notification)
  {
    !n.read
  }

  /** `unreadCount`: the number of entries not yet read. */
  function UnreadCount(ns: seq<Notification>): (c: nat)
    ensures c <= |ns|
    ensures c == 0 <==> forall n :: n in ns ==> n.read
  {
    var unread := Filter(ns, IsUnread);
    assert unread != [] ==> unread[0] in unread;
    |unread|
  }

  /** "Mark all as read" is enabled (line 190). */
  predicate CanMarkAllAsRead(ns: seq<Notification>)
  {
    UnreadCount(ns) != 0
  }

  /** "Clear all" is enabled (line 193). */
  predicate CanClearAll(ns: seq<Notification>)
  {
    |ns| != 0
  }

  /** The label of the read toggle shown under an entry with a link. */
  function ReadToggleLabel(n: Notification): (caption: string)
    ensures caption == "Mark as unread" <==> n.read
    ensures caption == "Mark as read" <==> !n.read
  {
    if n.read then "Mark as unread" else "Mark as read"
  }

  /** Marking read twice is the same as marking read once. */
  lemma MarkReadIdempotent(ns: seq<Notification>, id: string)
    ensures MarkRead(MarkRead(ns, id), id) == MarkRead(ns, id)
  {
    var once := MarkRead(ns, id);
    var twice := MarkRead(once, id);
    forall i | 0 <= i < |ns| ensures twice[i] == once[i] {
      assert twice[i].(read := once[i].read) == once[i];
    }
  }

  /** The unread entries left after marking `id` read are exactly the unread
      entries with other ids: the count drops by the unread entries with
      that id. */
  lemma {:induction false} MarkReadUnreadCount(ns: seq<Notification>, id: string)
    ensures UnreadCount(MarkRead(ns, id)) == UnreadCount(Dismiss(ns, id))
  {
    if ns != [] {
      MarkReadUnreadCount(ns[1..], id);
      assert MarkRead(ns, id)[1..] == MarkRead(ns[1..], id);
    }
  }

  /** The entries with a given id. */
  function WithId(ns: seq<Notification>, id: string): seq<Notification>
  {
    Filter(ns, (n: Notification) => n.id == id)
  }

  /** Dismissing removes exactly the entries with the id: what is left and
      what was removed add up to the old length. */
  lemma {:induction false} DismissCount(ns: seq<Notification>, id: string)
    ensures |Dismiss(ns, id)| + |WithId(ns, id)| == |ns|
  {
    if ns != [] {
      DismissCount(ns[1..], id);
    }
  }

  /** Dismissing never raises the unread count. */
  lemma {:induction false} DismissUnreadCount(ns: seq<Notification>, id: string)
    ensures UnreadCount(Dismiss(ns, id)) <= UnreadCount(ns)
  {
    if ns != [] {
      DismissUnreadCount(ns[1..], id);
    }
  }

  /** After "Mark all as read" nothing is unread and the button disables. */
  lemma MarkAllReadLeavesNoneUnread(ns: seq<Notification>)
    ensures |MarkAllRead(ns)| == |ns|
    ensures UnreadCount(MarkAllRead(ns)) == 0 && !CanMarkAllAsRead(MarkAllRead(ns))
  {
    var r := MarkAllRead(ns);
    forall n | n in r ensures n.read {
      var i :| 0 <= i < |r| && r[i] == n;
    }
  }

  /** The page starts with six entries with distinct ids. */
  lemma InitialIdsDistinct()
    ensures |InitialNotifications| == 6
    ensures forall i, j :: 0 <= i < j < 6 ==> InitialNotifications[i].id != InitialNotifications[j].id
  {
  }

  /** The `read` flags of a list, in order. */
  function ReadFlags(ns: seq<Notification>): (flags: seq<bool>)
    ensures |flags| == |ns|
  {
    seq(|ns|, i requires 0 <= i < |ns| => ns[i].read)
  }

  /** The number of `false` flags. */
  function CountFalse(flags: seq<bool>): nat
  {
    if flags == [] then 0 else (if flags[0] then 0 else 1) + CountFalse(flags[1..])
  }

  /** The unread count is the number of entries whose flag is `false`. */
  lemma {:induction false} UnreadCountIsFalseFlags(ns: seq<Notification>)
    ensures UnreadCount(ns) == CountFalse(ReadFlags(ns))
  {
    if ns != [] {
      UnreadCountIsFalseFlags(ns[1..]);
      assert ReadFlags(ns)[1..] == ReadFlags(ns[1..]);
    }
  }

  /** The `read` flags of the initial entries. */
  lemma InitialReadFlags()
    ensures ReadFlags(InitialNotifications) == [false, true, true, false, false, true]
  {
  }

  /** Any list with the initial entries' flags has three unread entries. */
  lemma UnreadCountOfInitialFlags(ns: seq<Notification>)
    requires ReadFlags(ns) == [false, true, true, false, false, true]
    ensures UnreadCount(ns) == 3
  {
    UnreadCountIsFalseFlags(ns);
    assert CountFalse([false, true, true, false, false, true]) == 3;
  }

  /** Three of the initial entries are unread (ids 1, 4 and 5). */
  lemma InitialUnreadCount()
    ensures UnreadCount(InitialNotifications) == 3
  {
    InitialReadFlags();
    UnreadCountOfInitialFlags(InitialNotifications);
  }

  /** The notification list as the page holds it in its state. */
  class NotificationCenter {
    var notifications: seq<Notification>

    constructor ()
      ensures notifications == InitialNotifications
    {
      notifications := InitialNotifications;
    }

    /** The unread count shown in the header. */
    function Unread(): nat
      reads this
    {
      UnreadCount(notifications)
    }

    /** `markAsRead`, which the link button under an entry also calls. */
    method MarkAsRead(id: string)
      modifies this
      ensures notifications == MarkRead(old(notifications), id)
    {
      notifications := MarkRead(notifications, id);
    }

    /** The read toggle under an entry: whatever its label says, it calls
        `markAsRead`, so a read entry stays read. */
    method ClickReadToggle(id: string)
      modifies this
      ensures notifications == MarkRead(old(notifications), id)
      ensures forall i :: 0 <= i < |notifications| && old(notifications[i].read) ==> notifications[i].read
    {
      MarkAsRead(id);
    }

    method DismissNotification(id: string)
      modifies this
      ensures notifications == Dismiss(old(notifications), id)
      ensures Unread() <= old(Unread())
    {
      notifications := Dismiss(notifications, id);
      DismissUnreadCount(old(notifications), id);
    }

    method MarkAllAsRead()
      modifies this
      ensures notifications == MarkAllRead(old(notifications))
      ensures Unread() == 0
    {
      notifications := MarkAllRead(notifications);
      MarkAllReadLeavesNoneUnread(old(notifications));
    }

    method ClearAll()
      modifies this
      ensures notifications == [] && Unread() == 0 && !CanClearAll(notifications)
    {
      notifications := [];
    }
  }
}
