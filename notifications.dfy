/** The notification bar: read state, the unread badge, the urgent-alert
    banner and the relative time shown next to each notification. */
module Notifications {
  import opened Base
  import opened Text

  datatype Kind = Alert | Reminder | Update | Success

  /** `timestamp` is in milliseconds since the epoch. */
  datatype Notification = Notification(id: string, kind: Kind, title: string, message: string,
                                       timestamp: int, read: bool)

  /** `prev.map(n => n.id === id ? {...n, read: true} : n)`. */
  function MarkRead(ns: seq<Notification>, id: string): (r: seq<Notification>)
    ensures |r| == |ns|
    ensures forall i :: 0 <= i < |ns| && ns[i].id == id ==> r[i] == ns[i].(read := true)
    ensures forall i :: 0 <= i < |ns| && ns[i].id != id ==> r[i] == ns[i]
  {
    if ns == [] then [] else [if ns[0].id == id then ns[0].(read := true) else ns[0]] + MarkRead(ns[1..], id)
  }

  /** Marking read never marks anything unread, and doing it twice is doing it once. */
  lemma MarkReadMonotone(ns: seq<Notification>, id: string)
    ensures forall i :: 0 <= i < |ns| && ns[i].read ==> MarkRead(ns, id)[i].read
    ensures MarkRead(MarkRead(ns, id), id) == MarkRead(ns, id)
  {
  }

  predicate IsUnread(n: Notification)
  {
    !n.read
  }

  /** `unreadCount`. */
  function UnreadCount(ns: seq<Notification>): (n: nat)
    ensures n <= |ns|
    ensures n == 0 <==> forall i :: 0 <= i < |ns| ==> ns[i].read
  {
    var unread := Filter(ns, IsUnread);
    assert unread != [] ==> !unread[0].read && unread[0] in ns;
    |unread|
  }

  /** Marking `id` read lowers the badge by the number of unread notifications
      with that id, and by nothing else. */
  lemma {:induction false} MarkReadLowersUnread(ns: seq<Notification>, id: string)
    ensures UnreadCount(MarkRead(ns, id)) == UnreadCount(ns) - Count(ns, (n: Notification) => !n.read && n.id == id)
    ensures UnreadCount(MarkRead(ns, id)) <= UnreadCount(ns)
  {
    if ns != [] {
      MarkReadLowersUnread(ns[1..], id);
      assert MarkRead(ns, id)[1..] == MarkRead(ns[1..], id);
    }
  }

  predicate IsUrgent(n: Notification)
  {
    n.kind == Alert && !n.read
  }

  /** `ns[k]` is the first urgent notification. */
  predicate FirstUrgentAt(ns: seq<Notification>, k: nat)
  {
    k < |ns| && IsUrgent(ns[k]) && forall i :: 0 <= i < k ==> !IsUrgent(ns[i])
  }

  /** `urgentNotification`: the first unread alert in list order. */
  function Urgent(ns: seq<Notification>): (r: Option<Notification>)
    ensures r.None? <==> forall i :: 0 <= i < |ns| ==> !IsUrgent(ns[i])
    ensures r.Some? ==> exists k: nat :: FirstUrgentAt(ns, k) && ns[k] == r.value
  {
    if ns == [] then None
    else if IsUrgent(ns[0]) then
      assert FirstUrgentAt(ns, 0);
      Some(ns[0])
    else
      var rest := Urgent(ns[1..]);
      UrgentShift(ns, rest);
      rest
  }

  lemma UrgentShift(ns: seq<Notification>, rest: Option<Notification>)
    requires ns != [] && !IsUrgent(ns[0])
    requires rest.Some? ==> exists k: nat :: FirstUrgentAt(ns[1..], k) && ns[1..][k] == rest.value
    ensures rest.Some? ==> exists k: nat :: FirstUrgentAt(ns, k) && ns[k] == rest.value
  {
    if rest.Some? {
      var k: nat :| FirstUrgentAt(ns[1..], k) && ns[1..][k] == rest.value;
      assert FirstUrgentAt(ns, k + 1);
    }
  }

  /** Once an alert's id is marked read, no notification with that id is the urgent one. */
  lemma DismissedAlertLeavesBanner(ns: seq<Notification>, id: string)
    ensures Urgent(MarkRead(ns, id)).Some? ==> Urgent(MarkRead(ns, id)).value.id != id
  {
    var r := Urgent(MarkRead(ns, id));
    if r.Some? {
      var k: nat :| FirstUrgentAt(MarkRead(ns, id), k) && MarkRead(ns, id)[k] == r.value;
    }
  }

  /** The unit `formatTime` settles on. */
  datatype Elapsed = Minutes(n: int) | Hours(n: int) | Days(n: int)

  const MinuteMs := 60000
  const HourMs := 3600000
  const DayMs := 86400000

  /** Whole minutes, then whole hours of those, then whole days of those; each
      unit is the floor of the elapsed time in that unit. */
  function ElapsedSince(now: int, timestamp: int): (e: Elapsed)
    ensures e.Minutes? ==> e.n < 60 && e.n * MinuteMs <= now - timestamp < (e.n + 1) * MinuteMs
    ensures e.Hours? ==> 1 <= e.n < 24 && e.n * HourMs <= now - timestamp < (e.n + 1) * HourMs
    ensures e.Days? ==> 1 <= e.n && e.n * DayMs <= now - timestamp < (e.n + 1) * DayMs
    ensures e.Minutes? <==> now - timestamp < HourMs
    ensures e.Hours? <==> HourMs <= now - timestamp < DayMs
  {
    var diff := now - timestamp;
    var minutes := diff / MinuteMs;
    if minutes < 60 then Minutes(minutes)
    else
      var hours := minutes / 60;
      if hours < 24 then Hours(hours)
      else
        Days(hours / 24)
  }

  /** `formatTime(date)`. */
  function FormatTime(now: int, timestamp: int): (r: string)
    ensures now - timestamp < HourMs ==> r == IntToString((now - timestamp) / MinuteMs) + "m ago"
    ensures HourMs <= now - timestamp < DayMs ==> r == IntToString((now - timestamp) / HourMs) + "h ago"
    ensures DayMs <= now - timestamp ==> r == IntToString((now - timestamp) / DayMs) + "d ago"
  {
    match ElapsedSince(now, timestamp)
    case Minutes(m) => IntToString(m) + "m ago"
    case Hours(h) => IntToString(h) + "h ago"
    case Days(d) => IntToString(d) + "d ago"
  }

  /** The bar's state. */
  class NotificationBar {
    var notifications: seq<Notification>
    var currentAlert: Option<Notification>
    var isVisible: bool

    constructor (ns: seq<Notification>)
      ensures notifications == ns && currentAlert == None && isVisible
    {
      notifications := ns;
      currentAlert := None;
      isVisible := true;
    }

    /** The effect that runs after a render: an urgent notification becomes the current alert. */
    method SyncCurrentAlert()
      modifies this
      ensures notifications == old(notifications) && isVisible == old(isVisible)
      ensures Urgent(old(notifications)).Some? ==> currentAlert == Urgent(old(notifications))
      ensures Urgent(old(notifications)).None? ==> currentAlert == old(currentAlert)
    {
      var urgent := Urgent(notifications);
      if urgent.Some? {
        currentAlert := urgent;
      }
    }

    /** `markAsRead(id)`. */
    method MarkAsRead(id: string)
      modifies this
      ensures notifications == MarkRead(old(notifications), id)
      ensures currentAlert == old(currentAlert) && isVisible == old(isVisible)
    {
      notifications := MarkRead(notifications, id);
    }

    /** `dismissAlert()`: the current alert, if any, is marked read and cleared;
        the banner is hidden either way. */
    method DismissAlert()
      modifies this
      ensures !isVisible && currentAlert == None
      ensures old(currentAlert).Some? ==> notifications == MarkRead(old(notifications), old(currentAlert).value.id)
      ensures old(currentAlert).None? ==> notifications == old(notifications)
    {
      if currentAlert.Some? {
        MarkAsRead(currentAlert.value.id);
        currentAlert := None;
      }
      isVisible := false;
    }
  }
}
