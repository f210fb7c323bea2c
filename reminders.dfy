/** The reminders page: the once-a-minute due check that shows a notification for each due
    reminder and marks it as notified, and the page's small helpers (completion toggle, the
    active/completed lists, the time-status badge, the priority badge). */
module ReminderPage {
  import opened Wrappers
  import opened Schema
  import opened Seqs
  import opened Text
  import opened Storage

  /** One call of the notification port. */
  datatype Notification = Notification(title: string, body: string, tag: string)

  /** The body shown when a reminder has no description. */
  const DefaultBody := "Reminder is due!"

  /** The page's `showNotification` port. Whether the browser then displays anything (support,
      permission) is outside the model; the port keeps the list of calls made to it. */
  class NotificationPort {
    var shown: seq<Notification>

    constructor ()
      ensures shown == []
    {
      shown := [];
    }

    method ShowNotification(title: string, body: string, tag: string)
      modifies this
      ensures shown == old(shown) + [Notification(title, body, tag)]
    {
      shown := shown + [Notification(title, body, tag)];
    }
  }

  /** The tick's due test: not completed, not notified, and scheduled strictly before `now`. */
  predicate IsDue(r: Reminder, now: int)
    ensures IsDue(r, now) ==> IsPending(r, now)
  {
    !IsTrue(r.isCompleted) && !IsTrue(r.notificationSent) && r.scheduledDate < now
  }

  /** The due reminders of the page's snapshot, in snapshot order. */
  function DueReminders(snapshot: seq<Reminder>, now: int): (r: seq<Reminder>)
    ensures forall i :: 0 <= i < |r| ==> r[i] in snapshot && IsDue(r[i], now)
    ensures forall i :: 0 <= i < |snapshot| && IsDue(snapshot[i], now) ==> snapshot[i] in r
    ensures IsSubsequence(r, snapshot)
  {
    var due := (x: Reminder) => IsDue(x, now);
    FilterIsSubsequence(snapshot, due);
    Filter(snapshot, due)
  }

  /** The notification body: the description, or the default when it is absent or empty; it is
      never empty. */
  function BodyOf(r: Reminder): (body: string)
    ensures body != ""
    ensures r.description.Some? && r.description.value != "" ==> body == r.description.value
    ensures r.description.None? || r.description.value == "" ==> body == DefaultBody
  {
    if r.description.Some? && r.description.value != "" then r.description.value else DefaultBody
  }

  /** The deduplication tag `reminder-<id>`: the prefix followed by the id in decimal. */
  function TagOf(id: int): (tag: string)
    ensures |tag| > |"reminder-"| && tag[..|"reminder-"|] == "reminder-"
    ensures tag[|"reminder-"|..] == IntToString(id)
  {
    "reminder-" + IntToString(id)
  }

  /** The notification the tick shows for a due reminder: its title, a non-empty body, and the
      tag of its id. */
  function NotificationFor(r: Reminder): (n: Notification)
    ensures n.title == r.title && n.body != "" && n.tag == TagOf(r.id)
  {
    Notification(r.title, BodyOf(r), TagOf(r.id))
  }

  /** The notifications for `rs`, one each, in order. */
  function NotificationsFor(rs: seq<Reminder>): (ns: seq<Notification>)
    ensures |ns| == |rs|
  {
    seq(|rs|, i requires 0 <= i < |rs| => NotificationFor(rs[i]))
  }

  /** Reminders with different ids get different tags, so the browser collapses only repeated
      notifications of the same reminder. */
  lemma DistinctTags(a: Reminder, b: Reminder)
    requires a.id != b.id
    ensures NotificationFor(a).tag != NotificationFor(b).tag
  {
    var prefix := "reminder-";
    if TagOf(a.id) == TagOf(b.id) {
      assert IntToString(a.id) == TagOf(a.id)[|prefix|..] == TagOf(b.id)[|prefix|..] == IntToString(b.id);
      IntToStringInjective(a.id, b.id);
    }
  }

  /** The patch the tick sends for each due reminder: `{notificationSent: true}`. */
  const SentPatch := ReminderPatch(None, None, None, None, None, Some(true))

  /** The ids of `rs`. */
  function IdsOf(rs: seq<Reminder>): set<int> {
    set i | 0 <= i < |rs| :: rs[i].id
  }

  /** The reminders table after the sent patch has been applied to every id of `ids` that it
      holds: those reminders are marked notified and nothing else changes. */
  function MarkSent(m: map<int, Reminder>, ids: set<int>): (r: map<int, Reminder>)
    ensures r.Keys == m.Keys
    ensures forall k :: k in m && k in ids ==> r[k] == m[k].(notificationSent := Some(true))
    ensures forall k :: k in m && k !in ids ==> r[k] == m[k]
  {
    map k | k in m :: if k in ids then MergeReminder(m[k], SentPatch) else m[k]
  }

  /** Marking one more id is one more update of the table. */
  lemma MarkSentStep(m: map<int, Reminder>, ids: set<int>, id: int)
    ensures id in m ==>
      MarkSent(m, ids + {id}) == MarkSent(m, ids)[id := MergeReminder(MarkSent(m, ids)[id], SentPatch)]
    ensures id !in m ==> MarkSent(m, ids + {id}) == MarkSent(m, ids)
  {
  }

  /** Extending a prefix by one reminder adds its id and its notification. */
  lemma PrefixStep(rs: seq<Reminder>, i: int)
    requires 0 <= i < |rs|
    ensures IdsOf(rs[..i + 1]) == IdsOf(rs[..i]) + {rs[i].id}
    ensures NotificationsFor(rs[..i + 1]) == NotificationsFor(rs[..i]) + [NotificationFor(rs[i])]
  {
    assert forall j :: 0 <= j < i ==> rs[..i + 1][j] == rs[..i][j];
  }

  /** The work the tick does for one due reminder: show its notification, then send the sent
      patch for its id (the update fails, changing nothing, if the id has been deleted). In terms
      of the table `m0` the tick started from, one more id is marked. */
  method NotifyAndMark(store: MemStorage, port: NotificationPort, reminder: Reminder,
                       ghost m0: map<int, Reminder>, ghost ids: set<int>)
    requires store.Valid() && store.reminders == MarkSent(m0, ids)
    modifies store, port
    ensures store.Valid() && store.reminders == MarkSent(m0, ids + {reminder.id})
    ensures port.shown == old(port.shown) + [NotificationFor(reminder)]
    ensures store.notes == old(store.notes) && store.expenses == old(store.expenses)
    ensures store.settings == old(store.settings) && store.currentId == old(store.currentId)
  {
    port.ShowNotification(reminder.title, BodyOf(reminder), TagOf(reminder.id));
    var _ := store.UpdateReminder(reminder.id, SentPatch);
    MarkSentStep(m0, ids, reminder.id);
  }

  /** `checkReminders`: one tick of the due check over the page's snapshot of the reminders.
      Each due reminder gets exactly one notification and exactly one `{notificationSent: true}`
      update; a failed update (the reminder was deleted meanwhile) is ignored. The settings are
      not consulted. */
  method CheckReminders(store: MemStorage, port: NotificationPort, snapshot: seq<Reminder>, now: int)
    requires store.Valid()
    modifies store, port
    ensures store.Valid()
    ensures port.shown == old(port.shown) + NotificationsFor(DueReminders(snapshot, now))
    ensures store.reminders == MarkSent(old(store.reminders), IdsOf(DueReminders(snapshot, now)))
    ensures store.notes == old(store.notes) && store.expenses == old(store.expenses)
    ensures store.settings == old(store.settings) && store.currentId == old(store.currentId)
  {
    var due := DueReminders(snapshot, now);
    ghost var reminders0, shown0 := store.reminders, port.shown;
    assert IdsOf(due[..0]) == {} && NotificationsFor(due[..0]) == [];
    assert store.reminders == MarkSent(reminders0, {});
    for i := 0 to |due|
      invariant store.Valid()
      invariant port.shown == shown0 + NotificationsFor(due[..i])
      invariant store.reminders == MarkSent(reminders0, IdsOf(due[..i]))
      invariant store.notes == old(store.notes) && store.expenses == old(store.expenses)
      invariant store.settings == old(store.settings) && store.currentId == old(store.currentId)
    {
      NotifyAndMark(store, port, due[i], reminders0, IdsOf(due[..i]));
      PrefixStep(due, i);
    }
    assert due[..|due|] == due;
  }

  /** When the snapshot lists every stored reminder, no stored reminder is due any more after
      the tick, at the same instant. */
  lemma {:induction false} NothingDueAfterTick(m: map<int, Reminder>, snapshot: seq<Reminder>, now: int)
    requires forall k :: k in m ==> m[k].id == k && m[k] in snapshot
    ensures forall k :: k in MarkSent(m, IdsOf(DueReminders(snapshot, now))) ==>
      !IsDue(MarkSent(m, IdsOf(DueReminders(snapshot, now)))[k], now)
  {
    var due := DueReminders(snapshot, now);
    forall k | k in m && IsDue(m[k], now)
      ensures k in IdsOf(due)
    {
      var j :| 0 <= j < |snapshot| && snapshot[j] == m[k];
      var d :| 0 <= d < |due| && due[d] == m[k];
      assert due[d].id == k;
    }
  }

  /** So a second tick straight after, over a fresh snapshot, shows nothing and updates nothing. */
  lemma SecondTickIsSilent(m: map<int, Reminder>, snapshot: seq<Reminder>, next: seq<Reminder>, now: int)
    requires forall k :: k in m ==> m[k].id == k && m[k] in snapshot
    requires forall i :: 0 <= i < |next| ==> next[i] in MarkSent(m, IdsOf(DueReminders(snapshot, now))).Values
    ensures DueReminders(next, now) == []
    ensures NotificationsFor(DueReminders(next, now)) == []
  {
    NothingDueAfterTick(m, snapshot, now);
  }

  /** The tick's test is stricter than the store's pending query: every due reminder is pending,
      and a pending reminder is not due exactly when it is scheduled at `now` itself. */
  lemma DueVersusPending(r: Reminder, now: int)
    ensures IsDue(r, now) ==> IsPending(r, now)
    ensures IsPending(r, now) && !IsDue(r, now) <==> IsPending(r, now) && r.scheduledDate == now
  {
  }

  // ------------------------------------------------------------- helpers

  /** `handleToggleComplete`: the patch `{isCompleted: !isCompleted}` and nothing else; applied,
      it flips completion and leaves `notificationSent` alone. */
  function ToggleCompletePatch(r: Reminder): (p: ReminderPatch)
    ensures p.notificationSent.None? && p.title.None? && p.description.None?
    ensures p.scheduledDate.None? && p.priority.None?
    ensures IsTrue(MergeReminder(r, p).isCompleted) == !IsTrue(r.isCompleted)
    ensures MergeReminder(r, p).notificationSent == r.notificationSent
  {
    NoReminderChange.(isCompleted := Some(!IsTrue(r.isCompleted)))
  }

  /** Completing and then restoring a reminder leaves it notified if it was: only the
      completion flag moves, and it comes back to its truth value. */
  lemma ToggleTwice(r: Reminder)
    ensures var once := MergeReminder(r, ToggleCompletePatch(r));
            var twice := MergeReminder(once, ToggleCompletePatch(once));
            IsTrue(twice.isCompleted) == IsTrue(r.isCompleted) &&
            twice.notificationSent == r.notificationSent &&
            twice == r.(isCompleted := twice.isCompleted)
  {
  }

  /** Not completed. */
  predicate IsOpen(r: Reminder) {
    !IsTrue(r.isCompleted)
  }

  /** Completed. */
  predicate IsClosed(r: Reminder) {
    IsTrue(r.isCompleted)
  }

  /** `activeReminders`: the reminders not completed, in their listed order. */
  function ActiveReminders(rs: seq<Reminder>): (r: seq<Reminder>)
    ensures forall i :: 0 <= i < |r| ==> r[i] in rs && !IsTrue(r[i].isCompleted)
    ensures IsSubsequence(r, rs)
  {
    FilterIsSubsequence(rs, IsOpen);
    Filter(rs, IsOpen)
  }

  /** `completedReminders`: the completed reminders, in their listed order. */
  function CompletedReminders(rs: seq<Reminder>): (r: seq<Reminder>)
    ensures forall i :: 0 <= i < |r| ==> r[i] in rs && IsTrue(r[i].isCompleted)
    ensures IsSubsequence(r, rs)
  {
    FilterIsSubsequence(rs, IsClosed);
    Filter(rs, IsClosed)
  }

  /** The two lists split the reminders: each one is in exactly one list, as often as it is
      in the input, and the two counts add up to the total. */
  lemma ActiveCompletedPartition(rs: seq<Reminder>)
    ensures |ActiveReminders(rs)| + |CompletedReminders(rs)| == |rs|
    ensures multiset(ActiveReminders(rs)) + multiset(CompletedReminders(rs)) == multiset(rs)
    ensures forall x :: x in ActiveReminders(rs) ==> x !in CompletedReminders(rs)
  {
    FilterPartition(rs, IsOpen, IsClosed);
  }

  /** One hour in milliseconds. */
  const HourMs := 3600000

  /** The time badge of a reminder. */
  datatype TimeStatus = Overdue | DueSoon | Today | Upcoming {
    function Label(): string {
      match this
      case Overdue => "Overdue"
      case DueSoon => "Due soon"
      case Today => "Today"
      case Upcoming => "Upcoming"
    }

    function Color(): string {
      match this
      case Overdue => "destructive"
      case DueSoon => "warning"
      case Today => "primary"
      case Upcoming => "secondary"
    }

    /** Position on the time line, nearest first. */
    function Rank(): nat {
      match this
      case Overdue => 0
      case DueSoon => 1
      case Today => 2
      case Upcoming => 3
    }
  }

  /** `getTimeStatus`: the hours until the scheduled time, compared with 0, 2 and 24. Comparing
      the millisecond difference with 0, 2 and 24 hours gives the same answers, since the hour
      count is that difference divided by the positive constant `HourMs`. */
  function GetTimeStatus(scheduledDate: int, now: int): (s: TimeStatus)
    ensures s == Overdue <==> scheduledDate < now
    ensures s == DueSoon <==> now <= scheduledDate < now + 2 * HourMs
    ensures s == Today <==> now + 2 * HourMs <= scheduledDate < now + 24 * HourMs
    ensures s == Upcoming <==> now + 24 * HourMs <= scheduledDate
  {
    var diff := scheduledDate - now;
    if diff < 0 then Overdue
    else if diff < 2 * HourMs then DueSoon
    else if diff < 24 * HourMs then Today
    else Upcoming
  }

  /** A later scheduled time never gets a nearer badge. */
  lemma TimeStatusMonotone(a: int, b: int, now: int)
    requires a <= b
    ensures GetTimeStatus(a, now).Rank() <= GetTimeStatus(b, now).Rank()
  {
  }

  /** For a reminder that is neither completed nor notified, the "Overdue" badge and the tick's
      due test agree. */
  lemma OverdueIsDue(r: Reminder, now: int)
    requires !IsTrue(r.isCompleted) && !IsTrue(r.notificationSent)
    ensures GetTimeStatus(r.scheduledDate, now) == Overdue <==> IsDue(r, now)
  {
  }

  /** The priority badge. */
  datatype Priority = High | Medium | Low {
    function Label(): string {
      match this
      case High => "High Priority"
      case Medium => "Medium Priority"
      case Low => "Low Priority"
    }

    function Icon(): string {
      match this
      case High => "\U{1F534}"
      case Medium => "\U{1F7E1}"
      case Low => "\U{1F7E2}"
    }
  }

  /** `getPriorityConfig`: "high" and "low" have their own badge, every other string the medium one. */
  function GetPriorityConfig(priority: string): (p: Priority)
    ensures p == High <==> priority == "high"
    ensures p == Low <==> priority == "low"
    ensures p == Medium <==> priority != "high" && priority != "low"
  {
    if priority == "high" then High
    else if priority == "low" then Low
    else Medium
  }

  /** The badge the active list shows: `getPriorityConfig(reminder.priority || "medium")`. */
  function ShownPriority(r: Reminder): (p: Priority)
    ensures p == GetPriorityConfig(r.priority)
  {
    GetPriorityConfig(if r.priority == "" then DefaultPriority else r.priority)
  }

  /** A reminder created with its priority left out or empty shows the medium badge. */
  lemma DefaultPriorityShowsMedium(n: NewReminder, id: int, now: int)
    requires n.priority.None? || n.priority == Some("")
    ensures ShownPriority(ReminderOf(n, id, now)) == Medium
  {
  }
}
