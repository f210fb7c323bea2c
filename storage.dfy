/** The in-memory entity store `MemStorage`: three tables keyed by id, one id counter shared by
    all three, and a single settings record. "Now" is a parameter of every operation that reads
    the clock. */
module Storage {
  import opened Wrappers
  import opened Schema
  import opened Seqs

  /** The table an operation addressed. */
  datatype Kind = NoteKind | ExpenseKind | ReminderKind

  /** The error the store throws: no entity of that kind has that id. */
  datatype StoreError = NotFound(kind: Kind, id: int)

  /** The outcome of a delete. */
  datatype Outcome = Done | Failed(error: StoreError)

  /** The default priority a reminder is stored with when its own is left out or empty. */
  const DefaultPriority := "medium"

  /** The settings record the store starts with. */
  function InitialSettings(now: int): (s: Settings)
    ensures s.id == 1 && s.updatedAt == now
    ensures !s.darkMode && s.defaultCurrency == "USD"
    ensures s.voiceRecognitionEnabled && s.notificationsEnabled
  {
    Settings(1, false, "USD", true, true, now)
  }

  /** The patched value when the patch has the key, otherwise the current value. */
  function Override<T>(patch: Option<T>, current: T): T {
    patch.GetOr(current)
  }

  /** The same, for a field that may itself be absent. */
  function OverrideOptional<T>(patch: Option<T>, current: Option<T>): Option<T> {
    if patch.Some? then patch else current
  }

  /** `after` is what a merge leaves in a field: the patch's value when the patch has the key,
      the field's old value otherwise. */
  predicate Takes<T(==)>(after: T, patch: Option<T>, before: T) {
    (patch.Some? ==> after == patch.value) && (patch.None? ==> after == before)
  }

  /** The same, for a field that may itself be absent. */
  predicate TakesOptional<T(==)>(after: Option<T>, patch: Option<T>, before: Option<T>) {
    (patch.Some? ==> after == patch) && (patch.None? ==> after == before)
  }

  /** The fields of a stored note that a client can supply. */
  function NewNoteOf(n: Note): NewNote {
    NewNote(n.title, n.content, n.category, n.noteType, n.isVoiceNote, n.reminderDate, n.isCompleted)
  }

  /** The note `createNote` stores: the submitted fields, the id, and both timestamps at `now`. */
  function NoteOf(n: NewNote, id: int, now: int): (r: Note)
    ensures r.id == id && r.createdAt == now && r.updatedAt == now
    ensures NewNoteOf(r) == n
  {
    Note(id, n.title, n.content, n.category, n.noteType, n.isVoiceNote, n.reminderDate, n.isCompleted, now, now)
  }

  /** The expense `createExpense` stores: a left-out date becomes `now`. */
  function ExpenseOf(n: NewExpense, id: int, now: int): (r: Expense)
    ensures r.id == id && r.createdAt == now
    ensures r.date == if n.date.Some? then n.date.value else now
    ensures r.description == n.description && r.amount == n.amount
    ensures r.currency == n.currency && r.category == n.category
  {
    Expense(id, n.description, n.amount, n.currency, n.category, n.date.GetOr(now), now)
  }

  /** The reminder `createReminder` stores: a left-out or empty priority becomes "medium";
      the two flags are stored as given, absent ones stay absent. */
  function ReminderOf(n: NewReminder, id: int, now: int): (r: Reminder)
    ensures r.id == id && r.createdAt == now
    ensures r.priority == if n.priority.Some? && n.priority.value != "" then n.priority.value else DefaultPriority
    ensures r.title == n.title && r.description == n.description && r.scheduledDate == n.scheduledDate
    ensures r.isCompleted == n.isCompleted && r.notificationSent == n.notificationSent
  {
    var priority := if n.priority.Some? && n.priority.value != "" then n.priority.value else DefaultPriority;
    Reminder(id, n.title, n.description, n.scheduledDate, priority, n.isCompleted, n.notificationSent, now)
  }

  /** The patch that changes nothing. */
  const NoNoteChange := NotePatch(None, None, None, None, None, None, None)
  const NoExpenseChange := ExpensePatch(None, None, None, None, None)
  const NoReminderChange := ReminderPatch(None, None, None, None, None, None)

  /** `{...existing, ...patch, updatedAt: now}` for a note. */
  function MergeNote(e: Note, p: NotePatch, now: int): (r: Note)
    ensures r.id == e.id && r.createdAt == e.createdAt && r.updatedAt == now
    ensures Takes(r.title, p.title, e.title) && Takes(r.content, p.content, e.content)
    ensures Takes(r.category, p.category, e.category) && Takes(r.noteType, p.noteType, e.noteType)
    ensures TakesOptional(r.isVoiceNote, p.isVoiceNote, e.isVoiceNote)
    ensures TakesOptional(r.reminderDate, p.reminderDate, e.reminderDate)
    ensures TakesOptional(r.isCompleted, p.isCompleted, e.isCompleted)
    ensures p == NoNoteChange ==> r == e.(updatedAt := now)
  {
    e.(title := Override(p.title, e.title),
       content := Override(p.content, e.content),
       category := Override(p.category, e.category),
       noteType := Override(p.noteType, e.noteType),
       isVoiceNote := OverrideOptional(p.isVoiceNote, e.isVoiceNote),
       reminderDate := OverrideOptional(p.reminderDate, e.reminderDate),
       isCompleted := OverrideOptional(p.isCompleted, e.isCompleted),
       updatedAt := now)
  }

  /** `{...existing, ...patch}` for an expense: no timestamp is touched. */
  function MergeExpense(e: Expense, p: ExpensePatch): (r: Expense)
    ensures r.id == e.id && r.createdAt == e.createdAt
    ensures Takes(r.description, p.description, e.description) && Takes(r.amount, p.amount, e.amount)
    ensures Takes(r.currency, p.currency, e.currency) && Takes(r.category, p.category, e.category)
    ensures Takes(r.date, p.date, e.date)
    ensures p == NoExpenseChange ==> r == e
  {
    e.(description := Override(p.description, e.description),
       amount := Override(p.amount, e.amount),
       currency := Override(p.currency, e.currency),
       category := Override(p.category, e.category),
       date := Override(p.date, e.date))
  }

  /** `{...existing, ...patch}` for a reminder: no timestamp is touched, and no default is
      applied to the priority. */
  function MergeReminder(e: Reminder, p: ReminderPatch): (r: Reminder)
    ensures r.id == e.id && r.createdAt == e.createdAt
    ensures Takes(r.title, p.title, e.title) && TakesOptional(r.description, p.description, e.description)
    ensures Takes(r.scheduledDate, p.scheduledDate, e.scheduledDate) && Takes(r.priority, p.priority, e.priority)
    ensures TakesOptional(r.isCompleted, p.isCompleted, e.isCompleted)
    ensures TakesOptional(r.notificationSent, p.notificationSent, e.notificationSent)
    ensures p == NoReminderChange ==> r == e
  {
    e.(title := Override(p.title, e.title),
       description := OverrideOptional(p.description, e.description),
       scheduledDate := Override(p.scheduledDate, e.scheduledDate),
       priority := Override(p.priority, e.priority),
       isCompleted := OverrideOptional(p.isCompleted, e.isCompleted),
       notificationSent := OverrideOptional(p.notificationSent, e.notificationSent))
  }

  /** `{...settings, ...patch, updatedAt: now}`. */
  function MergeSettings(s: Settings, p: SettingsPatch, now: int): (r: Settings)
    ensures r.id == s.id && r.updatedAt == now
    ensures Takes(r.darkMode, p.darkMode, s.darkMode)
    ensures Takes(r.defaultCurrency, p.defaultCurrency, s.defaultCurrency)
    ensures Takes(r.voiceRecognitionEnabled, p.voiceRecognitionEnabled, s.voiceRecognitionEnabled)
    ensures Takes(r.notificationsEnabled, p.notificationsEnabled, s.notificationsEnabled)
  {
    s.(darkMode := Override(p.darkMode, s.darkMode),
       defaultCurrency := Override(p.defaultCurrency, s.defaultCurrency),
       voiceRecognitionEnabled := Override(p.voiceRecognitionEnabled, s.voiceRecognitionEnabled),
       notificationsEnabled := Override(p.notificationsEnabled, s.notificationsEnabled),
       updatedAt := now)
  }

  /** Two patches in a row: a key of the later one wins, otherwise the earlier one's. */
  function ThenReminder(p: ReminderPatch, q: ReminderPatch): ReminderPatch {
    ReminderPatch(
      OverrideOptional(q.title, p.title),
      OverrideOptional(q.description, p.description),
      OverrideOptional(q.scheduledDate, p.scheduledDate),
      OverrideOptional(q.priority, p.priority),
      OverrideOptional(q.isCompleted, p.isCompleted),
      OverrideOptional(q.notificationSent, p.notificationSent))
  }

  /** Updating a reminder twice is updating it once with the two patches combined, later keys
      winning: the merge is last-writer-wins field by field. */
  lemma ReminderPatchesCompose(e: Reminder, p: ReminderPatch, q: ReminderPatch)
    ensures MergeReminder(MergeReminder(e, p), q) == MergeReminder(e, ThenReminder(p, q))
  {
  }

  /** Sending the same update again changes nothing more (a note only gets the later stamp). */
  lemma RepeatedUpdatesSettle(n: Note, np: NotePatch, x: Expense, xp: ExpensePatch,
                              r: Reminder, rp: ReminderPatch, s: Settings, sp: SettingsPatch, now: int, later: int)
    ensures MergeNote(MergeNote(n, np, now), np, later) == MergeNote(n, np, later)
    ensures MergeExpense(MergeExpense(x, xp), xp) == MergeExpense(x, xp)
    ensures MergeReminder(MergeReminder(r, rp), rp) == MergeReminder(r, rp)
    ensures MergeSettings(MergeSettings(s, sp, now), sp, later) == MergeSettings(s, sp, later)
  {
  }

  /** A reminder is pending for `getPendingReminders`: not completed, scheduled at or before
      `now`, not yet notified. */
  predicate IsPending(r: Reminder, now: int) {
    !IsTrue(r.isCompleted) && r.scheduledDate <= now && !IsTrue(r.notificationSent)
  }

  /** Both ends of the date range are included. */
  predicate InDateRange(date: int, start: int, end: int) {
    start <= date <= end
  }

  /** The rows dated within `[start, end]`, where the rows list exactly the values of the table `m`. */
  function DatedWithin(m: map<int, Expense>, rows: seq<Expense>, start: int, end: int): (r: seq<Expense>)
    requires forall x :: x in rows ==> x.id in m && m[x.id] == x
    requires forall id :: id in m ==> m[id] in rows
    ensures forall i :: 0 <= i < |r| ==> r[i].id in m && m[r[i].id] == r[i] && InDateRange(r[i].date, start, end)
    ensures forall id :: id in m && InDateRange(m[id].date, start, end) ==> m[id] in r
    ensures IsSubsequence(r, rows)
  {
    var inRange := (e: Expense) => InDateRange(e.date, start, end);
    FilterIsSubsequence(rows, inRange);
    Filter(rows, inRange)
  }

  /** The pending rows, where the rows list exactly the values of the table `m`. */
  function PendingIn(m: map<int, Reminder>, rows: seq<Reminder>, now: int): (r: seq<Reminder>)
    requires forall x :: x in rows ==> x.id in m && m[x.id] == x
    requires forall id :: id in m ==> m[id] in rows
    ensures forall i :: 0 <= i < |r| ==> r[i].id in m && m[r[i].id] == r[i] && IsPending(r[i], now)
    ensures forall id :: id in m && IsPending(m[id], now) ==> m[id] in r
    ensures IsSubsequence(r, rows)
  {
    var pending := (x: Reminder) => IsPending(x, now);
    FilterIsSubsequence(rows, pending);
    Filter(rows, pending)
  }

  /** The notes of the table `m` (keys in `[1, hi)`, each note under its own id), newest
      `createdAt` first, ties in insertion (= id) order. */
  function NewestFirst(m: map<int, Note>, hi: int): (r: seq<Note>)
    requires forall id :: id in m ==> 1 <= id < hi && m[id].id == id
    ensures forall i, j :: 0 <= i < j < |r| ==> r[i].createdAt >= r[j].createdAt
    ensures forall i, j :: 0 <= i < j < |r| && r[i].createdAt == r[j].createdAt ==> r[i].id < r[j].id
    ensures forall i :: 0 <= i < |r| ==> r[i].id in m && m[r[i].id] == r[i]
    ensures forall id :: id in m ==> multiset(r)[m[id]] == 1
  {
    var key := (n: Note) => -n.createdAt;
    var r := ValuesSortedBy(m, (n: Note) => n.id, hi, key);
    assert forall i, j :: 0 <= i < j < |r| ==> key(r[i]) <= key(r[j]);
    forall i, j | 0 <= i < j < |r| && r[i].createdAt == r[j].createdAt
      ensures r[i].id < r[j].id
    {
      assert key(r[i]) == key(r[j]);
    }
    r
  }

  /** The id of an expense, as the key the expenses table stores it under. */
  function ExpenseId(e: Expense): int {
    e.id
  }

  /** The expenses of the table `m`, latest `date` first, ties in insertion (= id) order. */
  function LatestFirst(m: map<int, Expense>, hi: int): (r: seq<Expense>)
    requires forall id :: id in m ==> 1 <= id < hi && m[id].id == id
    ensures forall i, j :: 0 <= i < j < |r| ==> r[i].date >= r[j].date
    ensures forall i, j :: 0 <= i < j < |r| && r[i].date == r[j].date ==> r[i].id < r[j].id
    ensures forall i :: 0 <= i < |r| ==> r[i].id in m && m[r[i].id] == r[i]
    ensures forall id :: id in m ==> multiset(r)[m[id]] == 1
  {
    var key := (e: Expense) => -e.date;
    var r := ValuesSortedBy(m, ExpenseId, hi, key);
    assert forall i, j :: 0 <= i < j < |r| ==> key(r[i]) <= key(r[j]);
    forall i, j | 0 <= i < j < |r| && r[i].date == r[j].date
      ensures r[i].id < r[j].id
    {
      assert key(r[i]) == key(r[j]);
    }
    r
  }

  /** The sorted listing holds the same expenses as the table in insertion order. */
  lemma LatestFirstPermutes(m: map<int, Expense>, hi: int)
    requires forall id :: id in m ==> 1 <= id < hi && m[id].id == id
    ensures multiset(LatestFirst(m, hi)) == multiset(ValuesInKeyOrder(m, ExpenseId, hi))
  {
  }

  class MemStorage {
    var notes: map<int, Note>
    var expenses: map<int, Expense>
    var reminders: map<int, Reminder>
    var settings: Settings
    var currentId: int

    /** Every entity is stored under its own id, which the counter has already issued; as one
        counter serves all three tables, no id is in two of them; the settings record has id 1. */
    ghost predicate Valid()
      reads this
    {
      && currentId >= 1
      && (forall id :: id in notes ==> 1 <= id < currentId && notes[id].id == id)
      && (forall id :: id in expenses ==> 1 <= id < currentId && expenses[id].id == id)
      && (forall id :: id in reminders ==> 1 <= id < currentId && reminders[id].id == id)
      && notes.Keys !! expenses.Keys
      && notes.Keys !! reminders.Keys
      && expenses.Keys !! reminders.Keys
      && settings.id == 1
    }

    constructor (now: int)
      ensures Valid()
      ensures notes == map[] && expenses == map[] && reminders == map[]
      ensures currentId == 1
      ensures settings == InitialSettings(now)
    {
      notes, expenses, reminders := map[], map[], map[];
      settings := InitialSettings(now);
      currentId := 1;
    }

    // ---------------------------------------------------------------- notes

    /** `Array.from(notes.values())`: a Map iterates in insertion order, which is increasing id
        order because ids are only ever added by a create, in counter order. */
    function NoteRows(): (r: seq<Note>)
      reads this
      requires Valid()
      ensures forall i, j :: 0 <= i < j < |r| ==> r[i].id < r[j].id
      ensures forall i :: 0 <= i < |r| ==> r[i].id in notes && notes[r[i].id] == r[i]
      ensures forall id :: id in notes ==> notes[id] in r
    {
      ValuesInKeyOrder(notes, (n: Note) => n.id, currentId)
    }

    /** `getNotes`: every stored note exactly once, newest `createdAt` first; the sort is stable,
        so notes created at the same instant keep insertion (= id) order. */
    function GetNotes(): (r: seq<Note>)
      reads this
      requires Valid()
      ensures forall i, j :: 0 <= i < j < |r| ==> r[i].createdAt >= r[j].createdAt
      ensures forall i, j :: 0 <= i < j < |r| && r[i].createdAt == r[j].createdAt ==> r[i].id < r[j].id
      ensures forall i :: 0 <= i < |r| ==> r[i].id in notes && notes[r[i].id] == r[i]
      ensures forall id :: id in notes ==> multiset(r)[notes[id]] == 1
    {
      NewestFirst(notes, currentId)
    }

    /** `getNote`: the note stored under `id`, if any. */
    function GetNote(id: int): (r: Option<Note>)
      reads this
      requires Valid()
      ensures r.Some? <==> id in notes
      ensures r.Some? ==> r.value.id == id
    {
      if id in notes then Some(notes[id]) else None
    }

    /** `createNote`: takes the next id from the shared counter and stores the note under it. */
    method CreateNote(n: NewNote, now: int) returns (r: Note)
      requires Valid()
      modifies this
      ensures Valid()
      ensures r.id == old(currentId) && currentId == old(currentId) + 1
      ensures forall k :: k in old(notes) || k in old(expenses) || k in old(reminders) ==> k < r.id
      ensures NewNoteOf(r) == n && r.createdAt == now && r.updatedAt == now
      ensures notes == old(notes)[r.id := r]
      ensures expenses == old(expenses) && reminders == old(reminders) && settings == old(settings)
      ensures GetNote(r.id) == Some(r)
    {
      r := NoteOf(n, currentId, now);
      currentId := currentId + 1;
      notes := notes[r.id := r];
    }

    /** `updateNote`: merges the patch into the stored note and refreshes `updatedAt`; throws
        "not found", changing nothing, when the id is absent. */
    method UpdateNote(id: int, p: NotePatch, now: int) returns (r: Result<Note, StoreError>)
      requires Valid()
      modifies this
      ensures Valid()
      ensures id !in old(notes) ==> r == Failure(NotFound(NoteKind, id)) && notes == old(notes)
      ensures id in old(notes) ==>
        r == Success(MergeNote(old(notes[id]), p, now)) && notes == old(notes)[id := r.value]
      ensures expenses == old(expenses) && reminders == old(reminders)
      ensures settings == old(settings) && currentId == old(currentId)
    {
      if id !in notes {
        return Failure(NotFound(NoteKind, id));
      }
      var updated := MergeNote(notes[id], p, now);
      notes := notes[id := updated];
      r := Success(updated);
    }

    /** `deleteNote`: removes exactly that key; throws "not found", changing nothing, when absent. */
    method DeleteNote(id: int) returns (r: Outcome)
      requires Valid()
      modifies this
      ensures Valid()
      ensures id !in old(notes) ==> r == Failed(NotFound(NoteKind, id)) && notes == old(notes)
      ensures id in old(notes) ==> r == Done && notes == old(notes) - {id}
      ensures expenses == old(expenses) && reminders == old(reminders)
      ensures settings == old(settings) && currentId == old(currentId)
    {
      if id !in notes {
        return Failed(NotFound(NoteKind, id));
      }
      notes := notes - {id};
      r := Done;
    }

    // ------------------------------------------------------------- expenses

    /** `Array.from(expenses.values())`, in insertion (= increasing id) order. */
    function ExpenseRows(): (r: seq<Expense>)
      reads this
      requires Valid()
      ensures forall i, j :: 0 <= i < j < |r| ==> r[i].id < r[j].id
      ensures forall i :: 0 <= i < |r| ==> r[i].id in expenses && expenses[r[i].id] == r[i]
      ensures forall id :: id in expenses ==> expenses[id] in r
    {
      ValuesInKeyOrder(expenses, ExpenseId, currentId)
    }

    /** `getExpenses`: every stored expense exactly once, latest `date` first; expenses of the same
        date keep insertion (= id) order. */
    function GetExpenses(): (r: seq<Expense>)
      reads this
      requires Valid()
      ensures forall i, j :: 0 <= i < j < |r| ==> r[i].date >= r[j].date
      ensures forall i, j :: 0 <= i < j < |r| && r[i].date == r[j].date ==> r[i].id < r[j].id
      ensures forall i :: 0 <= i < |r| ==> r[i].id in expenses && expenses[r[i].id] == r[i]
      ensures forall id :: id in expenses ==> multiset(r)[expenses[id]] == 1
      ensures multiset(r) == multiset(ExpenseRows())
    {
      LatestFirstPermutes(expenses, currentId);
      LatestFirst(expenses, currentId)
    }

    /** `getExpense`: the expense stored under `id`, if any. */
    function GetExpense(id: int): (r: Option<Expense>)
      reads this
      requires Valid()
      ensures r.Some? <==> id in expenses
      ensures r.Some? ==> r.value.id == id
    {
      if id in expenses then Some(expenses[id]) else None
    }

    /** `createExpense`: next id from the shared counter; a left-out date becomes `now`. */
    method CreateExpense(n: NewExpense, now: int) returns (r: Expense)
      requires Valid()
      modifies this
      ensures Valid()
      ensures r.id == old(currentId) && currentId == old(currentId) + 1
      ensures forall k :: k in old(notes) || k in old(expenses) || k in old(reminders) ==> k < r.id
      ensures r == ExpenseOf(n, r.id, now)
      ensures expenses == old(expenses)[r.id := r]
      ensures notes == old(notes) && reminders == old(reminders) && settings == old(settings)
      ensures GetExpense(r.id) == Some(r)
    {
      r := ExpenseOf(n, currentId, now);
      currentId := currentId + 1;
      expenses := expenses[r.id := r];
    }

    /** `updateExpense`: merges the patch, touching no timestamp; "not found" when absent. */
    method UpdateExpense(id: int, p: ExpensePatch) returns (r: Result<Expense, StoreError>)
      requires Valid()
      modifies this
      ensures Valid()
      ensures id !in old(expenses) ==> r == Failure(NotFound(ExpenseKind, id)) && expenses == old(expenses)
      ensures id in old(expenses) ==>
        r == Success(MergeExpense(old(expenses[id]), p)) && expenses == old(expenses)[id := r.value]
      ensures notes == old(notes) && reminders == old(reminders)
      ensures settings == old(settings) && currentId == old(currentId)
    {
      if id !in expenses {
        return Failure(NotFound(ExpenseKind, id));
      }
      var updated := MergeExpense(expenses[id], p);
      expenses := expenses[id := updated];
      r := Success(updated);
    }

    /** `deleteExpense`: removes exactly that key; "not found", changing nothing, when absent. */
    method DeleteExpense(id: int) returns (r: Outcome)
      requires Valid()
      modifies this
      ensures Valid()
      ensures id !in old(expenses) ==> r == Failed(NotFound(ExpenseKind, id)) && expenses == old(expenses)
      ensures id in old(expenses) ==> r == Done && expenses == old(expenses) - {id}
      ensures notes == old(notes) && reminders == old(reminders)
      ensures settings == old(settings) && currentId == old(currentId)
    {
      if id !in expenses {
        return Failed(NotFound(ExpenseKind, id));
      }
      expenses := expenses - {id};
      r := Done;
    }

    /** `getExpensesByDateRange`: exactly the stored expenses dated within `[start, end]`, both
        ends included, in insertion order. */
    function GetExpensesByDateRange(start: int, end: int): (r: seq<Expense>)
      reads this
      requires Valid()
      ensures forall i :: 0 <= i < |r| ==>
        r[i].id in expenses && expenses[r[i].id] == r[i] && InDateRange(r[i].date, start, end)
      ensures forall id :: id in expenses && InDateRange(expenses[id].date, start, end) ==> expenses[id] in r
      ensures IsSubsequence(r, ExpenseRows())
    {
      DatedWithin(expenses, ExpenseRows(), start, end)
    }

    // ------------------------------------------------------------ reminders

    /** `Array.from(reminders.values())`, in insertion (= increasing id) order. */
    function ReminderRows(): (r: seq<Reminder>)
      reads this
      requires Valid()
      ensures forall i, j :: 0 <= i < j < |r| ==> r[i].id < r[j].id
      ensures forall i :: 0 <= i < |r| ==> r[i].id in reminders && reminders[r[i].id] == r[i]
      ensures forall id :: id in reminders ==> reminders[id] in r
    {
      ValuesInKeyOrder(reminders, (r: Reminder) => r.id, currentId)
    }

    /** `getReminders`: every stored reminder exactly once, earliest `scheduledDate` first;
        reminders scheduled at the same instant keep insertion (= id) order. */
    function GetReminders(): (r: seq<Reminder>)
      reads this
      requires Valid()
      ensures forall i, j :: 0 <= i < j < |r| ==> r[i].scheduledDate <= r[j].scheduledDate
      ensures forall i, j :: 0 <= i < j < |r| && r[i].scheduledDate == r[j].scheduledDate ==> r[i].id < r[j].id
      ensures forall i :: 0 <= i < |r| ==> r[i].id in reminders && reminders[r[i].id] == r[i]
      ensures forall id :: id in reminders ==> multiset(r)[reminders[id]] == 1
    {
      ValuesSortedBy(reminders, (x: Reminder) => x.id, currentId, (x: Reminder) => x.scheduledDate)
    }

    /** `getReminder`: the reminder stored under `id`, if any. */
    function GetReminder(id: int): (r: Option<Reminder>)
      reads this
      requires Valid()
      ensures r.Some? <==> id in reminders
      ensures r.Some? ==> r.value.id == id
    {
      if id in reminders then Some(reminders[id]) else None
    }

    /** `createReminder`: next id from the shared counter; priority defaults to "medium". */
    method CreateReminder(n: NewReminder, now: int) returns (r: Reminder)
      requires Valid()
      modifies this
      ensures Valid()
      ensures r.id == old(currentId) && currentId == old(currentId) + 1
      ensures forall k :: k in old(notes) || k in old(expenses) || k in old(reminders) ==> k < r.id
      ensures r == ReminderOf(n, r.id, now)
      ensures reminders == old(reminders)[r.id := r]
      ensures notes == old(notes) && expenses == old(expenses) && settings == old(settings)
      ensures GetReminder(r.id) == Some(r)
    {
      r := ReminderOf(n, currentId, now);
      currentId := currentId + 1;
      reminders := reminders[r.id := r];
    }

    /** `updateReminder`: merges the patch, touching no timestamp; "not found" when absent. */
    method UpdateReminder(id: int, p: ReminderPatch) returns (r: Result<Reminder, StoreError>)
      requires Valid()
      modifies this
      ensures Valid()
      ensures id !in old(reminders) ==> r == Failure(NotFound(ReminderKind, id)) && reminders == old(reminders)
      ensures id in old(reminders) ==>
        r == Success(MergeReminder(old(reminders[id]), p)) && reminders == old(reminders)[id := r.value]
      ensures notes == old(notes) && expenses == old(expenses)
      ensures settings == old(settings) && currentId == old(currentId)
    {
      if id !in reminders {
        return Failure(NotFound(ReminderKind, id));
      }
      var updated := MergeReminder(reminders[id], p);
      reminders := reminders[id := updated];
      r := Success(updated);
    }

    /** `deleteReminder`: removes exactly that key; "not found", changing nothing, when absent. */
    method DeleteReminder(id: int) returns (r: Outcome)
      requires Valid()
      modifies this
      ensures Valid()
      ensures id !in old(reminders) ==> r == Failed(NotFound(ReminderKind, id)) && reminders == old(reminders)
      ensures id in old(reminders) ==> r == Done && reminders == old(reminders) - {id}
      ensures notes == old(notes) && expenses == old(expenses)
      ensures settings == old(settings) && currentId == old(currentId)
    {
      if id !in reminders {
        return Failed(NotFound(ReminderKind, id));
      }
      reminders := reminders - {id};
      r := Done;
    }

    /** `getPendingReminders`: exactly the stored reminders that are not completed, not notified
        and scheduled at or before `now`, in insertion order. The server reads the clock on
        each call; here `now` is a parameter, so two calls at the same instant with no change in
        between return the same sequence. */
    function GetPendingReminders(now: int): (r: seq<Reminder>)
      reads this
      requires Valid()
      ensures forall i :: 0 <= i < |r| ==>
        r[i].id in reminders && reminders[r[i].id] == r[i] && IsPending(r[i], now)
      ensures forall id :: id in reminders && IsPending(reminders[id], now) ==> reminders[id] in r
      ensures IsSubsequence(r, ReminderRows())
    {
      PendingIn(reminders, ReminderRows(), now)
    }

    // ------------------------------------------------------------- settings

    /** `getSettings`: the singleton record, whose id is always 1. */
    function GetSettings(): (r: Settings)
      reads this
      requires Valid()
      ensures r.id == 1
    {
      settings
    }

    /** `updateSettings`: merges the patch and stamps `updatedAt`; the id stays 1. */
    method UpdateSettings(p: SettingsPatch, now: int) returns (r: Settings)
      requires Valid()
      modifies this
      ensures Valid()
      ensures r == settings == MergeSettings(old(settings), p, now)
      ensures r.id == 1 && r.updatedAt == now
      ensures notes == old(notes) && expenses == old(expenses) && reminders == old(reminders)
      ensures currentId == old(currentId)
    {
      settings := MergeSettings(settings, p, now);
      r := settings;
    }
  }
}
