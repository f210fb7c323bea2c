# QuickPyx notes, expenses and reminders: a Dafny model

QuickPyx is a personal organiser. It keeps notes, expenses and reminders, plus one settings record, on a small server. Web pages list, search, create and edit these entities. This project models the following parts and proves properties about them:

- **The server's in-memory store `MemStorage`** (`storage.dfy`, class `Storage.MemStorage`).
  - Three tables (notes, expenses, reminders), each keyed by id.
  - One id counter shared by all three tables.
  - A single settings record.
  - Per kind: create, get, update and delete. Update and delete report "not found".
  - Sorted listings, the inclusive date-range query for expenses, the pending-reminders query, and the settings merge.
- **The reminders page** (`reminders.dfy`).
  - The once-a-minute due check. For each due reminder it shows a notification through a notification port and sends the `{notificationSent: true}` update to the store.
  - The completion toggle, the active/completed lists, the time-status badge and the priority badge.
- **The expenses page** (`expenses.dfy`).
  - The month filter and the ten-row recent list.
  - The category-icon and currency-symbol lookups.
  - The record the expense form submits.
- **The notes home page** (`home.dfy`).
  - The case-insensitive search and the "Reminders" count.
  - The title a voice transcription gets.
  - The record the note form submits.
- **The note card** (`notecard.dfy`).
  - The checklist rendering: the non-empty lines of the content.
  - The icon choice and the empty caption for a missing date.

Shared pieces:
- `Wrappers` holds `Option` and `Result`.
- `Seqs` holds the array operations the source relies on: `filter`, a stable `sort` (ties keep their input order), `find`, and iteration over a `Map`.
- `Text` holds decimal printing, lower-casing, substring search, and split/join.
- `Schema` holds the entity, insert and patch records.

Modelling choices:
- **Time.** Timestamps are integers in milliseconds. The current time is a parameter wherever the source reads the clock. Calendar month bounds and date parsing are parameters too.
- **Patches.** A patch field that is `None` is a key the client left out, so the stored value stays.
- **Optional flags.** A flag such as `isCompleted` counts as set only when it is present and `true`, as JavaScript truthiness has it.
- **Listing order.** A JavaScript `Map` iterates in insertion order. Ids are only ever added by a create, in counter order. So `Array.from(map.values())` is modelled as the values in increasing id order.
- **The due check.** The page gets the reminders from the store, but the due check runs on the page's copy of that list. So it works on a snapshot sequence, and its updates go to the store object.

Behaviour the proofs make explicit:
- **Due test versus pending query.** The page's due test uses a strict `<` (`isBefore`), while the store's pending query uses `<=`. A reminder scheduled exactly at "now" is pending but not yet due (`ReminderPage.DueVersusPending`).
- **The notifications setting.** The settings record has a `notificationsEnabled` flag, but the reminders page's due check never reads it. The model follows the code: `ReminderPage.CheckReminders` always notifies.
- **Icon and currency texts.** The expenses page's category icons, its fallback icon and its non-dollar currency symbols are written in the page as the UTF-8 bytes of the intended emoji and symbols read as Mac Roman characters; the euro entry, for instance, is the three characters U+201A U+00C7 U+00A8. The model copies these texts exactly, so `ExpensePage.CurrencySymbol("EUR")` is that three-character text, as the page shows it.
- **Clearing a note's reminder.** When a note is edited and its reminder field is emptied, the page sets `reminderDate` to `undefined`. The request body is JSON, and JSON serialisation drops keys whose value is `undefined`, so the update the store receives has no `reminderDate` key. The store then keeps the old date (`HomePage.ClearedReminderIsKept`). The request helper is not part of this model; this premise is stated here instead.

## Model

| member | source | states |
|---|---|---|
| Storage.MemStorage.constructor | server/storage.ts:32-48 | the store starts with three empty tables, the counter at 1, and the settings record with id 1, light mode, "USD", voice on and notifications on |
| Storage.InitialSettings | server/storage.ts:40-47 | the initial settings have id 1, dark mode off, currency "USD", voice recognition and notifications on, stamped now |
| Storage.NoteOf | server/storage.ts:64-69 | a created note carries exactly the submitted fields and the new id, with createdAt = updatedAt = now |
| Storage.ExpenseOf | server/storage.ts:110-115 | a created expense carries the submitted fields, the submitted date or now if none was given, and createdAt = now |
| Storage.ReminderOf | server/storage.ts:162-167 | a created reminder carries the submitted fields, with priority "medium" when it was left out or empty, and createdAt = now |
| Storage.MergeNote | server/storage.ts:80-84 | each patched field takes the patch's value and each unpatched field keeps its value; id and createdAt stay; updatedAt becomes now |
| Storage.MergeExpense | server/storage.ts:126-129 | each patched field takes the patch's value and each unpatched field keeps its value; id and createdAt stay and no timestamp is touched |
| Storage.MergeReminder | server/storage.ts:178-181 | each patched field takes the patch's value and each unpatched field keeps its value; id and createdAt stay and no timestamp is touched |
| Storage.MergeSettings | server/storage.ts:208-212 | each patched setting takes the patch's value and the others stay; the id is kept; updatedAt becomes now |
| Storage.ReminderPatchesCompose | server/storage.ts:178-181 | two reminder updates in a row equal one update with the patches combined, the later keys winning |
| Storage.RepeatedUpdatesSettle | server/storage.ts:74-87 | sending the same patch twice leaves the entity as one sending does (a note only takes the later stamp) |
| Storage.MemStorage.NoteRows | server/storage.ts:52 | `Array.from(notes.values())`: every stored note exactly once, each under its own id, ids strictly increasing (insertion order) |
| Storage.NewestFirst | server/storage.ts:52-54 | the notes of a table, each exactly once, newest createdAt first, notes with equal createdAt in increasing id order |
| Storage.MemStorage.GetNotes | server/storage.ts:51-55 | every stored note appears exactly once, ordered by createdAt, newest first; notes created at the same instant keep insertion (id) order, as the stable sort does |
| Storage.MemStorage.GetNote | server/storage.ts:57-59 | a note is found exactly when its id is stored, and it carries that id |
| Storage.MemStorage.CreateNote | server/storage.ts:61-72 | the new id is the counter's old value and exceeds every id in any table; the counter goes up by 1; the note is stored under its id; nothing else changes; getting it back returns it |
| Storage.MemStorage.UpdateNote | server/storage.ts:74-87 | an absent id fails with "not found" and changes nothing; otherwise the merged note replaces the stored one and is returned; the other tables, the settings and the counter stay |
| Storage.MemStorage.DeleteNote | server/storage.ts:89-94 | an absent id fails with "not found" and changes nothing; otherwise exactly that key is removed and nothing else changes |
| Storage.MemStorage.ExpenseRows | server/storage.ts:98 | `Array.from(expenses.values())`: every stored expense exactly once, each under its own id, ids strictly increasing (insertion order) |
| Storage.LatestFirst | server/storage.ts:98-100 | the expenses of a table, each exactly once, latest date first, expenses with equal date in increasing id order |
| Storage.MemStorage.GetExpenses | server/storage.ts:97-101 | every stored expense appears exactly once, ordered by date, latest first, with expenses of the same date in insertion (id) order; the listing is a permutation of the table in insertion order |
| Storage.MemStorage.GetExpense | server/storage.ts:103-105 | an expense is found exactly when its id is stored, and it carries that id |
| Storage.MemStorage.CreateExpense | server/storage.ts:107-118 | the new id comes from the shared counter and exceeds every id in use; the stored expense has the submitted date or now; nothing else changes |
| Storage.MemStorage.UpdateExpense | server/storage.ts:120-132 | an absent id fails with "not found" and changes nothing; otherwise the merged expense is stored and returned; nothing else changes |
| Storage.MemStorage.DeleteExpense | server/storage.ts:134-139 | an absent id fails with "not found" and changes nothing; otherwise exactly that key is removed |
| Storage.MemStorage.GetExpensesByDateRange | server/storage.ts:141-146 | the result holds exactly the stored expenses with start <= date <= end, both ends included, in insertion order |
| Storage.MemStorage.ReminderRows | server/storage.ts:150 | `Array.from(reminders.values())`: every stored reminder exactly once, each under its own id, ids strictly increasing (insertion order) |
| Storage.MemStorage.GetReminders | server/storage.ts:149-153 | every stored reminder appears exactly once, ordered by scheduled date, earliest first, with reminders scheduled at the same instant in insertion (id) order |
| Storage.MemStorage.GetReminder | server/storage.ts:155-157 | a reminder is found exactly when its id is stored, and it carries that id |
| Storage.MemStorage.CreateReminder | server/storage.ts:159-170 | the new id comes from the shared counter and exceeds every id in use; the priority defaults to "medium"; nothing else changes |
| Storage.MemStorage.UpdateReminder | server/storage.ts:172-184 | an absent id fails with "not found" and changes nothing; otherwise the merged reminder is stored and returned; nothing else changes |
| Storage.MemStorage.DeleteReminder | server/storage.ts:186-191 | an absent id fails with "not found" and changes nothing; otherwise exactly that key is removed |
| Storage.IsPending | server/storage.ts:196-198 | the pending test: not completed, scheduled at or before now, and not yet notified |
| Storage.MemStorage.GetPendingReminders | server/storage.ts:193-200 | the result holds exactly the stored reminders that are not completed, not notified and scheduled at or before now; it is a function of the state and `now`: two calls at the same instant with no change between them agree |
| Storage.MemStorage.GetSettings | server/storage.ts:203-205 | the settings record always has id 1 |
| Storage.MemStorage.UpdateSettings | server/storage.ts:207-214 | the settings become the merge of the patch, stamped now, with id still 1; the tables and the counter stay |
| Seqs.Filter | client/src/pages/reminders.tsx:137-138 | `filter` keeps exactly the elements that pass, never more than the input holds; with `Seqs.FilterIsSubsequence` it keeps their order |
| Seqs.FilterIsSubsequence | client/src/pages/reminders.tsx:137-138 | the filtered elements are a subsequence of the input: their order is kept |
| Seqs.SortBy | server/storage.ts:52-54 | the comparator sort returns a permutation of its input, ordered by the key |
| Seqs.SortByStable | server/storage.ts:52-54 | the sort is stable: over an input whose ids increase, elements with equal keys stay in increasing id order |
| Seqs.ValuesInKeyOrder | server/storage.ts:52 | Map values in insertion order: each stored value exactly once, ids strictly increasing |
| Seqs.Find | client/src/pages/expenses.tsx:164 | `find` returns the first element that passes, and nothing exactly when none passes |
| Text.IntToString | client/src/pages/reminders.tsx:122 | decimal printing: a non-empty string with a leading '-' exactly for negative numbers; with `Text.IntToStringInjective`, different numbers print differently |
| Text.IntToStringInjective | client/src/pages/reminders.tsx:122 | two integers that print the same are equal |
| Text.Lower | client/src/pages/home.tsx:142-144 | `toLowerCase` restricted to ASCII: same length, each letter A–Z becomes its lower-case letter, every other character (non-ASCII letters included) is kept, and no letter A–Z remains |
| Text.Contains | client/src/pages/home.tsx:142-144 | `includes` holds exactly when the term occurs as a contiguous block |
| Text.Split | client/src/components/ui/note-card.tsx:44 | `split` returns at least one part, no part contains the separator, and joining the parts back with it gives the input |
| Text.SplitJoin | client/src/components/ui/note-card.tsx:44 | splitting undoes joining: separator-free parts joined with the separator split back into exactly those parts |
| Text.ConcatSplit | client/src/components/ui/note-card.tsx:44 | concatenating the parts of a split gives the input with the separators removed |
| ReminderPage.NotificationPort.ShowNotification | client/src/pages/reminders.tsx:120-123 | each call of the notification port is appended to its log |
| ReminderPage.IsDue | client/src/pages/reminders.tsx:114-116 | the due test: not completed, not notified, and scheduled strictly before now; a due reminder is always pending |
| ReminderPage.DueReminders | client/src/pages/reminders.tsx:113-117 | the due list holds exactly the snapshot's reminders that are not completed, not notified and scheduled strictly before now, in snapshot order |
| ReminderPage.BodyOf | client/src/pages/reminders.tsx:121 | the body is the description when it is present and non-empty, otherwise "Reminder is due!"; it is never empty |
| ReminderPage.TagOf | client/src/pages/reminders.tsx:122 | the tag is "reminder-" followed by the id in decimal |
| ReminderPage.NotificationFor | client/src/pages/reminders.tsx:120-123 | a due reminder's notification has its title, a non-empty body and the tag of its id |
| ReminderPage.NotificationsFor | client/src/pages/reminders.tsx:119-123 | the tick shows one notification per due reminder, in order |
| ReminderPage.DistinctTags | client/src/pages/reminders.tsx:122 | reminders with different ids get different "reminder-<id>" tags |
| ReminderPage.MarkSent | client/src/pages/reminders.tsx:125-129 | marking sets notificationSent to true on exactly the marked ids, and leaves every other reminder and the key set as they were |
| ReminderPage.NotifyAndMark | client/src/pages/reminders.tsx:119-130 | one step of the tick: the reminder's notification is logged and its id is marked as sent; other tables, settings and counter stay |
| ReminderPage.CheckReminders | client/src/pages/reminders.tsx:111-131 | one tick: the log grows by exactly the due reminders' notifications, in order; exactly the due ids are marked as sent; nothing else in the store changes |
| ReminderPage.NothingDueAfterTick | client/src/pages/reminders.tsx:113-130 | after a tick over a snapshot that lists every stored reminder, no stored reminder is still due |
| ReminderPage.SecondTickIsSilent | client/src/pages/reminders.tsx:111-131 | a second tick at the same instant, over the updated reminders, finds nothing due and shows nothing |
| ReminderPage.DueVersusPending | client/src/pages/reminders.tsx:113-117 | every due reminder is pending; a pending reminder is not due exactly when it is scheduled at now itself |
| ReminderPage.ToggleCompletePatch | client/src/pages/reminders.tsx:218-223 | the toggle sends only isCompleted; applied, it flips completion and keeps notificationSent |
| ReminderPage.ToggleTwice | client/src/pages/reminders.tsx:218-223 | toggling twice restores completion and never resets notificationSent; only the completion flag differs |
| ReminderPage.ActiveReminders | client/src/pages/reminders.tsx:137 | the active list holds only reminders that are not completed, in their listed order |
| ReminderPage.CompletedReminders | client/src/pages/reminders.tsx:138 | the completed list holds only completed reminders, in their listed order |
| ReminderPage.ActiveCompletedPartition | client/src/pages/reminders.tsx:137-138 | the two lists split the reminders: their lengths add up to the total, together they hold each reminder as often as the input does, and no reminder is in both |
| ReminderPage.GetTimeStatus | client/src/pages/reminders.tsx:140-154 | overdue exactly when the time has passed, due soon within 2 hours, today within 24 hours, upcoming otherwise |
| ReminderPage.TimeStatusMonotone | client/src/pages/reminders.tsx:140-154 | a later scheduled time never gets a nearer badge |
| ReminderPage.OverdueIsDue | client/src/pages/reminders.tsx:145-146 | for a reminder that is not completed and not notified, the "Overdue" badge and the tick's due test agree |
| ReminderPage.GetPriorityConfig | client/src/pages/reminders.tsx:156-186 | "high" maps to High and "low" to Low; every other string maps to Medium |
| ReminderPage.ShownPriority | client/src/pages/reminders.tsx:325 | substituting "medium" for an empty priority shows the same badge as the priority itself |
| ReminderPage.DefaultPriorityShowsMedium | client/src/pages/reminders.tsx:325 | a reminder created without a priority shows the medium badge |
| ExpensePage.MonthExpenses | client/src/pages/expenses.tsx:110-119 | the month view holds exactly the fetched expenses dated within the month's bounds, both included, in fetched order |
| ExpensePage.MonthMatchesDateRange | client/src/pages/expenses.tsx:110-119 | filtering the full listing gives the same expenses as the store's date-range query, and keeps the latest-first order |
| ExpensePage.RecentExpenses | client/src/pages/expenses.tsx:382 | the recent list is a prefix of the month view, ten long or the whole view |
| ExpensePage.RecentAreLatest | client/src/pages/expenses.tsx:382 | no expense of the month that the recent list leaves out is dated after one it shows |
| ExpensePage.CategoryIcon | client/src/pages/expenses.tsx:163-165 | the first category with that value gives its icon; an unknown value gives the fallback, the same text as the "other" icon (all icon texts as written in the page) |
| ExpensePage.CategoryLabel | client/src/pages/expenses.tsx:394 | a listed category shows its name; an unknown value shows none |
| ExpensePage.ListedEntriesShowTheirOwn | client/src/pages/expenses.tsx:25-41 | category values and currency codes are distinct, so each listed entry shows its own icon, name and symbol |
| ExpensePage.UnknownCategoryLooksLikeOther | client/src/pages/expenses.tsx:164 | an unknown category shows the same icon as "other" |
| ExpensePage.CurrencySymbol | client/src/pages/expenses.tsx:167-169 | the first currency with that code gives its symbol; an unknown code gives "$" |
| ExpensePage.UnknownCurrencyLooksLikeDollar | client/src/pages/expenses.tsx:168 | an unknown currency shows the US dollar's symbol |
| ExpensePage.FormDate | client/src/pages/expenses.tsx:135 | the submitted date is the parsed field when it is non-empty, otherwise now |
| ExpensePage.SubmitExpense | client/src/pages/expenses.tsx:131-143 | a create exactly when no expense is being edited, otherwise an update of that expense's id; either way the form's fields and date are sent |
| ExpensePage.CreatedExpenseIsTheForm | client/src/pages/expenses.tsx:131-143 | a created expense is stored with exactly the form's values and date |
| ExpensePage.EditedExpenseIsTheForm | client/src/pages/expenses.tsx:131-143 | an edited expense becomes the form's values and date, keeping its id and creation time |
| HomePage.SearchNotes | client/src/pages/home.tsx:141-145 | a note is kept exactly when the lower-cased term occurs in its lower-cased title, content or category; order is kept |
| HomePage.EmptySearchKeepsAll | client/src/pages/home.tsx:141-145 | an empty search term lists every note, in order |
| HomePage.SearchIgnoresTermCase | client/src/pages/home.tsx:141-145 | lower-casing the term first gives the same result |
| HomePage.HasOpenReminder | client/src/pages/home.tsx:212 | a note is counted when it has a reminder date and is not completed |
| HomePage.ReminderCount | client/src/pages/home.tsx:212 | the count is at most the number of notes, and zero exactly when no note has an open reminder |
| HomePage.ReminderCountAppend | client/src/pages/home.tsx:212 | the count is one per note that has a reminder date and is not completed |
| HomePage.CompletingLowersCount | client/src/pages/home.tsx:212 | completing a note with a reminder lowers the count by one |
| HomePage.VoiceTitle | client/src/pages/home.tsx:127 | the title is the text when it has at most 50 characters, otherwise its first 50 followed by "..."; it is never longer than 53 |
| HomePage.ApplyTranscription | client/src/pages/home.tsx:123-128 | the content becomes the text, the note is flagged as voice, the title is derived from the text, and the other fields stay |
| HomePage.TranscribedTitleStartsTheContent | client/src/pages/home.tsx:125-127 | the title is the content, or the content's first 50 characters followed by "..." |
| HomePage.FormReminder | client/src/pages/home.tsx:113 | a reminder date is sent exactly when the field is non-empty, and it is the parsed field |
| HomePage.SubmitNote | client/src/pages/home.tsx:110-121 | a create exactly when no note is being edited, otherwise an update of that note's id, carrying the form's fields |
| HomePage.CreatedNoteIsTheForm | client/src/pages/home.tsx:110-121 | a created note is stored with the form's fields and reminder |
| HomePage.ClearedReminderIsKept | client/src/pages/home.tsx:113 | emptying the reminder field while editing leaves the stored reminder date unchanged |
| HomePage.EditedNoteIsTheForm | client/src/pages/home.tsx:110-121 | an edited note takes the form's text fields, keeps its id and creation time, and is stamped with the update time |
| NoteCard.ChecklistItems | client/src/components/ui/note-card.tsx:44 | every item is non-empty and has no newline, and the items laid end to end give the content with its newlines removed |
| NoteCard.ChecklistRoundTrip | client/src/components/ui/note-card.tsx:44 | items break exactly at newlines: non-empty newline-free lines joined with newlines come back as exactly those items |
| NoteCard.OneLineIsOneItem | client/src/components/ui/note-card.tsx:44 | non-empty content without a newline is a single item, the content itself |
| NoteCard.OnlyNewlinesGiveNoItems | client/src/components/ui/note-card.tsx:44 | content made of newlines only gives no items |
| NoteCard.RenderContent | client/src/components/ui/note-card.tsx:42-62 | a checklist note shows its items; any other note shows its content verbatim |
| NoteCard.GetNoteIcon | client/src/components/ui/note-card.tsx:26-35 | "checklist" shows the check icon and "reminder" the clock; every other type shows the notebook |
| NoteCard.FormatDate | client/src/components/ui/note-card.tsx:37-40 | a missing date gives the empty string; a present one gives its formatted text |
| NoteCard.CreatedCaption | client/src/components/ui/note-card.tsx:81 | the card's caption is the formatted creation time |

## Left out

- User interface: markup, dialogs, toasts, form validation and loading states are not modelled. Neither is the query/mutation plumbing that carries records to the server. Each handler is modelled by the record or patch it sends.
- HTTP: the routes and the asynchronous, promise-based calls are not modelled. Store operations are synchronous methods.
- The one-minute timer around the due check is not modelled; the model has a single tick, `ReminderPage.CheckReminders`.
- The browser notification API (support, permission, display) is not modelled. The port only logs its calls.
- Money arithmetic is not modelled: the floating-point totals, the per-category sums, the chart and the two-decimal formatting. Amounts stay as the submitted text.
- Date handling from the date library is not modelled: month bounds, the date format and date parsing. Calendar bounds and "now" are integer parameters; parsing and formatting are function parameters.
- Browser storage and the settings page's export, import and clear-all are not modelled.
- Speech recognition, the service worker, ads, navigation and routing are not modelled.
- Database column defaults (category "general", currency "USD", false flags) are not applied by the in-memory store, so they are not modelled. Category, type and currency are required strings in the model.
- A patch that sets a nullable column back to null is not modelled. A patch field is either a new value or absent.
- The reminders page's create/edit form (its onSubmit and edit handler) is not modelled. Its updates go through `Storage.MemStorage.UpdateReminder` like every other patch.
- Storage.MemStorage.GetPendingReminders: the server reads the clock on every call, so two calls with no change in between can differ when a reminder's time falls between them; the model takes `now` as a parameter and promises agreement only for the same `now`.
- Storage.MemStorage.CreateNote: does not promise updatedAt >= createdAt after later updates, because "now" is a free parameter and the model has no monotone clock.
- ReminderPage.GetTimeStatus: compares the integer millisecond difference with 0, 2 and 24 hours, not the floating-point hour count. The two agree for every millisecond difference a date can have.
- Text.Lower: lower-cases the ASCII letters A–Z only; upper-case letters outside ASCII (such as 'É' or 'Σ') are kept, whereas JavaScript's `toLowerCase` applies the full Unicode case mapping.
- HomePage.SearchNotes: lower-cases ASCII letters only, not the full Unicode case mapping (through `Text.Lower`).
- HomePage.SearchNotes: substring positions count characters, not UTF-16 code units.
- HomePage.VoiceTitle: takes the first 50 characters, not the first 50 UTF-16 code units, so a character outside the Basic Multilingual Plane counts once instead of twice.
