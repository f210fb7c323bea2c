/** The notes home page: the search over the fetched notes, the "Reminders" count, the title
    a voice transcription gets, and the record the note form submits. */
module HomePage {
  import opened Wrappers
  import opened Schema
  import opened Seqs
  import opened Text
  import opened Storage

  // ------------------------------------------------------------ search

  /** A note matches when the lower-cased term occurs in its lower-cased title, content or category. */
  predicate Matches(n: Note, term: string) {
    var t := Lower(term);
    Contains(Lower(n.title), t) || Contains(Lower(n.content), t) || Contains(Lower(n.category), t)
  }

  /** `filteredNotes`: the notes that match the search term, in their listed order. */
  function SearchNotes(notes: seq<Note>, term: string): (r: seq<Note>)
    ensures forall i :: 0 <= i < |r| ==> r[i] in notes && Matches(r[i], term)
    ensures forall i :: 0 <= i < |notes| && Matches(notes[i], term) ==> notes[i] in r
    ensures IsSubsequence(r, notes)
  {
    var matching := (n: Note) => Matches(n, term);
    FilterIsSubsequence(notes, matching);
    Filter(notes, matching)
  }

  /** With an empty search box every note is listed, in order. */
  lemma EmptySearchKeepsAll(notes: seq<Note>)
    ensures SearchNotes(notes, "") == notes
  {
    forall n: Note
      ensures Matches(n, "")
    {
      ContainsEmpty(Lower(n.title));
    }
    FilterAll(notes, (n: Note) => Matches(n, ""));
  }

  /** The search ignores the case of the term: typing it in lower case gives the same list. */
  lemma SearchIgnoresTermCase(notes: seq<Note>, term: string)
    ensures SearchNotes(notes, Lower(term)) == SearchNotes(notes, term)
  {
    LowerIdempotent(term);
    FilterSame(notes, (n: Note) => Matches(n, Lower(term)), (n: Note) => Matches(n, term));
  }

  // ------------------------------------------------------------ reminder count

  /** A note counted by the "Reminders" card: it has a reminder date and is not completed. */
  predicate HasOpenReminder(n: Note) {
    n.reminderDate.Some? && !IsTrue(n.isCompleted)
  }

  /** The "Reminders" card: how many notes have a reminder date and are not completed. */
  function ReminderCount(notes: seq<Note>): (c: nat)
    ensures c <= |notes|
    ensures c == 0 <==> forall i :: 0 <= i < |notes| ==> !HasOpenReminder(notes[i])
  {
    var counted := Filter(notes, HasOpenReminder);
    assert counted != [] ==> counted[0] in counted;
    |counted|
  }

  /** The count goes up by one for each listed note with an open reminder: it is the number of
      such notes, counted one note at a time. */
  lemma ReminderCountAppend(notes: seq<Note>, n: Note)
    ensures ReminderCount(notes + [n]) == ReminderCount(notes) + if HasOpenReminder(n) then 1 else 0
  {
    FilterAppend(notes, [n], HasOpenReminder);
    assert [n][1..] == [];
  }

  /** Completing a note with a reminder takes it off the count. */
  lemma CompletingLowersCount(before: seq<Note>, n: Note, after: seq<Note>)
    requires HasOpenReminder(n)
    ensures ReminderCount(before + [n.(isCompleted := Some(true))] + after) + 1 ==
            ReminderCount(before + [n] + after)
  {
    var done := n.(isCompleted := Some(true));
    FilterAppend(before + [done], after, HasOpenReminder);
    FilterAppend(before + [n], after, HasOpenReminder);
    ReminderCountAppend(before, done);
    ReminderCountAppend(before, n);
  }

  // ------------------------------------------------------------ the form

  /** The note form's values; `reminderDate` is the text of the date-time field, which may be
      absent or empty. The flags are whatever the form holds, possibly nothing. */
  datatype NoteForm = NoteForm(
    title: string,
    content: string,
    category: string,
    noteType: string,
    isVoiceNote: Option<bool>,
    isCompleted: Option<bool>,
    reminderDate: Option<string>)

  /** The most characters of a transcription kept in the title. */
  const TitleLength := 50

  /** The title of a voice note: the first 50 characters, with "..." appended when the text
      was longer. */
  function VoiceTitle(text: string): (title: string)
    ensures |text| <= TitleLength ==> title == text
    ensures |text| > TitleLength ==> title == text[..TitleLength] + "..."
    ensures |title| <= TitleLength + 3
  {
    (if |text| <= TitleLength then text else text[..TitleLength]) + (if |text| > TitleLength then "..." else "")
  }

  /** `handleVoiceTranscription`: the content becomes the whole text, the note is flagged as a
      voice note and the title is derived from the text; the other fields are kept. */
  function ApplyTranscription(form: NoteForm, text: string): (f: NoteForm)
    ensures f.content == text && f.isVoiceNote == Some(true) && f.title == VoiceTitle(text)
    ensures f.category == form.category && f.noteType == form.noteType
    ensures f.isCompleted == form.isCompleted && f.reminderDate == form.reminderDate
  {
    form.(content := text, isVoiceNote := Some(true), title := VoiceTitle(text))
  }

  /** A transcription that fits in the title is the title; a longer one starts it. */
  lemma TranscribedTitleStartsTheContent(form: NoteForm, text: string)
    ensures var f := ApplyTranscription(form, text);
            |text| <= TitleLength ==> f.title == f.content
    ensures var f := ApplyTranscription(form, text);
            |text| > TitleLength ==> f.title == f.content[..TitleLength] + "..."
  {
  }

  /** The reminder date the form sends: the parsed field when it is present and non-empty,
      otherwise none. `parseDate` stands for `new Date(text)`. */
  function FormReminder(form: NoteForm, parseDate: string -> int): (d: Option<int>)
    ensures d.Some? <==> form.reminderDate.Some? && form.reminderDate.value != ""
    ensures d.Some? ==> d.value == parseDate(form.reminderDate.value)
  {
    if form.reminderDate.Some? && form.reminderDate.value != "" then Some(parseDate(form.reminderDate.value))
    else None
  }

  /** `onSubmit`: the form's fields (with the parsed reminder date, if any) are sent as a
      create, or, while a note is being edited, as an update of that note. A field the form
      does not hold is left out of the update. */
  function SubmitNote(form: NoteForm, editing: Option<Note>, parseDate: string -> int)
    : (s: Submission<NewNote, NotePatch>)
    ensures s.Create? <==> editing.None?
    ensures s.Update? ==> s.id == editing.value.id
    ensures s.Create? ==> s.record == NewNote(form.title, form.content, form.category, form.noteType,
                                              form.isVoiceNote, FormReminder(form, parseDate), form.isCompleted)
    ensures s.Update? ==> s.patch == NotePatch(Some(form.title), Some(form.content), Some(form.category),
                                               Some(form.noteType), form.isVoiceNote,
                                               FormReminder(form, parseDate), form.isCompleted)
  {
    var reminder := FormReminder(form, parseDate);
    match editing
    case None =>
      Create(NewNote(form.title, form.content, form.category, form.noteType, form.isVoiceNote, reminder,
                     form.isCompleted))
    case Some(n) =>
      Update(n.id, NotePatch(Some(form.title), Some(form.content), Some(form.category), Some(form.noteType),
                             form.isVoiceNote, reminder, form.isCompleted))
  }

  /** A created note is stored with the form's text fields and reminder. */
  lemma CreatedNoteIsTheForm(form: NoteForm, parseDate: string -> int, id: int, now: int)
    ensures var n := NoteOf(SubmitNote(form, None, parseDate).record, id, now);
            n.title == form.title && n.content == form.content && n.category == form.category &&
            n.noteType == form.noteType && n.reminderDate == FormReminder(form, parseDate)
  {
  }

  /** Emptying the reminder field of a note being edited does not remove its reminder: the
      update leaves the key out, and the store keeps the old date. */
  lemma ClearedReminderIsKept(form: NoteForm, editing: Note, parseDate: string -> int, now: int)
    requires form.reminderDate.None? || form.reminderDate == Some("")
    ensures MergeNote(editing, SubmitNote(form, Some(editing), parseDate).patch, now).reminderDate ==
            editing.reminderDate
  {
  }

  /** An edited note takes the form's title, content, category and type, keeps its id and
      creation time, and is stamped with the update time. */
  lemma EditedNoteIsTheForm(form: NoteForm, editing: Note, parseDate: string -> int, now: int)
    ensures var n := MergeNote(editing, SubmitNote(form, Some(editing), parseDate).patch, now);
            n.title == form.title && n.content == form.content && n.category == form.category &&
            n.noteType == form.noteType && n.id == editing.id && n.createdAt == editing.createdAt &&
            n.updatedAt == now
  {
  }
}
