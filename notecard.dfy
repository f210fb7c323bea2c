/** The note card: how a note's body is rendered (a checklist of its non-empty lines, or the
    text as it is), which icon the card shows, and the creation-date caption. */
module NoteCard {
  import opened Wrappers
  import opened Schema
  import opened Seqs
  import opened Text

  /** JavaScript truthiness of a string (`filter(Boolean)`): only the empty string is falsy. */
  predicate IsNonEmpty(s: string) {
    s != ""
  }

  /** The lines of a checklist note: `content.split("\n").filter(Boolean)`. */
  function ChecklistItems(content: string): (items: seq<string>)
    ensures forall i :: 0 <= i < |items| ==> items[i] != "" && '\n' !in items[i]
    ensures Concat(items) == Without(content, '\n')
  {
    var lines := Split(content, '\n');
    ConcatSplit(content, '\n');
    ConcatKeepsNonEmpty(lines);
    Filter(lines, IsNonEmpty)
  }

  /** Dropping the empty parts does not change their concatenation. */
  lemma {:induction false} ConcatKeepsNonEmpty(parts: seq<string>)
    ensures Concat(Filter(parts, IsNonEmpty)) == Concat(parts)
  {
    if parts != [] {
      var rest := Filter(parts[1..], IsNonEmpty);
      ConcatKeepsNonEmpty(parts[1..]);
      assert Concat(parts) == parts[0] + Concat(parts[1..]);
      if parts[0] != "" {
        assert Filter(parts, IsNonEmpty) == [parts[0]] + rest;
        assert ([parts[0]] + rest)[1..] == rest;
      } else {
        assert Filter(parts, IsNonEmpty) == rest;
      }
    }
  }

  /** A one-line checklist is a single item: the content itself. */
  lemma OneLineIsOneItem(content: string)
    requires content != "" && '\n' !in content
    ensures ChecklistItems(content) == [content]
  {
    SplitWithoutSeparator(content, '\n');
    assert Split(content, '\n')[1..] == [];
  }

  /** Items break exactly at the newlines: non-empty lines without a newline, joined with
      newlines, come back as the same items. */
  lemma ChecklistRoundTrip(lines: seq<string>)
    requires forall i :: 0 <= i < |lines| ==> lines[i] != "" && '\n' !in lines[i]
    ensures ChecklistItems(Join(lines, '\n')) == lines
  {
    if lines == [] {
      assert Split("", '\n') == [""];
    } else {
      SplitJoin(lines, '\n');
      FilterAll(lines, IsNonEmpty);
    }
  }

  /** Blank lines never become items: a content made of newlines only gives an empty checklist. */
  lemma OnlyNewlinesGiveNoItems(content: string)
    requires forall i :: 0 <= i < |content| ==> content[i] == '\n'
    ensures ChecklistItems(content) == []
  {
    var items := ChecklistItems(content);
    WithoutOnly(content, '\n');
    if items != [] {
      ConcatHoldsItem(items);
      assert false;
    }
  }

  /** Deleting a character from a string made only of that character leaves nothing. */
  lemma {:induction false} WithoutOnly(s: string, c: char)
    requires forall i :: 0 <= i < |s| ==> s[i] == c
    ensures Without(s, c) == ""
  {
    if s != [] {
      WithoutOnly(s[1..], c);
    }
  }

  /** A concatenation whose first part is non-empty is non-empty. */
  lemma ConcatHoldsItem(parts: seq<string>)
    requires parts != [] && parts[0] != ""
    ensures Concat(parts) != ""
  {
    assert Concat(parts) == parts[0] + Concat(parts[1..]);
  }

  /** What the card shows under the title. */
  datatype Body = Checklist(items: seq<string>) | Paragraph(text: string)

  /** `renderContent`: a checklist note shows its items, any other note its content verbatim. */
  function RenderContent(n: Note): (b: Body)
    ensures b.Checklist? <==> n.noteType == "checklist"
    ensures b.Checklist? ==> b.items == ChecklistItems(n.content)
    ensures b.Paragraph? ==> b.text == n.content
  {
    if n.noteType == "checklist" then Checklist(ChecklistItems(n.content)) else Paragraph(n.content)
  }

  /** The icons a card can show. */
  datatype NoteIcon = CheckCircle | Clock | NotebookPen

  /** `getNoteIcon`: the check icon for checklists, the clock for reminders, the notebook otherwise. */
  function GetNoteIcon(noteType: string): (icon: NoteIcon)
    ensures icon == CheckCircle <==> noteType == "checklist"
    ensures icon == Clock <==> noteType == "reminder"
    ensures icon == NotebookPen <==> noteType != "checklist" && noteType != "reminder"
  {
    match noteType
    case "checklist" => CheckCircle
    case "reminder" => Clock
    case _ => NotebookPen
  }

  /** `formatDate`: nothing for a missing date, otherwise the date formatted as
      "MMM d, yyyy 'at' h:mm a"; the formatting itself is the parameter `format`. */
  function FormatDate(date: Option<int>, format: int -> string): (s: string)
    ensures date.None? ==> s == ""
    ensures date.Some? ==> s == format(date.value)
  {
    match date
    case None => ""
    case Some(d) => format(d)
  }

  /** The caption of a card: its creation time, which every stored note has. */
  function CreatedCaption(n: Note, format: int -> string): (s: string)
    ensures s == format(n.createdAt)
  {
    FormatDate(Some(n.createdAt), format)
  }
}
