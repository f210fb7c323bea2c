/** The entities of the application: the rows the store returns, the records a client submits
    to create one, and the partial records it submits to update one. Timestamps are milliseconds
    since the epoch. A patch field that is `None` is a key the client left out. */
module Schema {
  import opened Wrappers

  /** JavaScript truthiness of an optional flag: only a present `true` is truthy. */
  predicate IsTrue(flag: Option<bool>) {
    flag == Some(true)
  }

  /** A stored note; `noteType` is "plain", "checklist" or "reminder" by convention. */
  datatype Note = Note(
    id: int,
    title: string,
    content: string,
    category: string,
    noteType: string,
    isVoiceNote: Option<bool>,
    reminderDate: Option<int>,
    isCompleted: Option<bool>,
    createdAt: int,
    updatedAt: int)

  /** The fields a client supplies to create a note. */
  datatype NewNote = NewNote(
    title: string,
    content: string,
    category: string,
    noteType: string,
    isVoiceNote: Option<bool>,
    reminderDate: Option<int>,
    isCompleted: Option<bool>)

  /** A partial note: the fields to overwrite. */
  datatype NotePatch = NotePatch(
    title: Option<string>,
    content: Option<string>,
    category: Option<string>,
    noteType: Option<string>,
    isVoiceNote: Option<bool>,
    reminderDate: Option<int>,
    isCompleted: Option<bool>)

  /** A stored expense; `amount` is the decimal text the client sent. */
  datatype Expense = Expense(
    id: int,
    description: string,
    amount: string,
    currency: string,
    category: string,
    date: int,
    createdAt: int)

  /** The fields a client supplies to create an expense; the date may be left out. */
  datatype NewExpense = NewExpense(
    description: string,
    amount: string,
    currency: string,
    category: string,
    date: Option<int>)

  /** A partial expense. */
  datatype ExpensePatch = ExpensePatch(
    description: Option<string>,
    amount: Option<string>,
    currency: Option<string>,
    category: Option<string>,
    date: Option<int>)

  /** A stored reminder; `priority` is "high", "medium" or "low" by convention. */
  datatype Reminder = Reminder(
    id: int,
    title: string,
    description: Option<string>,
    scheduledDate: int,
    priority: string,
    isCompleted: Option<bool>,
    notificationSent: Option<bool>,
    createdAt: int)

  /** The fields a client supplies to create a reminder. */
  datatype NewReminder = NewReminder(
    title: string,
    description: Option<string>,
    scheduledDate: int,
    priority: Option<string>,
    isCompleted: Option<bool>,
    notificationSent: Option<bool>)

  /** A partial reminder. */
  datatype ReminderPatch = ReminderPatch(
    title: Option<string>,
    description: Option<string>,
    scheduledDate: Option<int>,
    priority: Option<string>,
    isCompleted: Option<bool>,
    notificationSent: Option<bool>)

  /** The single settings record. */
  datatype Settings = Settings(
    id: int,
    darkMode: bool,
    defaultCurrency: string,
    voiceRecognitionEnabled: bool,
    notificationsEnabled: bool,
    updatedAt: int)

  /** A partial settings record; it has no `id` field, so no update can change the id. */
  datatype SettingsPatch = SettingsPatch(
    darkMode: Option<bool>,
    defaultCurrency: Option<string>,
    voiceRecognitionEnabled: Option<bool>,
    notificationsEnabled: Option<bool>)

  /** What a page's submit handler sends to the server: a create, or an update of an existing id. */
  datatype Submission<N, P> = Create(record: N) | Update(id: int, patch: P)
}
