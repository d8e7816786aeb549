/** The server action `createJournalEntry` of app/journal/actions.ts: the
    `EntrySchema` validation of the three form fields, and the status the
    action answers with. The Supabase session lookup, the insert, the
    sentiment analysis, its upsert and the cache revalidation are outside
    calls; each one's result is an input (`Backend`). */
module EntryActions {
  import opened Basics
  import opened Text
  import opened WordCount

  const TitleMax: nat := 120
  const ContentMax: nat := 5000
  const MoodMax: nat := 32

  const TitleTooLongMessage: string := "Keep the title under 120 characters."
  const ContentEmptyMessage: string := "Journal entry cannot be empty."
  const ContentTooLongMessage: string := "Let’s keep entries under 5000 characters for now."
  const MoodTooLongMessage: string := "Mood tags should be short."
  /** The validator's own message for a field that is `null` instead of a string. */
  const NotAStringMessage: string := "Expected string, received null"
  const FixFieldsMessage: string := "Please fix the highlighted fields."
  const SignInMessage: string := "You need to be signed in to save entries."
  const SaveFailedMessage: string := "Could not save your entry. Please try again."
  const SavedMessage: string := "Entry saved and analyzed."
  const GenericMessage: string := "Something went wrong. Please try again."

  /** `CreateJournalEntryState`. */
  datatype EntryState = Idle | Success(message: string) | Error(message: string)

  /** The three `formData.get` results; `None` is `null`, a missing field. */
  datatype FormInput = FormInput(title: Option<string>, content: Option<string>, mood: Option<string>)

  /** The parsed entry: the optional texts are `None` when blank. */
  datatype Entry = Entry(title: Option<string>, content: string, mood: Option<string>)

  datatype Validation = Valid(entry: Entry) | Invalid(errors: seq<string>)

  /** The `transform` of the optional fields: blank becomes `undefined`,
      anything else is trimmed. */
  function BlankToNone(v: string): (r: Option<string>)
    ensures r.None? <==> AllSpace(v)
    ensures r.Some? ==> r.value == Trim(v) && |r.value| > 0
  {
    var t := Trim(v);
    if t == [] then None else Some(t)
  }

  /** The checks of an optional, length-limited text field, before any
      trimming. */
  function OptionalTextErrors(value: Option<string>, max: nat, message: string): (errs: seq<string>)
    ensures |errs| <= 1
    ensures errs == [] <==> value.Some? && |value.value| <= max
  {
    match value
    case None => [NotAStringMessage]
    case Some(v) => if |v| > max then [message] else []
  }

  /** The checks of the content, before trimming. */
  function ContentErrors(value: Option<string>): (errs: seq<string>)
    ensures |errs| <= 1
    ensures errs == [] <==> value.Some? && 1 <= |value.value| <= ContentMax
  {
    match value
    case None => [NotAStringMessage]
    case Some(v) =>
      if |v| < 1 then [ContentEmptyMessage]
      else if |v| > ContentMax then [ContentTooLongMessage]
      else []
  }

  /** Every field error, fields in schema order: title, content, mood. */
  function FieldErrors(form: FormInput): seq<string>
  {
    OptionalTextErrors(form.title, TitleMax, TitleTooLongMessage)
    + ContentErrors(form.content)
    + OptionalTextErrors(form.mood, MoodMax, MoodTooLongMessage)
  }

  /** `EntrySchema.safeParse`. Lengths are checked on the raw texts; the
      transforms run only when every check passes. */
  function ValidateEntry(form: FormInput): (v: Validation)
    ensures v.Valid? <==>
              form.title.Some? && |form.title.value| <= TitleMax
              && form.content.Some? && 1 <= |form.content.value| <= ContentMax
              && form.mood.Some? && |form.mood.value| <= MoodMax
    ensures v.Valid? ==>
              v.entry.content == Trim(form.content.value)
              && v.entry.title == BlankToNone(form.title.value)
              && v.entry.mood == BlankToNone(form.mood.value)
    ensures v.Invalid? ==> |v.errors| > 0
  {
    var errs := FieldErrors(form);
    if errs == [] then
      Valid(Entry(BlankToNone(form.title.value), Trim(form.content.value), BlankToNone(form.mood.value)))
    else Invalid(errs)
  }

  /** `Object.values(fieldErrors)[0]?.[0] ?? fallback`. */
  function FirstError(errors: seq<string>): (m: string)
    ensures |errors| > 0 ==> m == errors[0]
    ensures |errors| == 0 ==> m == FixFieldsMessage
  {
    if |errors| > 0 then errors[0] else FixFieldsMessage
  }

  /** The message of a rejected form is the error of the first failing
      field in schema order, so the generic fallback never shows. */
  lemma RejectionNamesFirstFailingField(form: FormInput)
    requires ValidateEntry(form).Invalid?
    ensures var m := FirstError(ValidateEntry(form).errors);
            m != FixFieldsMessage
            && (OptionalTextErrors(form.title, TitleMax, TitleTooLongMessage) != [] ==>
                  m == OptionalTextErrors(form.title, TitleMax, TitleTooLongMessage)[0])
            && (form.title.Some? && |form.title.value| <= TitleMax && ContentErrors(form.content) != [] ==>
                  m == ContentErrors(form.content)[0])
            && (form.title.Some? && |form.title.value| <= TitleMax && ContentErrors(form.content) == [] ==>
                  m == OptionalTextErrors(form.mood, MoodMax, MoodTooLongMessage)[0])
  {
  }

  /** Whitespace-only content passes the length check, is stored as the
      empty text and counts zero words. */
  lemma WhitespaceContentAccepted(title: string, content: string, mood: string)
    requires |title| <= TitleMax && |mood| <= MoodMax
    requires 1 <= |content| <= ContentMax && AllSpace(content)
    ensures ValidateEntry(FormInput(Some(title), Some(content), Some(mood))).Valid?
    ensures ValidateEntry(FormInput(Some(title), Some(content), Some(mood))).entry.content == []
    ensures CalculateWordCount(ValidateEntry(FormInput(Some(title), Some(content), Some(mood))).entry.content) == 0
  {
  }

  /** Length limits apply to the untrimmed text: padding alone can push a
      short entry over the limit. */
  lemma LimitsMeasureRawText(title: string, word: string, padding: string, mood: string)
    requires |title| <= TitleMax && |mood| <= MoodMax
    requires 1 <= |word| <= ContentMax && AllSpace(padding) && |word| + |padding| > ContentMax
    ensures ValidateEntry(FormInput(Some(title), Some(word + padding), Some(mood))) == Invalid([ContentTooLongMessage])
  {
  }

  /** How an outside call ended. */
  datatype Call = Succeeds | Fails | Throws

  /** The outside calls' results, in the order the action makes them:
      `getSession` (fails: no session), the insert (fails: an error or no
      row), the analysis, its upsert (fails: an error), and
      `revalidatePath`. */
  datatype Backend = Backend(session: Call, insert: Call, analysis: Call, upsert: Call, revalidateThrows: bool)

  /** The row the action asks the database to insert. */
  datatype EntryRow = EntryRow(title: Option<string>, content: string, mood: Option<string>, wordCount: nat)

  /** What the action answers, which row it sent, and whether an analysis
      was stored for it. */
  datatype Outcome = Outcome(state: EntryState, inserted: Option<EntryRow>, analysisStored: bool)

  /** The inner `try`: analysing and storing the sentiment. Any failure is
      logged and swallowed. */
  function StoreAnalysis(backend: Backend): (stored: bool)
    ensures stored <==> backend.analysis == Succeeds && backend.upsert == Succeeds
  {
    match backend.analysis
    case Succeeds => backend.upsert == Succeeds
    case _ => false
  }

  /** `createJournalEntry` with the server client awaited. */
  function CreateJournalEntry(form: FormInput, backend: Backend): (o: Outcome)
    ensures o.state.Success? <==>
              ValidateEntry(form).Valid? && backend.session == Succeeds && backend.insert == Succeeds
              && !backend.revalidateThrows
    ensures o.state.Success? ==> o.state.message == SavedMessage
    ensures !o.state.Idle?
    ensures o.inserted.Some? <==> ValidateEntry(form).Valid? && backend.session == Succeeds
    ensures o.inserted.Some? ==>
              o.inserted.value.content == Trim(form.content.value)
              && o.inserted.value.wordCount == CountWords(form.content.value)
    ensures o.analysisStored ==> o.inserted.Some? && backend.insert == Succeeds
  {
    match ValidateEntry(form)
    case Invalid(errors) => Outcome(Error(FirstError(errors)), None, false)
    case Valid(entry) =>
      match backend.session
      case Throws => Outcome(Error(GenericMessage), None, false)
      case Fails => Outcome(Error(SignInMessage), None, false)
      case Succeeds =>
        CountWordsOfTrim(form.content.value);
        var row := EntryRow(entry.title, entry.content, entry.mood, CalculateWordCount(entry.content));
        match backend.insert
        case Throws => Outcome(Error(GenericMessage), Some(row), false)
        case Fails => Outcome(Error(SaveFailedMessage), Some(row), false)
        case Succeeds =>
          var stored := StoreAnalysis(backend);
          if backend.revalidateThrows then Outcome(Error(GenericMessage), Some(row), stored)
          else Outcome(Success(SavedMessage), Some(row), stored)
  }

  /** A failed or thrown analysis or upsert never changes the answer or the
      saved row; it only decides whether an analysis was stored. */
  lemma AnalysisNeverChangesAnswer(form: FormInput, backend: Backend, analysis: Call, upsert: Call)
    ensures var other := backend.(analysis := analysis, upsert := upsert);
            CreateJournalEntry(form, other).state == CreateJournalEntry(form, backend).state
            && CreateJournalEntry(form, other).inserted == CreateJournalEntry(form, backend).inserted
  {
  }

  /** The answer for each way the action can stop early. */
  lemma ErrorAnswers(form: FormInput, backend: Backend)
    ensures ValidateEntry(form).Invalid? ==>
              CreateJournalEntry(form, backend).state == Error(FirstError(ValidateEntry(form).errors))
    ensures ValidateEntry(form).Valid? && backend.session == Fails ==>
              CreateJournalEntry(form, backend).state == Error(SignInMessage)
    ensures ValidateEntry(form).Valid? && backend.session == Succeeds && backend.insert == Fails ==>
              CreateJournalEntry(form, backend).state == Error(SaveFailedMessage)
    ensures ValidateEntry(form).Valid? && (backend.session == Throws
              || (backend.session == Succeeds && backend.insert == Throws)
              || (backend.session == Succeeds && backend.insert == Succeeds && backend.revalidateThrows)) ==>
              CreateJournalEntry(form, backend).state == Error(GenericMessage)
  {
  }

  /** `createJournalEntry` as written: `createSupabaseServerClient` is
      asynchronous but its promise is not awaited, so `supabase.auth` is
      undefined and reading `getSession` from it throws inside the outer
      `try`. */
  function CreateJournalEntryAsWritten(form: FormInput, backend: Backend): (o: Outcome)
    ensures ValidateEntry(form).Invalid? ==> o == Outcome(Error(FirstError(ValidateEntry(form).errors)), None, false)
    ensures ValidateEntry(form).Valid? ==> o == Outcome(Error(GenericMessage), None, false)
  {
    match ValidateEntry(form)
    case Invalid(errors) => Outcome(Error(FirstError(errors)), None, false)
    case Valid(_) => Outcome(Error(GenericMessage), None, false)
  }

  /** As written, the action can never save an entry; a form that
      validation rejects gets the same answer as from the awaited action. */
  lemma AsWrittenNeverSaves(form: FormInput, backend: Backend)
    ensures !CreateJournalEntryAsWritten(form, backend).state.Success?
    ensures CreateJournalEntryAsWritten(form, backend).inserted.None?
    ensures ValidateEntry(form).Invalid? ==> CreateJournalEntryAsWritten(form, backend) == CreateJournalEntry(form, backend)
  {
  }

  /** A valid form with every outside call succeeding: the awaited action
      saves the entry, the action as written answers the generic error. */
  lemma MissingAwaitCounterexample()
    ensures var form := FormInput(Some(""), Some("hello"), Some(""));
            var backend := Backend(Succeeds, Succeeds, Succeeds, Succeeds, false);
            CreateJournalEntry(form, backend).state == Success(SavedMessage)
            && CreateJournalEntryAsWritten(form, backend).state == Error(GenericMessage)
  {
    var form := FormInput(Some(""), Some("hello"), Some(""));
    assert ValidateEntry(form).Valid?;
  }
}
