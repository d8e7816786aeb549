/** The state logic of components/journal/entry-form.tsx: the label shown
    for the selected mood, and clearing the fields once the action reports
    success. The live word counter is `WordCount.EntryFormWordCount`. */
module EntryForm {
  import opened Basics
  import opened Text
  import opened Emotions
  import opened WordCount
  import opened EntryActions

  /** `moodOptions`: value and label of each choice, in menu order. */
  const MoodOptions: seq<(string, string)> := [
    ("", "No mood tag"),
    ("joy", "Joy"),
    ("gratitude", "Gratitude"),
    ("calm", "Calm"),
    ("sadness", "Sadness"),
    ("stress", "Stress"),
    ("anger", "Anger"),
    ("fear", "Fear"),
    ("excitement", "Excitement"),
    ("other", "Other")
  ]

  const NoMoodLabel: string := "No mood tag"

  /** `options.find(m => m.value === value)?.label`. */
  function FindLabel(options: seq<(string, string)>, value: string): (r: Option<string>)
    ensures r.Some? <==> exists k :: 0 <= k < |options| && options[k].0 == value
    ensures r.Some? ==> exists k :: 0 <= k < |options| && options[k] == (value, r.value)
                                    && forall j :: 0 <= j < k ==> options[j].0 != value
  {
    if |options| == 0 then None
    else if options[0].0 == value then Some(options[0].1)
    else
      var r := FindLabel(options[1..], value);
      assert forall k :: 1 <= k < |options| ==> options[k] == options[1..][k - 1];
      if r.Some? then
        var k :| 0 <= k < |options[1..]| && options[1..][k] == (value, r.value)
                 && forall j :: 0 <= j < k ==> options[1..][j].0 != value;
        assert options[k + 1] == (value, r.value);
        r
      else r
  }

  /** The label on the mood button: the matching option's label, or "No
      mood tag" when no option has the value. */
  function SelectedLabel(value: string): (shown: string)
    ensures (exists k :: 0 <= k < |MoodOptions| && MoodOptions[k].0 == value) ==>
              exists k :: 0 <= k < |MoodOptions| && MoodOptions[k] == (value, shown)
    ensures (forall k :: 0 <= k < |MoodOptions| ==> MoodOptions[k].0 != value) ==> shown == NoMoodLabel
  {
    match FindLabel(MoodOptions, value)
    case Some(l) => l
    case None => NoMoodLabel
  }

  /** No two options share a value, so the label of a listed value is
      exactly its option's label. */
  lemma OptionValuesDistinct()
    ensures forall i, j :: 0 <= i < j < |MoodOptions| ==> MoodOptions[i].0 != MoodOptions[j].0
  {
  }

  lemma SelectedLabelOfOption(k: nat)
    requires k < |MoodOptions|
    ensures SelectedLabel(MoodOptions[k].0) == MoodOptions[k].1
  {
    OptionValuesDistinct();
  }

  /** `text` is `value` with its first letter capitalised. */
  predicate Capitalised(value: string, text: string)
  {
    |text| == |value| > 0 && text[0] == UpperChar(value[0]) && text[1..] == value[1..]
  }

  /** Every option but the empty one is labelled with its capitalised value. */
  lemma LabelsCapitaliseValues(k: nat)
    requires 1 <= k < |MoodOptions|
    ensures Capitalised(MoodOptions[k].0, MoodOptions[k].1)
  {
    var v, l := MoodOptions[k].0, MoodOptions[k].1;
    assert l[0] == UpperChar(v[0]);
  }

  /** The option index offering each emotion key, if any. */
  function OptionOf(e: EmotionName): (k: nat)
    ensures k < |MoodOptions|
    ensures k == 0 <==> e == Neutral
    ensures k > 0 ==> MoodOptions[k].0 == KeyText(e)
  {
    match e
    case Joy => 1
    case Gratitude => 2
    case Calm => 3
    case Sadness => 4
    case Stress => 5
    case Anger => 6
    case Fear => 7
    case Excitement => 8
    case Other => 9
    case Neutral => 0
  }

  /** Every mood the palette knows, except "neutral", is offered, labelled
      with its key capitalised; "neutral" is not offered and shows "No mood
      tag", as the empty choice does. */
  lemma MoodLabelsFollowEmotionKeys(e: EmotionName)
    ensures e != Neutral ==> Capitalised(KeyText(e), SelectedLabel(KeyText(e)))
    ensures e == Neutral ==> SelectedLabel(KeyText(e)) == NoMoodLabel
  {
    var k := OptionOf(e);
    if k > 0 {
      SelectedLabelOfOption(k);
      LabelsCapitaliseValues(k);
    } else {
      assert forall j :: 0 <= j < |MoodOptions| ==> MoodOptions[j].0 != "neutral";
    }
  }

  lemma EmptyChoiceLabel()
    ensures SelectedLabel("") == NoMoodLabel
  {
    SelectedLabelOfOption(0);
  }

  /** The three controlled inputs of the form. */
  datatype Fields = Fields(title: string, content: string, mood: string)

  /** The effect that runs when the action's state changes: a success
      clears every field, any other state leaves them alone. */
  function OnActionState(state: EntryState, fields: Fields): (r: Fields)
    ensures state.Success? ==> r.title == [] && r.content == [] && r.mood == []
    ensures !state.Success? ==> r == fields
  {
    if state.Success? then Fields("", "", "") else fields
  }

  /** After a success the counter shows zero words and the mood button "No
      mood tag"; a second run of the effect changes nothing. */
  lemma ResetShowsEmptyForm(state: EntryState, fields: Fields)
    requires state.Success?
    ensures EntryFormWordCount(OnActionState(state, fields).content) == 0
    ensures SelectedLabel(OnActionState(state, fields).mood) == NoMoodLabel
    ensures OnActionState(state, OnActionState(state, fields)) == OnActionState(state, fields)
  {
    EmptyChoiceLabel();
  }

  /** Submitting clears the form exactly when the entry was saved. */
  lemma FormClearsOnlyWhenSaved(form: FormInput, backend: Backend, fields: Fields)
    requires fields.title != [] || fields.content != [] || fields.mood != []
    ensures OnActionState(CreateJournalEntry(form, backend).state, fields) == fields
            <==> !(ValidateEntry(form).Valid? && backend.session == Succeeds && backend.insert == Succeeds
                   && !backend.revalidateThrows)
  {
  }
}
