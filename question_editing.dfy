/** The question-list editing both editors share: `Step1Questions.tsx` in the creation wizard
    and `SurveyEditor.tsx` define the same callbacks (`addQuestion`, `removeQuestion`,
    `updateQuestion`, `addOption`, `updateOption`, `removeOption`) and the same payload
    normalisation (blank questions and options dropped, positions renumbered). Each callback
    computes the next question list from the current one. */
module QuestionEditing {
  import opened Wrappers
  import opened Seqs
  import opened Text
  import opened Types

  /** `{ ...emptyQuestion, position }`: no text, type `text`, no options, required. */
  function EmptyQuestion(position: int): (q: Question)
    ensures q.text == "" && q.qtype == Text && q.options == Some([]) && q.isRequired
    ensures q.position == position && q.id.None? && q.pageNumber.None?
  {
    Question(None, "", Text, Some([]), true, position, None)
  }

  // ---------------------------------------------------------------------------------------
  // Questions

  /** `addQuestion`: a default question whose position is the old length, appended. */
  function AddQuestion(qs: seq<Question>): (r: seq<Question>)
    ensures |r| == |qs| + 1 && r[..|qs|] == qs && r[|qs|] == EmptyQuestion(|qs|)
  {
    qs + [EmptyQuestion(|qs|)]
  }

  /** `removeQuestion`: nothing happens to a one-question list; otherwise the question at that
      index (if any) is dropped. */
  function RemoveQuestion(qs: seq<Question>, index: int): (r: seq<Question>)
    ensures |qs| == 1 || !(0 <= index < |qs|) ==> r == qs
    ensures |qs| != 1 && 0 <= index < |qs| ==> r == qs[..index] + qs[index + 1..]
    ensures |qs| >= 1 ==> |r| >= 1
  {
    if |qs| == 1 || !(0 <= index < |qs|) then qs else RemoveAt(qs, index)
  }

  /** Removing the question just added gives the list back (a list has at least one question). */
  lemma RemoveUndoesAdd(qs: seq<Question>)
    requires qs != []
    ensures RemoveQuestion(AddQuestion(qs), |qs|) == qs
  {
    assert AddQuestion(qs)[..|qs|] == qs;
  }

  /** The keys an `updateQuestion` call passes; absent keys keep the question's value. */
  datatype QuestionUpdate = QuestionUpdate(
    text: Option<string>, qtype: Option<QuestionType>, options: Option<Option<seq<string>>>, isRequired: Option<bool>)

  /** `{ ...q, ...updates }`. */
  function Apply(q: Question, u: QuestionUpdate): (r: Question)
    ensures r.text == u.text.GetOr(q.text) && r.qtype == u.qtype.GetOr(q.qtype)
    ensures r.options == u.options.GetOr(q.options) && r.isRequired == u.isRequired.GetOr(q.isRequired)
    ensures r.id == q.id && r.position == q.position && r.pageNumber == q.pageNumber
  {
    q.(text := u.text.GetOr(q.text), qtype := u.qtype.GetOr(q.qtype),
       options := u.options.GetOr(q.options), isRequired := u.isRequired.GetOr(q.isRequired))
  }

  /** `updateQuestion`: the question at the index takes the updates; no other changes. */
  function UpdateQuestion(qs: seq<Question>, index: nat, u: QuestionUpdate): (r: seq<Question>)
    requires index < |qs|
    ensures |r| == |qs| && r[index] == Apply(qs[index], u)
    ensures forall i :: 0 <= i < |qs| && i != index ==> r[i] == qs[i]
  {
    qs[index := Apply(qs[index], u)]
  }

  /** Applying the same update twice is applying it once. */
  lemma UpdateQuestionIdempotent(qs: seq<Question>, index: nat, u: QuestionUpdate)
    requires index < |qs|
    ensures UpdateQuestion(UpdateQuestion(qs, index, u), index, u) == UpdateQuestion(qs, index, u)
  {
  }

  /** The types whose options are reset to one empty option when chosen in the wizard. */
  const WizardChoiceTypes: set<QuestionType> := {SingleChoice, MultipleChoice, RadioText, CheckboxText}

  /** The types whose options are reset to one empty option when chosen in the editor. */
  const EditorChoiceTypes: set<QuestionType> := {SingleChoice, MultipleChoice}

  /** The update the type selector sends: the new type, and options reset to `['']` for the
      choice types and to `[]` for the others. */
  function TypeChange(t: QuestionType, choiceTypes: set<QuestionType>): (u: QuestionUpdate)
    ensures u.qtype == Some(t) && u.text.None? && u.isRequired.None?
    ensures u.options == Some(Some(if t in choiceTypes then [""] else []))
  {
    QuestionUpdate(None, Some(t), Some(Some(if t in choiceTypes then [""] else [])), None)
  }

  /** The wizard resets the combined types like the choice types; the editor does not. */
  lemma TypeResetDiffers()
    ensures TypeChange(RadioText, WizardChoiceTypes).options == Some(Some([""]))
    ensures TypeChange(RadioText, EditorChoiceTypes).options == Some(Some([]))
    ensures forall t :: t in EditorChoiceTypes ==> t in WizardChoiceTypes
  {
  }

  // ---------------------------------------------------------------------------------------
  // Options

  /** `q.options || []`. */
  function OptionsOf(q: Question): seq<string> {
    q.options.GetOr([])
  }

  /** `addOption`: one empty option appended to the question at the index. */
  function AddOption(qs: seq<Question>, qi: nat): (r: seq<Question>)
    requires qi < |qs|
    ensures |r| == |qs| && r[qi].options == Some(OptionsOf(qs[qi]) + [""])
    ensures r[qi] == qs[qi].(options := r[qi].options)
    ensures forall i :: 0 <= i < |qs| && i != qi ==> r[i] == qs[i]
  {
    qs[qi := qs[qi].(options := Some(OptionsOf(qs[qi]) + [""]))]
  }

  /** `updateOption`: exactly one slot of one question's options replaced. */
  function UpdateOption(qs: seq<Question>, qi: nat, oi: nat, value: string): (r: seq<Question>)
    requires qi < |qs| && oi < |OptionsOf(qs[qi])|
    ensures |r| == |qs| && r[qi] == qs[qi].(options := r[qi].options)
    ensures r[qi].options.Some? && |r[qi].options.value| == |OptionsOf(qs[qi])|
    ensures r[qi].options.value[oi] == value
    ensures forall k :: 0 <= k < |OptionsOf(qs[qi])| && k != oi ==> r[qi].options.value[k] == OptionsOf(qs[qi])[k]
    ensures forall i :: 0 <= i < |qs| && i != qi ==> r[i] == qs[i]
  {
    qs[qi := qs[qi].(options := Some(OptionsOf(qs[qi])[oi := value]))]
  }

  /** `filter((_, i) => i !== k)`: the sequence without index `k`; unchanged when `k` is out of range. */
  function WithoutIndex<T>(s: seq<T>, k: int): (r: seq<T>)
    ensures !(0 <= k < |s|) ==> r == s
    ensures 0 <= k < |s| ==> r == s[..k] + s[k + 1..]
  {
    if 0 <= k < |s| then RemoveAt(s, k) else s
  }

  /** `removeOption`: exactly one index of one question's options dropped. */
  function RemoveOption(qs: seq<Question>, qi: nat, oi: int): (r: seq<Question>)
    requires qi < |qs|
    ensures |r| == |qs| && r[qi] == qs[qi].(options := Some(WithoutIndex(OptionsOf(qs[qi]), oi)))
    ensures forall i :: 0 <= i < |qs| && i != qi ==> r[i] == qs[i]
  {
    qs[qi := qs[qi].(options := Some(WithoutIndex(OptionsOf(qs[qi]), oi)))]
  }

  /** Removing the option just added leaves the question's options as they were (an absent
      list becomes an empty one). */
  lemma RemoveOptionUndoesAdd(qs: seq<Question>, qi: nat)
    requires qi < |qs|
    ensures RemoveOption(AddOption(qs, qi), qi, |OptionsOf(qs[qi])|) == qs[qi := qs[qi].(options := Some(OptionsOf(qs[qi])))]
  {
    var added := AddOption(qs, qi);
    assert OptionsOf(added[qi]) == OptionsOf(qs[qi]) + [""];
    assert WithoutIndex(OptionsOf(added[qi]), |OptionsOf(qs[qi])|) == OptionsOf(qs[qi]);
  }

  // ---------------------------------------------------------------------------------------
  // Validation and payload

  /** `questions.some(q => q.text.trim())`. */
  function HasNonBlankText(qs: seq<Question>): (r: bool)
    ensures r <==> exists i :: 0 <= i < |qs| && !IsBlank(qs[i].text)
  {
    if qs == [] then false
    else if !IsBlank(qs[0].text) then true
    else
      assert forall i :: 1 <= i < |qs| ==> qs[i] == qs[1..][i - 1];
      HasNonBlankText(qs[1..])
  }

  /** The wizard's `canProceed`: a non-blank title and some non-blank question, so that the
      payload keeps at least one question. */
  function CanProceed(title: string, qs: seq<Question>): (r: bool)
    ensures r <==> !IsBlank(title) && ValidQuestions(qs) != []
  {
    ValidQuestionsNonEmpty(qs);
    !IsBlank(title) && HasNonBlankText(qs)
  }

  /** A question with non-blank text: the ones a payload keeps. */
  predicate Kept(q: Question) {
    !IsBlank(q.text)
  }

  /** `questions.filter(q => q.text.trim())`. */
  function ValidQuestions(qs: seq<Question>): (r: seq<Question>)
    ensures |r| <= |qs| && forall i :: 0 <= i < |r| ==> Kept(r[i])
  {
    Filter(qs, Kept)
  }

  /** The indices, from `from` on, of the questions a payload keeps, in ascending order. */
  function KeptIndices(qs: seq<Question>, from: nat): (ks: seq<nat>)
    requires from <= |qs|
    ensures forall k :: 0 <= k < |ks| ==> from <= ks[k] < |qs| && Kept(qs[ks[k]])
    ensures forall k, m :: 0 <= k < m < |ks| ==> ks[k] < ks[m]
    decreases |qs| - from
  {
    if from == |qs| then []
    else (if Kept(qs[from]) then [from] else []) + KeptIndices(qs, from + 1)
  }

  /** The kept questions are the questions at the kept indices. */
  lemma {:induction false} ValidQuestionsAt(qs: seq<Question>, from: nat)
    requires from <= |qs|
    ensures var ks := KeptIndices(qs, from);
            |ks| == |ValidQuestions(qs[from..])|
            && forall k :: 0 <= k < |ks| ==> ValidQuestions(qs[from..])[k] == qs[ks[k]]
    decreases |qs| - from
  {
    if from < |qs| {
      ValidQuestionsAt(qs, from + 1);
      assert qs[from..][1..] == qs[from + 1..];
    }
  }

  /** `q.options?.filter(o => o.trim())`: blank options dropped, an absent list stays absent. */
  function NonBlankOptions(options: Option<seq<string>>): (r: Option<seq<string>>)
    ensures r.None? <==> options.None?
    ensures r.Some? ==> forall k :: 0 <= k < |r.value| ==> !IsBlank(r.value[k]) && r.value[k] in options.value
    ensures r.Some? ==> forall k :: 0 <= k < |options.value| && !IsBlank(options.value[k]) ==> options.value[k] in r.value
  {
    match options
    case None => None
    case Some(os) => Some(Filter(os, (o: string) => !IsBlank(o)))
  }

  /** `{ ...q, position: i, options: ... }`. */
  function Finalise(q: Question, i: int): (r: Question)
    ensures r == q.(position := i, options := r.options)
    ensures r.options.Some? <==> q.options.Some?
    ensures r.options.Some? ==> forall k :: 0 <= k < |r.options.value| ==> !IsBlank(r.options.value[k])
  {
    q.(position := i, options := NonBlankOptions(q.options))
  }

  /** `validQuestions.map((q, i) => ({ ...q, position: i, options: ... }))`: the kept
      questions with positions renumbered from 0 and blank options dropped. */
  function PayloadQuestions(valid: seq<Question>): (r: seq<Question>)
    ensures |r| == |valid|
    ensures forall i :: 0 <= i < |valid| ==> r[i] == Finalise(valid[i], i)
  {
    if valid == [] then [] else PayloadQuestions(valid[..|valid| - 1]) + [Finalise(valid[|valid| - 1], |valid| - 1)]
  }

  /** The payload has one question per non-blank question, in order, positioned 0, 1, ...,
      with the same text, type and requiredness, and no blank options. */
  lemma PayloadShape(qs: seq<Question>)
    ensures var p := PayloadQuestions(ValidQuestions(qs));
            var ks := KeptIndices(qs, 0);
            && |p| == |ks|
            && forall i :: 0 <= i < |p| ==>
                 && p[i].position == i && Kept(p[i])
                 && p[i].text == qs[ks[i]].text && p[i].qtype == qs[ks[i]].qtype
                 && p[i].isRequired == qs[ks[i]].isRequired
                 && p[i].options == NonBlankOptions(qs[ks[i]].options)
  {
    ValidQuestionsAt(qs, 0);
    assert qs[0..] == qs;
  }

  /** Some question has non-blank text exactly when the kept list is not empty. */
  lemma ValidQuestionsNonEmpty(qs: seq<Question>)
    ensures |ValidQuestions(qs)| > 0 <==> HasNonBlankText(qs)
  {
    if |ValidQuestions(qs)| > 0 {
      var v := ValidQuestions(qs);
      assert v[0] in qs && Kept(v[0]);
      var i :| 0 <= i < |qs| && qs[i] == v[0];
      assert !IsBlank(qs[i].text);
    }
    if HasNonBlankText(qs) {
      var i :| 0 <= i < |qs| && !IsBlank(qs[i].text);
      assert qs[i] in Filter(qs, Kept);
    }
  }

  // ---------------------------------------------------------------------------------------
  // The request body both editors send

  /** The `Partial<Survey>` the editors send to create or update a survey. */
  datatype SurveyPayload = SurveyPayload(
    title: string,
    description: Option<string>,
    isActive: bool,
    surveyType: Option<SurveyType>,
    questions: seq<Question>,
    pages: Option<seq<PageConfig>>,
    transitions: Option<seq<TransitionRule>>)

  /** `description || undefined`: an empty description is not sent. */
  function DescriptionField(description: string): (r: Option<string>)
    ensures r.None? <==> description == ""
    ensures r.Some? ==> r.value == description
  {
    if description == "" then None else Some(description)
  }
}
