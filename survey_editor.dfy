/** The survey editor page (`frontend/src/pages/SurveyEditor.tsx`): the state it holds (title,
    description, active flag, question list, error message), loading a stored survey into that
    state, the question callbacks, and the validation and request body of a save. The request
    itself and the navigation after it are outside the model: a load or a save is given its
    outcome as a parameter. */
module SurveyEditorPage {
  import opened Wrappers
  import opened Text
  import opened Types
  import QE = QuestionEditing

  /** The messages the page shows. */
  datatype EditorError = LoadFailed | TitleMissing | NoQuestions | SaveFailed

  /** The question types the editor's type selector offers. */
  const EditorTypes: set<QuestionType> := {Text, SingleChoice, MultipleChoice, Rating}

  /** `survey.questions?.length ? survey.questions : [{ ...emptyQuestion }]`. */
  function LoadedQuestions(questions: Option<seq<Question>>): (r: seq<Question>)
    ensures r != []
    ensures questions.Some? && questions.value != [] ==> r == questions.value
    ensures questions.None? || questions.value == [] ==> r == [QE.EmptyQuestion(0)]
  {
    if questions.Some? && questions.value != [] then questions.value else [QE.EmptyQuestion(0)]
  }

  /** The checks `handleSubmit` makes before saving, in order: a title, then a non-blank
      question. It passes exactly when the wizard's `canProceed` would. */
  function Validate(title: string, qs: seq<Question>): (r: Option<EditorError>)
    ensures r.None? <==> QE.CanProceed(title, qs)
    ensures IsBlank(title) ==> r == Some(TitleMissing)
    ensures !IsBlank(title) && !QE.HasNonBlankText(qs) ==> r == Some(NoQuestions)
  {
    QE.ValidQuestionsNonEmpty(qs);
    if IsBlank(title) then Some(TitleMissing)
    else if |QE.ValidQuestions(qs)| == 0 then Some(NoQuestions)
    else None
  }

  /** The body the editor sends: no survey type, pages or transitions; the questions as the
      shared payload normalisation leaves them. */
  function EditorPayload(title: string, description: string, isActive: bool, qs: seq<Question>): (p: QE.SurveyPayload)
    ensures p.title == title && p.description == QE.DescriptionField(description) && p.isActive == isActive
    ensures p.surveyType.None? && p.pages.None? && p.transitions.None?
    ensures p.questions == QE.PayloadQuestions(QE.ValidQuestions(qs))
  {
    QE.SurveyPayload(title, QE.DescriptionField(description), isActive, None,
                     QE.PayloadQuestions(QE.ValidQuestions(qs)), None, None)
  }

  /** A body that passed validation has a non-blank title and at least one question, each with
      non-blank text, positioned by its place in the body. */
  lemma ValidatedPayloadIsUsable(title: string, description: string, isActive: bool, qs: seq<Question>)
    requires Validate(title, qs).None?
    ensures var p := EditorPayload(title, description, isActive, qs);
            && !IsBlank(p.title) && |p.questions| > 0
            && forall i :: 0 <= i < |p.questions| ==> !IsBlank(p.questions[i].text) && p.questions[i].position == i
  {
    QE.ValidQuestionsNonEmpty(qs);
  }

  class Editor {
    var title: string
    var description: string
    var isActive: bool
    var questions: seq<Question>
    var error: Option<EditorError>

    /** The question list is never empty. */
    predicate Valid()
      reads this
    {
      questions != []
    }

    /** The initial state: empty texts, active, one empty question, no error. */
    constructor ()
      ensures Valid()
      ensures title == "" && description == "" && isActive && error.None?
      ensures questions == [QE.EmptyQuestion(0)]
    {
      title := "";
      description := "";
      isActive := true;
      questions := [QE.EmptyQuestion(0)];
      error := None;
    }

    /** `loadSurvey`, given what the request returned (`None` when it failed): the fields are
        filled from the survey, a missing description becomes empty and a survey without
        questions gets one empty question; a failed request sets the error only. */
    method Load(loaded: Option<Survey>)
      requires Valid()
      modifies this
      ensures Valid()
      ensures loaded.None? ==>
                && error == Some(LoadFailed)
                && title == old(title) && description == old(description)
                && isActive == old(isActive) && questions == old(questions)
      ensures loaded.Some? ==>
                && title == loaded.value.title
                && description == loaded.value.description.GetOr("")
                && isActive == loaded.value.isActive
                && questions == LoadedQuestions(loaded.value.questions)
                && error == old(error)
    {
      if loaded.None? {
        error := Some(LoadFailed);
        return;
      }
      var survey := loaded.value;
      title := survey.title;
      description := survey.description.GetOr("");
      isActive := survey.isActive;
      questions := LoadedQuestions(survey.questions);
    }

    /** `addQuestion`. */
    method AddQuestion()
      requires Valid()
      modifies this`questions
      ensures Valid() && questions == QE.AddQuestion(old(questions))
    {
      questions := QE.AddQuestion(questions);
    }

    /** `removeQuestion`: the last question is never removed. */
    method RemoveQuestion(index: int)
      requires Valid()
      modifies this`questions
      ensures Valid() && questions == QE.RemoveQuestion(old(questions), index)
    {
      questions := QE.RemoveQuestion(questions, index);
    }

    /** `updateQuestion`, for a question on screen. */
    method UpdateQuestion(index: nat, u: QE.QuestionUpdate)
      requires Valid() && index < |questions|
      modifies this`questions
      ensures Valid() && questions == QE.UpdateQuestion(old(questions), index, u)
    {
      questions := QE.UpdateQuestion(questions, index, u);
    }

    /** The type selector: one of the four offered types, with the editor's option reset. */
    method ChangeType(index: nat, t: QuestionType)
      requires Valid() && index < |questions| && t in EditorTypes
      modifies this`questions
      ensures Valid() && questions == QE.UpdateQuestion(old(questions), index, QE.TypeChange(t, QE.EditorChoiceTypes))
    {
      questions := QE.UpdateQuestion(questions, index, QE.TypeChange(t, QE.EditorChoiceTypes));
    }

    /** `addOption`. */
    method AddOption(qi: nat)
      requires Valid() && qi < |questions|
      modifies this`questions
      ensures Valid() && questions == QE.AddOption(old(questions), qi)
    {
      questions := QE.AddOption(questions, qi);
    }

    /** `updateOption`, for an option on screen. */
    method UpdateOption(qi: nat, oi: nat, value: string)
      requires Valid() && qi < |questions| && oi < |QE.OptionsOf(questions[qi])|
      modifies this`questions
      ensures Valid() && questions == QE.UpdateOption(old(questions), qi, oi, value)
    {
      questions := QE.UpdateOption(questions, qi, oi, value);
    }

    /** `removeOption`. */
    method RemoveOption(qi: nat, oi: int)
      requires Valid() && qi < |questions|
      modifies this`questions
      ensures Valid() && questions == QE.RemoveOption(old(questions), qi, oi)
    {
      questions := QE.RemoveOption(questions, qi, oi);
    }

    /** `handleSubmit`: a failed check sets its message and sends nothing; otherwise the error
        is cleared and the body is sent, and a failed save (`saved` false) sets the save
        error. Nothing but the error changes. */
    method Submit(saved: bool) returns (sent: Option<QE.SurveyPayload>)
      requires Valid()
      modifies this`error
      ensures Validate(title, questions).Some? ==> sent.None? && error == Validate(title, questions)
      ensures Validate(title, questions).None? ==>
                && sent == Some(EditorPayload(title, description, isActive, questions))
                && error == (if saved then None else Some(SaveFailed))
    {
      if IsBlank(title) {
        error := Some(TitleMissing);
        return None;
      }
      var valid := QE.ValidQuestions(questions);
      if |valid| == 0 {
        error := Some(NoQuestions);
        return None;
      }
      error := None;
      sent := Some(QE.SurveyPayload(title, QE.DescriptionField(description), isActive, None,
                                    QE.PayloadQuestions(valid), None, None));
      if !saved {
        error := Some(SaveFailed);
      }
    }
  }
}
