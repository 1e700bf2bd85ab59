/** The survey creation wizard (`frontend/src/pages/SurveyWizard.tsx`): three steps (questions,
    survey type, page layout) over one state, the buttons that move between them, and the
    request body `handleFinish` sends. The step components' callbacks are the functions of
    `QuestionEditing` and `PageConfigEditor`; the request and the navigation after it are outside
    the model, so a save is given its outcome as a parameter. */
module SurveyWizardPage {
  import opened Wrappers
  import opened Seqs
  import opened Text
  import opened Types
  import QE = QuestionEditing
  import PC = PageConfigEditor

  // ---------------------------------------------------------------------------------------
  // Steps

  datatype Move = Next | Back

  /** The step a navigation button leads to, or `None` when that button is not on screen or is
      disabled: step 1 goes on once `canProceed` holds, step 2 goes on only for a multi-page
      survey, and steps 2 and 3 go back. */
  function Navigate(step: int, move: Move, canProceed: bool, surveyType: SurveyType): (r: Option<int>)
    ensures r.Some? ==> 1 <= r.value <= 3
    ensures r.Some? ==> r.value == (if move == Next then step + 1 else step - 1)
    ensures r == Some(2) && move == Next ==> canProceed
    ensures r == Some(3) ==> surveyType == MultiPage
    ensures move == Back ==> (r.Some? <==> step == 2 || step == 3)
  {
    match move
    case Next =>
      if step == 1 && canProceed then Some(2)
      else if step == 2 && surveyType == MultiPage then Some(3)
      else None
    case Back =>
      if step == 2 || step == 3 then Some(step - 1) else None
  }

  /** Going back undoes going on. */
  lemma BackUndoesNext(step: int, canProceed: bool, surveyType: SurveyType)
    requires Navigate(step, Next, canProceed, surveyType).Some?
    ensures Navigate(Navigate(step, Next, canProceed, surveyType).value, Back, canProceed, surveyType) == Some(step)
  {
  }

  /** "Create survey" is on step 2 for a single-page survey, and on step 3 enabled once every
      question is on a page. */
  predicate CanFinish(step: int, surveyType: SurveyType, pages: seq<PageConfig>, n: nat)
    ensures CanFinish(step, surveyType, pages, n) && step == 3 ==>
              forall idx :: 0 <= idx < n ==> PC.OnSomePage(pages, idx)
  {
    (step == 2 && surveyType == SinglePage) || (step == 3 && PC.AllQuestionsAssigned(pages, n))
  }

  /** What the navigation guarantees about the state: past step 1 the title and questions
      passed `canProceed`, and step 3 is only reached for a multi-page survey. */
  predicate Reached(step: int, title: string, qs: seq<Question>, surveyType: SurveyType)
    ensures Reached(step, title, qs, surveyType) && step >= 2 ==> !IsBlank(title) && QE.ValidQuestions(qs) != []
  {
    && 1 <= step <= 3
    && (step >= 2 ==> QE.CanProceed(title, qs))
    && (step == 3 ==> surveyType == MultiPage)
  }

  /** Every move keeps the guarantees. */
  lemma NavigateKeepsReached(step: int, move: Move, title: string, qs: seq<Question>, surveyType: SurveyType)
    requires Reached(step, title, qs, surveyType)
    requires Navigate(step, move, QE.CanProceed(title, qs), surveyType).Some?
    ensures Reached(Navigate(step, move, QE.CanProceed(title, qs), surveyType).value, title, qs, surveyType)
  {
  }

  // ---------------------------------------------------------------------------------------
  // The request body

  /** The payload questions with page numbers: the `i`-th of them is looked up as editor
      question `at[i]`; single-page surveys get no page number. */
  function WithPages(p: seq<Question>, at: seq<int>, surveyType: SurveyType, pages: seq<PageConfig>): (r: seq<Question>)
    requires |at| == |p|
    ensures |r| == |p|
    ensures forall i :: 0 <= i < |p| ==>
              r[i] == p[i].(pageNumber := if surveyType == MultiPage then PC.QuestionPage(pages, at[i]) else None)
  {
    seq(|p|, i requires 0 <= i < |p| =>
      p[i].(pageNumber := if surveyType == MultiPage then PC.QuestionPage(pages, at[i]) else None))
  }

  /** `0, 1, ..., n - 1`. */
  function Indices(n: nat): (r: seq<int>)
    ensures |r| == n && forall i :: 0 <= i < n ==> r[i] == i
  {
    seq(n, i => i)
  }

  /** The questions `handleFinish` sends, as written: the `i`-th kept question takes the page
      of editor question `i`, although pages hold indices into the unfiltered list. */
  function WizardQuestionsAsWritten(qs: seq<Question>, surveyType: SurveyType, pages: seq<PageConfig>): (r: seq<Question>)
    ensures |r| == |QE.ValidQuestions(qs)|
  {
    var p := QE.PayloadQuestions(QE.ValidQuestions(qs));
    WithPages(p, Indices(|p|), surveyType, pages)
  }

  /** The questions `handleFinish` is meant to send: each kept question takes the page of its
      own index in the editor's list. */
  function WizardQuestions(qs: seq<Question>, surveyType: SurveyType, pages: seq<PageConfig>): (r: seq<Question>)
    ensures var ks := QE.KeptIndices(qs, 0);
            && |r| == |ks|
            && forall i :: 0 <= i < |ks| ==>
                 r[i] == QE.Finalise(qs[ks[i]], i).(pageNumber :=
                           if surveyType == MultiPage then PC.QuestionPage(pages, ks[i]) else None)
  {
    var ks := QE.KeptIndices(qs, 0);
    var valid := QE.ValidQuestions(qs);
    QE.ValidQuestionsAt(qs, 0);
    assert qs[0..] == qs;
    var p := QE.PayloadQuestions(valid);
    assert forall i :: 0 <= i < |ks| ==> p[i] == QE.Finalise(qs[ks[i]], i);
    WithPages(p, ks, surveyType, pages)
  }

  /** The body around the questions: always active; pages only for a multi-page survey;
      transitions only for a multi-page survey that has some. */
  function Body(title: string, description: string, surveyType: SurveyType, pages: seq<PageConfig>,
                transitions: seq<TransitionRule>, questions: seq<Question>): (p: QE.SurveyPayload)
    ensures p.title == title && p.description == QE.DescriptionField(description) && p.isActive
    ensures p.surveyType == Some(surveyType) && p.questions == questions
    ensures p.pages.Some? <==> surveyType == MultiPage
    ensures p.transitions.Some? <==> surveyType == MultiPage && transitions != []
    ensures p.pages.Some? ==> p.pages.value == pages
    ensures p.transitions.Some? ==> p.transitions.value == transitions
  {
    QE.SurveyPayload(title, QE.DescriptionField(description), true, Some(surveyType), questions,
                     if surveyType == MultiPage then Some(pages) else None,
                     if surveyType == MultiPage && |transitions| > 0 then Some(transitions) else None)
  }

  /** The body `handleFinish` sends, as written: an active survey of that type and title whose
      `i`-th question is kept question `i` at position `i`. */
  function WizardPayloadAsWritten(title: string, description: string, qs: seq<Question>, surveyType: SurveyType,
                                  pages: seq<PageConfig>, transitions: seq<TransitionRule>): (p: QE.SurveyPayload)
    ensures p.title == title && p.isActive && p.surveyType == Some(surveyType)
    ensures |p.questions| == |QE.ValidQuestions(qs)|
    ensures forall i :: 0 <= i < |p.questions| ==>
              p.questions[i].text == QE.ValidQuestions(qs)[i].text && p.questions[i].position == i
  {
    Body(title, description, surveyType, pages, transitions, WizardQuestionsAsWritten(qs, surveyType, pages))
  }

  /** The body `handleFinish` is meant to send; without blank questions it is the body sent
      as written. */
  function WizardPayload(title: string, description: string, qs: seq<Question>, surveyType: SurveyType,
                         pages: seq<PageConfig>, transitions: seq<TransitionRule>): (p: QE.SurveyPayload)
    ensures |p.questions| == |QE.ValidQuestions(qs)|
    ensures (forall i :: 0 <= i < |qs| ==> QE.Kept(qs[i])) ==>
              p == WizardPayloadAsWritten(title, description, qs, surveyType, pages, transitions)
  {
    assert (forall i :: 0 <= i < |qs| ==> QE.Kept(qs[i])) ==>
             WizardQuestions(qs, surveyType, pages) == WizardQuestionsAsWritten(qs, surveyType, pages) by {
      if forall i :: 0 <= i < |qs| ==> QE.Kept(qs[i]) {
        AsWrittenAgreesWithoutBlanks(qs, surveyType, pages);
      }
    }
    QE.ValidQuestionsAt(qs, 0);
    assert qs[0..] == qs;
    Body(title, description, surveyType, pages, transitions, WizardQuestions(qs, surveyType, pages))
  }

  /** Some page with that id holds the question index. */
  predicate OnPage(pages: seq<PageConfig>, id: int, index: int) {
    exists j :: 0 <= j < |pages| && pages[j].id == id && index in pages[j].questionIds
  }

  /** Once every question is on a page, each kept question of a multi-page survey is sent
      with the id of a page that holds it. */
  lemma AssignedQuestionsCarryTheirPage(qs: seq<Question>, pages: seq<PageConfig>)
    requires PC.AllQuestionsAssigned(pages, |qs|)
    ensures var r := WizardQuestions(qs, MultiPage, pages);
            var ks := QE.KeptIndices(qs, 0);
            forall i :: 0 <= i < |r| ==> r[i].pageNumber.Some? && OnPage(pages, r[i].pageNumber.value, ks[i])
  {
    var r := WizardQuestions(qs, MultiPage, pages);
    var ks := QE.KeptIndices(qs, 0);
    forall i | 0 <= i < |r|
      ensures r[i].pageNumber.Some? && OnPage(pages, r[i].pageNumber.value, ks[i])
    {
      assert r[i].pageNumber == PC.QuestionPage(pages, ks[i]);
      assert PC.OnSomePage(pages, ks[i]);
    }
  }

  /** A wizard finished from a reachable state sends a non-blank title and at least one
      question, and in a multi-page survey every question carries the id of a page that holds
      it in the layout. */
  lemma FinishedPayloadIsUsable(step: int, title: string, description: string, qs: seq<Question>,
                                surveyType: SurveyType, pages: seq<PageConfig>, transitions: seq<TransitionRule>)
    requires Reached(step, title, qs, surveyType) && CanFinish(step, surveyType, pages, |qs|)
    ensures var p := WizardPayload(title, description, qs, surveyType, pages, transitions);
            var ks := QE.KeptIndices(qs, 0);
            && !IsBlank(p.title) && |p.questions| > 0
            && (surveyType == MultiPage ==>
                  forall i :: 0 <= i < |p.questions| ==>
                    p.questions[i].pageNumber.Some? && OnPage(pages, p.questions[i].pageNumber.value, ks[i]))
  {
    QE.ValidQuestionsNonEmpty(qs);
    QE.ValidQuestionsAt(qs, 0);
    assert qs[0..] == qs;
    if surveyType == MultiPage {
      AssignedQuestionsCarryTheirPage(qs, pages);
    }
  }

  /** All questions kept at or after `from`: the kept indices are `from, from + 1, ...`. */
  lemma {:induction false} KeptIndicesAllKept(qs: seq<Question>, from: nat)
    requires from <= |qs| && forall i :: from <= i < |qs| ==> QE.Kept(qs[i])
    ensures |QE.KeptIndices(qs, from)| == |qs| - from
    ensures forall k :: 0 <= k < |qs| - from ==> QE.KeptIndices(qs, from)[k] == from + k
    decreases |qs| - from
  {
    if from < |qs| {
      KeptIndicesAllKept(qs, from + 1);
    }
  }

  /** Without blank questions the written lookup is the intended one. */
  lemma AsWrittenAgreesWithoutBlanks(qs: seq<Question>, surveyType: SurveyType, pages: seq<PageConfig>)
    requires forall i :: 0 <= i < |qs| ==> QE.Kept(qs[i])
    ensures WizardQuestionsAsWritten(qs, surveyType, pages) == WizardQuestions(qs, surveyType, pages)
  {
    KeptIndicesAllKept(qs, 0);
    QE.ValidQuestionsAt(qs, 0);
    assert qs[0..] == qs;
  }

  /** A blank first question, a second question "Q" placed on page 1, the blank one on page 2:
      every question is assigned, yet as written "Q" is sent with page 2. */
  lemma AsWrittenMisplacesAfterABlank()
    ensures var qs := [QE.EmptyQuestion(0), QE.EmptyQuestion(1).(text := "Q")];
            var pages := [PageConfig(1, "A", [1]), PageConfig(2, "B", [0])];
            && PC.AllQuestionsAssigned(pages, |qs|)
            && |WizardQuestionsAsWritten(qs, MultiPage, pages)| == 1
            && WizardQuestionsAsWritten(qs, MultiPage, pages)[0].pageNumber == Some(2)
            && |WizardQuestions(qs, MultiPage, pages)| == 1
            && WizardQuestions(qs, MultiPage, pages)[0].pageNumber == Some(1)
  {
    var qs := [QE.EmptyQuestion(0), QE.EmptyQuestion(1).(text := "Q")];
    var pages := [PageConfig(1, "A", [1]), PageConfig(2, "B", [0])];
    assert IsBlank(qs[0].text) && !IsBlank(qs[1].text) by {
      assert qs[1].text == "Q" && !IsWhitespace(qs[1].text[0]);
    }
    assert PC.QuestionPage(pages, 0) == Some(2);
    assert PC.QuestionPage(pages, 1) == Some(1);
    assert QE.KeptIndices(qs, 2) == [];
    assert QE.KeptIndices(qs, 1) == [1];
    assert QE.KeptIndices(qs, 0) == [1];
    QE.ValidQuestionsAt(qs, 0);
    assert qs[0..] == qs;
  }

  /** As written, the `i`-th sent question of a fully assigned multi-page survey carries the
      id of a page holding index `i`; without blank questions that is its own index. */
  lemma AsWrittenPagesHoldTheirIndex(qs: seq<Question>, pages: seq<PageConfig>)
    requires PC.AllQuestionsAssigned(pages, |qs|)
    ensures var r := WizardQuestionsAsWritten(qs, MultiPage, pages);
            forall i :: 0 <= i < |r| ==> r[i].pageNumber.Some? && OnPage(pages, r[i].pageNumber.value, i)
  {
    var p := QE.PayloadQuestions(QE.ValidQuestions(qs));
    var r := WithPages(p, Indices(|p|), MultiPage, pages);
    assert r == WizardQuestionsAsWritten(qs, MultiPage, pages);
    forall i | 0 <= i < |r|
      ensures r[i].pageNumber.Some? && OnPage(pages, r[i].pageNumber.value, i)
    {
      assert r[i].pageNumber == PC.QuestionPage(pages, i);
      assert PC.OnSomePage(pages, i);
    }
  }

  /** What the body sent as written guarantees: a non-blank title and at least one question;
      and, for a multi-page survey, the `i`-th sent question carries the id of a page holding
      index `i`, which is its own index when no question is blank. */
  lemma FinishedPayloadAsWritten(step: int, title: string, description: string, qs: seq<Question>,
                                 surveyType: SurveyType, pages: seq<PageConfig>, transitions: seq<TransitionRule>)
    requires Reached(step, title, qs, surveyType) && CanFinish(step, surveyType, pages, |qs|)
    ensures var p := WizardPayloadAsWritten(title, description, qs, surveyType, pages, transitions);
            && !IsBlank(p.title) && |p.questions| > 0
            && (surveyType == MultiPage ==>
                  forall i :: 0 <= i < |p.questions| ==>
                    p.questions[i].pageNumber.Some? && OnPage(pages, p.questions[i].pageNumber.value, i))
  {
    QE.ValidQuestionsNonEmpty(qs);
    if surveyType == MultiPage {
      AsWrittenPagesHoldTheirIndex(qs, pages);
    }
  }

  /** As written, the layout can lose every page: from page 1, add a page, remove page 1, add
      a page (a second page 2), then remove page 2. */
  lemma RemovePageCanEmptyTheLayout()
    ensures var start := [PageConfig(1, PC.PageTitle(1), [])];
            var twice := PC.AddPage(PC.RemovePage(PC.AddPage(start), [], 1).0);
            && PC.PageIds(twice) == [2, 2]
            && PC.RemovePage(twice, [], 2).0 == []
  {
    var start := [PageConfig(1, PC.PageTitle(1), [])];
    var two := PC.AddPage(start);
    assert two[0].id == 1 && two[1].id == 2;
    var left := PC.RemovePage(two, [], 1).0;
    assert Filter(two, (p: PageConfig) => p.id != 1) == [two[1]];
    assert left == [two[1]];
    var twice := PC.AddPage(left);
    assert twice[0].id == 2 && twice[1].id == 2;
    assert PC.PageIds(twice) == [2, 2];
    assert Filter(twice, (p: PageConfig) => p.id != 2) == [];
  }

  // ---------------------------------------------------------------------------------------
  // The page

  datatype WizardError = SaveFailed

  class Wizard {
    var step: int
    var title: string
    var description: string
    var questions: seq<Question>
    var surveyType: SurveyType
    var pages: seq<PageConfig>
    var transitions: seq<TransitionRule>
    var error: Option<WizardError>

    /** The navigation guarantees hold and there is always a question. */
    predicate Valid()
      reads this
    {
      Reached(step, title, questions, surveyType) && questions != []
    }

    /** Step 1, nothing typed, one empty question, single-page, one empty page 1 named
        "Страница 1", no transitions, no error. */
    constructor ()
      ensures Valid()
      ensures step == 1 && title == "" && description == "" && questions == [QE.EmptyQuestion(0)]
      ensures surveyType == SinglePage && pages == [PageConfig(1, PC.PageTitle(1), [])]
      ensures transitions == [] && error.None?
    {
      step := 1;
      title := "";
      description := "";
      questions := [QE.EmptyQuestion(0)];
      surveyType := SinglePage;
      pages := [PageConfig(1, PC.PageTitle(1), [])];
      transitions := [];
      error := None;
    }

    /** A navigation button. */
    method Go(move: Move)
      requires Valid() && Navigate(step, move, QE.CanProceed(title, questions), surveyType).Some?
      modifies this`step
      ensures Valid() && step == Navigate(old(step), move, QE.CanProceed(title, questions), surveyType).value
    {
      NavigateKeepsReached(step, move, title, questions, surveyType);
      step := Navigate(step, move, QE.CanProceed(title, questions), surveyType).value;
    }

    // Step 1

    method SetTitle(t: string)
      requires Valid() && step == 1
      modifies this`title
      ensures Valid() && title == t
    {
      title := t;
    }

    method SetDescription(d: string)
      requires Valid() && step == 1
      modifies this`description
      ensures Valid() && description == d
    {
      description := d;
    }

    method AddQuestion()
      requires Valid() && step == 1
      modifies this`questions
      ensures Valid() && questions == QE.AddQuestion(old(questions))
    {
      questions := QE.AddQuestion(questions);
    }

    method RemoveQuestion(index: int)
      requires Valid() && step == 1
      modifies this`questions
      ensures Valid() && questions == QE.RemoveQuestion(old(questions), index)
    {
      questions := QE.RemoveQuestion(questions, index);
    }

    method UpdateQuestion(index: nat, u: QE.QuestionUpdate)
      requires Valid() && step == 1 && index < |questions|
      modifies this`questions
      ensures Valid() && questions == QE.UpdateQuestion(old(questions), index, u)
    {
      questions := QE.UpdateQuestion(questions, index, u);
    }

    /** The type selector, with the wizard's option reset. */
    method ChangeType(index: nat, t: QuestionType)
      requires Valid() && step == 1 && index < |questions|
      modifies this`questions
      ensures Valid() && questions == QE.UpdateQuestion(old(questions), index, QE.TypeChange(t, QE.WizardChoiceTypes))
    {
      questions := QE.UpdateQuestion(questions, index, QE.TypeChange(t, QE.WizardChoiceTypes));
    }

    method AddOption(qi: nat)
      requires Valid() && step == 1 && qi < |questions|
      modifies this`questions
      ensures Valid() && questions == QE.AddOption(old(questions), qi)
    {
      questions := QE.AddOption(questions, qi);
    }

    method UpdateOption(qi: nat, oi: nat, value: string)
      requires Valid() && step == 1 && qi < |questions| && oi < |QE.OptionsOf(questions[qi])|
      modifies this`questions
      ensures Valid() && questions == QE.UpdateOption(old(questions), qi, oi, value)
    {
      questions := QE.UpdateOption(questions, qi, oi, value);
    }

    method RemoveOption(qi: nat, oi: int)
      requires Valid() && step == 1 && qi < |questions|
      modifies this`questions
      ensures Valid() && questions == QE.RemoveOption(old(questions), qi, oi)
    {
      questions := QE.RemoveOption(questions, qi, oi);
    }

    // Step 2

    method SetSurveyType(t: SurveyType)
      requires Valid() && step == 2
      modifies this`surveyType
      ensures Valid() && surveyType == t
    {
      surveyType := t;
    }

    // Step 3

    /** `addPage`, with the id the page count plus one. */
    method AddPage()
      requires Valid() && step == 3
      modifies this`pages
      ensures Valid() && pages == PC.AddPage(old(pages))
    {
      pages := PC.AddPage(pages);
    }

    /** `removePage`: its transitions go with it, and a lone page stays. */
    method RemovePage(pageId: int)
      requires Valid() && step == 3
      modifies this`pages, this`transitions
      ensures Valid()
      ensures (pages, transitions) == PC.RemovePage(old(pages), old(transitions), pageId)
    {
      var r := PC.RemovePage(pages, transitions, pageId);
      pages := r.0;
      transitions := r.1;
    }

    method UpdatePageTitle(pageId: int, t: string)
      requires Valid() && step == 3
      modifies this`pages
      ensures Valid() && pages == PC.UpdatePageTitle(old(pages), pageId, t)
    {
      pages := PC.UpdatePageTitle(pages, pageId, t);
    }

    /** A question's checkbox on a page: enabled unless another page holds the question. */
    method ToggleQuestion(pageId: int, index: int)
      requires Valid() && step == 3 && 0 <= index < |questions|
      requires PC.QuestionPage(pages, index).None? || PC.QuestionPage(pages, index) == Some(pageId)
      modifies this`pages
      ensures Valid() && pages == PC.ToggleQuestionInPage(old(pages), pageId, index)
    {
      pages := PC.ToggleQuestionInPage(pages, pageId, index);
    }

    method AddTransition(now: int)
      requires Valid() && step == 3
      modifies this`transitions
      ensures Valid() && transitions == PC.AddTransition(pages, old(transitions), now)
    {
      transitions := PC.AddTransition(pages, transitions, now);
    }

    method RemoveTransition(id: string)
      requires Valid() && step == 3
      modifies this`transitions
      ensures Valid() && transitions == PC.RemoveTransition(old(transitions), id)
    {
      transitions := PC.RemoveTransition(transitions, id);
    }

    method UpdateTransition(id: string, u: PC.TransitionUpdate)
      requires Valid() && step == 3
      modifies this`transitions
      ensures Valid() && transitions == PC.UpdateTransition(old(transitions), id, u)
    {
      transitions := PC.UpdateTransition(transitions, id, u);
    }

    method UpdateTransitionCondition(id: string, u: PC.ConditionUpdate)
      requires Valid() && step == 3
      modifies this`transitions
      ensures Valid() && transitions == PC.UpdateTransitionCondition(old(transitions), id, questions, u)
    {
      transitions := PC.UpdateTransitionCondition(transitions, id, questions, u);
    }

    // Finishing

    /** `handleFinish`: the error is cleared, the body is sent as written, and a failed save
        sets the save error. */
    method Finish(saved: bool) returns (sent: QE.SurveyPayload)
      requires Valid() && CanFinish(step, surveyType, pages, |questions|)
      modifies this`error
      ensures sent == WizardPayloadAsWritten(title, description, questions, surveyType, pages, transitions)
      ensures !IsBlank(sent.title) && |sent.questions| > 0
      ensures error == (if saved then None else Some(SaveFailed))
    {
      QE.ValidQuestionsNonEmpty(questions);
      error := None;
      sent := WizardPayloadAsWritten(title, description, questions, surveyType, pages, transitions);
      if !saved {
        error := Some(SaveFailed);
      }
    }
  }
}
