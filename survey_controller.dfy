/** `backend/src/Controller/SurveyController.php`: showing, creating, updating, deleting and
    toggling surveys. The survey repository is a map from id to survey; a request body is the
    decoded JSON object, where a missing key and `null` both read as `None`. The clock is a
    parameter. */
module SurveyController {
  import opened Wrappers
  import opened Seqs
  import opened Entities
  import Types
  import Php

  /** One entry of the body's `questions` list. */
  datatype QuestionInput = QuestionInput(
    text: Option<string>, qtype: Option<string>, options: Option<seq<string>>,
    isRequired: Option<bool>, position: Option<int>, pageNumber: Option<int>)

  /** The body of `create` and `update`. */
  datatype SurveyInput = SurveyInput(
    title: Option<string>, description: Option<string>, isActive: Option<bool>,
    surveyType: Option<string>, pages: Option<seq<Types.PageConfig>>,
    transitions: Option<seq<Types.TransitionRule>>, questions: Option<seq<QuestionInput>>)

  datatype Failure = NotFound | TitleRequired | Crashed

  function StatusCode(f: Failure): (code: int)
    ensures f == NotFound <==> code == 404
    ensures f == TitleRequired <==> code == 400
    ensures f == Crashed <==> code == 500
  {
    match f
    case NotFound => 404
    case TitleRequired => 400
    case Crashed => 500
  }

  datatype Outcome<T> = Done(value: T) | Failed(failure: Failure)

  /** PHP's `empty()` on a title that is a string or absent: absent, `''` and `'0'`. */
  predicate EmptyTitle(title: Option<string>)
    ensures EmptyTitle(title) <==> !Php.Truthy(title)
  {
    title.None? || title.value == "" || title.value == "0"
  }

  /** The question entries `create` and `update` add, in order; an absent list adds none. */
  function Entries(body: SurveyInput): seq<QuestionInput> {
    body.questions.GetOr([])
  }

  // ---------------------------------------------------------------------------------------
  // Building questions from entries

  /** A question as `create` and `update` build it from the entry at `index`: text `''`, type
      `text`, required, and its index as position unless the entry says otherwise. */
  predicate BuiltFrom(q: Question, entry: QuestionInput, index: int)
    reads q
  {
    && q.id == None && q.answers == []
    && q.text == Some(entry.text.GetOr(""))
    && q.qtype == Some(entry.qtype.GetOr(TypeText))
    && q.options == entry.options
    && q.isRequired == entry.isRequired.GetOr(true)
    && q.position == entry.position.GetOr(index)
    && q.pageNumber == entry.pageNumber
  }

  /** The survey's questions are new questions built from `entries`, in order, each linked
      back to the survey. */
  predicate HoldsEntries(s: Survey, entries: seq<QuestionInput>)
    reads s, s.questions
  {
    && |s.questions| == |entries|
    && Distinct(s.questions)
    && forall i :: 0 <= i < |entries| ==> BuiltFrom(s.questions[i], entries[i], i) && s.questions[i].survey == s
  }

  /** The body of the loop over the entries, before `addQuestion`. */
  method NewQuestion(entry: QuestionInput, index: int) returns (q: Question)
    ensures fresh(q) && q.survey == null && BuiltFrom(q, entry, index)
  {
    q := new Question();
    q.SetText(entry.text.GetOr(""));
    q.SetType(entry.qtype.GetOr(TypeText));
    q.SetOptions(entry.options);
    q.SetIsRequired(entry.isRequired.GetOr(true));
    q.SetPosition(entry.position.GetOr(index));
    q.SetPageNumber(entry.pageNumber);
  }

  /** Adds one new question per entry to a survey without questions. */
  method AddEntries(s: Survey, entries: seq<QuestionInput>)
    requires s.questions == []
    modifies s`questions
    ensures HoldsEntries(s, entries)
    ensures forall i :: 0 <= i < |s.questions| ==> fresh(s.questions[i])
  {
    for k := 0 to |entries|
      invariant HoldsEntries(s, entries[..k])
      invariant forall i :: 0 <= i < |s.questions| ==> fresh(s.questions[i])
    {
      var q := NewQuestion(entries[k], k);
      ghost var before := s.questions;
      s.AddQuestion(q);
      assert s.questions == before + [q];
      DistinctSnoc(before, q);
    }
  }

  // ---------------------------------------------------------------------------------------
  // The actions

  /** `GET /api/surveys/{id}`. */
  method Show(surveys: map<int, Survey>, id: int) returns (outcome: Outcome<SurveyArray>)
    ensures id !in surveys <==> outcome == Failed(NotFound)
    ensures id in surveys ==> outcome == Done(surveys[id].ToArrayWithQuestions())
  {
    if id !in surveys {
      return Failed(NotFound);
    }
    return Done(surveys[id].ToArrayWithQuestions());
  }

  /** The columns of a survey `create` makes from `body`: the body's fields, with defaults for
      the missing ones (active, single-page, no pages, no transitions). */
  predicate CreatedFrom(s: Survey, body: SurveyInput, now: int)
    reads s
  {
    && s.id == None && s.responses == []
    && s.title == body.title && s.description == body.description
    && s.isActive == body.isActive.GetOr(true)
    && s.surveyType == body.surveyType.GetOr("single_page")
    && s.pages == body.pages && s.transitions == body.transitions
    && s.createdAt == Some(now) && s.updatedAt == None
  }

  /** `POST /api/surveys`: an empty title is 400; otherwise a new survey with the body's fields
      and one question per entry, in order. */
  method Create(body: SurveyInput, now: int) returns (outcome: Outcome<Survey>)
    ensures EmptyTitle(body.title) <==> outcome.Failed?
    ensures outcome.Failed? ==> outcome.failure == TitleRequired
    ensures outcome.Done? ==>
              var s := outcome.value;
              && fresh(s) && CreatedFrom(s, body, now) && HoldsEntries(s, Entries(body))
              && forall i :: 0 <= i < |s.questions| ==> fresh(s.questions[i])
  {
    if EmptyTitle(body.title) {
      return Failed(TitleRequired);
    }
    var s := NewSurvey(body, now);
    AddEntries(s, Entries(body));
    return Done(s);
  }

  /** The setter calls of `create`, for a body with a title. */
  method NewSurvey(body: SurveyInput, now: int) returns (s: Survey)
    requires body.title.Some?
    ensures fresh(s) && CreatedFrom(s, body, now) && s.questions == []
  {
    s := new Survey(now);
    s.SetTitle(body.title.value);
    s.SetDescription(body.description);
    s.SetIsActive(body.isActive.GetOr(true));
    s.SetSurveyType(body.surveyType.GetOr("single_page"));
    s.SetPages(body.pages);
    s.SetTransitions(body.transitions);
  }

  /** The survey an id names, as a frame. */
  function Found(surveys: map<int, Survey>, id: int): set<Survey> {
    if id in surveys then {surveys[id]} else {}
  }

  /** The questions of the survey an id names, as a frame. */
  function FoundQuestions(surveys: map<int, Survey>, id: int): set<Question>
    reads Found(surveys, id)
  {
    if id in surveys then set q | q in surveys[id].questions else {}
  }

  /** A question's survey after `removeQuestion`: cleared when it was this survey. */
  function Detached(before: Survey?, s: Survey): Survey? {
    if before == s then null else before
  }

  /** The fields `update` sets: each one present in the body replaces the survey's. */
  twostate predicate FieldsApplied(s: Survey, body: SurveyInput)
    reads s
  {
    && s.title == (if body.title.Some? then body.title else old(s.title))
    && s.description == (if body.description.Some? then body.description else old(s.description))
    && s.isActive == body.isActive.GetOr(old(s.isActive))
    && s.surveyType == body.surveyType.GetOr(old(s.surveyType))
    && s.pages == (if body.pages.Some? then body.pages else old(s.pages))
    && s.transitions == (if body.transitions.Some? then body.transitions else old(s.transitions))
  }

  /** The questions after `update`: kept when the body has no `questions`; otherwise the old
      ones (`before`) are unlinked and the entries are the questions, in order. */
  twostate predicate QuestionsReplaced(s: Survey, before: seq<Question>, entries: Option<seq<QuestionInput>>)
    reads s, s.questions, before
  {
    if entries.None? then
      s.questions == before && forall q :: q in before ==> q.survey == old(q.survey)
    else
      && HoldsEntries(s, entries.value)
      && (forall i :: 0 <= i < |s.questions| ==> fresh(s.questions[i]))
      && forall q :: q in before ==> q.survey == Detached(old(q.survey), s)
  }

  /** What `update` does to a survey it found: the body's fields, the questions, and the
      update time; the id, the creation time and the responses stay. */
  twostate predicate Edited(s: Survey, before: seq<Question>, body: SurveyInput, now: int)
    reads s, s.questions, before
  {
    && FieldsApplied(s, body)
    && QuestionsReplaced(s, before, body.questions)
    && s.updatedAt == Some(now)
    && s.id == old(s.id) && s.createdAt == old(s.createdAt) && s.responses == old(s.responses)
  }

  /** `PUT /api/surveys/{id}`: 404 for an unknown id, changing nothing; otherwise the survey
      is edited as `Edited` says. Of the old questions only the back-reference may change. */
  method Update(surveys: map<int, Survey>, id: int, body: SurveyInput, now: int) returns (outcome: Outcome<Survey>)
    modifies Found(surveys, id), FoundQuestions(surveys, id)`survey
    ensures id !in surveys <==> outcome == Failed(NotFound)
    ensures id in surveys ==> outcome == Done(surveys[id]) && Edited(surveys[id], old(surveys[id].questions), body, now)
  {
    if id !in surveys {
      return Failed(NotFound);
    }
    var s := surveys[id];
    Edit(s, body, now);
    return Done(s);
  }

  /** The edit of a survey `update` found; of its old questions only the back-reference may
      change. */
  method Edit(s: Survey, body: SurveyInput, now: int)
    modifies s, s.questions`survey
    ensures Edited(s, old(s.questions), body, now)
  {
    ghost var before := s.questions;
    ApplyFields(s, body);
    if body.questions.Some? {
      RemoveAll(s);
      AddEntries(s, body.questions.value);
    }
    s.SetUpdatedAt(Some(now));
  }

  /** The six `if (isset($data[...]))` setter calls. */
  method ApplyFields(s: Survey, body: SurveyInput)
    modifies s`title, s`description, s`isActive, s`surveyType, s`pages, s`transitions
    ensures FieldsApplied(s, body)
  {
    if body.title.Some? {
      s.SetTitle(body.title.value);
    }
    if body.description.Some? {
      s.SetDescription(body.description);
    }
    if body.isActive.Some? {
      s.SetIsActive(body.isActive.value);
    }
    if body.surveyType.Some? {
      s.SetSurveyType(body.surveyType.value);
    }
    if body.pages.Some? {
      s.SetPages(body.pages);
    }
    if body.transitions.Some? {
      s.SetTransitions(body.transitions);
    }
  }

  /** The loop `foreach ($survey->getQuestions() as $question) removeQuestion($question)`,
      which walks a copy of the collection. */
  method RemoveAll(s: Survey)
    modifies s`questions, s.questions`survey
    ensures s.questions == []
    ensures forall q :: q in old(s.questions) ==> q.survey == Detached(old(q.survey), s)
  {
    ghost var before := s.questions;
    var all := s.questions;
    for k := 0 to |all|
      invariant s.questions == all[k..]
      invariant forall q :: q in all[..k] ==> q.survey == Detached(old(q.survey), s)
      invariant forall q :: q in all[k..] && q !in all[..k] ==> q.survey == old(q.survey)
    {
      var q := all[k];
      assert all[k..] == [q] + all[k + 1..];
      assert all[..k + 1] == all[..k] + [q];
      s.RemoveQuestion(q);
    }
  }

  /** `DELETE /api/surveys/{id}`: 404 for an unknown id; otherwise the survey is gone. */
  method Delete(surveys: map<int, Survey>, id: int) returns (outcome: Outcome<map<int, Survey>>)
    ensures id !in surveys <==> outcome == Failed(NotFound)
    ensures id in surveys ==> outcome.Done? && outcome.value.Keys == surveys.Keys - {id}
    ensures outcome.Done? ==> forall k :: k in outcome.value ==> outcome.value[k] == surveys[k]
  {
    if id !in surveys {
      return Failed(NotFound);
    }
    return Done(surveys - {id});
  }

  /** `POST /api/surveys/{id}/toggle`: 404 for an unknown id, changing nothing; otherwise the
      survey's active flag is negated and its update time set, and nothing else changes. */
  method Toggle(surveys: map<int, Survey>, id: int, now: int) returns (outcome: Outcome<SurveyArray>)
    modifies Found(surveys, id)
    ensures id !in surveys <==> outcome == Failed(NotFound)
    ensures id in surveys ==>
              var s := surveys[id];
              && s.isActive == !old(s.isActive) && s.updatedAt == Some(now)
              && s.id == old(s.id) && s.title == old(s.title) && s.description == old(s.description)
              && s.surveyType == old(s.surveyType) && s.pages == old(s.pages)
              && s.transitions == old(s.transitions) && s.createdAt == old(s.createdAt)
              && s.questions == old(s.questions) && s.responses == old(s.responses)
              && outcome == Done(s.ToArray())
  {
    if id !in surveys {
      return Failed(NotFound);
    }
    var s := surveys[id];
    s.SetIsActive(!s.isActive);
    s.SetUpdatedAt(Some(now));
    return Done(s.ToArray());
  }

  /** Two toggles restore the active flag. */
  method ToggleTwice(surveys: map<int, Survey>, id: int, now: int, later: int)
    requires id in surveys
    modifies Found(surveys, id)
    ensures surveys[id].isActive == old(surveys[id].isActive)
  {
    var first := Toggle(surveys, id, now);
    var second := Toggle(surveys, id, later);
  }

  // ---------------------------------------------------------------------------------------
  // As written: `setPageNumber` is not a method of `Question`

  /** The status `create` answers with as the controller is written: each question entry calls
      `setPageNumber`, which `Question` does not define, so PHP raises an Error (500) on the
      first entry and nothing is stored. */
  function CreateStatusAsWritten(body: SurveyInput): (code: int)
    ensures code == 400 <==> EmptyTitle(body.title)
    ensures code == 500 <==> !EmptyTitle(body.title) && |Entries(body)| > 0
    ensures code == 201 <==> !EmptyTitle(body.title) && |Entries(body)| == 0
  {
    if EmptyTitle(body.title) then StatusCode(TitleRequired)
    else if |Entries(body)| > 0 then StatusCode(Crashed)
    else 201
  }

  /** The status `update` answers with as written: the same Error as soon as one entry is
      processed, after the old questions were removed in memory (nothing is flushed). */
  function UpdateStatusAsWritten(surveys: map<int, Survey>, id: int, body: SurveyInput): (code: int)
    ensures code == 404 <==> id !in surveys
    ensures code == 500 <==> id in surveys && |Entries(body)| > 0
    ensures code == 200 <==> id in surveys && |Entries(body)| == 0
  {
    if id !in surveys then StatusCode(NotFound)
    else if |Entries(body)| > 0 then StatusCode(Crashed)
    else 200
  }

  /** A survey with a title and one question cannot be created as written, while `Create`
      stores it with its question. */
  lemma CreateWithAQuestionFailsAsWritten()
    ensures var body := SurveyInput(Some("Feedback"), None, None, None, None, None,
                                    Some([QuestionInput(Some("How was it?"), Some(TypeRating), None, None, None, None)]));
            CreateStatusAsWritten(body) == 500 && !EmptyTitle(body.title) && |Entries(body)| == 1
  {
  }
}
