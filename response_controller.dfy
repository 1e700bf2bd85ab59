/** `backend/src/Controller/ResponseController.php`: accepting a respondent's answers for a
    survey, listing a survey's responses, and aggregating per-question statistics.
    Repository lookups are maps from id to entity; the response list the repository would
    query is a sequence of all stored responses. The client address and the clock are
    parameters. */
module ResponseController {
  import opened Wrappers
  import opened Values
  import opened Seqs
  import opened Php
  import opened Counting
  import opened Entities

  /** One entry of the request's `answers` list; a missing key reads as `null`. */
  datatype AnswerInput = AnswerInput(questionId: Option<int>, value: Value)

  /** The error replies of the controller. */
  datatype HttpError =
    | SurveyNotFound
    | SurveyNotActive
    | RequiredNotAnswered(questionId: Option<int>)
    | ServerError

  /** The status code of each error reply: a missing survey is 404, an inactive survey or an
      unanswered required question is 400, and a PHP error is 500. */
  function StatusCode(e: HttpError): (code: int)
    ensures code == 404 <==> e.SurveyNotFound?
    ensures code == 400 <==> e.SurveyNotActive? || e.RequiredNotAnswered?
    ensures code == 500 <==> e.ServerError?
  {
    match e
    case SurveyNotFound => 404
    case SurveyNotActive => 400
    case RequiredNotAnswered(_) => 400
    case ServerError => 500
  }

  // ---------------------------------------------------------------------------------------
  // The required-answer gate

  /** PHP 8's `==` between a decoded JSON id and a `?int` id: `null` equals `null` and `0`. */
  predicate LooseEquals(a: Option<int>, b: Option<int>)
    ensures a == b ==> LooseEquals(a, b)
    ensures a.None? ==> (LooseEquals(a, b) <==> b.None? || b == Some(0))
    ensures b.None? ==> (LooseEquals(a, b) <==> a.None? || a == Some(0))
    ensures a.Some? && b.Some? ==> (LooseEquals(a, b) <==> a == b)
  {
    match (a, b)
    case (Some(x), Some(y)) => x == y
    case (None, None) => true
    case (Some(x), None) => x == 0
    case (None, Some(y)) => y == 0
  }

  /** Some entry names the question and carries a value other than `null`, `''` and `[]`. */
  predicate Answered(id: Option<int>, answers: seq<AnswerInput>) {
    exists k :: 0 <= k < |answers| && LooseEquals(answers[k].questionId, id) && !IsEmptyAnswer(answers[k].value)
  }

  /** `$survey->getQuestions()->filter(fn($q) => $q->isRequired())`, in collection order. */
  function RequiredQuestions(questions: seq<Question>): (r: seq<Question>)
    reads questions
    ensures forall i :: 0 <= i < |r| ==> r[i] in questions && r[i].isRequired
    ensures forall i :: 0 <= i < |questions| && questions[i].isRequired ==> questions[i] in r
  {
    if questions == [] then []
    else (if questions[0].isRequired then [questions[0]] else []) + RequiredQuestions(questions[1..])
  }

  /** `i` is the first required question no entry answers. */
  predicate FirstMissingAt(required: seq<Question>, answers: seq<AnswerInput>, i: int)
    reads required
  {
    0 <= i < |required| && !Answered(required[i].id, answers)
    && forall j :: 0 <= j < i ==> Answered(required[j].id, answers)
  }

  predicate AllAnswered(required: seq<Question>, answers: seq<AnswerInput>)
    reads required
  {
    forall j :: 0 <= j < |required| ==> Answered(required[j].id, answers)
  }

  /** The position of the first required question no entry answers. */
  function FirstMissing(required: seq<Question>, answers: seq<AnswerInput>): (r: Option<nat>)
    reads required
    ensures r.Some? ==> FirstMissingAt(required, answers, r.value)
    ensures r.None? <==> AllAnswered(required, answers)
  {
    if required == [] then None
    else if !Answered(required[0].id, answers) then Some(0)
    else match FirstMissing(required[1..], answers)
      case None => None
      case Some(i) => Some(i + 1)
  }

  /** The questions of the stored surveys. */
  function SurveyQuestionObjects(surveys: map<int, Survey>): set<Question>
    reads surveys.Values
  {
    set s, q | s in surveys.Values && q in s.questions :: q
  }

  /** The checks `submit` makes before it builds anything: the survey exists, is active, and
      every required question has an answer that is not `null`, `''` or `[]`. */
  function Gate(surveys: map<int, Survey>, surveyId: int, answers: seq<AnswerInput>): (r: Option<HttpError>)
    reads surveys.Values, SurveyQuestionObjects(surveys)
    ensures surveyId !in surveys ==> r == Some(SurveyNotFound)
    ensures surveyId in surveys && !surveys[surveyId].isActive ==> r == Some(SurveyNotActive)
    ensures surveyId in surveys && surveys[surveyId].isActive ==>
              var required := RequiredQuestions(surveys[surveyId].questions);
              && (r.None? <==> AllAnswered(required, answers))
              && (r.Some? ==> exists i :: FirstMissingAt(required, answers, i) && r == Some(RequiredNotAnswered(required[i].id)))
  {
    if surveyId !in surveys then Some(SurveyNotFound)
    else if !surveys[surveyId].isActive then Some(SurveyNotActive)
    else
      var survey := surveys[surveyId];
      assert forall q | q in survey.questions :: q in SurveyQuestionObjects(surveys);
      var required := RequiredQuestions(survey.questions);
      match FirstMissing(required, answers)
      case None => None
      case Some(i) => Some(RequiredNotAnswered(required[i].id))
  }

  /** The nested loop of `submit`: finds the first required question, in order, that no entry
      answers. */
  method FirstUnanswered(required: seq<Question>, answers: seq<AnswerInput>) returns (missing: Option<nat>)
    ensures missing == FirstMissing(required, answers)
  {
    var i := 0;
    while i < |required|
      invariant 0 <= i <= |required|
      invariant forall j :: 0 <= j < i ==> Answered(required[j].id, answers)
    {
      var question := required[i];
      var found := false;
      var k := 0;
      while k < |answers|
        invariant 0 <= k <= |answers|
        invariant !found
        invariant forall m :: 0 <= m < k ==> !(LooseEquals(answers[m].questionId, question.id) && !IsEmptyAnswer(answers[m].value))
      {
        if LooseEquals(answers[k].questionId, question.id) {
          var value := answers[k].value;
          if !IsEmptyAnswer(value) {
            found := true;
            break;
          }
        }
        k := k + 1;
      }
      if !found {
        assert FirstMissingAt(required, answers, i);
        return Some(i);
      }
      i := i + 1;
    }
    return None;
  }

  // ---------------------------------------------------------------------------------------
  // Turning entries into answers

  /** What `submit` stores in a new answer: its question and its three value columns. */
  datatype AnswerFields = AnswerFields(
    question: Question?, textValue: Option<string>, selectedOptions: Option<seq<Scalar>>, ratingValue: Option<int>)

  /** The value columns an entry's value fills, by the question's type: text as a string,
      a rating cast to an integer, a choice as a list (a scalar becomes a one-element list);
      any other type fills nothing. `None` when PHP raises a TypeError (a list for a text
      question). */
  function Normalise(qtype: Option<string>, v: Value): (r: Option<(Option<string>, Option<seq<Scalar>>, Option<int>)>)
    ensures r.None? <==> qtype == Some(TypeText) && v.List?
    ensures r.Some? && qtype == Some(TypeText) ==> r.value == (StringParameter(v).value, None, None)
    ensures qtype == Some(TypeRating) ==> r == Some((None, None, Some(IntCast(v))))
    ensures qtype in {Some(TypeSingleChoice), Some(TypeMultipleChoice)} ==>
              r == Some((None, Some(if v.List? then v.items else [v.a]), None))
    ensures qtype !in {Some(TypeText), Some(TypeRating), Some(TypeSingleChoice), Some(TypeMultipleChoice)} ==>
              r == Some((None, None, None))
  {
    if qtype == Some(TypeText) then
      match StringParameter(v)
      case None => None
      case Some(s) => Some((s, None, None))
    else if qtype == Some(TypeRating) then Some((None, None, Some(IntCast(v))))
    else if qtype == Some(TypeSingleChoice) || qtype == Some(TypeMultipleChoice) then
      Some((None, Some(if v.List? then v.items else [v.a]), None))
    else Some((None, None, None))
  }

  /** What happens to one entry: skipped, stored as an answer, or a PHP error. */
  datatype EntryOutcome = Skip | Keep(fields: AnswerFields) | Crash

  /** What `submit` looks at in a stored question: the question itself, the id of its survey
      (`None` for a question without a survey) and its type. */
  datatype QuestionRow = QuestionRow(question: Question, owner: Option<Option<int>>, qtype: Option<string>)

  function RowOf(q: Question): (r: QuestionRow)
    reads q, q.survey
    ensures r.question == q && r.qtype == q.qtype
    ensures r.owner == if q.survey == null then None else Some(q.survey.id)
  {
    QuestionRow(q, if q.survey == null then None else Some(q.survey.id), q.qtype)
  }

  /** The surveys the questions of the repository point to. */
  function Owners(repo: map<int, Question>): set<Survey>
    reads repo.Values
  {
    set q | q in repo.Values && q.survey != null :: q.survey
  }

  /** The question repository as `submit` sees it. */
  function Snapshot(repo: map<int, Question>): (rows: map<int, QuestionRow>)
    reads repo.Values, Owners(repo)
    ensures rows.Keys == repo.Keys && forall k :: k in repo ==> rows[k] == RowOf(repo[k])
  {
    map k | k in repo :: RowOf(repo[k])
  }

  /** An entry is skipped when its id is falsy, names no question, or names a question of
      another survey. A question without a survey makes PHP fail on `getSurvey()->getId()`. */
  function Classify(rows: map<int, QuestionRow>, surveyId: int, e: AnswerInput): (r: EntryOutcome)
    ensures (e.questionId.None? || e.questionId.value == 0 || e.questionId.value !in rows) ==> r == Skip
    ensures r.Keep? ==> e.questionId.Some? && e.questionId.value in rows && r.fields.question == rows[e.questionId.value].question
    ensures r.Keep? ==> rows[e.questionId.value].owner == Some(Some(surveyId))
  {
    if e.questionId.None? || e.questionId.value == 0 || e.questionId.value !in rows then Skip
    else
      var row := rows[e.questionId.value];
      if row.owner.None? then Crash
      else if row.owner.value != Some(surveyId) then Skip
      else match Normalise(row.qtype, e.value)
        case None => Crash
        case Some((t, s, n)) => Keep(AnswerFields(row.question, t, s, n))
  }

  /** The answers built so far, after one more entry that does not fail. */
  function Extend(done: seq<AnswerFields>, c: EntryOutcome): (r: seq<AnswerFields>)
    ensures c.Keep? ==> r == done + [c.fields]
    ensures !c.Keep? ==> r == done
  {
    if c.Keep? then done + [c.fields] else done
  }

  /** The answers `submit` creates for the first `n` entries, in entry order; `None` if one
      of them makes PHP fail (then nothing is stored). */
  function PlanUpTo(rows: map<int, QuestionRow>, surveyId: int, entries: seq<AnswerInput>, n: nat): Option<seq<AnswerFields>>
    requires n <= |entries|
  {
    if n == 0 then Some([])
    else
      match PlanUpTo(rows, surveyId, entries, n - 1)
      case None => None
      case Some(done) =>
        var c := Classify(rows, surveyId, entries[n - 1]);
        if c.Crash? then None else Some(Extend(done, c))
  }

  /** The answers `submit` creates for all entries: it succeeds exactly when no entry makes
      PHP fail, and then holds one answer per kept entry, each for a question of the survey. */
  function Plan(rows: map<int, QuestionRow>, surveyId: int, entries: seq<AnswerInput>): (r: Option<seq<AnswerFields>>)
    ensures r.Some? <==> forall k :: 0 <= k < |entries| ==> !Classify(rows, surveyId, entries[k]).Crash?
    ensures r.Some? ==> |r.value| == KeptCount(rows, surveyId, entries)
    ensures r.Some? ==> forall j :: 0 <= j < |r.value| ==> r.value[j].question in SurveyQuestions(rows, surveyId)
  {
    PlanKeepsEachKeptEntry(rows, surveyId, entries, |entries|);
    assert entries[..|entries|] == entries;
    PlanUpTo(rows, surveyId, entries, |entries|)
  }

  /** How many entries are kept, counted independently from the front. */
  function KeptCount(rows: map<int, QuestionRow>, surveyId: int, entries: seq<AnswerInput>): nat
  {
    if entries == [] then 0
    else (if Classify(rows, surveyId, entries[0]).Keep? then 1 else 0) + KeptCount(rows, surveyId, entries[1..])
  }

  /** The questions of the repository that belong to the survey. */
  function SurveyQuestions(rows: map<int, QuestionRow>, surveyId: int): set<Question> {
    set k | k in rows && rows[k].owner == Some(Some(surveyId)) :: rows[k].question
  }

  /** Once an entry fails, the whole submission fails. */
  lemma {:induction false} PlanFailurePersists(rows: map<int, QuestionRow>, surveyId: int, entries: seq<AnswerInput>, n: nat, m: nat)
    requires n <= m <= |entries| && PlanUpTo(rows, surveyId, entries, n).None?
    ensures PlanUpTo(rows, surveyId, entries, m).None?
  {
    if n < m {
      PlanFailurePersists(rows, surveyId, entries, n, m - 1);
    }
  }

  /** Submitting succeeds exactly when no entry makes PHP fail; then there is one answer per
      kept entry, and every answer's question belongs to the survey. */
  lemma {:induction false} PlanKeepsEachKeptEntry(rows: map<int, QuestionRow>, surveyId: int, entries: seq<AnswerInput>, n: nat)
    requires n <= |entries|
    ensures PlanUpTo(rows, surveyId, entries, n).Some? <==> forall k :: 0 <= k < n ==> !Classify(rows, surveyId, entries[k]).Crash?
    ensures PlanUpTo(rows, surveyId, entries, n).Some? ==>
              var answers := PlanUpTo(rows, surveyId, entries, n).value;
              && |answers| == KeptCount(rows, surveyId, entries[..n])
              && forall j :: 0 <= j < |answers| ==> answers[j].question in SurveyQuestions(rows, surveyId)
  {
    if n > 0 {
      PlanKeepsEachKeptEntry(rows, surveyId, entries, n - 1);
      assert entries[..n] == entries[..n - 1] + [entries[n - 1]];
      KeptCountAppend(rows, surveyId, entries[..n - 1], entries[n - 1]);
      var e := entries[n - 1];
      var c := Classify(rows, surveyId, e);
      if c.Keep? {
        assert rows[e.questionId.value].question in SurveyQuestions(rows, surveyId);
      }
    }
  }

  lemma {:induction false} KeptCountAppend(rows: map<int, QuestionRow>, surveyId: int, entries: seq<AnswerInput>, e: AnswerInput)
    ensures KeptCount(rows, surveyId, entries + [e])
            == KeptCount(rows, surveyId, entries) + (if Classify(rows, surveyId, e).Keep? then 1 else 0)
  {
    if entries == [] {
      assert [e][1..] == [];
    } else {
      assert (entries + [e])[1..] == entries[1..] + [e];
      KeptCountAppend(rows, surveyId, entries[1..], e);
    }
  }

  /** The answers of `response` carry `fields`, in order, are distinct, and point back to it. */
  predicate Holds(response: Response, fields: seq<AnswerFields>)
    reads response, response.answers
  {
    && |response.answers| == |fields|
    && Distinct(response.answers)
    && forall k :: 0 <= k < |fields| ==>
         var a := response.answers[k];
         a.response == response && AnswerFields(a.question, a.textValue, a.selectedOptions, a.ratingValue) == fields[k]
  }

  // ---------------------------------------------------------------------------------------
  // Storage and the submit action

  /** The stored responses, in storage order; `persist` + `flush` appends. */
  class ResponseRepository {
    var responses: seq<Response>

    constructor ()
      ensures responses == []
    {
      responses := [];
    }

    method Persist(r: Response)
      modifies this`responses
      ensures responses == old(responses) + [r]
    {
      responses := responses + [r];
    }
  }

  datatype SubmitOutcome = Created(response: Response) | Failed(error: HttpError)

  /** `POST /surveys/{surveyId}/submit`: a missing survey is 404, an inactive one 400, an
      unanswered required question 400 naming it; otherwise one response is stored with one
      answer per entry that is kept, in entry order, unless an entry makes PHP fail, in which
      case nothing is stored. */
  method Submit(surveys: map<int, Survey>, questionRepo: map<int, Question>, repository: ResponseRepository,
                surveyId: int, answers: seq<AnswerInput>, clientIp: Option<string>, now: int)
      returns (outcome: SubmitOutcome)
    modifies repository`responses
    ensures old(Gate(surveys, surveyId, answers)).Some? ==>
              outcome == Failed(old(Gate(surveys, surveyId, answers)).value)
    ensures old(Gate(surveys, surveyId, answers)).None? && old(Plan(Snapshot(questionRepo), surveyId, answers)).None? ==>
              outcome == Failed(ServerError)
    ensures old(Gate(surveys, surveyId, answers)).None? && old(Plan(Snapshot(questionRepo), surveyId, answers)).Some? ==>
              outcome.Created?
    ensures outcome.Failed? ==> repository.responses == old(repository.responses)
    ensures outcome.Created? ==>
              var r := outcome.response;
              && old(Gate(surveys, surveyId, answers)).None?
              && fresh(r) && repository.responses == old(repository.responses) + [r]
              && r.survey == surveys[surveyId] && r.ipAddress == clientIp && r.submittedAt == Some(now) && r.id == None
              && old(Plan(Snapshot(questionRepo), surveyId, answers)).Some?
              && Holds(r, old(Plan(Snapshot(questionRepo), surveyId, answers)).value)
  {
    var gate := Gate(surveys, surveyId, answers);
    if gate.Some? {
      return Failed(gate.value);
    }
    outcome := Store(questionRepo, repository, surveys[surveyId], surveyId, answers, clientIp, now);
  }

  /** The checks `submit` makes before it builds anything, step by step as PHP makes them;
      `Submit` evaluates the same checks through `Gate`. */
  method CheckGate(surveys: map<int, Survey>, surveyId: int, answers: seq<AnswerInput>) returns (error: Option<HttpError>)
    ensures error == Gate(surveys, surveyId, answers)
  {
    if surveyId !in surveys {
      return Some(SurveyNotFound);
    }
    var survey := surveys[surveyId];
    if !survey.isActive {
      return Some(SurveyNotActive);
    }
    var required := RequiredQuestions(survey.questions);
    var missing := FirstUnanswered(required, answers);
    if missing.Some? {
      return Some(RequiredNotAnswered(required[missing.value].id));
    }
    return None;
  }

  /** Builds the response for a survey that passed the checks and stores it, unless an entry
      makes PHP fail. */
  method Store(questionRepo: map<int, Question>, repository: ResponseRepository, survey: Survey,
               surveyId: int, answers: seq<AnswerInput>, clientIp: Option<string>, now: int)
      returns (outcome: SubmitOutcome)
    modifies repository`responses
    ensures old(Plan(Snapshot(questionRepo), surveyId, answers)).None? ==>
              outcome == Failed(ServerError) && repository.responses == old(repository.responses)
    ensures old(Plan(Snapshot(questionRepo), surveyId, answers)).Some? ==> outcome.Created?
    ensures outcome.Failed? ==> outcome == Failed(ServerError) && repository.responses == old(repository.responses)
    ensures outcome.Created? ==>
              var r := outcome.response;
              && fresh(r) && repository.responses == old(repository.responses) + [r]
              && r.survey == survey && r.ipAddress == clientIp && r.submittedAt == Some(now) && r.id == None
              && old(Plan(Snapshot(questionRepo), surveyId, answers)).Some?
              && Holds(r, old(Plan(Snapshot(questionRepo), surveyId, answers)).value)
  {
    ghost var rows := Snapshot(questionRepo);
    assert Mirrors(rows, questionRepo);
    var response := new Response(now);
    response.SetSurvey(survey);
    response.SetIpAddress(clientIp);
    var stored := AddEntries(questionRepo, rows, surveyId, answers, response);
    if !stored {
      return Failed(ServerError);
    }
    repository.Persist(response);
    return Created(response);
  }

  /** The `switch` on the question's type: a new answer for the question holding the
      entry's value, or `None` when PHP raises a TypeError. */
  method NewAnswer(question: Question, value: Value) returns (answer: Option<Answer>)
    ensures answer.None? <==> Normalise(question.qtype, value).None?
    ensures answer.Some? ==>
              var n := Normalise(question.qtype, value).value;
              var a := answer.value;
              && fresh(a) && a.response == null && a.id == None && a.question == question
              && a.textValue == n.0 && a.selectedOptions == n.1 && a.ratingValue == n.2
    ensures answer.Some? && question.qtype == Some(TypeText) && value.Atom? && !value.a.Int? ==>
              answer.value.GetValue() == value
    ensures answer.Some? && question.qtype == Some(TypeRating) && value.Atom? && value.a.Int? ==>
              answer.value.GetValue() == value
    ensures answer.Some? && question.qtype in {Some(TypeSingleChoice), Some(TypeMultipleChoice)} && value.List? ==>
              answer.value.GetValue() == value
  {
    var a := new Answer();
    a.SetQuestion(question);
    if question.qtype == Some(TypeText) {
      var text := StringParameter(value);
      if text.None? {
        return None;
      }
      a.SetTextValue(text.value);
    } else if question.qtype == Some(TypeRating) {
      a.SetRatingValue(Some(IntCast(value)));
    } else if question.qtype == Some(TypeSingleChoice) || question.qtype == Some(TypeMultipleChoice) {
      var options := if value.List? then value.items else [value.a];
      a.SetSelectedOptions(Some(options));
    }
    return Some(a);
  }

  /** `rows` is what `submit` sees of the questions in `repo`. */
  predicate Mirrors(rows: map<int, QuestionRow>, repo: map<int, Question>)
    reads repo.Values, Owners(repo)
  {
    rows.Keys == repo.Keys && forall k :: k in repo ==> rows[k] == RowOf(repo[k])
  }

  /** The body of the loop over the entries, for one entry: skips it, adds its answer to
      `response`, or reports that PHP fails on it. */
  method AddEntry(questionRepo: map<int, Question>, ghost rows: map<int, QuestionRow>, surveyId: int,
                  entry: AnswerInput, response: Response, ghost fields: seq<AnswerFields>)
      returns (crashed: bool)
    requires rows.Keys == questionRepo.Keys
    requires entry.questionId.Some? && entry.questionId.value in questionRepo ==>
               rows[entry.questionId.value] == RowOf(questionRepo[entry.questionId.value])
    requires Holds(response, fields)
    modifies response`answers
    ensures crashed <==> Classify(rows, surveyId, entry).Crash?
    ensures !crashed ==> Holds(response, Extend(fields, Classify(rows, surveyId, entry)))
  {
    if entry.questionId.None? || entry.questionId.value == 0 || entry.questionId.value !in questionRepo {
      return false;
    }
    var question := questionRepo[entry.questionId.value];
    if question.survey == null {
      return true;
    }
    if question.survey.id != Some(surveyId) {
      return false;
    }
    crashed := AppendAnswer(question, entry.value, response, fields);
  }

  /** Creates the answer for a question of the survey and adds it to the response; `true`
      when PHP raises a TypeError instead. */
  method AppendAnswer(question: Question, value: Value, response: Response, ghost fields: seq<AnswerFields>)
      returns (crashed: bool)
    requires Holds(response, fields)
    modifies response`answers
    ensures crashed <==> Normalise(question.qtype, value).None?
    ensures !crashed ==>
              var n := Normalise(question.qtype, value).value;
              Holds(response, fields + [AnswerFields(question, n.0, n.1, n.2)])
  {
    var answer := NewAnswer(question, value);
    if answer.None? {
      return true;
    }
    var a := answer.value;
    ghost var before := response.answers;
    assert a !in before;
    response.AddAnswer(a);
    assert response.answers == before + [a];
    DistinctSnoc(before, a);
    return false;
  }

  /** The loop over the entries: adds one answer per kept entry to `response`, in order;
      `false` when an entry makes PHP fail. */
  method AddEntries(questionRepo: map<int, Question>, ghost rows: map<int, QuestionRow>, surveyId: int,
                    answers: seq<AnswerInput>, response: Response)
      returns (stored: bool)
    requires Mirrors(rows, questionRepo)
    requires response.answers == []
    modifies response`answers
    ensures stored <==> Plan(rows, surveyId, answers).Some?
    ensures stored ==> Holds(response, Plan(rows, surveyId, answers).value)
  {
    ghost var fields: seq<AnswerFields> := [];
    var i := 0;
    while i < |answers|
      invariant 0 <= i <= |answers|
      invariant PlanUpTo(rows, surveyId, answers, i) == Some(fields)
      invariant Holds(response, fields)
    {
      var id := answers[i].questionId;
      if id.Some? && id.value in questionRepo {
        ghost var q := questionRepo[id.value];
        assert old(Mirrors(rows, questionRepo));
        assert old(forall k :: k in questionRepo ==> rows[k] == RowOf(questionRepo[k]));
        assert old(rows[id.value] == RowOf(questionRepo[id.value]));
        assert RowOf(q) == old(RowOf(q));
      }
      var crashed := AddEntry(questionRepo, rows, surveyId, answers[i], response, fields);
      if crashed {
        PlanFailurePersists(rows, surveyId, answers, i + 1, |answers|);
        return false;
      }
      fields := Extend(fields, Classify(rows, surveyId, answers[i]));
      i := i + 1;
    }
    return true;
  }

  /** `GET /surveys/{surveyId}/responses`: the survey's responses, serialised. */
  function ResponsesOf(stored: seq<Response>, survey: Survey): (r: seq<Response>)
    reads stored
    ensures forall i :: 0 <= i < |r| ==> r[i] in stored && r[i].survey == survey
    ensures forall i :: 0 <= i < |stored| && stored[i].survey == survey ==> stored[i] in r
  {
    if stored == [] then []
    else (if stored[0].survey == survey then [stored[0]] else []) + ResponsesOf(stored[1..], survey)
  }

  datatype Reply<T> = Ok(value: T) | Error(error: HttpError)

  method List(surveys: map<int, Survey>, repository: ResponseRepository, surveyId: int)
      returns (reply: Reply<seq<ResponseArray>>)
    ensures surveyId !in surveys ==> reply == Error(SurveyNotFound)
    ensures surveyId in surveys ==>
              var rs := ResponsesOf(repository.responses, surveys[surveyId]);
              reply.Ok? && |reply.value| == |rs|
              && forall i :: 0 <= i < |rs| ==> reply.value[i] == rs[i].ToArray()
  {
    if surveyId !in surveys {
      return Error(SurveyNotFound);
    }
    var rs := ResponsesOf(repository.responses, surveys[surveyId]);
    var data: seq<ResponseArray> := [];
    for i := 0 to |rs|
      invariant |data| == i && forall k :: 0 <= k < i ==> data[k] == rs[k].ToArray()
    {
      data := data + [rs[i].ToArray()];
    }
    return Ok(data);
  }

}
