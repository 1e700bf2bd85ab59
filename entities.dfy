/** The backend's persisted entities (`backend/src/Entity`): surveys own questions, responses
    own answers, and an answer refers to its question. Each is a class whose setters change one
    field; the one-to-many links are kept from the "one" side, which also sets the back-reference.
    Identifiers are given by the database (absent until then) and timestamps are opaque numbers. */
module Entities {
  import opened Wrappers
  import opened Values
  import opened Seqs
  import Types

  const TypeText: string := "text"
  const TypeSingleChoice: string := "single_choice"
  const TypeMultipleChoice: string := "multiple_choice"
  const TypeRating: string := "rating"

  /** The question type constants: four names, pairwise different. */
  function QuestionTypeConstants(): (ts: seq<string>)
    ensures |ts| == 4 && Distinct(ts)
    ensures TypeText in ts && TypeRating in ts && TypeSingleChoice in ts && TypeMultipleChoice in ts
  {
    [TypeText, TypeSingleChoice, TypeMultipleChoice, TypeRating]
  }

  /** `Question::toArray()`. */
  datatype QuestionArray = QuestionArray(
    id: Option<int>, text: Option<string>, qtype: Option<string>,
    options: Option<seq<string>>, isRequired: bool, position: int)

  /** `Answer::toArray()`. */
  datatype AnswerArray = AnswerArray(id: Option<int>, questionId: Option<int>, value: Value)

  /** `Response::toArray()`. */
  datatype ResponseArray = ResponseArray(
    id: Option<int>, surveyId: Option<int>, submittedAt: Option<int>, answers: seq<AnswerArray>)

  /** `Survey::toArray()`; `questions` is present only in `toArrayWithQuestions()`. */
  datatype SurveyArray = SurveyArray(
    id: Option<int>, title: Option<string>, description: Option<string>, isActive: bool,
    surveyType: string, pages: Option<seq<Types.PageConfig>>,
    transitions: Option<seq<Types.TransitionRule>>, createdAt: Option<int>, updatedAt: Option<int>,
    questionsCount: nat, responsesCount: nat, questions: Option<seq<QuestionArray>>)

  /** `$collection->removeElement($x)`: drops the first occurrence, if any. */
  function RemoveFirst<T(==)>(s: seq<T>, x: T): (r: seq<T>)
    ensures x !in s ==> r == s
    ensures x in s ==> |r| == |s| - 1 && multiset(r) == multiset(s) - multiset{x}
  {
    if s == [] then []
    else
      assert s == [s[0]] + s[1..];
      if s[0] == x then s[1..] else [s[0]] + RemoveFirst(s[1..], x)
  }

  lemma DistinctTail<T>(s: seq<T>)
    requires s != [] && Distinct(s)
    ensures Distinct(s[1..])
  {
    forall i, j | 0 <= i < j < |s| - 1 ensures s[1..][i] != s[1..][j] {
      assert s[i + 1] != s[j + 1];
    }
  }

  lemma DistinctHeadNotInTail<T>(s: seq<T>)
    requires s != [] && Distinct(s)
    ensures s[0] !in multiset(s[1..])
  {
    assert s[0] !in s[1..];
  }

  lemma DistinctCons<T>(x: T, s: seq<T>)
    requires x !in s && Distinct(s)
    ensures Distinct([x] + s)
  {
    var t := [x] + s;
    forall i, j | 0 <= i < j < |t| ensures t[i] != t[j] {
      if i == 0 {
        assert t[j] == s[j - 1];
      } else {
        assert t[i] == s[i - 1] && t[j] == s[j - 1];
      }
    }
  }

  /** Removing from a collection without duplicates removes the element entirely and keeps the
      collection duplicate-free. */
  lemma {:induction false} RemoveFirstDistinct<T>(s: seq<T>, x: T)
    requires Distinct(s)
    ensures x !in RemoveFirst(s, x) && Distinct(RemoveFirst(s, x))
  {
    if s != [] {
      DistinctTail(s);
      if s[0] != x {
        var rest := RemoveFirst(s[1..], x);
        RemoveFirstDistinct(s[1..], x);
        assert multiset(rest) <= multiset(s[1..]);
        assert s[0] !in rest by {
          if s[0] in rest {
            assert s[0] in multiset(s[1..]);
            DistinctHeadNotInTail(s);
            assert false;
          }
        }
        DistinctCons(s[0], rest);
      }
    }
  }

  class Question {
    var id: Option<int>
    var text: Option<string>
    var qtype: Option<string>
    var options: Option<seq<string>>
    var isRequired: bool
    var position: int
    /** The `page_number` column; see the README's findings for why the model has it. */
    var pageNumber: Option<int>
    var survey: Survey?
    /** The inverse side of `Answer::$question`, as loaded from the database. */
    var answers: seq<Answer>

    constructor ()
      ensures id == None && text == None && qtype == None && options == None
      ensures isRequired && position == 0 && pageNumber == None
      ensures survey == null && answers == []
    {
      id, text, qtype, options := None, None, None, None;
      isRequired, position, pageNumber := true, 0, None;
      survey, answers := null, [];
    }

    method SetText(text': string)
      modifies this`text
      ensures text == Some(text')
    {
      text := Some(text');
    }

    method SetType(type': string)
      modifies this`qtype
      ensures qtype == Some(type')
    {
      qtype := Some(type');
    }

    method SetOptions(options': Option<seq<string>>)
      modifies this`options
      ensures options == options'
    {
      options := options';
    }

    method SetIsRequired(isRequired': bool)
      modifies this`isRequired
      ensures isRequired == isRequired'
    {
      isRequired := isRequired';
    }

    method SetPosition(position': int)
      modifies this`position
      ensures position == position'
    {
      position := position';
    }

    method SetPageNumber(pageNumber': Option<int>)
      modifies this`pageNumber
      ensures pageNumber == pageNumber'
    {
      pageNumber := pageNumber';
    }

    method SetSurvey(survey': Survey?)
      modifies this`survey
      ensures survey == survey'
    {
      survey := survey';
    }

    /** The six columns a client sees; the page number, the survey and the answers are not among them. */
    function ToArray(): (r: QuestionArray)
      reads this
      ensures r.id == id && r.text == text && r.qtype == qtype && r.options == options
      ensures r.isRequired == isRequired && r.position == position
    {
      QuestionArray(id, text, qtype, options, isRequired, position)
    }
  }

  /** `?string` as a JSON value. */
  function OptionalString(s: Option<string>): Value {
    if s.Some? then Atom(Str(s.value)) else Atom(Null)
  }

  /** `?int` as a JSON value. */
  function OptionalInt(n: Option<int>): Value {
    if n.Some? then Atom(Int(n.value)) else Atom(Null)
  }

  /** `?array` as a JSON value. */
  function OptionalList(xs: Option<seq<Scalar>>): Value {
    if xs.Some? then List(xs.value) else Atom(Null)
  }

  class Answer {
    var id: Option<int>
    var response: Response?
    var question: Question?
    var textValue: Option<string>
    var selectedOptions: Option<seq<Scalar>>
    var ratingValue: Option<int>

    constructor ()
      ensures id == None && response == null && question == null
      ensures textValue == None && selectedOptions == None && ratingValue == None
    {
      id, response, question := None, null, null;
      textValue, selectedOptions, ratingValue := None, None, None;
    }

    method SetResponse(response': Response?)
      modifies this`response
      ensures response == response'
    {
      response := response';
    }

    method SetQuestion(question': Question?)
      modifies this`question
      ensures question == question'
    {
      question := question';
    }

    method SetTextValue(textValue': Option<string>)
      modifies this`textValue
      ensures textValue == textValue'
    {
      textValue := textValue';
    }

    method SetSelectedOptions(selectedOptions': Option<seq<Scalar>>)
      modifies this`selectedOptions
      ensures selectedOptions == selectedOptions'
    {
      selectedOptions := selectedOptions';
    }

    method SetRatingValue(ratingValue': Option<int>)
      modifies this`ratingValue
      ensures ratingValue == ratingValue'
    {
      ratingValue := ratingValue';
    }

    /** The value column that matches the linked question's type; `null` for any other type
        and when no question is linked. */
    function GetValue(): (v: Value)
      reads this, question
      ensures question != null && question.qtype == Some(TypeText) ==> v == OptionalString(textValue)
      ensures question != null && question.qtype == Some(TypeRating) ==> v == OptionalInt(ratingValue)
      ensures (question != null && question.qtype in {Some(TypeSingleChoice), Some(TypeMultipleChoice)})
                ==> v == OptionalList(selectedOptions)
      ensures (question == null || question.qtype !in {Some(TypeText), Some(TypeRating), Some(TypeSingleChoice), Some(TypeMultipleChoice)})
                ==> v == Atom(Null)
    {
      var t := if question == null then None else question.qtype;
      if t == Some(TypeText) then OptionalString(textValue)
      else if t == Some(TypeRating) then OptionalInt(ratingValue)
      else if t == Some(TypeSingleChoice) || t == Some(TypeMultipleChoice) then OptionalList(selectedOptions)
      else Atom(Null)
    }

    /** The answer's id, its question's id (absent when unlinked) and its typed value. */
    function ToArray(): (r: AnswerArray)
      reads this, question
      ensures r.id == id && r.value == GetValue()
      ensures r.questionId == if question == null then None else question.id
    {
      AnswerArray(id, if question == null then None else question.id, GetValue())
    }
  }

  /** The questions linked from a sequence of answers (the objects their `toArray()` reads). */
  function LinkedQuestions(answers: seq<Answer>): set<Question>
    reads answers
  {
    set i | 0 <= i < |answers| && answers[i].question != null :: answers[i].question
  }

  class Response {
    var id: Option<int>
    var survey: Survey?
    var submittedAt: Option<int>
    var ipAddress: Option<string>
    var answers: seq<Answer>

    /** A new response, stamped with the clock reading `now`, has no answers. */
    constructor (now: int)
      ensures id == None && survey == null && ipAddress == None
      ensures submittedAt == Some(now) && answers == []
    {
      id, survey, ipAddress := None, null, None;
      submittedAt, answers := Some(now), [];
    }

    method SetSurvey(survey': Survey?)
      modifies this`survey
      ensures survey == survey'
    {
      survey := survey';
    }

    method SetSubmittedAt(submittedAt': int)
      modifies this`submittedAt
      ensures submittedAt == Some(submittedAt')
    {
      submittedAt := Some(submittedAt');
    }

    method SetIpAddress(ipAddress': Option<string>)
      modifies this`ipAddress
      ensures ipAddress == ipAddress'
    {
      ipAddress := ipAddress';
    }

    /** Appends an answer that is not yet in the collection and points it at this response;
        an answer already present changes nothing. */
    method AddAnswer(a: Answer)
      modifies this`answers, a`response
      ensures old(a in answers) ==> answers == old(answers) && a.response == old(a.response)
      ensures old(a !in answers) ==> answers == old(answers) + [a] && a.response == this
      ensures a in answers
      ensures Distinct(old(answers)) ==> Distinct(answers)
    {
      if a !in answers {
        answers := answers + [a];
        a.SetResponse(this);
      }
    }

    /** Removes an answer; its back-reference is cleared only when it pointed here. An absent
        answer changes nothing. */
    method RemoveAnswer(a: Answer)
      modifies this`answers, a`response
      ensures answers == RemoveFirst(old(answers), a)
      ensures a.response == if old(a in answers && a.response == this) then null else old(a.response)
      ensures Distinct(old(answers)) ==> a !in answers && Distinct(answers)
    {
      if Distinct(answers) {
        RemoveFirstDistinct(answers, a);
      }
      if a in answers {
        answers := RemoveFirst(answers, a);
        if a.response == this {
          a.SetResponse(null);
        }
      }
    }

    /** One entry per answer, in collection order. */
    function ToArray(): (r: ResponseArray)
      reads this, survey, answers, LinkedQuestions(answers)
      ensures r.id == id && r.submittedAt == submittedAt
      ensures r.surveyId == if survey == null then None else survey.id
      ensures |r.answers| == |answers| && forall i :: 0 <= i < |answers| ==> r.answers[i] == answers[i].ToArray()
    {
      ResponseArray(id, if survey == null then None else survey.id, submittedAt, AnswerArrays(answers))
    }
  }

  function AnswerArrays(answers: seq<Answer>): (r: seq<AnswerArray>)
    reads answers, LinkedQuestions(answers)
    ensures |r| == |answers| && forall i :: 0 <= i < |answers| ==> r[i] == answers[i].ToArray()
  {
    if answers == [] then []
    else
      assert LinkedQuestions(answers[1..]) <= LinkedQuestions(answers) by {
        forall q | q in LinkedQuestions(answers[1..]) ensures q in LinkedQuestions(answers) {
          var i :| 0 <= i < |answers[1..]| && answers[1..][i].question != null && answers[1..][i].question == q;
          assert answers[i + 1].question == q;
        }
      }
      [answers[0].ToArray()] + AnswerArrays(answers[1..])
  }

  function QuestionArrays(questions: seq<Question>): (r: seq<QuestionArray>)
    reads questions
    ensures |r| == |questions| && forall i :: 0 <= i < |questions| ==> r[i] == questions[i].ToArray()
  {
    if questions == [] then [] else [questions[0].ToArray()] + QuestionArrays(questions[1..])
  }

  class Survey {
    var id: Option<int>
    var title: Option<string>
    var description: Option<string>
    var isActive: bool
    var createdAt: Option<int>
    var updatedAt: Option<int>
    var surveyType: string
    var pages: Option<seq<Types.PageConfig>>
    var transitions: Option<seq<Types.TransitionRule>>
    var questions: seq<Question>
    var responses: seq<Response>

    /** A new survey, stamped with the clock reading `now`: active, single-page, no questions
        and no responses. */
    constructor (now: int)
      ensures id == None && title == None && description == None && updatedAt == None
      ensures isActive && surveyType == "single_page" && pages == None && transitions == None
      ensures createdAt == Some(now) && questions == [] && responses == []
    {
      id, title, description, updatedAt := None, None, None, None;
      isActive, surveyType, pages, transitions := true, "single_page", None, None;
      createdAt, questions, responses := Some(now), [], [];
    }

    method SetTitle(title': string)
      modifies this`title
      ensures title == Some(title')
    {
      title := Some(title');
    }

    method SetDescription(description': Option<string>)
      modifies this`description
      ensures description == description'
    {
      description := description';
    }

    method SetIsActive(isActive': bool)
      modifies this`isActive
      ensures isActive == isActive'
    {
      isActive := isActive';
    }

    method SetCreatedAt(createdAt': int)
      modifies this`createdAt
      ensures createdAt == Some(createdAt')
    {
      createdAt := Some(createdAt');
    }

    method SetUpdatedAt(updatedAt': Option<int>)
      modifies this`updatedAt
      ensures updatedAt == updatedAt'
    {
      updatedAt := updatedAt';
    }

    method SetSurveyType(surveyType': string)
      modifies this`surveyType
      ensures surveyType == surveyType'
    {
      surveyType := surveyType';
    }

    method SetPages(pages': Option<seq<Types.PageConfig>>)
      modifies this`pages
      ensures pages == pages'
    {
      pages := pages';
    }

    method SetTransitions(transitions': Option<seq<Types.TransitionRule>>)
      modifies this`transitions
      ensures transitions == transitions'
    {
      transitions := transitions';
    }

    /** Appends a question that is not yet in the collection and points it at this survey;
        a question already present changes nothing. */
    method AddQuestion(q: Question)
      modifies this`questions, q`survey
      ensures old(q in questions) ==> questions == old(questions) && q.survey == old(q.survey)
      ensures old(q !in questions) ==> questions == old(questions) + [q] && q.survey == this
      ensures q in questions
      ensures Distinct(old(questions)) ==> Distinct(questions)
    {
      if q !in questions {
        questions := questions + [q];
        q.SetSurvey(this);
      }
    }

    /** Removes a question; its back-reference is cleared only when it pointed here. An absent
        question changes nothing. */
    method RemoveQuestion(q: Question)
      modifies this`questions, q`survey
      ensures questions == RemoveFirst(old(questions), q)
      ensures q.survey == if old(q in questions && q.survey == this) then null else old(q.survey)
      ensures Distinct(old(questions)) ==> q !in questions && Distinct(questions)
    {
      if Distinct(questions) {
        RemoveFirstDistinct(questions, q);
      }
      if q in questions {
        questions := RemoveFirst(questions, q);
        if q.survey == this {
          q.SetSurvey(null);
        }
      }
    }

    /** The survey's columns with the sizes of its two collections. */
    function ToArray(): (r: SurveyArray)
      reads this
      ensures r.questionsCount == |questions| && r.responsesCount == |responses|
      ensures r.id == id && r.title == title && r.description == description && r.isActive == isActive
      ensures r.surveyType == surveyType && r.pages == pages && r.transitions == transitions
      ensures r.createdAt == createdAt && r.updatedAt == updatedAt && r.questions == None
    {
      SurveyArray(id, title, description, isActive, surveyType, pages, transitions,
                  createdAt, updatedAt, |questions|, |responses|, None)
    }

    /** `toArray()` plus one entry per question, in collection order. */
    function ToArrayWithQuestions(): (r: SurveyArray)
      reads this, questions
      ensures r == ToArray().(questions := r.questions)
      ensures r.questions.Some? && |r.questions.value| == |questions|
      ensures forall i :: 0 <= i < |questions| ==> r.questions.value[i] == questions[i].ToArray()
    {
      ToArray().(questions := Some(QuestionArrays(questions)))
    }
  }
}
