/** The respondent page (`frontend/src/pages/PublicSurvey.tsx`): it loads one survey (an
    inactive one is never shown), records the answers the respondent gives per question id,
    checks the required questions before sending, and sends the answers as a list of
    `{questionId, value}` entries. The requests are outside the model: a load or a submission is
    given its outcome as a parameter. */
module PublicSurveyPage {
  import opened Wrappers
  import opened Seqs
  import opened Values
  import opened Types
  import RC = ResponseController

  /** The messages the page shows. */
  datatype PageError =
    | NotFound
    | Inactive
    | Unanswered(questionText: string)
    | SubmitFailed(message: string)

  /** How the backend answered a submission: accepted, or rejected with the `error` text of
      its reply when it had one. */
  datatype SubmitResult = Accepted | Rejected(serverMessage: Option<string>)

  /** The message shown when a rejection carries no text of its own. */
  const DefaultSubmitMessage: string := "Ошибка отправки ответов"

  /** `err.response?.data?.error || 'Ошибка отправки ответов'`. */
  function RejectionMessage(serverMessage: Option<string>): (m: string)
    ensures serverMessage.Some? && serverMessage.value != "" ==> m == serverMessage.value
    ensures serverMessage.None? || serverMessage.value == "" ==> m == DefaultSubmitMessage
  {
    if serverMessage.Some? && serverMessage.value != "" then serverMessage.value else DefaultSubmitMessage
  }

  // ---------------------------------------------------------------------------------------
  // Multiple-choice answers

  /** `(answers[questionId] as string[]) || []`: the options ticked so far. Only the checkboxes
      write a multiple-choice question's answer, so it is a list or absent. */
  function Ticked(answers: map<int, Value>, qid: int): (r: seq<Scalar>)
    ensures qid !in answers ==> r == []
    ensures r != [] ==> qid in answers && answers[qid] == List(r)
  {
    if qid in answers && answers[qid].List? then answers[qid].items else []
  }

  /** `handleMultipleChoice`: a ticked option is appended, an unticked one is removed wherever
      it occurs; the other questions' answers are unchanged. */
  function Tick(answers: map<int, Value>, qid: int, option: string, checked: bool): (r: map<int, Value>)
    ensures r.Keys == answers.Keys + {qid}
    ensures forall k :: k in answers && k != qid ==> r[k] == answers[k]
    ensures checked ==> r[qid] == List(Ticked(answers, qid) + [Str(option)])
    ensures !checked ==> r[qid].List?
                         && forall x :: x in r[qid].items <==> x in Ticked(answers, qid) && x != Str(option)
  {
    var current := Ticked(answers, qid);
    answers[qid := List(if checked then current + [Str(option)] else Filter(current, (x: Scalar) => x != Str(option)))]
  }

  /** After the event the checkbox shows what was chosen. */
  lemma TickShowsTheChoice(answers: map<int, Value>, qid: int, option: string, checked: bool)
    ensures Str(option) in Ticked(Tick(answers, qid, option, checked), qid) <==> checked
  {
    var r := Tick(answers, qid, option, checked);
    if checked {
      assert Ticked(r, qid)[|Ticked(answers, qid)|] == Str(option);
    }
  }

  /** Unticking an option just ticked gives the earlier selection back. */
  lemma {:induction false} UntickUndoesTick(answers: map<int, Value>, qid: int, option: string)
    requires Str(option) !in Ticked(answers, qid)
    ensures Ticked(Tick(Tick(answers, qid, option, true), qid, option, false), qid) == Ticked(answers, qid)
  {
    var current := Ticked(answers, qid);
    var keep := (x: Scalar) => x != Str(option);
    FilterAppend(current, [Str(option)], keep);
    FilterAll(current, keep);
    assert Filter([Str(option)], keep) == [];
  }

  // ---------------------------------------------------------------------------------------
  // The required-answer check

  /** `answer === undefined || answer === null || answer === '' || (Array.isArray(answer) &&
      answer.length === 0)`, for the answer under the question's id (a question without an id
      looks up a key no answer has). */
  predicate IsUnanswered(answers: map<int, Value>, q: Question)
    ensures q.id.None? ==> IsUnanswered(answers, q)
    ensures q.id.Some? && q.id.value in answers && answers[q.id.value].List? && answers[q.id.value].items != [] ==>
              !IsUnanswered(answers, q)
    ensures q.id.Some? && q.id.value in answers && answers[q.id.value] == Atom(Str("")) ==> IsUnanswered(answers, q)
  {
    q.id.None? || q.id.value !in answers || IsEmptyAnswer(answers[q.id.value])
  }

  /** `survey.questions?.filter(q => q.isRequired) || []`. */
  function RequiredOf(survey: Survey): (r: seq<Question>)
    ensures forall i :: 0 <= i < |r| ==> r[i].isRequired && r[i] in survey.questions.GetOr([])
    ensures forall q :: q in survey.questions.GetOr([]) && q.isRequired ==> q in r
  {
    Filter(survey.questions.GetOr([]), (q: Question) => q.isRequired)
  }

  /** The first required question without an answer, if any. */
  function FirstUnanswered(required: seq<Question>, answers: map<int, Value>): (r: Option<nat>)
    ensures r.Some? ==> r.value < |required| && IsUnanswered(answers, required[r.value])
                        && forall j :: 0 <= j < r.value ==> !IsUnanswered(answers, required[j])
    ensures r.None? ==> forall j :: 0 <= j < |required| ==> !IsUnanswered(answers, required[j])
  {
    FindIndex(required, (q: Question) => IsUnanswered(answers, q))
  }

  /** The loop over the required questions, which stops at the first one without an answer. */
  method FindUnanswered(required: seq<Question>, answers: map<int, Value>) returns (missing: Option<nat>)
    ensures missing == FirstUnanswered(required, answers)
  {
    for i := 0 to |required|
      invariant forall j :: 0 <= j < i ==> !IsUnanswered(answers, required[j])
    {
      var q := required[i];
      if q.id.None? || q.id.value !in answers {
        return Some(i);
      }
      var answer := answers[q.id.value];
      if answer == Atom(Null) || answer == Atom(Str("")) || (answer.List? && |answer.items| == 0) {
        return Some(i);
      }
    }
    return None;
  }

  // ---------------------------------------------------------------------------------------
  // The request body

  /** A non-empty set of keys has a key. */
  lemma SomeKey(keys: set<int>)
    requires keys != {}
    ensures exists m :: m in keys
  {
    if forall m :: m !in keys {
      assert false;
    }
  }

  /** The smaller of a key and the least of the other keys is the least key. */
  lemma LeastOfRest(keys: set<int>, x: int, rest: int)
    requires x in keys && rest in keys - {x} && forall k :: k in keys - {x} ==> rest <= k
    ensures var m := if x < rest then x else rest;
            m in keys && forall k :: k in keys ==> m <= k
  {
    forall k | k in keys
      ensures (if x < rest then x else rest) <= k
    {
      if k != x {
        assert k in keys - {x};
      }
    }
  }

  /** The smallest key of a non-empty set. */
  lemma LeastKey(keys: set<int>) returns (m: int)
    requires keys != {}
    ensures m in keys && forall k :: k in keys ==> m <= k
  {
    SomeKey(keys);
    var x :| x in keys;
    if keys == {x} {
      m := x;
    } else {
      var rest := LeastKey(keys - {x});
      LeastOfRest(keys, x, rest);
      m := if x < rest then x else rest;
    }
  }

  /** A non-empty set of keys has a smallest key. */
  lemma LeastExists(keys: set<int>)
    requires keys != {}
    ensures exists m :: m in keys && forall k :: k in keys ==> m <= k
  {
    var m := LeastKey(keys);
  }

  /** The keys in ascending order: the order `Object.entries` lists integer keys in. */
  function SortedKeys(keys: set<int>): (r: seq<int>)
    ensures forall k :: k in r <==> k in keys
    ensures forall i, j :: 0 <= i < j < |r| ==> r[i] < r[j]
  {
    if keys == {} then []
    else
      LeastExists(keys);
      var m :| m in keys && forall k :: k in keys ==> m <= k;
      var rest := SortedKeys(keys - {m});
      assert forall i :: 0 <= i < |rest| ==> m < rest[i];
      [m] + rest
  }

  /** One entry per key, with the key's value. */
  function Entries(answers: map<int, Value>, ks: seq<int>): (r: seq<WireAnswer>)
    requires forall i :: 0 <= i < |ks| ==> ks[i] in answers
    ensures |r| == |ks|
    ensures forall i :: 0 <= i < |ks| ==> r[i] == WireAnswer(ks[i], answers[ks[i]])
  {
    if ks == [] then [] else [WireAnswer(ks[0], answers[ks[0]])] + Entries(answers, ks[1..])
  }

  /** Some entry carries the question id. */
  predicate Listed(r: seq<WireAnswer>, k: int) {
    exists i :: 0 <= i < |r| && r[i].questionId == k
  }

  /** Every listed key has its entry. */
  lemma EntriesListEveryKey(answers: map<int, Value>, ks: seq<int>)
    requires forall i :: 0 <= i < |ks| ==> ks[i] in answers
    ensures forall k :: k in ks ==> Listed(Entries(answers, ks), k)
  {
    var r := Entries(answers, ks);
    forall k | k in ks
      ensures Listed(r, k)
    {
      var i :| 0 <= i < |ks| && ks[i] == k;
      assert r[i].questionId == k;
    }
  }

  /** `Object.entries(answers).map(([questionId, value]) => ({ questionId: parseInt(questionId),
      value }))`: one entry per answered question id, in ascending id order, with its value. */
  function FormatAnswers(answers: map<int, Value>): (r: seq<WireAnswer>)
    ensures forall i :: 0 <= i < |r| ==> r[i].questionId in answers && r[i].value == answers[r[i].questionId]
    ensures forall k :: k in answers ==> Listed(r, k)
    ensures forall i, j :: 0 <= i < j < |r| ==> r[i].questionId < r[j].questionId
  {
    var ks := SortedKeys(answers.Keys);
    EntriesListEveryKey(answers, ks);
    Entries(answers, ks)
  }

  /** What the backend decodes one entry into. */
  function Received(w: WireAnswer): (a: RC.AnswerInput)
    ensures a.questionId == Some(w.questionId) && a.value == w.value
  {
    RC.AnswerInput(Some(w.questionId), w.value)
  }

  /** A submission the page lets through passes the backend's required-answer check: every
      required question the page knows has an id, and the list sent holds a non-empty answer
      under it. */
  lemma PassingTheCheckPassesTheBackend(required: seq<Question>, answers: map<int, Value>)
    requires forall j :: 0 <= j < |required| ==> !IsUnanswered(answers, required[j])
    ensures var sent := Map(FormatAnswers(answers), Received);
            forall j :: 0 <= j < |required| ==>
              required[j].id.Some? && RC.Answered(Some(required[j].id.value as int), sent)
  {
    var wire := FormatAnswers(answers);
    var sent := Map(wire, Received);
    forall j | 0 <= j < |required|
      ensures required[j].id.Some? && RC.Answered(Some(required[j].id.value as int), sent)
    {
      var id: int := required[j].id.value;
      var i :| 0 <= i < |wire| && wire[i].questionId == id;
      assert sent[i] == Received(wire[i]);
      assert RC.LooseEquals(sent[i].questionId, Some(id)) && !IsEmptyAnswer(sent[i].value);
    }
  }

  // ---------------------------------------------------------------------------------------
  // The page

  class Page {
    var survey: Option<Survey>
    var answers: map<int, Value>
    var error: Option<PageError>
    var submitting: bool

    /** A survey on screen is active. */
    predicate Valid()
      reads this
    {
      survey.Some? ==> survey.value.isActive
    }

    constructor ()
      ensures Valid() && survey.None? && answers == map[] && error.None? && !submitting
    {
      survey := None;
      answers := map[];
      error := None;
      submitting := false;
    }

    /** `loadSurvey`, given what the request returned (`None` when it failed): an inactive
        survey is refused with a message and never shown. */
    method Load(loaded: Option<Survey>)
      requires Valid()
      modifies this`survey, this`error
      ensures Valid()
      ensures loaded.None? ==> error == Some(NotFound) && survey == old(survey)
      ensures loaded.Some? && !loaded.value.isActive ==> error == Some(Inactive) && survey == old(survey)
      ensures loaded.Some? && loaded.value.isActive ==> survey == loaded && error == old(error)
    {
      if loaded.None? {
        error := Some(NotFound);
        return;
      }
      if !loaded.value.isActive {
        error := Some(Inactive);
        return;
      }
      survey := loaded;
    }

    /** `updateAnswer`: the question's answer is replaced; no other answer changes. */
    method UpdateAnswer(qid: int, value: Value)
      modifies this`answers
      ensures answers == old(answers)[qid := value]
    {
      answers := answers[qid := value];
    }

    /** A checkbox of a multiple-choice question. */
    method TickOption(qid: int, option: string, checked: bool)
      modifies this`answers
      ensures answers == Tick(old(answers), qid, option, checked)
    {
      answers := Tick(answers, qid, option, checked);
    }

    /** `handleSubmit`: without a survey nothing happens; an unanswered required question sets
        a message naming it and nothing is sent; otherwise the message is cleared, the answers
        are sent, and a rejection sets its message. The answers are never changed. */
    method Submit(result: SubmitResult) returns (sent: Option<seq<WireAnswer>>)
      requires Valid()
      modifies this`error, this`submitting
      ensures Valid()
      ensures survey.None? ==> sent.None? && error == old(error) && submitting == old(submitting)
      ensures survey.Some? ==>
                var required := RequiredOf(survey.value);
                match FirstUnanswered(required, answers)
                case Some(k) =>
                  sent.None? && error == Some(Unanswered(required[k].text)) && submitting == old(submitting)
                case None =>
                  && sent == Some(FormatAnswers(answers)) && !submitting
                  && error == (if result.Accepted? then None else Some(SubmitFailed(RejectionMessage(result.serverMessage))))
    {
      if survey.None? {
        return None;
      }
      var required := RequiredOf(survey.value);
      var missing := FindUnanswered(required, answers);
      if missing.Some? {
        error := Some(Unanswered(required[missing.value].text));
        return None;
      }
      submitting := true;
      error := None;
      sent := Some(FormatAnswers(answers));
      if result.Rejected? {
        error := Some(SubmitFailed(RejectionMessage(result.serverMessage)));
      }
      submitting := false;
    }
  }
}
