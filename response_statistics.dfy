/** The statistics endpoint of `backend/src/Controller/ResponseController.php`: per question,
    the number of answers and a type-specific summary (average and distribution of ratings,
    counts per selected option, the non-empty texts). */
module ResponseStatistics {
  import opened Wrappers
  import opened Values
  import opened Seqs
  import opened Php
  import opened Counting
  import opened Entities
  import opened ResponseController

  /** The non-null ratings of the answers, in order. */
  function Ratings(answers: seq<Answer>): (r: seq<int>)
    reads answers
    ensures |r| <= |answers|
  {
    if answers == [] then []
    else
      var last := answers[|answers| - 1];
      Ratings(answers[..|answers| - 1]) + (if last.ratingValue.Some? then [last.ratingValue.value] else [])
  }

  /** All selected options of the answers, in order; a null selection counts as none. */
  function Selections(answers: seq<Answer>): seq<Scalar>
    reads answers
  {
    if answers == [] then []
    else Selections(answers[..|answers| - 1]) + answers[|answers| - 1].selectedOptions.GetOr([])
  }

  /** The truthy text values of the answers, in order. */
  function TextAnswers(answers: seq<Answer>): (r: seq<string>)
    reads answers
    ensures |r| <= |answers|
    ensures forall i :: 0 <= i < |r| ==> Truthy(Some(r[i]))
  {
    if answers == [] then []
    else
      var last := answers[|answers| - 1];
      TextAnswers(answers[..|answers| - 1]) + (if Truthy(last.textValue) then [last.textValue.value] else [])
  }

  function Sum(xs: seq<int>): int {
    if xs == [] then 0 else Sum(xs[..|xs| - 1]) + xs[|xs| - 1]
  }

  /** `round($n / $d)` on the exact quotient: the nearest integer, halves away from zero. */
  function RoundHalfAwayFromZero(n: int, d: int): (r: int)
    requires d > 0
    ensures n >= 0 ==> r >= 0
    ensures n <= 0 ==> r <= 0
  {
    if n >= 0 then (2 * n + d) / (2 * d) else -((-2 * n + d) / (2 * d))
  }

  /** `round(array_sum($ratings) / count($ratings), 2)`, in hundredths; `0` without ratings. */
  function AverageHundredths(ratings: seq<int>): (r: int)
    ensures ratings == [] ==> r == 0
    ensures ratings != [] ==> -|ratings| <= 2 * (100 * Sum(ratings) - r * |ratings|) <= |ratings|
  {
    if |ratings| == 0 then 0
    else
      RoundingIsNearest(100 * Sum(ratings), |ratings|);
      RoundHalfAwayFromZero(100 * Sum(ratings), |ratings|)
  }

  /** The type-specific part of a question's statistics. */
  datatype Detail =
    | NoDetail
    | RatingDetail(averageHundredths: int, distribution: seq<Tally<int>>)
    | ChoiceDetail(optionCounts: seq<Tally<Key>>)
    | TextDetail(texts: seq<string>)

  datatype QuestionStats = QuestionStats(
    questionId: Option<int>, text: Option<string>, qtype: Option<string>, totalAnswers: nat, detail: Detail)

  datatype Report = Report(surveyId: int, totalResponses: nat, questions: seq<QuestionStats>)

  function DetailOf(qtype: Option<string>, answers: seq<Answer>): Detail
    reads answers
  {
    if qtype == Some(TypeRating) then
      RatingDetail(AverageHundredths(Ratings(answers)), CountValues(Ratings(answers)))
    else if qtype == Some(TypeSingleChoice) || qtype == Some(TypeMultipleChoice) then
      ChoiceDetail(CountValues(Map(Selections(answers), ArrayKey)))
    else if qtype == Some(TypeText) then TextDetail(TextAnswers(answers))
    else NoDetail
  }

  /** The entry `statistics` reports for one question. */
  function StatsOf(q: Question): QuestionStats
    reads q, q.answers
  {
    QuestionStats(q.id, q.text, q.qtype, |q.answers|, DetailOf(q.qtype, q.answers))
  }

  /** The answers of the questions, the objects `statistics` reads. */
  function AnswersOf(questions: seq<Question>): set<Answer>
    reads questions
  {
    set q, a | q in questions && a in q.answers :: a
  }

  /** `GET /surveys/{surveyId}/statistics`: 404 for a missing survey; otherwise the number of
      stored responses of the survey and one entry per question, in collection order. */
  method Statistics(surveys: map<int, Survey>, repository: ResponseRepository, surveyId: int)
      returns (reply: Reply<Report>)
    ensures surveyId !in surveys ==> reply == Error(SurveyNotFound)
    ensures surveyId in surveys ==>
              var survey := surveys[surveyId];
              && reply.Ok? && reply.value.surveyId == surveyId
              && reply.value.totalResponses == |ResponsesOf(repository.responses, survey)|
              && |reply.value.questions| == |survey.questions|
              && forall k :: 0 <= k < |survey.questions| ==> reply.value.questions[k] == StatsOf(survey.questions[k])
  {
    if surveyId !in surveys {
      return Error(SurveyNotFound);
    }
    var survey := surveys[surveyId];
    var totalResponses := |ResponsesOf(repository.responses, survey)|;
    var questionStats: seq<QuestionStats> := [];
    for k := 0 to |survey.questions|
      invariant |questionStats| == k
      invariant forall m :: 0 <= m < k ==> questionStats[m] == StatsOf(survey.questions[m])
    {
      var stats := QuestionStatistics(survey.questions[k]);
      questionStats := questionStats + [stats];
    }
    return Ok(Report(surveyId, totalResponses, questionStats));
  }

  /** The body of the loop over the questions: counts the answers, then aggregates them by
      the question's type. */
  method QuestionStatistics(q: Question) returns (stats: QuestionStats)
    ensures stats == StatsOf(q)
  {
    var answers := q.answers;
    var detail := NoDetail;
    if q.qtype == Some(TypeRating) {
      var ratings := CollectRatings(answers);
      var average := if |ratings| > 0 then RoundHalfAwayFromZero(100 * Sum(ratings), |ratings|) else 0;
      detail := RatingDetail(average, CountValues(ratings));
    } else if q.qtype == Some(TypeSingleChoice) || q.qtype == Some(TypeMultipleChoice) {
      var optionCounts := CountOptions(answers);
      detail := ChoiceDetail(optionCounts);
    } else if q.qtype == Some(TypeText) {
      var texts := CollectTexts(answers);
      detail := TextDetail(texts);
    }
    return QuestionStats(q.id, q.text, q.qtype, |answers|, detail);
  }

  method CollectRatings(answers: seq<Answer>) returns (ratings: seq<int>)
    ensures ratings == Ratings(answers)
  {
    ratings := [];
    for j := 0 to |answers|
      invariant ratings == Ratings(answers[..j])
    {
      assert answers[..j + 1][..j] == answers[..j];
      var rating := answers[j].ratingValue;
      if rating.Some? {
        ratings := ratings + [rating.value];
      }
    }
    assert answers[..|answers|] == answers;
  }

  /** The nested loop `$optionCounts[$option] = ($optionCounts[$option] ?? 0) + 1`. */
  method CountOptions(answers: seq<Answer>) returns (optionCounts: seq<Tally<Key>>)
    ensures optionCounts == CountValues(Map(Selections(answers), ArrayKey))
  {
    optionCounts := [];
    for j := 0 to |answers|
      invariant optionCounts == CountValues(Map(Selections(answers[..j]), ArrayKey))
    {
      assert answers[..j + 1][..j] == answers[..j];
      var selected := answers[j].selectedOptions.GetOr([]);
      optionCounts := CountSelected(optionCounts, Selections(answers[..j]), selected);
    }
    assert answers[..|answers|] == answers;
  }

  /** The inner loop over one answer's options. */
  method CountSelected(counts: seq<Tally<Key>>, ghost done: seq<Scalar>, selected: seq<Scalar>)
      returns (r: seq<Tally<Key>>)
    requires counts == CountValues(Map(done, ArrayKey))
    ensures r == CountValues(Map(done + selected, ArrayKey))
  {
    r := counts;
    assert done + selected[..0] == done;
    for m := 0 to |selected|
      invariant r == CountValues(Map(done + selected[..m], ArrayKey))
    {
      CountOneMore(done, selected, m);
      r := Bump(r, ArrayKey(selected[m]));
    }
    assert done + selected[..|selected|] == done + selected;
  }

  /** Counting one more option of the answer bumps that option's tally. */
  lemma CountOneMore(done: seq<Scalar>, selected: seq<Scalar>, m: nat)
    requires m < |selected|
    ensures CountValues(Map(done + selected[..m + 1], ArrayKey))
         == Bump(CountValues(Map(done + selected[..m], ArrayKey)), ArrayKey(selected[m]))
  {
    var prefix := done + selected[..m];
    assert done + selected[..m + 1] == prefix + [selected[m]];
    MapSnoc(prefix, selected[m], ArrayKey);
    CountValuesSnoc(Map(prefix, ArrayKey), ArrayKey(selected[m]));
  }

  method CollectTexts(answers: seq<Answer>) returns (texts: seq<string>)
    ensures texts == TextAnswers(answers)
  {
    texts := [];
    for j := 0 to |answers|
      invariant texts == TextAnswers(answers[..j])
    {
      assert answers[..j + 1][..j] == answers[..j];
      var text := answers[j].textValue;
      if Truthy(text) {
        texts := texts + [text.value];
      }
    }
    assert answers[..|answers|] == answers;
  }

  lemma MapSnoc<T, U>(s: seq<T>, x: T, f: T -> U)
    ensures Map(s + [x], f) == Map(s, f) + [f(x)]
  {
  }

  // ---------------------------------------------------------------------------------------
  // What the statistics mean

  /** A rating is reported exactly when some answer carries it. */
  lemma {:induction false} RatingsAreTheAnswersRatings(answers: seq<Answer>, x: int)
    ensures x in Ratings(answers) <==> exists i :: 0 <= i < |answers| && answers[i].ratingValue == Some(x)
  {
    if answers != [] {
      var init := answers[..|answers| - 1];
      RatingsAreTheAnswersRatings(init, x);
      if x in Ratings(init) {
        var i :| 0 <= i < |init| && init[i].ratingValue == Some(x);
        assert answers[i] == init[i];
      }
      if exists i :: 0 <= i < |answers| && answers[i].ratingValue == Some(x) {
        var i :| 0 <= i < |answers| && answers[i].ratingValue == Some(x);
        if i < |init| {
          assert init[i] == answers[i];
        }
      }
    }
  }

  /** A text is reported exactly when some answer carries it and it is truthy. */
  lemma {:induction false} TextsAreTheTruthyTexts(answers: seq<Answer>, t: string)
    ensures t in TextAnswers(answers) <==>
              Truthy(Some(t)) && exists i :: 0 <= i < |answers| && answers[i].textValue == Some(t)
  {
    if answers != [] {
      var init := answers[..|answers| - 1];
      TextsAreTheTruthyTexts(init, t);
      if t in TextAnswers(init) {
        var i :| 0 <= i < |init| && init[i].textValue == Some(t);
        assert answers[i] == init[i];
      }
      if Truthy(Some(t)) && exists i :: 0 <= i < |answers| && answers[i].textValue == Some(t) {
        var i :| 0 <= i < |answers| && answers[i].textValue == Some(t);
        if i < |init| {
          assert init[i] == answers[i];
        }
      }
    }
  }

  /** The rounded quotient is within half a unit of `n / d`; a tie goes away from zero. */
  lemma RoundingIsNearest(n: int, d: int)
    requires d > 0
    ensures var r := RoundHalfAwayFromZero(n, d);
            && -d <= 2 * (n - r * d) <= d
            && (2 * (n - r * d) == -d ==> n >= 0)
            && (2 * (n - r * d) == d ==> n < 0)
  {
    var r := RoundHalfAwayFromZero(n, d);
    if n >= 0 {
      var q := (2 * n + d) / (2 * d);
      assert 2 * n + d == q * (2 * d) + (2 * n + d) % (2 * d);
      assert r == q;
      assert 2 * (n - r * d) == 2 * n - q * (2 * d);
    } else {
      var q := (-2 * n + d) / (2 * d);
      assert -2 * n + d == q * (2 * d) + (-2 * n + d) % (2 * d);
      assert r == -q;
      assert 2 * (n - r * d) == 2 * n + q * (2 * d);
    }
  }

  /** Rounding is symmetric about zero. */
  lemma RoundingIsSymmetric(n: int, d: int)
    requires d > 0
    ensures RoundHalfAwayFromZero(-n, d) == -RoundHalfAwayFromZero(n, d)
  {
  }

  lemma {:induction false} SumBounds(xs: seq<int>, lo: int, hi: int)
    requires forall i :: 0 <= i < |xs| ==> lo <= xs[i] <= hi
    ensures |xs| * lo <= Sum(xs) <= |xs| * hi
  {
    if xs != [] {
      SumBounds(xs[..|xs| - 1], lo, hi);
    }
  }

  /** A quotient between two integers rounds to a value between them. */
  lemma RoundingStaysBetween(n: int, d: int, lo: int, hi: int)
    requires d > 0 && lo * d <= n <= hi * d
    ensures lo <= RoundHalfAwayFromZero(n, d) <= hi
  {
    RoundingIsNearest(n, d);
    NearestStaysBetween(n, d, lo, hi, RoundHalfAwayFromZero(n, d));
  }

  /** Any integer within half a unit of `n / d` lies between integer bounds of `n / d`. */
  lemma NearestStaysBetween(n: int, d: int, lo: int, hi: int, r: int)
    requires d > 0 && lo * d <= n <= hi * d
    requires -d <= 2 * (n - r * d) <= d
    ensures lo <= r <= hi
  {
    if r < lo {
      BelowByOne(r, lo, d);
      assert false;
    }
    if r > hi {
      BelowByOne(hi, r, d);
      assert false;
    }
  }

  lemma BelowByOne(a: int, b: int, d: int)
    requires a < b && d >= 0
    ensures a * d <= b * d - d
  {
    MultiplyMonotone(a, b - 1, d);
    assert (b - 1) * d == b * d - d;
  }

  lemma MultiplyMonotone(a: int, b: int, d: int)
    requires a <= b && d >= 0
    ensures a * d <= b * d
  {
    assert b * d - a * d == (b - a) * d;
  }

  /** Ratings between `lo` and `hi` average between `lo` and `hi`. */
  lemma AverageWithinRatings(ratings: seq<int>, lo: int, hi: int)
    requires |ratings| > 0
    requires forall i :: 0 <= i < |ratings| ==> lo <= ratings[i] <= hi
    ensures 100 * lo <= AverageHundredths(ratings) <= 100 * hi
  {
    var d := |ratings|;
    SumBounds(ratings, lo, hi);
    assert (100 * lo) * d == 100 * (d * lo) && (100 * hi) * d == 100 * (d * hi);
    RoundingStaysBetween(100 * Sum(ratings), d, 100 * lo, 100 * hi);
  }

  /** A rating question reports, for each rating, how many answers carry it: every rating
      once, each with a positive count, the counts adding up to the number of ratings. */
  lemma RatingDetailCounts(answers: seq<Answer>, x: int)
    ensures var d := DetailOf(Some(TypeRating), answers);
            && d.RatingDetail?
            && Lookup(d.distribution, x) == Count(Ratings(answers), x)
            && Distinct(KeysOf(d.distribution)) && Positive(d.distribution)
            && Total(d.distribution) == |Ratings(answers)|
  {
    CountValuesLookup(Ratings(answers), x);
    CountValuesShape(Ratings(answers));
  }

  /** A choice question reports, for each array key, how many selected options map to it;
      the counts add up to the number of selected options. */
  lemma ChoiceDetailCounts(qtype: Option<string>, answers: seq<Answer>, k: Key)
    requires qtype == Some(TypeSingleChoice) || qtype == Some(TypeMultipleChoice)
    ensures var d := DetailOf(qtype, answers);
            && d.ChoiceDetail?
            && Lookup(d.optionCounts, k) == Count(Map(Selections(answers), ArrayKey), k)
            && Distinct(KeysOf(d.optionCounts)) && Positive(d.optionCounts)
            && Total(d.optionCounts) == |Selections(answers)|
  {
    CountValuesLookup(Map(Selections(answers), ArrayKey), k);
    CountValuesShape(Map(Selections(answers), ArrayKey));
  }
}
