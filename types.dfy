/** The shapes the front end and the API exchange (`frontend/src/types/index.ts`). */
module Types {
  import opened Wrappers
  import opened Values

  /** The six question types the front end declares. The backend names four of them. */
  datatype QuestionType = Text | SingleChoice | MultipleChoice | Rating | RadioText | CheckboxText

  /** The string a question type travels as. */
  function TypeName(t: QuestionType): string {
    match t
    case Text => "text"
    case SingleChoice => "single_choice"
    case MultipleChoice => "multiple_choice"
    case Rating => "rating"
    case RadioText => "radio_text"
    case CheckboxText => "checkbox_text"
  }

  /** A question as the editors hold it. `id` is absent until the backend has stored it. */
  datatype Question = Question(
    id: Option<nat>,
    text: string,
    qtype: QuestionType,
    options: Option<seq<string>>,
    isRequired: bool,
    position: int,
    pageNumber: Option<int>)

  /** A page of a multi-page survey; `questionIds` holds indices into the question list. */
  datatype PageConfig = PageConfig(id: int, title: string, questionIds: seq<int>)

  datatype Operator = Equals | NotEquals | Contains

  datatype ConditionValue = One(s: string) | Many(items: seq<string>)

  datatype Condition = Condition(questionId: int, operator: Operator, value: ConditionValue)

  datatype TransitionRule = TransitionRule(id: string, fromPage: int, toPage: int, condition: Option<Condition>)

  datatype SurveyType = SinglePage | MultiPage

  function SurveyTypeName(t: SurveyType): string {
    match t
    case SinglePage => "single_page"
    case MultiPage => "multi_page"
  }

  /** A survey as the API returns it and the editors send it (timestamps and counters omitted). */
  datatype Survey = Survey(
    id: Option<nat>,
    title: string,
    description: Option<string>,
    isActive: bool,
    surveyType: SurveyType,
    pages: Option<seq<PageConfig>>,
    transitions: Option<seq<TransitionRule>>,
    questions: Option<seq<Question>>)

  /** One `{questionId, value}` entry of a submitted response. */
  datatype WireAnswer = WireAnswer(questionId: int, value: Value)
}
