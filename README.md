# HR-flow surveys in Dafny

A model of the survey application HR-flow: a Symfony backend and a React front end. An HR
team builds surveys and publishes them, respondents answer them, and the team reads
per-question statistics. The model covers the following parts of the system:

- **Backend entities** (`entities.dfy`): `Survey`, `Question`, `Response` and `Answer` are
  classes whose setters change one field each. The one-to-many collections keep their
  back-references. The `toArray` projections are functions over the fields.
- **Survey controller** (`survey_controller.dfy`): `show`, `create`, `update`, `delete` and
  `toggle`. It covers the JSON-to-entity defaults, the partial update, the wholesale
  replacement of the questions, and the 404 guards.
- **Response controller** (`response_controller.dfy`, `response_statistics.dfy`):
  - the submission gate (survey exists, is active, every required question answered);
  - the type-directed normalisation of each entry into an `Answer`;
  - the response list;
  - the per-question statistics (rating distribution, option counts, truthy texts).
- **PHP semantics the backend relies on** (`php.dfy`, `counting.dfy`, `values.dfy`):
  - the `(int)` cast;
  - coercion of a `?string` parameter;
  - array-key normalisation;
  - truthiness;
  - insertion-ordered count arrays;
  - the decoded JSON values that answers carry.
- **Question editing** (`question_editing.dfy`): the question and option list operations
  shared by the wizard's first step and the survey editor. Also the type-change option reset,
  `canProceed`, and the payload normalisation (blank questions and options dropped, positions
  renumbered).
- **Page layout** (`page_config.dfy`): the page and transition edits of the wizard's third
  step, the page lookup of a question, and `allQuestionsAssigned`.
- **Survey editor page** (`survey_editor.dfy`): a class holding the page's state. It covers
  loading with the empty-list fallback, the question callbacks, and the validation and
  request body of a save.
- **Survey wizard** (`survey_wizard.dfy`): a class holding the wizard's state. It covers the
  three-step navigation, the step callbacks, and the body `handleFinish` sends.
- **Respondent page** (`public_survey.dfy`): a class holding the loaded survey and the answer
  map. It covers the inactive check, answer updates, the checkbox toggle, the
  first-unanswered-required check, and the answer list sent to the backend.

Repository lookups are maps from id to entity, and the stored responses are a sequence.
Requests, clocks and client addresses are parameters. A load or a save on the front end is
given its outcome as a parameter.

The respondent page sends its answers in `Object.entries` order, and for integer keys that
order is ascending key order, not insertion order. So `FormatAnswers` lists the answers by
ascending question id.

## Model

| member | source | states |
|---|---|---|
| Entities.QuestionTypeConstants | backend/src/Entity/Question.php:15-18 | There are exactly four question type names, pairwise different. |
| Entities.Question.constructor | backend/src/Entity/Question.php:34-50 | A new question has no id, text, type or options. It is required, at position 0, with no survey and no answers. |
| Entities.Question.SetText | backend/src/Entity/Question.php:62-66 | Sets the text and nothing else. |
| Entities.Question.SetType | backend/src/Entity/Question.php:73-77 | Sets the type and nothing else. |
| Entities.Question.SetOptions | backend/src/Entity/Question.php:84-88 | Sets the options and nothing else. |
| Entities.Question.SetIsRequired | backend/src/Entity/Question.php:95-99 | Sets the required flag and nothing else. |
| Entities.Question.SetPosition | backend/src/Entity/Question.php:106-110 | Sets the position and nothing else. |
| Entities.Question.SetPageNumber | backend/src/Controller/SurveyController.php:72 | The setter the controller calls, with the page number column it evidently targets: it sets that column and nothing else (see Findings). |
| Entities.Question.SetSurvey | backend/src/Entity/Question.php:117-121 | Sets the owning survey and nothing else. |
| Entities.Question.ToArray | backend/src/Entity/Question.php:128-138 | Exposes exactly id, text, type, options, required flag and position, with no page number. |
| Entities.Answer.constructor | backend/src/Entity/Answer.php:13-33 | A new answer has no id, response, question or value columns. |
| Entities.Answer.SetResponse | backend/src/Entity/Answer.php:45-49 | Sets the response and nothing else. |
| Entities.Answer.SetQuestion | backend/src/Entity/Answer.php:56-60 | Sets the question and nothing else. |
| Entities.Answer.SetTextValue | backend/src/Entity/Answer.php:67-71 | Sets the text value and nothing else. |
| Entities.Answer.SetSelectedOptions | backend/src/Entity/Answer.php:78-82 | Sets the selected options and nothing else. |
| Entities.Answer.SetRatingValue | backend/src/Entity/Answer.php:89-93 | Sets the rating and nothing else. |
| Entities.Answer.GetValue | backend/src/Entity/Answer.php:95-104 | The value column matching the linked question's type: text, rating, or selected options for either choice type. It is `null` for any other type or an unlinked answer. |
| Entities.Answer.ToArray | backend/src/Entity/Answer.php:106-113 | Exposes the id, the linked question's id (`null` if unlinked) and `GetValue`. |
| Entities.Response.constructor | backend/src/Entity/Response.php:33-37 | A new response has no id, survey or address, has no answers, and is stamped with the clock reading. |
| Entities.Response.SetSurvey | backend/src/Entity/Response.php:49-53 | Sets the survey and nothing else. |
| Entities.Response.SetSubmittedAt | backend/src/Entity/Response.php:60-64 | Sets the submission time and nothing else. |
| Entities.Response.SetIpAddress | backend/src/Entity/Response.php:71-75 | Sets the client address and nothing else. |
| Entities.Response.AddAnswer | backend/src/Entity/Response.php:82-89 | Adding is idempotent. A new answer is appended and points back to this response, and a duplicate-free collection stays duplicate-free. |
| Entities.Response.RemoveAnswer | backend/src/Entity/Response.php:91-99 | Drops the answer's first occurrence. It clears the back-reference only when that pointed here; an absent answer changes nothing. On a duplicate-free collection the answer is gone entirely. |
| Entities.Response.ToArray | backend/src/Entity/Response.php:101-109 | Exposes id, survey id and time, and one answer entry per answer, in collection order. |
| Entities.Survey.constructor | backend/src/Entity/Survey.php:18-56 | A new survey is active and single-page, with no pages, transitions, questions or responses, and is stamped with the clock reading. |
| Entities.Survey.SetTitle | backend/src/Entity/Survey.php:68-72 | Sets the title and nothing else. |
| Entities.Survey.SetDescription | backend/src/Entity/Survey.php:79-83 | Sets the description and nothing else. |
| Entities.Survey.SetIsActive | backend/src/Entity/Survey.php:90-94 | Sets the active flag and nothing else. |
| Entities.Survey.SetCreatedAt | backend/src/Entity/Survey.php:101-105 | Sets the creation time and nothing else. |
| Entities.Survey.SetUpdatedAt | backend/src/Entity/Survey.php:112-116 | Sets the update time and nothing else. |
| Entities.Survey.SetSurveyType | backend/src/Entity/Survey.php:123-127 | Sets the survey type and nothing else. |
| Entities.Survey.SetPages | backend/src/Entity/Survey.php:134-138 | Sets the page layout and nothing else. |
| Entities.Survey.SetTransitions | backend/src/Entity/Survey.php:145-149 | Sets the transitions and nothing else. |
| Entities.Survey.AddQuestion | backend/src/Entity/Survey.php:156-163 | Adding is idempotent. A new question is appended and points back to this survey, and no duplicate is ever created. |
| Entities.Survey.RemoveQuestion | backend/src/Entity/Survey.php:165-173 | Drops the question's first occurrence. It clears the back-reference only when that pointed here; an absent question changes nothing. |
| Entities.Survey.ToArray | backend/src/Entity/Survey.php:180-195 | Exposes the columns, and the question and response counts as the collection sizes. |
| Entities.Survey.ToArrayWithQuestions | backend/src/Entity/Survey.php:197-202 | Is `ToArray` plus one question entry per question, in collection order. |
| Entities.RemoveFirst | backend/src/Entity/Survey.php:167 | `removeElement`: an absent element changes nothing; otherwise one occurrence fewer and nothing else lost. |
| Entities.RemoveFirstDistinct | backend/src/Entity/Response.php:93 | In a duplicate-free collection, removal leaves no occurrence and keeps the rest duplicate-free. |
| Entities.AnswerArrays | backend/src/Entity/Response.php:107 | One entry per answer, each the answer's `toArray`, in order. |
| Entities.QuestionArrays | backend/src/Entity/Survey.php:200 | One entry per question, each the question's `toArray`, in order. |
| SurveyController.StatusCode | backend/src/Controller/SurveyController.php:41-54 | Not found is 404, a missing title is 400, a PHP error is 500, and no two failures share a code. |
| SurveyController.NewQuestion | backend/src/Controller/SurveyController.php:66-72 | Corrected (see Findings row 1): a question built from an entry takes its fields, with text `''`, type `text`, required, and the entry's index as position by default. |
| SurveyController.AddEntries | backend/src/Controller/SurveyController.php:64-75 | Corrected (see Findings row 1): the survey ends with exactly one new, linked question per entry, in entry order. |
| SurveyController.Show | backend/src/Controller/SurveyController.php:37-45 | An unknown id is 404 and nothing else is; a known id returns the survey with its questions. |
| SurveyController.Create | backend/src/Controller/SurveyController.php:47-81 | Corrected (see Findings row 1): fails with 400 exactly when the title is PHP-empty (missing, `''`, `'0'`). Otherwise it makes a new survey with the body's fields and the defaults (active, single-page, no pages or transitions), holding one question per entry in order. |
| SurveyController.NewSurvey | backend/src/Controller/SurveyController.php:56-62 | The new survey carries the body's fields and the defaults, and no questions. |
| SurveyController.EmptyTitle | backend/src/Controller/SurveyController.php:52 | PHP's `empty()` on the title: it holds exactly when the title is not truthy (absent, `''` or `'0'`). |
| SurveyController.Update | backend/src/Controller/SurveyController.php:83-133 | Corrected: an unknown id is 404 and changes nothing. Otherwise only the fields present in the body change, the update time is set, and a given question list replaces the old questions. The old ones are detached and the new ones are built in order, storing their page number (see Findings). Of the old questions only the `survey` column may change. |
| SurveyController.Edit | backend/src/Controller/SurveyController.php:93-129 | Corrected (see Findings row 1): the edit on a found survey: the fields present, the question replacement, and the update time. Of the old questions only the `survey` column may change. |
| SurveyController.ApplyFields | backend/src/Controller/SurveyController.php:93-110 | Each field present (non-null) in the body replaces the survey's; the others are unchanged. |
| SurveyController.RemoveAll | backend/src/Controller/SurveyController.php:113-115 | Empties the question list, detaching each old question that pointed to the survey. Nothing else of the survey or of the old questions changes. |
| SurveyController.Delete | backend/src/Controller/SurveyController.php:135-147 | An unknown id is 404. Otherwise exactly that survey leaves the repository and the others stay. |
| SurveyController.Toggle | backend/src/Controller/SurveyController.php:149-162 | An unknown id is 404. Otherwise the active flag is negated, the update time is set, every other column is unchanged, and the reply is the survey's `toArray`. |
| SurveyController.ToggleTwice | backend/src/Controller/SurveyController.php:157 | Two toggles restore the active flag. |
| SurveyController.CreateStatusAsWritten | backend/src/Controller/SurveyController.php:52-81 | As written: 400 for an empty title, 500 whenever the body has a question (the undefined setter), 201 otherwise. |
| SurveyController.UpdateStatusAsWritten | backend/src/Controller/SurveyController.php:86-133 | As written: 404 for an unknown id, 500 whenever the body has a question, 200 otherwise. |
| SurveyController.CreateWithAQuestionFailsAsWritten | backend/src/Controller/SurveyController.php:72 | A body with a title and one question gets 500 as written. |
| ResponseController.StatusCode | backend/src/Controller/ResponseController.php:43-72 | 404 exactly for an unknown survey, 400 exactly for an inactive survey or an unanswered required question, 500 exactly for a server error. |
| ResponseController.RequiredQuestions | backend/src/Controller/ResponseController.php:55 | Exactly the survey's required questions. |
| ResponseController.LooseEquals | backend/src/Controller/ResponseController.php:59 | PHP's loose `==` on ids: equal ids match, two integers match only when equal, and `null` matches exactly `null` and 0. |
| ResponseController.FirstMissing | backend/src/Controller/ResponseController.php:56-73 | Finds the first required question, in collection order, that no entry answers. It is `None` exactly when every required question is answered. |
| ResponseController.Gate | backend/src/Controller/ResponseController.php:43-73 | Order of checks: a missing survey is 404, then an inactive one is 400. For an active survey it passes exactly when every required question has an entry with a loosely equal id and a value other than `null`, `''` and `[]`. Otherwise it is 400 carrying the first such question's id. |
| ResponseController.FirstUnanswered | backend/src/Controller/ResponseController.php:56-73 | The nested loop with the found flag and `break` computes `FirstMissing`. |
| ResponseController.CheckGate | backend/src/Controller/ResponseController.php:43-73 | The gate's early returns compute `Gate`. |
| ResponseController.Normalise | backend/src/Controller/ResponseController.php:91-103 | Text goes to the text column (a list is a TypeError). A rating goes, int-cast, to the rating column. Either choice type goes to the selected options, a scalar wrapped into a one-element list. Any other type fills nothing. |
| ResponseController.RowOf | backend/src/Controller/ResponseController.php:85-86 | What the loop reads of a question: itself, its survey's id, and its type. |
| ResponseController.Snapshot | backend/src/Controller/ResponseController.php:85 | The question repository as rows, key for key. |
| ResponseController.Classify | backend/src/Controller/ResponseController.php:80-86 | An entry with a falsy id or an unknown id is skipped. A kept entry names a question of this survey. |
| ResponseController.Extend | backend/src/Controller/ResponseController.php:105 | A kept entry adds exactly one answer at the end; others add none. |
| ResponseController.PlanFailurePersists | backend/src/Controller/ResponseController.php:79-109 | Once an entry makes PHP fail, the whole submission fails. |
| ResponseController.PlanKeepsEachKeptEntry | backend/src/Controller/ResponseController.php:79-106 | The entries succeed exactly when none fails. Then there is one answer per kept entry, each for a question of this survey. |
| ResponseController.Plan | backend/src/Controller/ResponseController.php:79-106 | The answers of a submission: it succeeds exactly when no entry makes PHP fail, and then holds one answer per kept entry, each for a question of this survey. |
| ResponseController.KeptCountAppend | backend/src/Controller/ResponseController.php:79-106 | One more entry adds one to the kept count exactly when it is kept. |
| ResponseController.ResponseRepository.Persist | backend/src/Controller/ResponseController.php:108-109 | Appends the response to the stored ones. |
| ResponseController.Submit | backend/src/Controller/ResponseController.php:41-112 | A gate error is the reply, and nothing is stored. A PHP error in the loop is 500 with nothing stored. Otherwise exactly one new response is stored: for this survey, with the client address and the time, holding the planned answers in entry order. When the gate passes and no entry makes PHP fail, the reply is always `Created`. |
| ResponseController.Store | backend/src/Controller/ResponseController.php:75-111 | After the gate: when every entry can be planned, a new response holding the planned answers is stored and the reply is `Created`. Otherwise the reply is 500 and nothing is stored. |
| ResponseController.NewAnswer | backend/src/Controller/ResponseController.php:88-103 | A new answer linked to the question, with the normalised columns. `getValue` reads back the submitted value for a string text, an integer rating, or a list choice. |
| ResponseController.AddEntry | backend/src/Controller/ResponseController.php:80-105 | One loop iteration: it fails exactly when the entry makes PHP fail, and otherwise extends the response's answers as planned. |
| ResponseController.AppendAnswer | backend/src/Controller/ResponseController.php:88-105 | Builds and adds one answer; fails exactly on the TypeError. |
| ResponseController.AddEntries | backend/src/Controller/ResponseController.php:79-106 | The loop stores answers exactly when the plan succeeds, and then the response holds the plan. |
| ResponseController.ResponsesOf | backend/src/Controller/ResponseController.php:31-34 | Exactly the stored responses of the survey. |
| ResponseController.List | backend/src/Controller/ResponseController.php:24-38 | An unknown survey is 404. Otherwise there is one `toArray` per response of the survey. |
| ResponseStatistics.Statistics | backend/src/Controller/ResponseController.php:115-180 | An unknown survey is 404. Otherwise the total is the number of the survey's responses, with one statistics entry per question, in order. |
| ResponseStatistics.QuestionStatistics | backend/src/Controller/ResponseController.php:126-172 | One question's id, text, type, answer total and type-specific detail. |
| ResponseStatistics.Ratings | backend/src/Controller/ResponseController.php:139-144 | The non-null ratings, at most one per answer. |
| ResponseStatistics.TextAnswers | backend/src/Controller/ResponseController.php:162-167 | Only truthy texts, at most one per answer. |
| ResponseStatistics.CollectRatings | backend/src/Controller/ResponseController.php:139-144 | The loop collects `Ratings`. |
| ResponseStatistics.CountOptions | backend/src/Controller/ResponseController.php:151-157 | The nested loop's counts are the counts of every selected option's array key, over all answers. |
| ResponseStatistics.CountSelected | backend/src/Controller/ResponseController.php:154-156 | The inner loop bumps one count per selected option. |
| ResponseStatistics.CountOneMore | backend/src/Controller/ResponseController.php:155 | Counting one more option bumps exactly that option's count. |
| ResponseStatistics.CollectTexts | backend/src/Controller/ResponseController.php:162-167 | The loop collects `TextAnswers`. |
| ResponseStatistics.RatingsAreTheAnswersRatings | backend/src/Controller/ResponseController.php:139-144 | A rating is reported exactly when some answer carries it. |
| ResponseStatistics.TextsAreTheTruthyTexts | backend/src/Controller/ResponseController.php:162-167 | A text is reported exactly when it is truthy and some answer carries it. |
| ResponseStatistics.RoundingIsNearest | backend/src/Controller/ResponseController.php:145 | The rounded quotient is within half a unit of the exact one, and ties go away from zero. |
| ResponseStatistics.AverageHundredths | backend/src/Controller/ResponseController.php:145 | 0 without ratings. Otherwise the average in hundredths is within half a hundredth of the exact mean. |
| ResponseStatistics.RoundHalfAwayFromZero | backend/src/Controller/ResponseController.php:145 | The rounded quotient keeps the sign of the numerator; RoundingIsNearest gives its precision. |
| ResponseStatistics.RoundingIsSymmetric | backend/src/Controller/ResponseController.php:145 | Rounding commutes with negation. |
| ResponseStatistics.SumBounds | backend/src/Controller/ResponseController.php:145 | A sum of values between two bounds lies between the count times each bound. |
| ResponseStatistics.RoundingStaysBetween | backend/src/Controller/ResponseController.php:145 | A quotient between two integers rounds to a value between them. |
| ResponseStatistics.NearestStaysBetween | backend/src/Controller/ResponseController.php:145 | Any integer within half a unit of a quotient between two integers lies between them. |
| ResponseStatistics.AverageWithinRatings | backend/src/Controller/ResponseController.php:145 | The average of ratings between two bounds lies between them. |
| ResponseStatistics.RatingDetailCounts | backend/src/Controller/ResponseController.php:139-147 | The distribution gives each rating its number of occurrences. Its keys are distinct, every count is positive, and the counts add up to the number of ratings. |
| ResponseStatistics.ChoiceDetailCounts | backend/src/Controller/ResponseController.php:149-159 | Each option key's count is its number of occurrences across all selections. Keys are distinct, counts positive, and the counts add up to the number of selections. |
| Counting.Bump | backend/src/Controller/ResponseController.php:155 | Increments one key's count by one and the total by one. |
| Counting.BumpOther | backend/src/Controller/ResponseController.php:155 | Other keys' counts and presence are unchanged. |
| Counting.BumpDistinct | backend/src/Controller/ResponseController.php:155 | Keys stay distinct. |
| Counting.BumpPositive | backend/src/Controller/ResponseController.php:155 | Counts stay positive. |
| Counting.BumpHasKey | backend/src/Controller/ResponseController.php:155 | The bumped key is present afterwards. |
| Counting.CountValuesLookup | backend/src/Controller/ResponseController.php:146 | `array_count_values` gives each value its number of occurrences. |
| Counting.CountValuesKeys | backend/src/Controller/ResponseController.php:146 | A value has an entry exactly when it occurs. |
| Counting.CountValuesShape | backend/src/Controller/ResponseController.php:146 | Keys are distinct, counts positive, and the total is the input's length. |
| Counting.CountValues | backend/src/Controller/ResponseController.php:146 | The counts of `array_count_values` add up to the number of values. |
| Php.IntCast | backend/src/Controller/ResponseController.php:96 | `(int)` leaves an integer unchanged, maps `null` and `[]` to 0 and a non-empty list to 1, and reads a string as a numeric string. |
| Php.StringToInt | backend/src/Controller/ResponseController.php:96 | A string with no number after its leading white space reads as 0, and only a leading minus gives a negative value. |
| Php.ExponentForm | backend/src/Controller/ResponseController.php:96 | Digits with an exponent read as the mantissa times that power of ten. |
| Php.ExponentExample | backend/src/Controller/ResponseController.php:96 | `(int)"1e3"` is 1000. |
| Php.FractionForm | backend/src/Controller/ResponseController.php:96 | Digits with a fraction read as the digits before the point: the fraction is cut off. |
| Php.NegativeForm | backend/src/Controller/ResponseController.php:96 | A leading minus negates the reading of the unsigned rest. |
| Php.DropLeadingSpace | backend/src/Controller/ResponseController.php:96 | The numeric-string reading skips exactly a leading run of white space: the result is a suffix that starts with no white space. |
| Php.DigitPrefix | backend/src/Controller/ResponseController.php:96 | The leading run of decimal digits: a prefix made only of digits, the whole string when it is all digits. |
| Text.NatToString | backend/src/Controller/ResponseController.php:96 | Prints a natural number as at least one decimal digit with no leading zero. |
| Text.DigitsValueOfNatToString | backend/src/Controller/ResponseController.php:96 | Reading the printed digits of a natural number gives the number back. |
| Php.StringToIntOfIntToString | backend/src/Controller/ResponseController.php:96 | The string cast reads back every printed integer. |
| Php.ReadsNatToString | backend/src/Controller/ResponseController.php:96 | The cast reads back every printed natural number. |
| Php.ReadsNegatedNatToString | backend/src/Controller/ResponseController.php:96 | The cast reads back every printed negative number. |
| Php.StringParameter | backend/src/Controller/ResponseController.php:93 | Coercion to `?string` fails exactly for a list. |
| Php.ArrayKeyMergesDecimalStrings | backend/src/Controller/ResponseController.php:155 | The option `"5"` and the option `5` share a count, and a non-canonical string keeps its own. |
| Php.ArrayKey | backend/src/Controller/ResponseController.php:155 | An integer stays an integer key and `null` becomes the key `""`. A string that becomes an integer key is exactly that integer's decimal form; any other string keeps itself. |
| Php.Truthy | backend/src/Controller/ResponseController.php:164 | A falsy `?string` (`null`, `''` or `'0'`) casts to 0. |
| QuestionEditing.EmptyQuestion | frontend/src/components/wizard/Step1Questions.tsx:22-28 | The default question: empty text, type `text`, no options, required, at the given position. |
| QuestionEditing.AddQuestion | frontend/src/components/wizard/Step1Questions.tsx:39-41 | Appends one default question whose position is the old length; the rest is unchanged. |
| QuestionEditing.RemoveQuestion | frontend/src/components/wizard/Step1Questions.tsx:43-46 | A one-question list is unchanged. Otherwise exactly the given index goes, and a non-empty list stays non-empty. |
| QuestionEditing.RemoveUndoesAdd | frontend/src/components/wizard/Step1Questions.tsx:39-46 | Removing the question just added gives the list back. |
| QuestionEditing.Apply | frontend/src/components/wizard/Step1Questions.tsx:50 | Fields in the update replace the question's, and the others stay. |
| QuestionEditing.UpdateQuestion | frontend/src/components/wizard/Step1Questions.tsx:48-52 | Only the question at the index changes, by the update. |
| QuestionEditing.UpdateQuestionIdempotent | frontend/src/components/wizard/Step1Questions.tsx:48-52 | Applying the same update twice is applying it once. |
| QuestionEditing.TypeChange | frontend/src/components/wizard/Step1Questions.tsx:134-137 | Sets the type and resets the options to `['']` for a choice type and `[]` otherwise. |
| QuestionEditing.TypeResetDiffers | frontend/src/pages/SurveyEditor.tsx:208-211 | The editor's reset differs from the wizard's for the combo types, which the editor does not count as choices. |
| QuestionEditing.AddOption | frontend/src/components/wizard/Step1Questions.tsx:54-59 | Appends `''` to one question's options (missing counts as `[]`); nothing else changes. |
| QuestionEditing.UpdateOption | frontend/src/components/wizard/Step1Questions.tsx:61-67 | Replaces exactly one option slot of one question; nothing else changes. |
| QuestionEditing.WithoutIndex | frontend/src/components/wizard/Step1Questions.tsx:71 | Drops exactly the given index, or nothing when it is out of range. |
| QuestionEditing.RemoveOption | frontend/src/components/wizard/Step1Questions.tsx:69-74 | Deletes exactly one option index of one question; nothing else changes. |
| QuestionEditing.RemoveOptionUndoesAdd | frontend/src/components/wizard/Step1Questions.tsx:54-74 | Removing the option just added restores the options. |
| QuestionEditing.HasNonBlankText | frontend/src/components/wizard/Step1Questions.tsx:76 | Some question's text is non-blank. |
| QuestionEditing.CanProceed | frontend/src/components/wizard/Step1Questions.tsx:76 | Holds exactly when the title is non-blank and the payload keeps at least one question. |
| QuestionEditing.ValidQuestions | frontend/src/pages/SurveyWizard.tsx:36 | Only questions with non-blank text. |
| QuestionEditing.KeptIndices | frontend/src/pages/SurveyWizard.tsx:36 | The ascending indices of the questions with non-blank text. |
| QuestionEditing.ValidQuestionsAt | frontend/src/pages/SurveyWizard.tsx:36 | The filtered list is the questions at the kept indices, in order. |
| QuestionEditing.ValidQuestionsNonEmpty | frontend/src/pages/SurveyEditor.tsx:99-100 | The filtered list is non-empty exactly when some text is non-blank. |
| QuestionEditing.NonBlankOptions | frontend/src/pages/SurveyWizard.tsx:41 | Keeps exactly the non-blank options; missing options stay missing. |
| QuestionEditing.PayloadQuestions | frontend/src/pages/SurveyEditor.tsx:112-116 | One payload question per kept question, positioned by its place and with blank options dropped. |
| QuestionEditing.Finalise | frontend/src/pages/SurveyWizard.tsx:38-41 | Only the position (the new index) and the options change; options stay present or absent, and no kept option is blank. |
| QuestionEditing.PayloadShape | frontend/src/pages/SurveyEditor.tsx:112-116 | Payload question `i` is kept question `i` with position `i`, the same text, type and required flag, and only its non-blank options. |
| QuestionEditing.DescriptionField | frontend/src/pages/SurveyEditor.tsx:110 | An empty description is left out of the body; any other is sent as is. |
| PageConfigEditor.AddPage | frontend/src/components/wizard/Step3PageConfig.tsx:25-32 | As written: appends one empty page with id old length + 1 and the matching title, and leaves existing pages unchanged. |
| PageConfigEditor.PageIds | frontend/src/components/wizard/Step3PageConfig.tsx:27 | The pages' ids, in order. |
| PageConfigEditor.AddPageReusesAnId | frontend/src/components/wizard/Step3PageConfig.tsx:25-38 | Adding two pages, removing page 1 and adding again gives two pages with id 2. |
| PageConfigEditor.MaxId | frontend/src/components/wizard/Step3PageConfig.tsx:27 | The largest page id, or 0 without pages. |
| PageConfigEditor.AddPageFresh | frontend/src/components/wizard/Step3PageConfig.tsx:25-32 | Corrected: appends one empty page whose id no page has, so distinct ids stay distinct. |
| PageConfigEditor.RemovePage | frontend/src/components/wizard/Step3PageConfig.tsx:34-38 | With at most one page nothing changes. Otherwise exactly the pages with that id go, and so do the transitions from or to it. |
| PageConfigEditor.DistinctIdsMeans | frontend/src/components/wizard/Step3PageConfig.tsx:36 | Pairwise-different page ids means a duplicate-free id list. |
| PageConfigEditor.FilterKeepsDistinctIds | frontend/src/components/wizard/Step3PageConfig.tsx:36 | Filtering pages keeps ids distinct. |
| PageConfigEditor.RemovePageKeepsAPage | frontend/src/components/wizard/Step3PageConfig.tsx:34-38 | With distinct ids, removing a page never leaves the layout empty and keeps ids distinct. |
| PageConfigEditor.UpdatePageTitle | frontend/src/components/wizard/Step3PageConfig.tsx:40-42 | Only pages with that id get the new title; ids and contents stay. |
| PageConfigEditor.Toggle | frontend/src/components/wizard/Step3PageConfig.tsx:47-52 | Flips the index's membership and leaves every other index's membership alone. |
| PageConfigEditor.ToggleTwiceRestores | frontend/src/components/wizard/Step3PageConfig.tsx:47-52 | Toggling an absent index twice restores the list. |
| PageConfigEditor.ToggleQuestionInPage | frontend/src/components/wizard/Step3PageConfig.tsx:44-55 | Only the target page's question list is toggled. |
| PageConfigEditor.ToggleQuestionTwiceRestores | frontend/src/components/wizard/Step3PageConfig.tsx:44-55 | Toggling an index absent from the target page twice restores the layout. |
| PageConfigEditor.QuestionPage | frontend/src/components/wizard/Step3PageConfig.tsx:57-60 | The id of the first page holding the index, or none exactly when no page holds it. |
| PageConfigEditor.Pick | frontend/src/components/wizard/Step3PageConfig.tsx:100 | Exactly the questions at the in-range indices, in the order the indices are listed; out-of-range indices, such as those left by a removed question, are skipped. |
| PageConfigEditor.PickInRange | frontend/src/components/wizard/Step3PageConfig.tsx:100 | With every index in range, the questions at those indices in list order. |
| PageConfigEditor.QuestionsForPage | frontend/src/components/wizard/Step3PageConfig.tsx:97-101 | `[]` for an unknown page. Otherwise it picks by the first page with that id. |
| PageConfigEditor.AllQuestionsAssigned | frontend/src/components/wizard/Step3PageConfig.tsx:103 | Holds exactly when every question index is on some page. |
| PageConfigEditor.OrDefault | frontend/src/components/wizard/Step3PageConfig.tsx:65-66 | JavaScript's logical-or default on a page id: a non-zero fallback never gives 0, and the result is the fallback or the page's non-zero id. |
| PageConfigEditor.AddTransition | frontend/src/components/wizard/Step3PageConfig.tsx:62-69 | Appends one unconditional rule from the first page's id (default 1) to the second's (default 2), named by the clock; old rules stay. |
| PageConfigEditor.RemoveTransition | frontend/src/components/wizard/Step3PageConfig.tsx:71-73 | Exactly the rules with that id go. |
| PageConfigEditor.Merge | frontend/src/components/wizard/Step3PageConfig.tsx:76 | Fields in the update override the rule's. |
| PageConfigEditor.UpdateTransition | frontend/src/components/wizard/Step3PageConfig.tsx:75-77 | Only rules with that id change, by the update. |
| PageConfigEditor.MergeCondition | frontend/src/components/wizard/Step3PageConfig.tsx:87-92 | The condition's defaults (existing value, else first question's position or 0; `equals`; `''`) overridden by the update. |
| PageConfigEditor.UpdateTransitionCondition | frontend/src/components/wizard/Step3PageConfig.tsx:79-95 | Only rules with that id change, and they always end with a condition. |
| SurveyEditorPage.LoadedQuestions | frontend/src/pages/SurveyEditor.tsx:46 | Never empty: a survey without questions gets one default question. |
| SurveyEditorPage.Validate | frontend/src/pages/SurveyEditor.tsx:94-103 | Passes exactly when `canProceed` holds. A blank title is reported first, then the lack of a non-blank question. |
| SurveyEditorPage.EditorPayload | frontend/src/pages/SurveyEditor.tsx:108-117 | The body: title, optional description, active flag, normalised questions; no type, pages or transitions. |
| SurveyEditorPage.ValidatedPayloadIsUsable | frontend/src/pages/SurveyEditor.tsx:94-117 | A validated body has a non-blank title and at least one question, each non-blank and positioned by its place. |
| SurveyEditorPage.Editor.constructor | frontend/src/pages/SurveyEditor.tsx:26-31 | Empty texts, active, one default question, no error. |
| SurveyEditorPage.Editor.Load | frontend/src/pages/SurveyEditor.tsx:39-52 | A loaded survey fills the fields, with an empty description for none and the one-question fallback. A failed load sets only the error. |
| SurveyEditorPage.Editor.AddQuestion | frontend/src/pages/SurveyEditor.tsx:54-56 | The list becomes `AddQuestion` of the old one and stays non-empty. |
| SurveyEditorPage.Editor.RemoveQuestion | frontend/src/pages/SurveyEditor.tsx:58-61 | The list becomes `RemoveQuestion` of the old one and stays non-empty. |
| SurveyEditorPage.Editor.UpdateQuestion | frontend/src/pages/SurveyEditor.tsx:63-67 | The list becomes `UpdateQuestion` of the old one. |
| SurveyEditorPage.Editor.ChangeType | frontend/src/pages/SurveyEditor.tsx:208-211 | One of the four offered types, with the editor's option reset. |
| SurveyEditorPage.Editor.AddOption | frontend/src/pages/SurveyEditor.tsx:69-74 | The list becomes `AddOption` of the old one. |
| SurveyEditorPage.Editor.UpdateOption | frontend/src/pages/SurveyEditor.tsx:76-82 | The list becomes `UpdateOption` of the old one. |
| SurveyEditorPage.Editor.RemoveOption | frontend/src/pages/SurveyEditor.tsx:84-89 | The list becomes `RemoveOption` of the old one. |
| SurveyEditorPage.Editor.Submit | frontend/src/pages/SurveyEditor.tsx:91-130 | A failed check sets its message and sends nothing. Otherwise it sends the normalised body and ends with no error or the save error. |
| SurveyWizardPage.Navigate | frontend/src/pages/SurveyWizard.tsx:67-106 | Step 1 goes to 2 only when `canProceed`. Step 2 goes to 3 only for a multi-page survey. Steps 2 and 3 go back by one. No move leaves steps 1-3. |
| SurveyWizardPage.CanFinish | frontend/src/components/wizard/Step3PageConfig.tsx:304 | "Create survey" is enabled on step 2 for a single-page survey; on step 3 only when every question index is on some page. |
| SurveyWizardPage.Reached | frontend/src/pages/SurveyWizard.tsx:67-106 | The state navigation guarantees: past step 1, the title is non-blank and the payload keeps some question. |
| SurveyWizardPage.BackUndoesNext | frontend/src/pages/SurveyWizard.tsx:67-106 | Going back undoes going on. |
| SurveyWizardPage.NavigateKeepsReached | frontend/src/pages/SurveyWizard.tsx:67-106 | Every move keeps the guarantee that past step 1 the title and questions pass `canProceed`, and that step 3 means multi-page. |
| SurveyWizardPage.WithPages | frontend/src/pages/SurveyWizard.tsx:42-44 | Page numbers looked up per question for a multi-page survey, none otherwise. |
| SurveyWizardPage.Indices | frontend/src/pages/SurveyWizard.tsx:38 | The post-filter indices `0..n-1`. |
| SurveyWizardPage.WizardQuestionsAsWritten | frontend/src/pages/SurveyWizard.tsx:36-45 | As written: one question per kept question, each looking up its page by post-filter index. |
| SurveyWizardPage.WizardQuestions | frontend/src/pages/SurveyWizard.tsx:36-45 | Corrected: question `i` is kept question `i`, renumbered, with non-blank options. Its page is that of its own editor index. |
| SurveyWizardPage.Body | frontend/src/pages/SurveyWizard.tsx:47-55 | Always active with its type. Pages are present exactly for multi-page, and transitions exactly for multi-page with some. |
| SurveyWizardPage.WizardPayloadAsWritten | frontend/src/pages/SurveyWizard.tsx:36-55 | The body sent as written: an active survey with its title and type, whose `i`-th question is kept question `i` at position `i`. |
| SurveyWizardPage.WizardPayload | frontend/src/pages/SurveyWizard.tsx:36-55 | Corrected (see Findings row 3): the intended body, with one question per kept question; without blank questions it is the body sent as written. |
| SurveyWizardPage.AssignedQuestionsCarryTheirPage | frontend/src/pages/SurveyWizard.tsx:42-44 | Corrected (see Findings row 3): once every question is on a page, each sent question of a multi-page survey names a page that holds it. |
| SurveyWizardPage.FinishedPayloadIsUsable | frontend/src/components/wizard/Step3PageConfig.tsx:300-305 | Corrected (see Findings row 3): a finishable wizard sends a non-blank title and at least one question. For multi-page, each question carries the id of a page holding it. |
| SurveyWizardPage.KeptIndicesAllKept | frontend/src/pages/SurveyWizard.tsx:36 | Without blank questions, the kept indices are all indices. |
| SurveyWizardPage.AsWrittenAgreesWithoutBlanks | frontend/src/pages/SurveyWizard.tsx:36-45 | Without blank questions the written and the corrected payloads agree. |
| SurveyWizardPage.AsWrittenMisplacesAfterABlank | frontend/src/pages/SurveyWizard.tsx:43 | A blank first question makes the written lookup send the second question with the wrong page. |
| SurveyWizardPage.AsWrittenPagesHoldTheirIndex | frontend/src/pages/SurveyWizard.tsx:36-45 | As written, once every question index is on a page, the `i`-th sent question of a multi-page survey names a page holding index `i`. Without blank questions that is its own index. |
| SurveyWizardPage.FinishedPayloadAsWritten | frontend/src/pages/SurveyWizard.tsx:32-65 | What a finishable wizard sends as written: a non-blank title and at least one question. For a multi-page survey, the `i`-th question names a page holding index `i`, which is its own index only when no question is blank. |
| SurveyWizardPage.RemovePageCanEmptyTheLayout | frontend/src/components/wizard/Step3PageConfig.tsx:25-38 | As written, adding a page, removing page 1 and adding again gives ids `[2, 2]`, and removing page 2 then leaves no page. |
| SurveyWizardPage.Wizard.constructor | frontend/src/pages/SurveyWizard.tsx:20-30 | Step 1, empty texts, one default question, single-page, one empty page 1, no transitions, no error. |
| SurveyWizardPage.Wizard.Go | frontend/src/pages/SurveyWizard.tsx:67-106 | The step becomes the target of an enabled button, keeping the state invariant. |
| SurveyWizardPage.Wizard.SetTitle | frontend/src/components/wizard/Step1Questions.tsx:14 | Sets the title on step 1. |
| SurveyWizardPage.Wizard.SetDescription | frontend/src/components/wizard/Step1Questions.tsx:16 | Sets the description on step 1. |
| SurveyWizardPage.Wizard.AddQuestion | frontend/src/components/wizard/Step1Questions.tsx:39-41 | The list becomes `AddQuestion` of the old one. |
| SurveyWizardPage.Wizard.RemoveQuestion | frontend/src/components/wizard/Step1Questions.tsx:43-46 | The list becomes `RemoveQuestion` of the old one and stays non-empty. |
| SurveyWizardPage.Wizard.UpdateQuestion | frontend/src/components/wizard/Step1Questions.tsx:48-52 | The list becomes `UpdateQuestion` of the old one. |
| SurveyWizardPage.Wizard.ChangeType | frontend/src/components/wizard/Step1Questions.tsx:134-137 | The type with the wizard's option reset (four choice types). |
| SurveyWizardPage.Wizard.AddOption | frontend/src/components/wizard/Step1Questions.tsx:54-59 | The list becomes `AddOption` of the old one. |
| SurveyWizardPage.Wizard.UpdateOption | frontend/src/components/wizard/Step1Questions.tsx:61-67 | The list becomes `UpdateOption` of the old one. |
| SurveyWizardPage.Wizard.RemoveOption | frontend/src/components/wizard/Step1Questions.tsx:69-74 | The list becomes `RemoveOption` of the old one. |
| SurveyWizardPage.Wizard.SetSurveyType | frontend/src/pages/SurveyWizard.tsx:85 | Sets the survey type on step 2. |
| SurveyWizardPage.Wizard.AddPage | frontend/src/components/wizard/Step3PageConfig.tsx:25-32 | As written: pages become `AddPage` of the old ones, so the new id is the old count plus one (see Findings). |
| SurveyWizardPage.Wizard.RemovePage | frontend/src/components/wizard/Step3PageConfig.tsx:34-38 | As written: pages and transitions become `RemovePage` of the old ones. A lone page stays; otherwise every page with that id goes, with its transitions. |
| SurveyWizardPage.Wizard.UpdatePageTitle | frontend/src/components/wizard/Step3PageConfig.tsx:40-42 | Pages become `UpdatePageTitle` of the old ones. |
| SurveyWizardPage.Wizard.ToggleQuestion | frontend/src/components/wizard/Step3PageConfig.tsx:150-163 | A checkbox that is not disabled toggles the question on that page. |
| SurveyWizardPage.Wizard.AddTransition | frontend/src/components/wizard/Step3PageConfig.tsx:62-69 | Transitions become `AddTransition` of the old ones. |
| SurveyWizardPage.Wizard.RemoveTransition | frontend/src/components/wizard/Step3PageConfig.tsx:71-73 | Transitions become `RemoveTransition` of the old ones. |
| SurveyWizardPage.Wizard.UpdateTransition | frontend/src/components/wizard/Step3PageConfig.tsx:75-77 | Transitions become `UpdateTransition` of the old ones. |
| SurveyWizardPage.Wizard.UpdateTransitionCondition | frontend/src/components/wizard/Step3PageConfig.tsx:79-95 | Transitions become `UpdateTransitionCondition` of the old ones. |
| SurveyWizardPage.Wizard.Finish | frontend/src/pages/SurveyWizard.tsx:32-65 | On an enabled "create" button it sends the body as written, which has a non-blank title and at least one question, and sets the save error exactly when the save fails. |
| PublicSurveyPage.RejectionMessage | frontend/src/pages/PublicSurvey.tsx:75 | The server's non-empty error text, else the default message. |
| PublicSurveyPage.Ticked | frontend/src/pages/PublicSurvey.tsx:41 | The options ticked so far: none for an unanswered question, and a non-empty selection is exactly the stored list. |
| PublicSurveyPage.Tick | frontend/src/pages/PublicSurvey.tsx:40-47 | Checking appends the option, even when already present. Unchecking removes every occurrence. Other questions' answers are unchanged. |
| PublicSurveyPage.TickShowsTheChoice | frontend/src/pages/PublicSurvey.tsx:40-47 | Afterwards the option is ticked exactly when it was checked. |
| PublicSurveyPage.UntickUndoesTick | frontend/src/pages/PublicSurvey.tsx:40-47 | Unticking an option just ticked gives the earlier selection back. |
| PublicSurveyPage.RequiredOf | frontend/src/pages/PublicSurvey.tsx:53 | Exactly the survey's required questions. |
| PublicSurveyPage.IsUnanswered | frontend/src/pages/PublicSurvey.tsx:56-57 | A question without an id, or whose answer is `''`, is unanswered; one with a non-empty list of options is answered. |
| PublicSurveyPage.FirstUnanswered | frontend/src/pages/PublicSurvey.tsx:54-61 | The first required question, in order, whose answer is missing, `null`, `''` or `[]`; none exactly when all are answered. |
| PublicSurveyPage.FindUnanswered | frontend/src/pages/PublicSurvey.tsx:54-61 | The loop with its early return computes `FirstUnanswered`. |
| PublicSurveyPage.SortedKeys | frontend/src/pages/PublicSurvey.tsx:66 | The answer keys, each once, in ascending order. |
| PublicSurveyPage.Entries | frontend/src/pages/PublicSurvey.tsx:66-69 | One `{questionId, value}` per listed key, with the value unchanged. |
| PublicSurveyPage.EntriesListEveryKey | frontend/src/pages/PublicSurvey.tsx:66-69 | Every listed key has an entry. |
| PublicSurveyPage.FormatAnswers | frontend/src/pages/PublicSurvey.tsx:66-69 | Exactly one entry per key of the answer map, in ascending id order, with the values passed through unchanged. |
| PublicSurveyPage.Received | backend/src/Controller/ResponseController.php:80-81 | What the backend reads of a sent entry: the id and the value. |
| PublicSurveyPage.PassingTheCheckPassesTheBackend | backend/src/Controller/ResponseController.php:55-66 | If the page's check passes, every required question has an id, and the backend's required check finds it answered in the sent list. |
| PublicSurveyPage.Page.constructor | frontend/src/pages/PublicSurvey.tsx:9-13 | No survey, no answers, no error, not submitting. |
| PublicSurveyPage.Page.Load | frontend/src/pages/PublicSurvey.tsx:21-34 | Only an active survey is put into state. An inactive or missing one sets its error instead. |
| PublicSurveyPage.Page.UpdateAnswer | frontend/src/pages/PublicSurvey.tsx:36-38 | The key gets the new value and every other key is unchanged. |
| PublicSurveyPage.Page.TickOption | frontend/src/pages/PublicSurvey.tsx:40-47 | The answers become `Tick` of the old ones. |
| PublicSurveyPage.Page.Submit | frontend/src/pages/PublicSurvey.tsx:49-79 | An unanswered required question sets its message and sends nothing. Otherwise it sends the formatted answers, clears the flag, and ends with no error or the rejection message. |

## Left out

- The network, persistence and routing layers are parameters or are left out: the HTTP client, the entity manager's `persist`/`flush`, the Doctrine queries, and JSON encoding and decoding. Lookups are maps, and the database's ordering of `findBy` results is not modelled (the response list keeps stored order).
- Timestamps, `Date.now()` ids and the client address are opaque parameters. Date formatting is not modelled.
- ResponseStatistics.AverageHundredths: PHP's floating-point `round(sum / count, 2)` is modelled on the exact quotient (hundredths, rounding half away from zero). Float pre-rounding of the division is not captured.
- Integers are unbounded; PHP's 64-bit integers and JavaScript's doubles are not modelled.
- Php.StringToInt: a fraction or exponent is read exactly and truncated toward zero. The model does not capture PHP's double rounding of such strings, or the saturation and wrap-around of a value outside the 64-bit range.
- Request values the UI never sends are not modelled: string question ids in a submission, non-string titles, or JSON objects where lists are expected. The JSON list-versus-object distinction for arrays is left out.
- JSON booleans and non-integral numbers are not answer values in the model: a scalar is `null`, an integer or a string. The respondent page sends only strings, integer ratings and lists of strings as answers.
- Combo question types (`radio_text`, `checkbox_text`) exist only as types and as the wizard's option reset; no page renders, validates or stores combo answers.
- Multi-page navigation for respondents and the evaluation of transition rules: no code implements them.
- `delete`'s cascade of questions, responses and answers is left to the database and is not modelled; Delete only removes the survey from the repository.
- The loading and submitting spinners' rendering and the pages' JSX are not modelled; Step2SurveyType.tsx is modelled only through its two buttons.
- The question and option edits copy the array and then change the question object in place, which in React also changes the previous state's object. The model works on values, so that aliasing is not captured.
- PublicSurveyPage.Ticked: a multiple-choice answer is a list or absent, because only the checkboxes write it. Any other stored value reads as no selection, where JavaScript would keep a non-list truthy value.
- PublicSurveyPage.FormatAnswers: `Object.entries` lists integer-like keys in ascending order. Keys outside the array-index range (negative ids) would come in insertion order, and that is not modelled.
- SurveyEditorPage.Editor.UpdateOption and SurveyWizardPage.Wizard.UpdateOption require an option index on screen. JavaScript would also grow the array for an index past its end.
- SurveyController.Update: only the keys the front end sends are modelled; a key present with `null` counts as absent, as `isset` does.

## Findings

| source | as written | input that shows it | evidently intended | confidence | as-written member | corrected member |
|---|---|---|---|---|---|---|
| backend/src/Controller/SurveyController.php:72 | `create` (and `update` at line 124) call `setPageNumber`, which `Question` does not define, so any body with a question ends in a PHP error (500) | a `create` body with title "Feedback" and one question | the migration adds a `page_number` column: the question stores its page number | not executed | SurveyController.CreateWithAQuestionFailsAsWritten | SurveyController.Create, SurveyController.Update |
| frontend/src/components/wizard/Step3PageConfig.tsx:27 | a new page's id is the page count plus one, which can repeat an existing id after a removal | add two pages, remove page 1, add a page: ids `[2, 2]` | page ids stay distinct | not executed | PageConfigEditor.AddPageReusesAnId, SurveyWizardPage.RemovePageCanEmptyTheLayout | PageConfigEditor.AddPageFresh |
| frontend/src/pages/SurveyWizard.tsx:43 | the page of kept question `i` is looked up by its post-filter index, while pages hold indices into the unfiltered list | questions `["", "Q"]`, page 1 holds index 1 and page 2 holds index 0: "Q" is sent with page 2 | each question is sent with the page it was assigned to | not executed | SurveyWizardPage.AsWrittenMisplacesAfterABlank | SurveyWizardPage.AssignedQuestionsCarryTheirPage |
