# prepmate core, modelled in Dafny

prepmate is an exam-preparation web application. Students upload study text or a PDF and
receive generated multiple-choice or short-answer tests. They take the tests in the browser
and get a score and a report. Scheduled tests are generated by a background job and
announced on WhatsApp. Pages behind a plan check which subscription the user holds.

This project models the logic of that core:

- the question generators and their JSON extraction: `pages/api/generate-test.js`, `pages/api/generate-openai.js`;
- the scheduled-test job: `scripts/generate_scheduled_tests.js`;
- the scoring of a test taken in the browser: `pages/generate.js`;
- the free dashboard's statistics and create-test form: `pages/dashboard.js`;
- the career questionnaire: `pages/career-counseling.js`;
- the plan gate: `lib/useRequirePlan.js`;
- the API handlers that read and write reports, scheduled tests and plan choices;
- the sign-up pages for the profile, the plan and the payment.

Each file has one Dafny module:

| module | what it models |
|---|---|
| `Wrappers`, `Strings`, `JsonValue` | `Option`/`Result`, JavaScript string operations (trim, split, join, case mapping, number rendering) and JSON values with JavaScript truthiness |
| `Extract` | the regular-expression rewrites that pull JSON text out of a model reply |
| `Db` | the outcome of a database call (`Raised`, `DbError`, `NoData`, `Data(rows)`) |
| `GenerateTestApi`, `GenerateOpenAi` | the two generation handlers; the local fallback generator is a method over an array |
| `Scheduler` | the job; `Scheduler.Backend` is a class whose fields are the tables the job writes |
| `GeneratePage` | the submission of a test |
| `Dashboard` | statistics (`Dashboard.Stats` class) and the create-test flow |
| `Career` | the questionnaire (`Career.Questionnaire` class) |
| `RequirePlan` | the plan gate |
| `GetScheduledTest`, `SaveReport`, `GetReports`, `SaveSelectedPlan` | the API handlers |
| `SetupProfile`, `PlanSelection`, `Payment` | the sign-up pages |

Conventions used throughout the model:

- External services are inputs: the language model, the database, the WhatsApp gateway, the session lookup and `JSON.parse`. A call becomes an outcome datatype or a function parameter.
- Numbers are integers and times are integer milliseconds.
- An API handler is a function from its request and the outcomes of its database calls to its reply. The reply also records the rows it handed to inserts.

Where the scheduled-test job's documentation and its code disagree, the model follows the code:

- there is no escalation to a guardian;
- there is no sweep from pending to notified;
- the generated payload is not validated against a schema;
- no log row is written when generation fails or the gateway is unconfigured.

## Model

| member | source | states |
|---|---|---|
| Extract.StripFencesPrefix | pages/api/generate-test.js:10 | text in front of the first fence is kept as it is and rewriting goes on behind it |
| Extract.StripFencesBlock | pages/api/generate-test.js:10 | a fenced block is replaced by what it captures (its inside less an optional case-insensitive `json` tag and the white space after it), ending at the first closing fence, and rewriting goes on after it |
| Extract.StripFencesUnclosed | pages/api/generate-test.js:10 | an opening fence that no later fence closes leaves the text unchanged |
| Extract.StripFencesNoFence | pages/api/generate-test.js:10 | text without a triple-backtick fence is left unchanged |
| Extract.UnwrapFenced | pages/api/generate-test.js:10 | a reply wrapped as a ```json block becomes its trimmed body |
| Extract.UnquotePrefix | pages/api/generate-test.js:12 | text in front of the first backtick is kept as it is and rewriting goes on behind it |
| Extract.UnquoteSpanThen | pages/api/generate-test.js:12 | a backtick-quoted span with a non-empty body is replaced by the body and rewriting goes on after its closing backtick |
| Extract.UnquoteDoubled | pages/api/generate-test.js:12 | two backticks in a row quote nothing: the first is kept and the second may open a span |
| Extract.UnquoteUnclosed | pages/api/generate-test.js:12 | a backtick that no later backtick closes leaves the text unchanged |
| Extract.UnquotePlain | pages/api/generate-test.js:12 | text without backticks is unchanged |
| Extract.UnquoteSpan | pages/api/generate-test.js:12 | a backtick-quoted span becomes its body |
| Extract.BracketBounds | pages/api/generate-test.js:20 | the greedy match runs from the first opening bracket to the last closing one; it exists iff some opening bracket precedes some closing one |
| Extract.BracketSpan | pages/api/generate-test.js:20-21 | the matched text starts with the opening bracket and ends with the closing one |
| Extract.JsonSpan | pages/api/generate-test.js:19-28 | an array span wins over an object span; there is no span iff neither kind of bracket pair occurs |
| Extract.JsonSpanOfArray | pages/api/generate-test.js:20-21 | a text that is an array literal is its own span |
| Extract.StripFencedBody | pages/api/generate-test.js:7-13 | cleaning a fenced reply without backticks or edge white space yields exactly its body |
| Extract.ExtractFencedArray | pages/api/generate-test.js:16-29 | a reply that is a fenced JSON array yields that array's text |
| Extract.RemoveFencesPrefix | pages/api/generate-openai.js:74 | both deleting passes keep the text in front of the first fence as it is |
| Extract.RemoveFenceAfter | pages/api/generate-openai.js:74 | each pass deletes the first fence (the tagging pass also a following `json`, `js` or `typescript` tag, any letter case) and goes on with the rest |
| Extract.RemoveFencesLeaveNone | pages/api/generate-openai.js:74 | no triple backtick is left after either pass |
| Extract.RemoveFencesNoFence | pages/api/generate-openai.js:74 | fence-free text passes both deleting passes unchanged |
| Extract.BracketSpanOfPadded | pages/api/generate-openai.js:66-67 | a bracketed text between a prefix without the opening bracket and a suffix without the closing one is the span found |
| Extract.RemoveTaggedBeforeFence | pages/api/generate-openai.js:74 | fence-free text in front of a closing fence survives the tag-deleting pass |
| Extract.RemoveTaggedFencesOfFenced | pages/api/generate-openai.js:74 | a ```json reply loses its fences and its tag and keeps its body between two newlines |
| GenerateTestApi.Handle | pages/api/generate-test.js:31-100 | 405 unless POST and 400 without text, type and count; 500 exactly when the model call throws; a 200 parse error that hands back the raw reply exactly when no span is found, and one that also hands back the span exactly when the span does not parse; otherwise a parsed array is returned as its items and any other value as a list of one |
| GenerateTestApi.FencedArrayReply | pages/api/generate-test.js:81-85 | a fenced JSON array reply comes back as exactly that array's items |
| GenerateOpenAi.Clamp | pages/api/generate-openai.js:119 | the question count is always between 2 and 20: a count in that range is kept, a smaller one becomes 2 and a larger one 20 |
| GenerateOpenAi.Cut | pages/api/generate-openai.js:30 | `slice(0, n)` is the prefix of length min(len, n) |
| GenerateOpenAi.PaddedOptions | pages/api/generate-openai.js:90-92 | there are always four options: the given ones first, then the numbered placeholders |
| GenerateOpenAi.AnswerLetter | pages/api/generate-openai.js:93-94 | the answer is always one of A to D; a letter given in any case and padding is kept, anything else becomes A |
| GenerateOpenAi.ShortAnswer | pages/api/generate-openai.js:96-100 | a short answer is never empty and is the trimmed given answer when there is one |
| GenerateOpenAi.NormalizedItem | pages/api/generate-openai.js:84-101 | a non-object is dropped; an object with a non-string type throws; every kept item is well formed, with the trimmed question text, MCQ iff its type is MCQ; an MCQ item has the padded options and the normalised answer letter, a short-answer item the trimmed answer or the placeholder |
| GenerateOpenAi.FillOptions | pages/api/generate-openai.js:90-92 | the padding loop produces exactly the padded option list |
| GenerateOpenAi.NormalizeItem | pages/api/generate-openai.js:84-101 | the method computes the normalized item |
| GenerateOpenAi.NormalizedItems | pages/api/generate-openai.js:160 | a failure is the type error; otherwise the kept items are well formed and no more numerous than the input |
| GenerateOpenAi.NormalizedItemsFail | pages/api/generate-openai.js:160 | normalizing the list fails iff some item fails |
| GenerateOpenAi.NormalizedItemsKeepAll | pages/api/generate-openai.js:160 | every item is kept iff every item is an object |
| GenerateOpenAi.NormalizeAll | pages/api/generate-openai.js:160 | the loop computes the normalized list |
| GenerateOpenAi.ExtractReplyJson | pages/api/generate-openai.js:63-81 | an empty reply gives nothing; a bracketed array that parses is returned first; when there is no bracketed span, or it does not parse, the trimmed text with fences and fence tags deleted is parsed |
| GenerateOpenAi.ExtractFencedArrayReply | pages/api/generate-openai.js:66-71 | a fenced array reply yields the parsed array |
| GenerateOpenAi.ExtractFencedObjectReply | pages/api/generate-openai.js:74-80 | a fenced object reply without brackets yields the parsed object |
| GenerateOpenAi.CollapseNewlines | pages/api/generate-openai.js:22 | the collapsed text has no newline, is empty iff the input is, and a text without newlines is unchanged |
| GenerateOpenAi.SplitAfterStops | pages/api/generate-openai.js:22-24 | the split has at least one part; the first part is a non-empty prefix; parts of newline-free text are newline-free; text with no break is one part |
| GenerateOpenAi.NonEmpty | pages/api/generate-openai.js:25 | exactly the non-empty parts are kept, and a non-empty first part stays first |
| GenerateOpenAi.Sentences | pages/api/generate-openai.js:22-25 | there are no sentences iff the text is empty; every sentence is non-empty and newline-free |
| GenerateOpenAi.SingleSentence | pages/api/generate-openai.js:22-25 | a newline-free text with no stop is one sentence |
| GenerateOpenAi.LocalTotal | pages/api/generate-openai.js:27 | the local total is between 2 and 20; a zero count means 5, an in-range count is kept, any other count below 2 becomes 2 and one above 20 becomes 20 |
| GenerateOpenAi.LastWords | pages/api/generate-openai.js:31 | split at single spaces, the result is exactly the last six space-separated parts of the question (all of them when there are fewer); it is a suffix of the question, and a question without spaces is its own result |
| GenerateOpenAi.CorrectText | pages/api/generate-openai.js:31 | the correct answer is a non-empty suffix of a non-empty question |
| GenerateOpenAi.OptionVariants | pages/api/generate-openai.js:32 | there are four variants and the correct text comes first |
| GenerateOpenAi.IndexOf | pages/api/generate-openai.js:38 | `indexOf`: the first position holding the value, or -1 iff it is absent |
| GenerateOpenAi.Shuffle | pages/api/generate-openai.js:34-37 | the in-place shuffle permutes the options |
| GenerateOpenAi.MakeMcq | pages/api/generate-openai.js:29-41 | the item is a well-formed MCQ from the sentence, and its answer letter names the correct text after shuffling |
| GenerateOpenAi.MakeQna | pages/api/generate-openai.js:43-47 | the item is a well-formed short-answer item whose answer is a suffix of its question, or "Answer" |
| GenerateOpenAi.PushMcqs | pages/api/generate-openai.js:49-50 | the multiple-choice loop extends the list up to the given index, keeps what was there, and every pushed item is the well-formed multiple-choice item for its position |
| GenerateOpenAi.PushQnas | pages/api/generate-openai.js:51-52 | the short-answer loop extends the list up to the given index, keeps what was there, and every pushed item is the well-formed short-answer item for its position |
| GenerateOpenAi.LocalGenerate | pages/api/generate-openai.js:21-60 | exactly the local total of items are produced; each is well formed and built from the sentence and kind its position calls for |
| GenerateOpenAi.RequestCount | pages/api/generate-openai.js:115-119 | the requested count is between 2 and 20: `questions`, else `count`, clamped, and 5 when both are absent or the one used is not a number |
| GenerateOpenAi.RequestKind | pages/api/generate-openai.js:116-117 | the kind is one of QNA, MCQ and MIXED; an absent type means MCQ and lower-case names are recognised |
| GenerateOpenAi.AiItems | pages/api/generate-openai.js:140-159 | the model's items are used exactly when there is a reply and the JSON extracted from it is a non-empty array, and then they are that array's items |
| GenerateOpenAi.TopUp | pages/api/generate-openai.js:161-165 | exactly `count` well-formed items: the kept ones first, then local ones |
| GenerateOpenAi.Handle | pages/api/generate-openai.js:103-176 | 405 unless POST and 400 without text; any 500 is the server error; questions come from the model when it gives items and from the local generator otherwise |
| Scheduler.DueSchedules | scripts/generate_scheduled_tests.js:64-69 | exactly the schedules that are active and have never run or last ran more than 23 hours ago |
| Scheduler.DueSchedulesAppend | scripts/generate_scheduled_tests.js:64-69 | the filter distributes over concatenation |
| Scheduler.RecentUploads | scripts/generate_scheduled_tests.js:74-89 | the first five of the query's rows, or all of them when there are fewer; none when the query fails |
| Scheduler.UploadLines | scripts/generate_scheduled_tests.js:91-97 | one listing line per upload |
| Scheduler.ListingLines | scripts/generate_scheduled_tests.js:91-97 | the listing splits back into exactly one line per upload |
| Scheduler.ParseReply | scripts/generate_scheduled_tests.js:108-126 | the cleaned reply's own value when it parses; otherwise the value of its outermost bracketed span when that parses, "OpenAI response unparsable" when it does not, and "no JSON found" when there is no span |
| Scheduler.GenerateTest | scripts/generate_scheduled_tests.js:99-127 | the model is asked under the system prompt for five MCQ items; a failed call is "OpenAI request failed", and an answer gives what ParseReply makes of its content ("" when missing) |
| Scheduler.ParseFencedArray | scripts/generate_scheduled_tests.js:108-126 | a fenced array reply parses to that array |
| Scheduler.MarkRun | scripts/generate_scheduled_tests.js:148-154 | only the schedule with the id gets the run time, and every other row is unchanged |
| Scheduler.ReminderLines | scripts/generate_scheduled_tests.js:177 | the reminder message has exactly five lines: title, ready line, id, question count and closing |
| Scheduler.RemindEffect | scripts/generate_scheduled_tests.js:165-208 | a reminder touches only the outbox and the logs; without a configured gateway or a phone nothing changes; otherwise exactly the reminder text goes to `whatsapp:<phone>`, and one log row, whose success flag says whether the send was delivered, is added exactly when the log insert succeeds |
| Scheduler.StepRows | scripts/generate_scheduled_tests.js:222-243 | one scheduled-test row is added iff generation and insertion succeed |
| Scheduler.StepSchedules | scripts/generate_scheduled_tests.js:222-243 | only the processed schedule may change, and only after a successful insert |
| Scheduler.RunRowsPerSchedule | scripts/generate_scheduled_tests.js:222-243 | the loop only appends rows, and the schedule ids of the added rows are exactly the ids of the due schedules whose test was stored, in due order (so at most one row per due schedule) |
| Scheduler.RunRemindersFollowInserts | scripts/generate_scheduled_tests.js:222-243 | the loop only appends to the outbox and the reminder logs, and adds no more messages and no more logs than stored rows |
| Scheduler.RunLastRunOnlyAfterInsert | scripts/generate_scheduled_tests.js:222-243 | a schedule's last-run time moves only when its test was stored |
| Scheduler.Backend.constructor | scripts/generate_scheduled_tests.js:35-43 | the backend holds the given tables |
| Scheduler.Backend.FetchDueSchedules | scripts/generate_scheduled_tests.js:54-72 | an error iff the query fails; otherwise exactly the due schedules |
| Scheduler.Backend.InsertScheduledTest | scripts/generate_scheduled_tests.js:129-146 | a failed insert changes nothing; a successful one appends the row and returns its id when the database returns it |
| Scheduler.Backend.MarkScheduleRun | scripts/generate_scheduled_tests.js:148-154 | the tables become those with the schedule marked |
| Scheduler.Backend.SendWhatsappReminder | scripts/generate_scheduled_tests.js:165-208 | the tables become those after the reminder, whose effect RemindEffect states |
| Scheduler.Backend.GenerateFor | scripts/generate_scheduled_tests.js:225-230 | the outcome is the schedule's entry in Outcomes: GenerateTest (see its row) on the prompt built from RecentUploads of the schedule's user |
| Scheduler.Backend.StoreAndRemind | scripts/generate_scheduled_tests.js:222-243 | the tables become those after one step |
| Scheduler.Backend.ProcessAll | scripts/generate_scheduled_tests.js:222-243 | the tables become those after all due schedules are processed in order |
| Scheduler.Backend.RunMain | scripts/generate_scheduled_tests.js:212-249 | aborted iff the schedule query fails; nothing due iff no schedule is due; otherwise processes every due schedule and reports how many |
| GeneratePage.CheckGenerate | pages/generate.js:40-53 | generation proceeds iff the trimmed text has at least 20 characters and the count is between 2 and 20; the text check comes first |
| GeneratePage.LetterOf | pages/generate.js:113-120 | an index below 26 becomes the letter at that position |
| GeneratePage.FindText | pages/generate.js:121-123 | the first option equal to the answer, or -1 when none is |
| GeneratePage.Judge | pages/generate.js:103-134 | a question without an answer is skipped and only then; an answered question without options counts as wrong |
| GeneratePage.CheckMcq | pages/generate.js:107-129 | the method's result is the multiple-choice rule on the option texts |
| GeneratePage.JudgeAnswer | pages/generate.js:103-134 | an answered question gets its verdict and its wrong-list entry |
| GeneratePage.WrongEntryFor | pages/generate.js:126-133 | a multiple-choice entry keeps the trimmed answer, the given answer and the options; an open entry keeps the answer as typed, no options, and the answer or an explicit null as `correct` |
| GeneratePage.ScoreTest | pages/generate.js:86-137 | an empty test is refused iff there are no questions; otherwise the report tallies attempted, right and wrong, and the wrong list holds every wrong answer in order |
| GeneratePage.TallyBalanced | pages/generate.js:103-134 | attempted equals right plus wrong and never exceeds the question count |
| GeneratePage.VerdictsConsistent | pages/generate.js:103-104 | a verdict is a skip exactly where no answer was given |
| GeneratePage.WrongListCounted | pages/generate.js:103-134 | the wrong list has exactly as many entries as the wrong tally |
| GeneratePage.WrongListOrdered | pages/generate.js:103-134 | the wrong list's indices are in range and strictly increasing |
| GeneratePage.WrongListExact | pages/generate.js:103-134 | a question is in the wrong list iff its verdict is wrong |
| GeneratePage.LetterKeyRight | pages/generate.js:113-120 | with a letter key, an answer is right iff it names the keyed option by its text or by its letter |
| Dashboard.ScoreOf | pages/dashboard.js:104-117 | a null report cannot be read; a counted score is the report's numeric score, and an uncounted one has none |
| Dashboard.Scores | pages/dashboard.js:104-117 | one score entry per report |
| Dashboard.ScoreCountBounds | pages/dashboard.js:104-117 | at most one counted score per report; the count is zero iff no report has a score, and then the total is zero |
| Dashboard.EntryOf | pages/dashboard.js:121-129 | a report without a timestamp has no day; a valid timestamp gives its day and an invalid one is a bad date |
| Dashboard.ReportDaysExact | pages/dashboard.js:121-129 | a day is among the report days iff some report falls on it |
| Dashboard.StreakUnique | pages/dashboard.js:133-149 | the streak length is determined by the days and today |
| Dashboard.SumScores | pages/dashboard.js:104-117 | the loop fails iff some report cannot be read, and otherwise computes the total and count |
| Dashboard.CollectDays | pages/dashboard.js:121-129 | the loop succeeds iff every date is valid, and then collects exactly the report days |
| Dashboard.CountStreak | pages/dashboard.js:133-149 | the loop's count is the streak ending today and is bounded by the number of days |
| Dashboard.Stats.constructor | pages/dashboard.js:39-46 | all statistics start at zero |
| Dashboard.Stats.ComputeStats | pages/dashboard.js:98-150 | the test count is the list's length; the scores and streak are those of the list; what a throw skips keeps its previous value |
| Dashboard.Stats.FetchReports | pages/dashboard.js:78-96 | a readable list gives its statistics; any failure leaves no reports and zero statistics |
| Dashboard.ReportList | pages/dashboard.js:86 | `json.reports ?? json.data ?? json`; nothing for a missing or null reply |
| Dashboard.ReportsReplyJson | pages/api/get-reports.js:55 | a refusal reads as no reply, and a listing as `{ reports }` |
| Dashboard.ReportsRequestRefused | pages/dashboard.js:82 | the dashboard's GET is refused with 405, so it reads no list |
| Dashboard.IntendedReportsReachStats | pages/api/get-reports.js:14-55 | a POST naming a known user delivers exactly the handler's kept reports as the statistics' list |
| Dashboard.TypeSent | pages/dashboard.js:216 | the form sends MCQ, QA or MIX |
| Dashboard.CheckForm | pages/dashboard.js:159-166 | the form is accepted iff the name is non-blank and the count is between 2 and 20; the name is checked first |
| Dashboard.FormText | pages/dashboard.js:169-199 | the text sent is the trimmed pasted text without a PDF and the extracted text of a PDF within 5 MB; there is none when the PDF is too large or its extraction failed |
| Dashboard.CreateTest | pages/dashboard.js:153-268 | a form error stops everything with its message; a PDF over 5 MB stops with the size message; a PDF is extracted iff one within 5 MB is given; a throwing or failed extraction and an empty text each stop with their own message and no request; a request is sent iff the form is valid and there is non-empty text, and then it carries the text, count, type and trimmed name and the outcome is that of the generation stage |
| Dashboard.GenerateAndSave | pages/dashboard.js:210-259 | a throwing call, a failed call and a null reply each leave their own message and nothing generated; otherwise the questions shown are the reply's `questions` field, or the reply itself, and exactly they are saved as a generated test under the trimmed name, with a message saying whether the insert succeeded, was refused or threw |
| Dashboard.KindOfType | pages/api/generate-openai.js:116-117 | the generator keeps a known type in upper case and reads any other type as MCQ |
| Dashboard.QaBecomesMcq | pages/dashboard.js:216 | as written, the QA selection is generated as MCQ |
| Dashboard.MixBecomesMcq | pages/dashboard.js:216 | as written, the mixed selection is generated as MCQ |
| Dashboard.IntendedTypeReachesGenerator | pages/api/generate-openai.js:116-117 | with those names every selection reaches the generator as the kind chosen |
| Career.SectionsNumbered | pages/career-counseling.js:23-211 | the question ids of section k carry the number k |
| Career.SectionsCount | pages/career-counseling.js:23-211 | six sections with distinct ids and 27 questions |
| Career.QuestionIdsDistinct | pages/career-counseling.js:23-211 | no question id occurs twice |
| Career.EmptyListsAll | pages/career-counseling.js:217-221 | every question of a section starts with an empty selection |
| Career.InitialAll | pages/career-counseling.js:217-221 | the initial answers have an entry for exactly the sections |
| Career.InitialAnswersEmpty | pages/career-counseling.js:217-221 | every question starts with nothing selected |
| Career.BuildInitial | pages/career-counseling.js:217-221 | the loop builds the initial answers |
| Career.IndexOf | pages/career-counseling.js:230 | the first position of the option, or -1 iff it is absent |
| Career.Toggled | pages/career-counseling.js:229-233 | an absent option is appended; a present one is removed once |
| Career.RemoveAtMembers | pages/career-counseling.js:232 | removing one element of a duplicate-free list removes that value only |
| Career.ToggleSelects | pages/career-counseling.js:226-236 | after a toggle the option is selected iff it was not, other options keep their state, and no option occurs twice |
| Career.ToggleTwiceAbsent | pages/career-counseling.js:226-236 | toggling an unselected option twice restores the list |
| Career.ToggleTwicePresent | pages/career-counseling.js:226-236 | toggling a selected option twice restores the selection, and the order too when it was last |
| Career.ToggleOnlyTarget | pages/career-counseling.js:226-236 | a toggle changes no other question's selection |
| Career.FirstMissingInExact | pages/career-counseling.js:243-251 | no question of a section is missing iff every one is answered; a reported one is unanswered and every earlier one is answered |
| Career.FirstMissingExact | pages/career-counseling.js:243-251 | nothing is missing iff every question is answered, and the reported question is unanswered while every question of every earlier section and every earlier question of its own section is answered |
| Career.FindMissing | pages/career-counseling.js:243-251 | the loops find the first unanswered question |
| Career.Questionnaire.constructor | pages/career-counseling.js:214-221 | the name and error start empty and the answers start as the initial answers |
| Career.Questionnaire.ToggleOption | pages/career-counseling.js:226-236 | only the target question's selection changes, to the toggled one |
| Career.Questionnaire.ValidateAll | pages/career-counseling.js:238-254 | the form is valid iff the name is non-blank and every question is answered; the error line names the first problem |
| RequirePlan.CheckPlan | lib/useRequirePlan.js:23-80 | without a user the page goes to /auth; allowed iff the query answered and the active plan is truthy and required; a page that is not allowed is redirected |
| RequirePlan.SinglePlanGate | lib/useRequirePlan.js:55-71 | with one required plan, a user is let in iff their latest subscription is active and on that plan |
| RequirePlan.InactiveNeverAllowed | lib/useRequirePlan.js:55-71 | an inactive subscription never lets a user in, and a signed-in user is redirected |
| GetScheduledTest.Handle | pages/api/get-scheduled-test.js:16-81 | 405 and 400 on bad requests; not found iff the test has no row; the test is granted iff it and its owner are found and the owner is the caller; the reply carries the row's fields |
| GetScheduledTest.PayloadToOneOwner | pages/api/get-scheduled-test.js:60-63 | one test is never granted to two callers who resolve to different users |
| GetScheduledTest.NumericOwnerMatchesString | pages/api/get-scheduled-test.js:60 | a numeric owner id matches the caller's id written as a string |
| SaveReport.UserMapping | pages/api/save-report.js:64-73 | the new users row holds the external id and a null email |
| SaveReport.QuestionCount | pages/api/save-report.js:86 | the given count when not nullish, otherwise the questions' length, otherwise null |
| SaveReport.TestPayload | pages/api/save-report.js:82-87 | the tests row holds the user, the upload or null, the type or null, and the question count |
| SaveReport.ListOrNull | pages/api/save-report.js:109-110 | an array is kept and anything else becomes null |
| SaveReport.ReportPayload | pages/api/save-report.js:103-111 | the reports row holds the test id and the report's counts and lists, nullish fields as null |
| SaveReport.Store | pages/api/save-report.js:77-126 | an unresolved user is a 500; a report row exists iff the test insert succeeded, and it points at the new test |
| SaveReport.WithNewUser | pages/api/save-report.js:64-75 | the mapping row is created before anything is stored |
| SaveReport.Handle | pages/api/save-report.js:37-134 | 405 and 400 on bad requests; a given user id is used without lookup; a lookup row wins; a mapping is created only when none exists; the report row references the inserted test |
| SaveReport.GivenUserIgnoresUsersTable | pages/api/save-report.js:49-50 | with a user id in the body, the users table's answers do not matter |
| SaveReport.CountFromQuestions | pages/api/save-report.js:86 | without a count, the questions' length is stored |
| GetReports.Filter | pages/api/get-reports.js:53 | the kept reports are the fetched ones that pass the filter, in their order |
| GetReports.Handle | pages/api/get-reports.js:9-59 | 405 and 400 on bad requests; an unknown user gets an empty list; a known user gets exactly the filter's result on the fetched reports (in fetch order), and a failed fetch is a 500 |
| GetReports.LinkedReportsGoToEveryone | pages/api/get-reports.js:53 | as written, every report that names a test goes to every known user |
| GetReports.OtherUsersReportLeaks | pages/api/get-reports.js:53 | as written, u1 receives u2's report, and the intended filter returns none |
| GetReports.OwnOnlyReturnsOwnReports | pages/api/get-reports.js:53 | with the intended filter, a user receives exactly their own reports, directly or through their test |
| GetReports.SavedReportVisibility | pages/api/save-report.js:103-111 | a saved report is listed for its test's owner and no one else by the intended filter, and for everyone as written |
| SaveSelectedPlan.BodyOf | pages/api/save-selected-plan.js:22-29 | a string body is parsed and is invalid when it does not parse; any other body is used as it is |
| SaveSelectedPlan.SubscriptionRow | pages/api/save-selected-plan.js:62-67 | the row holds the user, the plan, status active and the activation time |
| SaveSelectedPlan.TokenToCheck | pages/api/save-selected-plan.js:40-41 | a token is checked iff the body has no user and the header starts with Bearer |
| SaveSelectedPlan.Handle | pages/api/save-selected-plan.js:15-86 | 405, invalid JSON and a missing plan are refused; the user comes from the body, else from the token; 200 iff a row was inserted successfully, returning the saved row or null |
| SaveSelectedPlan.BearerToken | pages/api/save-selected-plan.js:40-41 | a Bearer header yields its token |
| SaveSelectedPlan.UserFromToken | pages/api/save-selected-plan.js:37-67 | without a body user, the token's user is subscribed |
| SetupProfile.Validate | pages/setup-profile.js:54-60 | each field's message is returned iff it is the first blank one, and no message iff all are filled |
| SetupProfile.BlankFieldRejected | pages/setup-profile.js:54-60 | a profile with a blank field is rejected |
| SetupProfile.ProfileRow | pages/setup-profile.js:87-94 | the upserted row holds the user id, the four fields and the update time |
| SetupProfile.Continue | pages/setup-profile.js:62-110 | an invalid profile stops with its message; a valid one is stored and moves to step 2; it is upserted iff there is a user |
| PlanSelection.PlansTable | pages/setup-profile-step3.js:10-78 | five plans with distinct ids, only prime recommended, no negative price |
| PlanSelection.FindPlan | pages/setup-profile-step3.js:170 | the plan with the id, and nothing iff no plan has it |
| PlanSelection.PriceSent | pages/setup-profile-step3.js:170-173 | the plan's price, or null for an unknown id |
| PlanSelection.InitialSelection | pages/setup-profile-step3.js:82-90 | the stored plan when non-empty, otherwise free |
| PlanSelection.EncodeUriComponent | pages/setup-profile-step3.js:192 | the encoding is never shorter and holds only unreserved characters and percent signs |
| PlanSelection.EncodeUnreserved | pages/setup-profile-step3.js:192 | a text of unreserved characters is unchanged |
| PlanSelection.Route | pages/setup-profile-step3.js:182-192 | free goes to /generate, career counselling to its page, every other plan to payment with the id encoded |
| PlanSelection.PaidPlansGoToPayment | pages/setup-profile-step3.js:182-192 | every paid plan in the table goes to payment with its id as written |
| PlanSelection.RequestFor | pages/setup-profile-step3.js:121-128 | the request carries the Bearer token, the plan and its price |
| PlanSelection.Complete | pages/setup-profile-step3.js:149-193 | no plan means an alert; the plan is stored; without a session nothing is sent; with one the request is sent and the route follows only a successful save; a failed save alerts "Failed saving plan: " followed by the error message or "Unknown error" |
| PlanSelection.CompleteSavesThroughToken | pages/api/save-selected-plan.js:37-81 | the page's request subscribes the token's user to the chosen plan |
| Payment.PlanOf | pages/payment.js:14-20 | the query plan, else the stored plan, else starter; never empty |
| Payment.PriceValue | pages/payment.js:57 | 299 for starter, 399 for prime and 499 for anything else |
| Payment.SuccessRoute | pages/payment.js:76-79 | each paid plan goes to its dashboard, any other plan to /generate |
| Payment.RequestBody | pages/payment.js:50-59 | the body holds the user, the plan and its price |
| Payment.CompletePayment | pages/payment.js:40-86 | without a user nothing is sent; with one the request is sent; the route follows only a successful reply; a failure shows the thrown text, else the reply's `error`, else "Server returned status N" |
| Payment.PurchaseSubscribesUser | pages/api/save-selected-plan.js:37-81 | a payment subscribes the paying user to the plan |
| Payment.PaidPlanPrice | pages/payment.js:57 | the payment page charges the price the plan table shows for each paid plan |

## Left out

- Calls to OpenAI, Supabase, Twilio and Firebase are inputs to the model: outcome datatypes or function parameters. Client construction and environment-variable checks are not modelled.
- `JSON.parse` is a parameter `parse: string -> Option<Json>`. JSON numbers are integers, and floating-point values are not modelled.
- Dashboard.Stats.ComputeStats: keeps the score total and count but not the floating-point average computed from them.
- Dashboard.EntryOf: a timestamp's calendar day is a parameter, so the time-zone behaviour of `toISOString` is not modelled.
- Times are integer milliseconds, given as a parameter. The clock and `toISOString` formatting are not modelled.
- GenerateOpenAi.Shuffle: `Math.random` is a parameter `draw`. The shuffle is proved to be a permutation but not to be uniform.
- GeneratePage.LetterKeyRight: assumes at most 26 options, because letters exist only for those.
- The option lists of the career questionnaire's questions are not modelled; sections keep their ids and titles and questions their ids and texts, and an answer is any list of option strings. The features and labels of the plan table are display text and are not modelled.
- The `details` field of error replies and all console logging are not modelled.
- Upper- and lower-casing (`Strings.UpperChar`, `Strings.LowerChar`) map ASCII letters only, whereas JavaScript's `toUpperCase` and `toLowerCase` map all of Unicode. This affects the answer comparison of pages/generate.js:113-123 and the kind and answer normalisation of pages/api/generate-openai.js:86, 93 and 116.
- Lengths and slices count characters (code points), whereas JavaScript counts UTF-16 code units. Text outside the Basic Multilingual Plane gets other lengths and cut points in the 20-character minimum of pages/generate.js:46 and the cuts of pages/api/generate-openai.js:30, 32, 44 and 169.
- Db.InsertedId: a returned row without an id column reads as null.
- Strings.StringToNumber: reads only optionally signed decimal integers. The other strings JavaScript's `Number` reads as numbers are taken as NaN: a decimal point or exponent ("85.0", "1e2"), hexadecimal, octal or binary prefixes ("0x10") and "Infinity". This affects the count of pages/api/generate-openai.js:115 and the scores of pages/dashboard.js:112-113.
- ScoreOf: a string score in one of those other number forms, such as "85.0", is not counted, whereas pages/dashboard.js:112-113 counts it. The total and the count then differ from the page's.
- Scheduler.ParseReply: when the reply has no bracketed span, scripts/generate_scheduled_tests.js:124 rethrows the error of `JSON.parse`, whose text depends on the JavaScript engine; the model gives "no JSON found" in its place. The caller only logs that text.
- PlanSelection.Complete: the session is one input read for both the user check and the access token, not two independent lookups.
- Payment.CompletePayment: the text shown for a thrown error is an input, already formatted.
- React state, effects, timers and navigation are not modelled. Outcomes record what the page stores, sends and routes to. `localStorage` values are parameters.
- The `.eq` and `.order` filters of database queries are not modelled. The query outcome is taken to already hold the selected rows, in order.
- The pages outside this core are not part of this model: the landing and authentication pages, the plan dashboards and the reports page.

## Findings

| source | as written | input that shows it | evidently intended | confidence | as-written member | corrected member |
|---|---|---|---|---|---|---|
| pages/api/get-reports.js:53 | keeps a report when `r.user_id === userId \|\| r.test_id`; rows saved by save-report have a test id and no user id | user u1 asks for reports; the only report is u2's, with test_id "t2" | keep a report only when it, or the test it names, belongs to the user | high, not executed | GetReports.OtherUsersReportLeaks | GetReports.OwnOnlyReturnsOwnReports |
| pages/dashboard.js:216 | sends type QA or MIX, which the generator does not recognise, so it generates MCQ | the QA selection | send QNA or MIXED, the generator's own names | high, not executed | Dashboard.QaBecomesMcq | Dashboard.IntendedTypeReachesGenerator |
| pages/dashboard.js:82 | fetches /api/get-reports with GET and no body; the handler accepts only POST with a user id | any dashboard load | POST the signed-in user's id | high, not executed | Dashboard.ReportsRequestRefused | Dashboard.IntendedReportsReachStats |
