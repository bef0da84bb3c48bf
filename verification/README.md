# Assessment session workflow

A Dafny model of the test-taking screen of the skill-assessment front end
(`TestWindow.jsx`). An employee arrives at the screen with a skill name, a level and some
identity details. The screen then:

- reads a lookup table of skill codes (a small CSV of `code,name` rows);
- resolves the skill name to its backend code;
- requests the questions for that code and level;
- records one selected option per question;
- on submission, builds one record per question, with the chosen option encoded as a
  letter (`A` for the first option) and the employee's identity taken from fallback chains.
  The outcome is either a hand-off to the dashboard or a failure notice.

The model is pure: every operation is a function over immutable values. React's
scheduling is replaced by an explicit sequence of events (`Session.Event`) folded by
`Session.Run`. The network responses are inputs to those events.

Modules, in dependency order:

- `Wrappers`: the `Option` type.
- `JsText`: `String.prototype.trim` (with the ECMAScript whitespace and line-terminator set)
  and `split`/`join` on a one-character separator.
- `JsLogic`: JavaScript truthiness of an optional string and the value of an `a || b || ...`
  chain.
- `Assessment`: the entities the screen receives (navigation parameters, employee details,
  questions, levels).
- `SkillMap`: parsing of the lookup table and resolution of a skill name.
- `Answers`: the selection tracker (question position to chosen option).
- `Submission`: the letter encoding, the identity fallback chains and the submission batch.
- `Session`: the load decision, the state machine of the screen, the rendered screen and the
  submission outcome.
- `Scenarios`: worked examples over concrete tables and sessions.

Behaviour the model keeps from the code, which a reader might not expect:

- A data row without a comma makes `name.trim()` throw. The table promise has no `catch`,
  so the skill map is never set. With a skill and a level present, the screen then stays on
  "Loading..." for good. The same happens when the table has only its header line, because
  the load effect waits for a non-empty map (`Scenarios.StuckTables`).
- A lookup code that is the empty string falls back to the skill name, as `||` does.
- A later row with the same name overwrites an earlier one.
- Each record's `skill` is the question's `skill_id` or else the session's raw skill
  *name*, not the resolved code.
- A response body without `questions` throws when its length is logged (line 41), before
  the `|| []` fallback is reached. The `catch` then ends loading and keeps the question
  list as it was.
- Nothing stops a second submission while the first is pending, and the selections are
  never cleared: a failed submission leaves every answer in place.
- `String.fromCharCode` reduces its argument to 16 bits, so a selection at position 26
  or beyond gives the code unit after `Z` (`[`, and so on), not a letter.
  `Submission.SelectedLetter` yields UTF-16 code units (`Submission.CodeUnit`) for this
  reason.

## Model

| member | source | states |
|---|---|---|
| JsText.TrimStart | TestWindow.jsx:24 | `trim`'s leading cut: the result is a suffix of the input, everything dropped is whitespace, and the result does not start with whitespace |
| JsText.TrimEnd | TestWindow.jsx:24 | `trim`'s trailing cut: the result is a prefix of the input, everything dropped is whitespace, and the result does not end with whitespace |
| JsText.Trim | TestWindow.jsx:28 | `trim` returns an infix of its input with only whitespace cut on either side and no whitespace left at either edge |
| JsText.TrimIdempotent | TestWindow.jsx:28 | trimming an already trimmed string changes nothing |
| JsText.Split | TestWindow.jsx:27 | `split(sep)` always yields at least one piece, and no piece contains the separator |
| JsText.JoinSplit | TestWindow.jsx:24 | splitting loses nothing: joining the pieces with the separator rebuilds the input |
| JsText.SplitJoin | TestWindow.jsx:24 | splitting a join of separator-free pieces gives the pieces back |
| JsText.SplitCount | TestWindow.jsx:27 | a line splits into two or more fields exactly when it contains the separator |
| JsLogic.FirstTruthy | TestWindow.jsx:59-61 | the value of an `\|\|` chain is one of its candidates; it is truthy iff some candidate is; when truthy it is the first truthy candidate, and otherwise it is the last candidate |
| JsLogic.OrChainIsFirstTruthy | TestWindow.jsx:59 | the left-nested `a \|\| b \|\| ...` expression equals the first-truthy reference for any number of candidates |
| SkillMap.ParseRow | TestWindow.jsx:27-28 | reading one row succeeds exactly when the line has a comma; without one, `name.trim()` throws |
| SkillMap.ParseRowFields | TestWindow.jsx:27-28 | the first comma-separated field, trimmed, is the code and the second, trimmed, is the name; fields after a second comma are ignored |
| SkillMap.ParseRows | TestWindow.jsx:26-29 | the data rows are read in order and yield a row for every line exactly when every line has a comma; each row is the parse of its own line |
| SkillMap.TableOfSpec | TestWindow.jsx:25-30 | the data lines give a map exactly when every one has a comma, and then its keys are exactly the names those lines carry |
| SkillMap.ToMap | TestWindow.jsx:25-29 | the keys of the map built from the rows are exactly the rows' names |
| SkillMap.ParseSkillMap | TestWindow.jsx:24-29 | the lookup table yields a map exactly when every line after the first (after trimming the whole text and splitting on line feeds) has a comma |
| SkillMap.ParseSkillMapSpec | TestWindow.jsx:24-29 | over the CSV text: a map exactly when every data line has a comma; then a name is a key exactly when some data line carries it, and it maps to the trimmed first field of the last such line |
| SkillMap.DataLinesKeys | TestWindow.jsx:26-28 | the keys of the map of the lines after the header are exactly the names those lines carry |
| SkillMap.DataLinesLastWins | TestWindow.jsx:26-28 | a name maps to the code of the last line after the header that carries it |
| SkillMap.ToMapKeys | TestWindow.jsx:28 | a name is a key of the built map iff some row carries it |
| SkillMap.ToMapLastWins | TestWindow.jsx:28 | a name maps to the code of the last row that carries it |
| SkillMap.ToMapSpec | TestWindow.jsx:25-29 | the map's keys are exactly the rows' names, each mapped to the code of its last row |
| SkillMap.Resolve | TestWindow.jsx:36 | `skillMap[skill] \|\| skill` is the mapped code when the name is a key with a non-empty code, and the name otherwise; a non-empty name never resolves to the empty string |
| Answers.Select | TestWindow.jsx:51-53 | a selection records the option at its position, adds only that position, and leaves every other position's option as it was |
| Answers.SelectIdempotent | TestWindow.jsx:52 | choosing the same option twice is choosing it once |
| Answers.SelectCommutes | TestWindow.jsx:52 | selections at different positions do not interfere, in either order |
| Answers.SelectOverwrites | TestWindow.jsx:52 | the last selection at a position wins |
| Submission.FindIndex | TestWindow.jsx:64 | `findIndex` is -1 exactly when no option equals the selection, and otherwise the position of the first equal option |
| Submission.SelectedLetter | TestWindow.jsx:64-65 | the letter is empty exactly when there is no selection or it is not among the options, and otherwise it is the code unit `65 + k` (mod 2^16) for the first equal option `k` |
| Submission.LetterOfFirstMatch | TestWindow.jsx:65 | for the first 26 positions the letter is the upper-case letter `A + k` |
| Submission.EmployeeIdOf | TestWindow.jsx:59 | the employee id is the first truthy of the navigation id, `info.id`, `info.employee_id`, `info.emp_id` |
| Submission.EmployeeNameOf | TestWindow.jsx:60 | the employee name is the first truthy of `info.name`, `info.employee_name` |
| Submission.FirstRole | TestWindow.jsx:61 | `roles && roles[0]` is present exactly for a non-empty list, is its first entry, and is truthy exactly when that entry is non-empty |
| Submission.EmployeePositionOf | TestWindow.jsx:61 | the position is the first truthy of `info.roles[0]`, `employeeRoles[0]`, `info.position`, `info.role` |
| Submission.RecordFor | TestWindow.jsx:66-76 | a record takes `_id` before `question_id` and the question's `skill_id` before the raw skill name; its letter is empty exactly when there is no selection at its position among its options |
| Submission.BuildBatch | TestWindow.jsx:63-77 | one record per question in question order, each carrying its question's text, options and ids, the level, the selection letter of its own position and the same identity |
| Submission.BatchLetterDecodes | TestWindow.jsx:64-65 | every non-empty letter in the batch decodes back to the first option equal to the tracked selection |
| Assessment.LevelTruthy | TestWindow.jsx:35 | a level is falsy exactly when it is missing, `""` or `0` |
| Session.Decide | TestWindow.jsx:35-48 | the load effect fetches iff skill and level are truthy and the map is non-empty, finishes empty iff either is falsy, and otherwise stays loading; the requested code is the resolved skill and never empty |
| Session.RunLoadEffect | TestWindow.jsx:35-48 | with skill and level truthy and a non-empty map the effect adds one request for the resolved code; with either falsy it stops loading and requests nothing; with an empty map it changes nothing; questions, answers and map are never touched |
| Session.TableArrived | TestWindow.jsx:21-31 | the table fetch delivers a map exactly when the text arrived and every data line has a comma, and that map is the parse of the text |
| Session.ReceiveQuestions | TestWindow.jsx:39-45 | a settled question request always ends loading; the questions are replaced only by a body that has a `questions` array; answers and map are untouched |
| Session.Step | TestWindow.jsx:30-53 | one event: loading never restarts once over; only a read table replaces the map; only a question response changes the questions, and one arriving with a request pending settles the oldest request and applies the response; only an option change alters the answers; a submission changes nothing |
| Session.Run | TestWindow.jsx:34-53 | over any sequence of events, loading never restarts once over, and without a question response the question list is unchanged |
| Session.ResponsesSettle | TestWindow.jsx:39-45 | responses to pending requests, overlapping or not, are all taken: each settles one request, loading ends, and the questions are those of the last response that carried an array |
| Session.ScreenOf | TestWindow.jsx:105-106 | the loading screen iff loading; the no-questions screen iff not loading and no questions; otherwise the form over the questions |
| Session.SubmitOutcome | TestWindow.jsx:85-102 | the dashboard hand-off iff the response body has `success` true, carrying the employee details and the submitted skill and level; a failure notice otherwise |
| Session.Submit | TestWindow.jsx:63-102 | a submission sends exactly one record per question and ends at the dashboard iff the response reports success |
| Session.StepConsistent | TestWindow.jsx:34-49 | one event keeps the invariant that a pending request or a loaded question list implies the skill and level were present, and the requested code is non-empty |
| Session.RunConsistent | TestWindow.jsx:34-49 | the same invariant holds after any sequence of events |
| Session.MissingParamsNeverShowForm | TestWindow.jsx:46-47 | without a truthy skill and level no question request is ever made and the form is never shown |
| Session.MissingParamsSettleEmpty | TestWindow.jsx:46-47 | once settled on no questions, a session without skill or level stays there whatever happens |
| Session.MissingParamsEndEmpty | TestWindow.jsx:46-47 | without a truthy skill and level, the screen after mounting is "No questions found", whatever events follow |
| Session.RunAnswers | TestWindow.jsx:51-53 | the tracked answers after any events are the fold of the option changes alone; loading, tables and submissions never reset them |
| Scenarios.TableParses | TestWindow.jsx:24-29 | a header with the rows `101,Python` and `102,SQL` reads as the map Python to 101, SQL to 102 |
| Scenarios.HeaderOnly | TestWindow.jsx:24-26 | any table of a single line without a line feed and with nothing to trim at its edges is a header alone and reads as the empty map |
| Scenarios.HeaderOnlyTable | TestWindow.jsx:26 | a table with only its header line reads as the empty map |
| Scenarios.CommaLessRow | TestWindow.jsx:27-28 | a data row without a comma makes the whole table unreadable |
| Scenarios.StuckTables | TestWindow.jsx:35 | with skill and level present, a header-only table or a comma-less row leaves the screen loading |
| Scenarios.ExampleAnswered | TestWindow.jsx:34-53 | mounting, the table arriving, the questions arriving and one selection lead to the form with that selection recorded |
| Scenarios.ExampleLetter | TestWindow.jsx:64-65 | selecting the second of three options gives the letter `B` |
| Scenarios.ExampleRecord | TestWindow.jsx:63-77 | the example batch is a single record with the letter `B`, the question's id and the raw skill name |
| Scenarios.ExampleSubmitted | TestWindow.jsx:85-95 | a successful response hands off to the dashboard with the submitted skill and level |
| Scenarios.MissingSkillScenario | TestWindow.jsx:46-47 | an empty skill name with a level ends on "No questions found" |
| Scenarios.NoQuestionsScenario | TestWindow.jsx:39-45 | a failed fetch, a body without questions or an empty list all end on "No questions found" |
| Scenarios.OverlappingRequests | TestWindow.jsx:39-43 | a table read twice issues two requests; both responses are taken, and the second one's questions are shown |
| Scenarios.FailedSubmitKeepsAnswers | TestWindow.jsx:96-102 | a response with `success` false gives the failure notice and keeps the selections |

## Left out

- Network and I/O: the table fetch, the question and submission requests, URL building,
  `encodeURIComponent` and JSON encoding and decoding. Their results are event inputs.
- React itself: hooks, render timing and a second run of effects in development mode. The
  model assumes each effect runs once per change of its dependencies, in event order.
- Rendering: the JSX markup, CSS, the page title and the `required` attribute on the radio
  buttons. The browser's enforcement of `required` is not modelled, so a batch may
  carry empty letters.
- Side effects without state: `console.log`, `alert` and `navigate`. `navigate` becomes the
  `ToDashboard` outcome.
- Plain-object keys: the skill map is a Dafny `map`. Names such as `constructor` or
  `__proto__` reach the object prototype in JavaScript; the model does not have one.
- Values of the wrong JSON type: ids, names, texts and options are strings or absent. A
  non-string option, a question without `options` (which would throw at line 64), a
  `roles` value that is truthy but not an array and a `NaN` level are outside the data model.
- Session.SubmitOutcome: an `employeeRoles` that is not an array is `None` in the model, so
  the hand-off carries `None` where `navigate` would pass the original value on (line 91).
- Lone UTF-16 surrogates: Dafny strings hold Unicode scalar values, so text containing an
  unpaired surrogate cannot be represented. Only the generated letter is a code unit.
- Session.SubmitOutcome: `success` is an optional boolean. A truthy non-boolean value
  (`1`, `"yes"`) is outside the model.
- Session.Step: question responses are not matched to the request they answer. Each one
  settles the oldest pending request; the skill code it was for does not affect the state.
  A response with no request pending is ignored. The component cannot receive one,
  because every response answers an earlier request.
