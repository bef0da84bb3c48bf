/** The submission builder of `handleSubmit` (TestWindow.jsx lines 58-77): the identity
    fallback chains, the selection-to-letter encoding and one record per question. */
module Submission {
  import opened Wrappers
  import opened JsLogic
  import opened Assessment
  import opened Answers

  /** A UTF-16 code unit, the unit of JavaScript strings. */
  type CodeUnit = n: int | 0 <= n < 0x1_0000

  /** `String.fromCharCode(n)` for one non-negative argument: the argument is reduced to 16
      bits, so codes past 0xFFFF wrap around. */
  function FromCharCode(n: nat): CodeUnit {
    n % 0x1_0000
  }

  /** The code of the letter `A`, the base of the encoding. */
  const LetterA: nat := 65

  /** `opt === selectedAnswers[i]`: an option matches only a present, equal selection. */
  predicate Matches(option: string, selection: Option<string>) {
    selection == Some(option)
  }

  /** `options.findIndex(opt => opt === selection)`: the first matching position, or -1 when
      no option matches. */
  function FindIndex(options: seq<string>, selection: Option<string>): (r: int)
    ensures -1 <= r < |options|
    ensures r == -1 <==> forall k :: 0 <= k < |options| ==> !Matches(options[k], selection)
    ensures r >= 0 ==> Matches(options[r], selection)
                       && forall k :: 0 <= k < r ==> !Matches(options[k], selection)
    decreases |options|
  {
    if |options| == 0 then -1
    else if Matches(options[0], selection) then 0
    else
      var k := FindIndex(options[1..], selection);
      assert forall j :: 1 <= j < |options| ==> options[j] == options[1..][j - 1];
      if k == -1 then -1 else k + 1
  }

  /** The `selected_letter` of a question: the one-unit string for the position of the first
      option equal to the selection, counted from `A`, and the empty string when there is no
      selection or it is not among the options. Positions past 25 run on past `Z`. */
  function SelectedLetter(options: seq<string>, selection: Option<string>): (r: seq<CodeUnit>)
    ensures r == [] <==> selection.None? || selection.value !in options
    ensures r != [] ==> exists k :: 0 <= k < |options| && options[k] == selection.value
                                    && (forall j :: 0 <= j < k ==> options[j] != selection.value)
                                    && r == [FromCharCode(LetterA + k)]
  {
    var idx := FindIndex(options, selection);
    if idx != -1 then [FromCharCode(LetterA + idx)] else []
  }

  /** For the first 26 positions the letter is the upper-case Latin letter `A` + position,
      so distinct positions give distinct letters. */
  lemma LetterOfFirstMatch(options: seq<string>, selection: string, k: nat)
    requires k < |options| && k < 26 && options[k] == selection
    requires forall j :: 0 <= j < k ==> options[j] != selection
    ensures SelectedLetter(options, Some(selection)) == [('A' as int + k) as CodeUnit]
    ensures 'A' as int <= SelectedLetter(options, Some(selection))[0] <= 'Z' as int
  {
    assert FindIndex(options, Some(selection)) == k;
  }

  /** The identity written into every record. */
  datatype Identity = Identity(id: Option<string>, name: Option<string>, position: Option<string>)

  /** `employeeInfo` as optional chaining reads it: `info?.field` is `undefined` for every
      field when there is no `employeeInfo`. */
  function Info(p: Params): EmployeeInfo {
    p.employeeInfo.GetOr(EmployeeInfo(None, None, None, None, None, None, None, None))
  }

  /** `roles && roles[0]` and `Array.isArray(roles) && roles[0]`: the first role, falsy when
      there is no list or it is empty. */
  function FirstRole(roles: Option<seq<string>>): (r: Option<string>)
    ensures r.Some? <==> roles.Some? && |roles.value| > 0
    ensures r.Some? ==> r.value == roles.value[0]
    ensures Truthy(r) <==> roles.Some? && |roles.value| > 0 && roles.value[0] != ""
  {
    if roles.Some? && |roles.value| > 0 then Some(roles.value[0]) else None
  }

  /** The candidates for the employee id, in priority order. */
  function IdCandidates(p: Params): seq<Option<string>> {
    [p.employeeId, Info(p).id, Info(p).employeeId, Info(p).empId]
  }

  /** The candidates for the employee name, in priority order. */
  function NameCandidates(p: Params): seq<Option<string>> {
    [Info(p).name, Info(p).employeeName]
  }

  /** The candidates for the employee position, in priority order. */
  function PositionCandidates(p: Params): seq<Option<string>> {
    [FirstRole(Info(p).roles), FirstRole(p.employeeRoles), Info(p).position, Info(p).role]
  }

  /** `a || b || c || d` over four candidates is the first truthy one. */
  lemma OrChain4(cands: seq<Option<string>>)
    requires |cands| == 4
    ensures Or(Or(Or(cands[0], cands[1]), cands[2]), cands[3]) == FirstTruthy(cands)
  {
    OrChainIsFirstTruthy(cands);
    assert cands[..3][..2][..1] == [cands[0]];
  }

  /** `employeeId || info?.id || info?.employee_id || info?.emp_id`: the first truthy
      candidate, or the last one when none is truthy. */
  function EmployeeIdOf(p: Params): (r: Option<string>)
    ensures r == FirstTruthy(IdCandidates(p))
  {
    var c := IdCandidates(p);
    OrChain4(c);
    Or(Or(Or(p.employeeId, Info(p).id), Info(p).employeeId), Info(p).empId)
  }

  /** `info?.name || info?.employee_name`. */
  function EmployeeNameOf(p: Params): (r: Option<string>)
    ensures r == FirstTruthy(NameCandidates(p))
  {
    Or(Info(p).name, Info(p).employeeName)
  }

  /** `(info?.roles && info.roles[0]) || (Array.isArray(employeeRoles) && employeeRoles[0])
      || info?.position || info?.role`. */
  function EmployeePositionOf(p: Params): (r: Option<string>)
    ensures r == FirstTruthy(PositionCandidates(p))
  {
    var c := PositionCandidates(p);
    OrChain4(c);
    Or(Or(Or(FirstRole(Info(p).roles), FirstRole(p.employeeRoles)), Info(p).position), Info(p).role)
  }

  function IdentityOf(p: Params): Identity {
    Identity(EmployeeIdOf(p), EmployeeNameOf(p), EmployeePositionOf(p))
  }

  /** One entry of the submission batch. */
  datatype Record = Record(
    questionId: Option<string>,
    questionText: Option<string>,
    options: seq<string>,
    selectedLetter: seq<CodeUnit>,
    skill: Option<string>,
    level: Option<Level>,
    employeeId: Option<string>,
    employeeName: Option<string>,
    employeePosition: Option<string>)

  /** The record of the question at `position`: `_id` before `question_id`, the question's
      `skill_id` before the session's raw skill name, and an empty letter exactly when there
      is no selection at this position among the question's options. */
  function RecordFor(q: Question, position: nat, answers: AnswerState, p: Params, who: Identity): (r: Record)
    ensures r.questionId == FirstTruthy([q.id, q.questionId])
    ensures r.skill == FirstTruthy([q.skillId, p.skill])
    ensures r.selectedLetter == [] <==> position !in answers || answers[position] !in q.options
    ensures r.questionText == q.text && r.options == q.options && r.level == p.level
    ensures r.employeeId == who.id && r.employeeName == who.name && r.employeePosition == who.position
  {
    Record(
      Or(q.id, q.questionId),
      q.text,
      q.options,
      SelectedLetter(q.options, AnswerAt(answers, position)),
      Or(q.skillId, p.skill),
      p.level,
      who.id,
      who.name,
      who.position)
  }

  /** `questions.map(...)`: exactly one record per question, in question order, whatever
      the number of selections. Each record copies its question's text and options, takes
      `_id` before `question_id` and the question's `skill_id` before the session's raw skill
      name, passes the level through, and carries the letter of the selection at its own
      position; the identity fields are the same on every record. */
  function BuildBatch(questions: seq<Question>, answers: AnswerState, p: Params): (batch: seq<Record>)
    ensures |batch| == |questions|
    ensures forall j :: 0 <= j < |batch| ==>
              && batch[j].questionText == questions[j].text
              && batch[j].options == questions[j].options
              && batch[j].questionId == FirstTruthy([questions[j].id, questions[j].questionId])
              && batch[j].skill == FirstTruthy([questions[j].skillId, p.skill])
              && batch[j].level == p.level
    ensures forall j :: 0 <= j < |batch| ==>
              (batch[j].selectedLetter == [] <==> j !in answers || answers[j] !in questions[j].options)
    ensures forall j :: 0 <= j < |batch| ==>
              && batch[j].employeeId == EmployeeIdOf(p)
              && batch[j].employeeName == EmployeeNameOf(p)
              && batch[j].employeePosition == EmployeePositionOf(p)
  {
    var who := IdentityOf(p);
    var batch := seq(|questions|, j requires 0 <= j < |questions| => RecordFor(questions[j], j, answers, p, who));
    RecordsFor(questions, answers, p, who, batch);
    batch
  }

  /** A sequence holding the record of every question, at the question's position, carries
      each question's fields and the identity `who`. */
  lemma RecordsFor(questions: seq<Question>, answers: AnswerState, p: Params, who: Identity, batch: seq<Record>)
    requires |batch| == |questions|
    requires forall j :: 0 <= j < |batch| ==> batch[j] == RecordFor(questions[j], j, answers, p, who)
    ensures forall j :: 0 <= j < |batch| ==>
              && batch[j].questionText == questions[j].text
              && batch[j].options == questions[j].options
              && batch[j].questionId == FirstTruthy([questions[j].id, questions[j].questionId])
              && batch[j].skill == FirstTruthy([questions[j].skillId, p.skill])
              && batch[j].level == p.level
    ensures forall j :: 0 <= j < |batch| ==>
              (batch[j].selectedLetter == [] <==> j !in answers || answers[j] !in questions[j].options)
    ensures forall j :: 0 <= j < |batch| ==>
              && batch[j].employeeId == who.id
              && batch[j].employeeName == who.name
              && batch[j].employeePosition == who.position
  {
  }

  /** The letter of every record decodes back to the selection at that position: it is
      the letter of the first option equal to the tracked answer. */
  lemma BatchLetterDecodes(questions: seq<Question>, answers: AnswerState, p: Params, j: nat)
    requires j < |questions| && j in answers && answers[j] in questions[j].options
    ensures exists k :: 0 <= k < |questions[j].options|
                        && questions[j].options[k] == answers[j]
                        && (forall i :: 0 <= i < k ==> questions[j].options[i] != answers[j])
                        && BuildBatch(questions, answers, p)[j].selectedLetter == [FromCharCode(LetterA + k)]
  {
    var r := BuildBatch(questions, answers, p)[j];
    assert r.selectedLetter == SelectedLetter(questions[j].options, Some(answers[j]));
  }
}
