/** The session controller of TestWindow.jsx: the load-phase decision of the effect at
    lines 34-49, the arrival of the skill map and of the questions, answer selection, the
    choice of screen (lines 105-106) and the outcome of a submission (lines 79-102). React's
    scheduling is replaced by an explicit sequence of events fed to a pure step function. */
module Session {
  import opened Wrappers
  import opened JsLogic
  import opened Assessment
  import opened SkillMap
  import opened Answers
  import opened Submission

  /** What the load effect does on one run. */
  datatype Decision =
    | FetchQuestions(skillId: string)  // request the questions of this skill code
    | FinishEmpty                      // stop loading with no questions
    | StayLoading                      // do nothing: the skill map is still empty

  /** The load effect: fetch only when the skill and the level are truthy and the skill map
      has at least one entry; finish empty when either parameter is falsy; otherwise (both
      truthy, map still empty) leave the session loading. The requested code is the
      resolved skill, which is never empty. */
  function Decide(p: Params, skillMap: map<string, string>): (d: Decision)
    ensures d.FetchQuestions? <==> Truthy(p.skill) && LevelTruthy(p.level) && |skillMap| > 0
    ensures d.FinishEmpty? <==> !Truthy(p.skill) || !LevelTruthy(p.level)
    ensures d.StayLoading? <==> Truthy(p.skill) && LevelTruthy(p.level) && |skillMap| == 0
    ensures d.FetchQuestions? ==> d.skillId == Resolve(skillMap, p.skill.value) && d.skillId != ""
  {
    if Truthy(p.skill) && LevelTruthy(p.level) && |skillMap| > 0 then
      FetchQuestions(Resolve(skillMap, p.skill.value))
    else if !Truthy(p.skill) || !LevelTruthy(p.level) then
      FinishEmpty
    else
      StayLoading
  }

  /** The settled question request: a rejected fetch or an unreadable body, or a JSON body
      whose `questions` property may be missing. */
  datatype QuestionsResponse = QuestionsFailed | QuestionsBody(questions: Option<seq<Question>>)

  /** The settled submission request: a rejected fetch or an unreadable body, or a JSON body
      whose `success` property may be missing. */
  datatype SubmitResponse = SubmitFailed | SubmitBody(success: Option<bool>)

  /** The component's state: its four state variables, and the question requests still
      pending (the skill code each asked for), oldest first. */
  datatype State = State(
    skillMap: map<string, string>,
    questions: seq<Question>,
    loading: bool,
    answers: AnswerState,
    pending: seq<string>)

  /** The state on the first render. */
  const Initial: State := State(map[], [], true, map[], [])

  /** What happens to a session, in the order it happens. */
  datatype Event =
    | Mounted                                  // the first render's effects run
    | SkillMapLoaded(table: Option<map<string, string>>)  // the table was read, or not
    | QuestionsLoaded(questionsResponse: QuestionsResponse)
    | OptionChanged(position: nat, option: string)
    | Submitted(submitResponse: SubmitResponse)

  /** The table fetch settles: with its text, which is parsed and yields the map unless a
      row throws; or rejected, and then nothing is read (the promise has no `catch`). */
  function TableArrived(csv: Option<string>): (e: Event)
    ensures e.SkillMapLoaded?
    ensures e.table.Some? <==> csv.Some? && forall j :: 1 <= j < |Lines(csv.value)| ==> ',' in Lines(csv.value)[j]
    ensures e.table.Some? ==> e.table == ParseSkillMap(csv.value)
  {
    SkillMapLoaded(if csv.Some? then ParseSkillMap(csv.value) else None)
  }

  /** Runs the load effect against the current skill map. With both parameters truthy and a
      non-empty map it issues one more request, for the resolved skill code; with a falsy
      parameter it stops loading; with an empty map it does nothing. Questions, answers and
      map are never touched. */
  function RunLoadEffect(s: State, p: Params): (r: State)
    ensures ParamsPresent(p) && |s.skillMap| > 0 ==>
              r.pending == s.pending + [Resolve(s.skillMap, p.skill.value)] && r.loading == s.loading
    ensures !ParamsPresent(p) ==> r.pending == s.pending && !r.loading
    ensures ParamsPresent(p) && |s.skillMap| == 0 ==> r == s
    ensures r.questions == s.questions && r.answers == s.answers && r.skillMap == s.skillMap
  {
    match Decide(p, s.skillMap)
    case FetchQuestions(id) => s.(pending := s.pending + [id])
    case FinishEmpty => s.(loading := false)
    case StayLoading => s
  }

  /** A question request settles: loading ends whatever happened; the questions are
      replaced only by a body that has a `questions` array (reading the length of a missing
      array throws into the `catch`, so the `|| []` fallback is never reached), and
      otherwise the list is left as it was. Nothing else changes. */
  function ReceiveQuestions(s: State, response: QuestionsResponse): (r: State)
    ensures !r.loading
    ensures response.QuestionsBody? && response.questions.Some? ==> r.questions == response.questions.value
    ensures !(response.QuestionsBody? && response.questions.Some?) ==> r.questions == s.questions
    ensures r.answers == s.answers && r.skillMap == s.skillMap && r.pending == s.pending
  {
    match response
    case QuestionsBody(Some(qs)) => s.(questions := qs, loading := false)
    case _ => s.(loading := false)
  }

  /** One event. A table that was read replaces the skill map and reruns the load effect; a
      failed table fetch or a row that throws leaves everything as it was. Each question
      response settles one pending request, and every request settles with its own response,
      whichever order they arrive in. Submitting changes no state: the answers are kept
      whatever the outcome. Loading, once over, never starts again. */
  function Step(s: State, p: Params, e: Event): (r: State)
    ensures !s.loading ==> !r.loading
    ensures e.SkillMapLoaded? && e.table.Some? ==> r.skillMap == e.table.value
    ensures !(e.SkillMapLoaded? && e.table.Some?) ==> r.skillMap == s.skillMap
    ensures !e.QuestionsLoaded? ==> r.questions == s.questions
    ensures e.QuestionsLoaded? && |s.pending| > 0 ==>
              r == ReceiveQuestions(s, e.questionsResponse).(pending := s.pending[1..])
    ensures e.OptionChanged? ==> r.answers == Select(s.answers, e.position, e.option)
    ensures !e.OptionChanged? ==> r.answers == s.answers
    ensures e.Submitted? ==> r == s
  {
    match e
    case Mounted => RunLoadEffect(s, p)
    case SkillMapLoaded(None) => s
    case SkillMapLoaded(Some(m)) => RunLoadEffect(s.(skillMap := m), p)
    case QuestionsLoaded(response) =>
      if |s.pending| > 0 then ReceiveQuestions(s.(pending := s.pending[1..]), response) else s
    case OptionChanged(position, option) => s.(answers := Select(s.answers, position, option))
    case Submitted(_) => s
  }

  /** The state after a sequence of events. Loading, once over, stays over, and without a
      question response the question list is the one the run started with. */
  function Run(s: State, p: Params, events: seq<Event>): (r: State)
    ensures !s.loading ==> !r.loading
    ensures (forall k :: 0 <= k < |events| ==> !events[k].QuestionsLoaded?) ==> r.questions == s.questions
    decreases |events|
  {
    if |events| == 0 then s
    else
      assert forall k :: 1 <= k < |events| ==> events[1..][k - 1] == events[k];
      Run(Step(s, p, events[0]), p, events[1..])
  }

  /** What the component renders. */
  datatype Screen = LoadingScreen | NoQuestionsScreen | QuestionForm(questions: seq<Question>)

  /** `if (loading) ...; if (!questions.length) ...;` then the form. */
  function ScreenOf(s: State): (sc: Screen)
    ensures sc.LoadingScreen? <==> s.loading
    ensures sc.NoQuestionsScreen? <==> !s.loading && |s.questions| == 0
    ensures sc.QuestionForm? ==> sc.questions == s.questions && |s.questions| > 0
  {
    if s.loading then LoadingScreen
    else if |s.questions| == 0 then NoQuestionsScreen
    else QuestionForm(s.questions)
  }

  /** The navigation state handed to the dashboard: the identity as received, and the
      skill and level of the submitted test. */
  datatype Handoff = Handoff(
    employeeInfo: Option<EmployeeInfo>,
    employeeRoles: Option<seq<string>>,
    employeeId: Option<string>,
    skill: Option<string>,
    level: Option<Level>)

  datatype Outcome = ToDashboard(handoff: Handoff) | FailureNotice

  /** Only a response whose `success` is truthy navigates to the dashboard; a falsy or
      missing `success` and a failed request only give the failure notice. */
  function SubmitOutcome(p: Params, response: SubmitResponse): (o: Outcome)
    ensures o.ToDashboard? <==> response == SubmitBody(Some(true))
    ensures o.ToDashboard? ==> o.handoff.skill == p.skill && o.handoff.level == p.level
                               && o.handoff.employeeInfo == p.employeeInfo
                               && o.handoff.employeeRoles == p.employeeRoles
                               && o.handoff.employeeId == p.employeeId
  {
    if response.SubmitBody? && response.success == Some(true) then
      ToDashboard(Handoff(p.employeeInfo, p.employeeRoles, p.employeeId, p.skill, p.level))
    else
      FailureNotice
  }

  /** What one submission sends and what comes of it. */
  datatype SubmitReport = SubmitReport(batch: seq<Record>, outcome: Outcome)

  /** `handleSubmit`: the batch is built from the current questions and answers, one record
      per question, and is sent whatever the outcome turns out to be. */
  function Submit(s: State, p: Params, response: SubmitResponse): (r: SubmitReport)
    ensures r.batch == BuildBatch(s.questions, s.answers, p)
    ensures |r.batch| == |s.questions|
    ensures r.outcome.ToDashboard? <==> response == SubmitBody(Some(true))
  {
    SubmitReport(BuildBatch(s.questions, s.answers, p), SubmitOutcome(p, response))
  }

  /** Both parameters are truthy: the only case in which questions can be requested. */
  predicate ParamsPresent(p: Params) {
    Truthy(p.skill) && LevelTruthy(p.level)
  }

  /** A pending request or a non-empty question list implies present parameters, and a
      request is never made for an empty skill code. */
  ghost predicate Consistent(p: Params, s: State) {
    && (|s.pending| > 0 || |s.questions| > 0 ==> ParamsPresent(p))
    && (forall k :: 0 <= k < |s.pending| ==> s.pending[k] != "")
  }

  /** Every event keeps the state consistent. */
  lemma StepConsistent(s: State, p: Params, e: Event)
    requires Consistent(p, s)
    ensures Consistent(p, Step(s, p, e))
  {
  }

  /** Whatever happens, the state stays consistent. */
  lemma {:induction false} RunConsistent(s: State, p: Params, events: seq<Event>)
    requires Consistent(p, s)
    ensures Consistent(p, Run(s, p, events))
    decreases |events|
  {
    if |events| > 0 {
      StepConsistent(s, p, events[0]);
      RunConsistent(Step(s, p, events[0]), p, events[1..]);
    }
  }

  /** A session without a truthy skill or level never requests questions and never shows
      the question form, whatever events arrive. */
  lemma MissingParamsNeverShowForm(p: Params, events: seq<Event>)
    requires !ParamsPresent(p)
    ensures Run(Initial, p, events).pending == []
    ensures !ScreenOf(Run(Initial, p, events)).QuestionForm?
  {
    RunConsistent(Initial, p, events);
  }

  /** Settled with nothing to show, and nothing pending. */
  ghost predicate SettledEmpty(s: State) {
    !s.loading && |s.questions| == 0 && s.pending == []
  }

  /** With a falsy skill or level, the first run of the load effect stops loading, and the
      session then shows "no questions" for good. */
  lemma {:induction false} MissingParamsSettleEmpty(s: State, p: Params, events: seq<Event>)
    requires !ParamsPresent(p) && SettledEmpty(s)
    ensures SettledEmpty(Run(s, p, events))
    ensures ScreenOf(Run(s, p, events)) == NoQuestionsScreen
    decreases |events|
  {
    if |events| > 0 {
      MissingParamsSettleEmpty(Step(s, p, events[0]), p, events[1..]);
    }
  }

  /** Mounting with a falsy skill or level shows "no questions" from then on. */
  lemma MissingParamsEndEmpty(p: Params, events: seq<Event>)
    requires !ParamsPresent(p)
    ensures ScreenOf(Run(Initial, p, [Mounted] + events)) == NoQuestionsScreen
  {
    assert ([Mounted] + events)[1..] == events;
    MissingParamsSettleEmpty(Step(Initial, p, Mounted), p, events);
  }

  /** Does this response carry a `questions` array? */
  predicate HasQuestions(e: Event) {
    e.QuestionsLoaded? && e.questionsResponse.QuestionsBody? && e.questionsResponse.questions.Some?
  }

  /** Responses to requests that are pending are all taken, overlapping or not: each settles
      the oldest pending request, loading is over after the first, and the question list is
      that of the last response that carried one. */
  lemma {:induction false} ResponsesSettle(s: State, p: Params, events: seq<Event>)
    requires forall k :: 0 <= k < |events| ==> events[k].QuestionsLoaded?
    requires |events| <= |s.pending|
    ensures Run(s, p, events).pending == s.pending[|events|..]
    ensures |events| > 0 ==> !Run(s, p, events).loading
    ensures |events| > 0 && HasQuestions(events[|events| - 1]) ==>
              Run(s, p, events).questions == events[|events| - 1].questionsResponse.questions.value
    decreases |events|
  {
    if |events| > 0 {
      var next := Step(s, p, events[0]);
      assert next.pending == s.pending[1..];
      assert forall k :: 1 <= k < |events| ==> events[1..][k - 1] == events[k];
      ResponsesSettle(next, p, events[1..]);
      assert next.pending[|events| - 1..] == s.pending[|events|..];
    }
  }

  /** The selections made so far: the option-change events applied in order. */
  function Selections(answers: AnswerState, events: seq<Event>): AnswerState
    decreases |events|
  {
    if |events| == 0 then answers
    else
      var next := if events[0].OptionChanged? then Select(answers, events[0].position, events[0].option) else answers;
      Selections(next, events[1..])
  }

  /** The answers are exactly the selections made: loading, arriving questions and
      submissions, successful or failed, never reset or alter them. */
  lemma {:induction false} RunAnswers(s: State, p: Params, events: seq<Event>)
    ensures Run(s, p, events).answers == Selections(s.answers, events)
    decreases |events|
  {
    if |events| > 0 {
      RunAnswers(Step(s, p, events[0]), p, events[1..]);
    }
  }

  /** Running a sequence that starts with `e` is stepping `e` and running the rest. */
  lemma RunCons(s: State, p: Params, e: Event, rest: seq<Event>)
    ensures Run(s, p, [e] + rest) == Run(Step(s, p, e), p, rest)
  {
    assert ([e] + rest)[1..] == rest;
  }

  /** Running `a + b` is running `a`, then `b`. */
  lemma {:induction false} RunAppend(s: State, p: Params, a: seq<Event>, b: seq<Event>)
    ensures Run(s, p, a + b) == Run(Run(s, p, a), p, b)
    decreases |a|
  {
    if |a| > 0 {
      assert (a + b)[1..] == a[1..] + b;
      RunAppend(Step(s, p, a[0]), p, a[1..], b);
    } else {
      assert a + b == b;
    }
  }
}
