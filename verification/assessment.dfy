/** The records the assessment session handles: the session's entry parameters (the
    navigation state of TestWindow.jsx line 9) and the question records the question bank
    returns. Every property that JavaScript may leave `undefined` is optional. */
module Assessment {
  import opened Wrappers

  /** A difficulty level, passed through verbatim: the navigation state may hold it as text
      or as a number, which need not be whole. */
  datatype Level = LevelText(text: string) | LevelNumber(number: real)

  /** JavaScript truthiness of the level: the falsy levels are a missing one, `""` and `0`. */
  function LevelTruthy(level: Option<Level>): (r: bool)
    ensures r <==> level.Some? && level.value != LevelText("") && level.value != LevelNumber(0.0)
  {
    match level
    case None => false
    case Some(LevelText(t)) => |t| > 0
    case Some(LevelNumber(n)) => n < 0.0 || n > 0.0
  }

  /** A question as the question bank returns it: the optional `_id`, `question_id`,
      `question_text` and `skill_id`, and the `options`. */
  datatype Question = Question(
    id: Option<string>,
    questionId: Option<string>,
    text: Option<string>,
    options: seq<string>,
    skillId: Option<string>)

  /** The loosely shaped `employeeInfo` object: only the properties the session reads. */
  datatype EmployeeInfo = EmployeeInfo(
    id: Option<string>,
    employeeId: Option<string>,
    empId: Option<string>,
    name: Option<string>,
    employeeName: Option<string>,
    roles: Option<seq<string>>,
    position: Option<string>,
    role: Option<string>)

  /** The navigation state the session starts from: `skill`, `level`, `employeeInfo`,
      `employeeRoles` (`None` when it is not an array) and the optional `employeeId`. */
  datatype Params = Params(
    skill: Option<string>,
    level: Option<Level>,
    employeeInfo: Option<EmployeeInfo>,
    employeeRoles: Option<seq<string>>,
    employeeId: Option<string>)
}
