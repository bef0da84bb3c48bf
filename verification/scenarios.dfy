/** Concrete sessions run through the model: an example table with two skills, a missing
    skill, an empty question list, a header-only table, a table with a comma-less row,
    overlapping question requests and a failed submission. The texts are named constants so that the verifier reasons
    about them through the lemmas rather than by evaluating the parser on them. */
module Scenarios {
  import opened Wrappers
  import opened JsText
  import opened Assessment
  import opened SkillMap
  import opened Answers
  import opened Submission
  import opened Session

  const Header: string := "code,name"
  const PythonCode: string := "101"
  const PythonName: string := "Python"
  const SqlCode: string := "102"
  const SqlName: string := "SQL"
  const PythonRow: string := PythonCode + "," + PythonName
  const SqlRow: string := SqlCode + "," + SqlName

  /** An example table with two skills. */
  const Table: string := Header + "\n" + PythonRow + "\n" + SqlRow

  const ExampleMap: map<string, string> := map[PythonName := PythonCode, SqlName := SqlCode]

  /** `s` is non-empty and has nothing to trim at either end. */
  predicate Untrimmed(s: string) {
    |s| > 0 && !IsTrimmable(s[0]) && !IsTrimmable(s[|s| - 1])
  }

  /** A data row of the form `code,name` whose fields need no trimming. */
  lemma PlainRow(code: string, name: string)
    requires ',' !in code && ',' !in name
    requires Untrimmed(code) && Untrimmed(name)
    ensures ParseRow(code + "," + name) == Some(Row(code, name))
  {
    TrimOfTrimmed(code);
    TrimOfTrimmed(name);
    ParseRowOneComma(code, name);
  }

  /** A row that parses in front of rows that parse. */
  lemma ConsRow(l: string, rest: seq<string>, r: Row, rs: seq<Row>)
    requires ParseRow(l) == Some(r) && ParseRows(rest) == Some(rs)
    ensures ParseRows([l] + rest) == Some([r] + rs)
  {
    var lines := [l] + rest;
    assert lines[0] == l;
    assert lines[1..] == rest;
  }

  /** Two data rows that both parse. */
  lemma TwoRows(l1: string, l2: string, r1: Row, r2: Row)
    requires ParseRow(l1) == Some(r1) && ParseRow(l2) == Some(r2)
    ensures ParseRows([l1, l2]) == Some([r1, r2])
  {
    assert ParseRows([]) == Some([]);
    ConsRow(l2, [], r2, []);
    assert [l2] + [] == [l2] && [r2] + [] == [r2];
    ConsRow(l1, [l2], r1, [r2]);
    assert [l1] + [l2] == [l1, l2] && [r1] + [r2] == [r1, r2];
  }

  /** Two rows give the map the second row updates last. */
  lemma TwoRowMap(r1: Row, r2: Row)
    ensures ToMap([r1, r2]) == map[r1.name := r1.code][r2.name := r2.code]
  {
    assert [r1, r2][..1] == [r1];
    assert [r1][..0] == [];
    assert ToMap([r1]) == map[r1.name := r1.code];
  }

  /** The three lines of a header and two rows. */
  lemma ThreeLines(header: string, row1: string, row2: string)
    requires '\n' !in header && '\n' !in row1 && '\n' !in row2
    requires Untrimmed(header) && Untrimmed(row2)
    ensures Lines(header + "\n" + row1 + "\n" + row2)[1..] == [row1, row2]
  {
    var csv := header + "\n" + row1 + "\n" + row2;
    var lines := [header, row1, row2];
    TrimOfTrimmed(csv);
    assert Join(lines[2..], '\n') == row2;
    assert Join(lines[1..], '\n') == row1 + "\n" + row2;
    assert Join(lines, '\n') == csv;
    SplitJoin(lines, '\n');
  }

  /** A table of a header and two plain rows maps each row's name to its code, the second
      row winning on a shared name. */
  lemma TwoRowTable(header: string, c1: string, n1: string, c2: string, n2: string)
    requires '\n' !in header && Untrimmed(header)
    requires ',' !in c1 && ',' !in n1 && ',' !in c2 && ',' !in n2
    requires '\n' !in c1 && '\n' !in n1 && '\n' !in c2 && '\n' !in n2
    requires Untrimmed(c1) && Untrimmed(n1) && Untrimmed(c2) && Untrimmed(n2)
    ensures ParseSkillMap(header + "\n" + (c1 + "," + n1) + "\n" + (c2 + "," + n2))
            == Some(map[n1 := c1][n2 := c2])
  {
    var row1 := c1 + "," + n1;
    var row2 := c2 + "," + n2;
    assert row2[|row2| - 1] == n2[|n2| - 1];
    ThreeLines(header, row1, row2);
    PlainRow(c1, n1);
    PlainRow(c2, n2);
    TwoRows(row1, row2, Row(c1, n1), Row(c2, n2));
    TwoRowMap(Row(c1, n1), Row(c2, n2));
  }

  /** The example table maps each display name to its code. */
  lemma TableParses()
    ensures ParseSkillMap(Table) == Some(ExampleMap)
  {
    TwoRowTable(Header, PythonCode, PythonName, SqlCode, SqlName);
  }

  const Taker: Params := Params(Some(PythonName), Some(LevelText("2")), None, None, Some("E7"))

  const Q: Question := Question(Some("q1"), None, Some("Pick the second"), ["a", "b", "c"], None)

  /** Running two events is stepping each in turn. */
  lemma RunTwo(s: State, p: Params, e1: Event, e2: Event)
    ensures Run(s, p, [e1, e2]) == Step(Step(s, p, e1), p, e2)
  {
    RunCons(s, p, e1, [e2]);
    RunCons(Step(s, p, e1), p, e2, []);
    assert [e1] + [e2] == [e1, e2];
    assert [e2] + [] == [e2];
  }

  /** Running four events is running the first two, then the last two. */
  lemma RunFour(s: State, p: Params, e1: Event, e2: Event, e3: Event, e4: Event)
    ensures Run(s, p, [e1, e2, e3, e4]) == Run(Run(s, p, [e1, e2]), p, [e3, e4])
  {
    RunAppend(s, p, [e1, e2], [e3, e4]);
    assert [e1, e2] + [e3, e4] == [e1, e2, e3, e4];
  }

  /** On mount the example's session has an empty map, so it stays loading. */
  lemma ExampleMount()
    ensures Step(Initial, Taker, Mounted) == Initial
  {
    assert Decide(Taker, map[]) == StayLoading;
  }

  /** The state in which the example's questions have been requested. */
  const Requested: State := Initial.(skillMap := ExampleMap, pending := [PythonCode])

  /** Once the example map arrives, "Python" resolves to "101", which is the code the
      questions are requested for. */
  lemma ExampleMapArrives()
    ensures Step(Initial, Taker, SkillMapLoaded(Some(ExampleMap))) == Requested
  {
    assert PythonName in ExampleMap.Keys;
    assert |ExampleMap| > 0;
    assert Resolve(ExampleMap, PythonName) == PythonCode;
    assert Decide(Taker, ExampleMap) == FetchQuestions(PythonCode);
  }

  /** The state in which the example's question has arrived. */
  const Questioned: State := Initial.(skillMap := ExampleMap, questions := [Q], loading := false)

  /** The state once the example's question arrived and "b" was selected. */
  const Answered: State :=
    Initial.(skillMap := ExampleMap, questions := [Q], loading := false, answers := map[0 := "b"])

  /** The example table, once read, delivers the example map. */
  lemma TableEvent()
    ensures TableArrived(Some(Table)) == SkillMapLoaded(Some(ExampleMap))
  {
    TableParses();
  }

  /** The events of an end-to-end session, once the table is read. */
  const ExampleEvents: seq<Event> :=
    [Mounted, SkillMapLoaded(Some(ExampleMap)), QuestionsLoaded(QuestionsBody(Some([Q]))), OptionChanged(0, "b")]

  /** An end-to-end session: the questions are requested for "101", the question
      arrives, "b" is selected, and the form shows the question. */
  lemma ExampleAnswered()
    ensures Run(Initial, Taker, ExampleEvents[..2]) == Requested
    ensures Run(Initial, Taker, ExampleEvents) == Answered
    ensures ScreenOf(Answered) == QuestionForm([Q])
  {
    var e := ExampleEvents;
    assert e[..2] == [e[0], e[1]];
    ExampleMount();
    ExampleMapArrives();
    RunTwo(Initial, Taker, e[0], e[1]);
    RunFour(Initial, Taker, e[0], e[1], e[2], e[3]);
    assert Step(Requested, Taker, e[2]) == Questioned;
    assert Step(Questioned, Taker, e[3]) == Answered;
    RunTwo(Requested, Taker, e[2], e[3]);
  }

  /** Selecting "b" among "a", "b", "c" encodes as `B`. */
  lemma ExampleLetter()
    ensures SelectedLetter(Q.options, Some("b")) == ['B' as int]
  {
    LetterOfFirstMatch(Q.options, "b", 1);
  }

  /** The example's identity: only the navigation `employeeId` is present. */
  lemma ExampleIdentity()
    ensures IdentityOf(Taker) == Identity(Some("E7"), None, None)
  {
  }

  /** The example's single record. */
  lemma ExampleRecord()
    ensures BuildBatch(Answered.questions, Answered.answers, Taker)
            == [Record(Some("q1"), Q.text, Q.options, ['B' as int], Some(PythonName), Some(LevelText("2")),
                       Some("E7"), None, None)]
  {
    ExampleLetter();
    ExampleIdentity();
    var batch := BuildBatch(Answered.questions, Answered.answers, Taker);
    assert AnswerAt(Answered.answers, 0) == Some("b");
    assert batch[0] == RecordFor(Q, 0, Answered.answers, Taker, IdentityOf(Taker));
  }

  /** Submitting the example: a single record whose letter is `B` and whose skill is the raw
      session skill "Python" (the question carries no `skill_id`), and a successful response
      hands the skill and level to the dashboard. */
  lemma ExampleSubmitted()
    ensures var report := Submit(Answered, Taker, SubmitBody(Some(true)));
            && |report.batch| == 1
            && report.batch[0].selectedLetter == ['B' as int]
            && report.batch[0].skill == Some(PythonName)
            && report.outcome == ToDashboard(Handoff(None, None, Some("E7"), Some(PythonName), Some(LevelText("2"))))
  {
    ExampleRecord();
  }

  /** A falsy skill with level "3" stops loading at mount and shows "no questions", never
      the form, whatever happens next. */
  lemma MissingSkillScenario(events: seq<Event>)
    ensures var p := Params(Some(""), Some(LevelText("3")), None, None, None);
            ScreenOf(Run(Initial, p, [Mounted] + events)) == NoQuestionsScreen
  {
    MissingParamsEndEmpty(Params(Some(""), Some(LevelText("3")), None, None, None), events);
  }

  /** An empty `questions` array, a body without `questions` and a failed request all end
      loading with "no questions". */
  lemma NoQuestionsScenario(response: QuestionsResponse)
    requires response.QuestionsFailed? || response == QuestionsBody(None) || response == QuestionsBody(Some([]))
    ensures ScreenOf(Step(Requested, Taker, QuestionsLoaded(response))) == NoQuestionsScreen
  {
  }

  /** A table of one line, with nothing to trim at its edges, is a header alone and reads as
      the empty map. */
  lemma HeaderOnly(header: string)
    requires '\n' !in header
    requires |header| > 0 ==> !IsTrimmable(header[0]) && !IsTrimmable(header[|header| - 1])
    ensures ParseSkillMap(header) == Some(map[])
  {
    TrimOfTrimmed(header);
    SplitWithoutSeparator(header, '\n');
    assert Lines(header)[1..] == [];
  }

  /** The example header on its own reads as the empty map. */
  lemma HeaderOnlyTable()
    ensures ParseSkillMap(Header) == Some(map[])
  {
    HeaderOnly(Header);
  }

  /** A data row without a comma makes the whole table unreadable. */
  lemma CommaLessRow()
    ensures ParseSkillMap(Header + "\n" + PythonName).None?
  {
    var csv := Header + "\n" + PythonName;
    var lines := [Header, PythonName];
    TrimOfTrimmed(csv);
    assert Join(lines[1..], '\n') == PythonName;
    assert Join(lines, '\n') == csv;
    SplitJoin(lines, '\n');
    assert Lines(csv)[1..] == [PythonName];
    assert ',' !in PythonName;
  }

  /** With a skill and a level, a table that reads as the empty map, or that throws, leaves
      the session on the loading screen. */
  lemma EmptyTableStaysLoading(csv: string)
    requires ParseSkillMap(csv) == Some(map[]) || ParseSkillMap(csv).None?
    ensures ScreenOf(Run(Initial, Taker, [Mounted, TableArrived(Some(csv))])) == LoadingScreen
  {
    ExampleMount();
    RunTwo(Initial, Taker, Mounted, TableArrived(Some(csv)));
  }

  /** The header-only table and the table with a comma-less row both leave the session
      loading. */
  lemma StuckTables()
    ensures ScreenOf(Run(Initial, Taker, [Mounted, TableArrived(Some(Header))])) == LoadingScreen
    ensures ScreenOf(Run(Initial, Taker, [Mounted, TableArrived(Some(Header + "\n" + PythonName))])) == LoadingScreen
  {
    HeaderOnlyTable();
    EmptyTableStaysLoading(Header);
    CommaLessRow();
    EmptyTableStaysLoading(Header + "\n" + PythonName);
  }

  /** A response with `success: false` gives only the failure notice; the state, and with
      it every selection, is kept for another attempt. */
  lemma FailedSubmitKeepsAnswers()
    ensures Submit(Answered, Taker, SubmitBody(Some(false))).outcome == FailureNotice
    ensures Step(Answered, Taker, Submitted(SubmitBody(Some(false)))).answers == map[0 := "b"]
  {
  }

  /** The table read twice issues two overlapping requests for the same code; both
      responses are taken, and the later one's questions are the ones shown. */
  lemma OverlappingRequests(first: seq<Question>, second: seq<Question>)
    ensures var events := [SkillMapLoaded(Some(ExampleMap)), SkillMapLoaded(Some(ExampleMap)),
                           QuestionsLoaded(QuestionsBody(Some(first))),
                           QuestionsLoaded(QuestionsBody(Some(second)))];
            && Run(Initial, Taker, events).questions == second
            && Run(Initial, Taker, events).pending == []
  {
    var twice := Requested.(pending := [PythonCode, PythonCode]);
    ExampleMapArrives();
    assert Step(Requested, Taker, SkillMapLoaded(Some(ExampleMap))) == twice;
    var responses := [QuestionsLoaded(QuestionsBody(Some(first))), QuestionsLoaded(QuestionsBody(Some(second)))];
    ResponsesSettle(twice, Taker, responses);
    RunTwo(Initial, Taker, SkillMapLoaded(Some(ExampleMap)), SkillMapLoaded(Some(ExampleMap)));
    RunFour(Initial, Taker, SkillMapLoaded(Some(ExampleMap)), SkillMapLoaded(Some(ExampleMap)), responses[0], responses[1]);
  }
}
