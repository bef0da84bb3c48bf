/** The skill code map: the comma-separated lookup table of (code, name) rows that is
    turned into a name-to-code map (TestWindow.jsx lines 24-29), and the resolution of a
    session's skill name through it (line 36). */
module SkillMap {
  import opened Wrappers
  import opened JsText
  import opened JsLogic

  /** One data row of the table: the skill's backend code and its display name. */
  datatype Row = Row(code: string, name: string)

  /** Reads one row by `const [code, name] = line.split(',')` and trims both fields.
      A row without a comma leaves `name` undefined and `name.trim()` throws: `None`. */
  function ParseRow(line: string): (r: Option<Row>)
    ensures r.Some? <==> ',' in line
  {
    SplitCount(line, ',');
    var fields := Split(line, ',');
    if |fields| < 2 then None else Some(Row(Trim(fields[0]), Trim(fields[1])))
  }

  /** The first field is the code and the second the name, both trimmed; whatever follows
      a second comma is ignored. */
  lemma ParseRowFields(code: string, name: string, rest: string)
    requires ',' !in code && ',' !in name
    requires rest == [] || rest[0] == ','
    ensures ParseRow(code + [','] + name + rest) == Some(Row(Trim(code), Trim(name)))
  {
    var line := code + [','] + name + rest;
    assert line == code + [','] + (name + rest);
    SplitAtSeparator(code, name + rest, ',');
    if rest == [] {
      assert name + rest == name;
      SplitWithoutSeparator(name, ',');
    } else {
      assert name + rest == name + [','] + rest[1..];
      SplitAtSeparator(name, rest[1..], ',');
    }
  }

  /** A row with exactly one comma: the trimmed text before it is the code and the trimmed
      text after it the name. */
  lemma ParseRowOneComma(code: string, name: string)
    requires ',' !in code && ',' !in name
    ensures ParseRow(code + [','] + name) == Some(Row(Trim(code), Trim(name)))
  {
    ParseRowFields(code, name, "");
    assert code + [','] + name + [] == code + [','] + name;
  }

  /** The lines of the table: the whole text trimmed, then split on line feeds. */
  function Lines(csv: string): seq<string> {
    Split(Trim(csv), '\n')
  }

  predicate AllRowsHaveComma(lines: seq<string>) {
    forall j :: 0 <= j < |lines| ==> ',' in lines[j]
  }

  /** Reads the data rows in order; the first row without a comma throws, and then no map
      is produced at all. */
  function ParseRows(lines: seq<string>): (r: Option<seq<Row>>)
    ensures r.Some? <==> AllRowsHaveComma(lines)
    ensures r.Some? ==> |r.value| == |lines|
                        && forall j :: 0 <= j < |lines| ==> ParseRow(lines[j]) == Some(r.value[j])
    decreases |lines|
  {
    if |lines| == 0 then Some([])
    else
      match ParseRow(lines[0])
      case None => None
      case Some(row) =>
        match ParseRows(lines[1..])
        case None => None
        case Some(rows) => Some([row] + rows)
  }

  /** `map[name] = code` for each row in turn, starting from `{}`. */
  function ToMap(rows: seq<Row>): (m: map<string, string>)
    ensures m.Keys == set j | 0 <= j < |rows| :: rows[j].name
    decreases |rows|
  {
    if |rows| == 0 then map[]
    else ToMap(rows[..|rows| - 1])[rows[|rows| - 1].name := rows[|rows| - 1].code]
  }

  /** The map the data lines build, or `None` when one of them throws. */
  function TableOf(lines: seq<string>): Option<map<string, string>> {
    match ParseRows(lines)
    case None => None
    case Some(rows) => Some(ToMap(rows))
  }

  /** The name-to-code map of a lookup table, the header line being skipped: there is one
      exactly when every line after the header has a comma. */
  function ParseSkillMap(csv: string): (r: Option<map<string, string>>)
    ensures r.Some? <==> forall j :: 1 <= j < |Lines(csv)| ==> ',' in Lines(csv)[j]
  {
    DataLinesDefined(Lines(csv));
    TableOf(Lines(csv)[1..])
  }

  /** Line `j` of a table, not the header, has a comma and carries `name`. */
  predicate NamesLine(lines: seq<string>, j: int, name: string) {
    1 <= j < |lines| && ',' in lines[j] && ParseRow(lines[j]).value.name == name
  }

  /** Line `j` is the last line of the table that carries `name`. */
  predicate LastNamesLine(lines: seq<string>, j: int, name: string) {
    NamesLine(lines, j, name) && forall k :: j < k < |lines| ==> !NamesLine(lines, k, name)
  }

  /** The lines after the header give a map exactly when every one of them has a comma. */
  lemma DataLinesDefined(lines: seq<string>)
    requires |lines| >= 1
    ensures TableOf(lines[1..]).Some? <==> forall j :: 1 <= j < |lines| ==> ',' in lines[j]
  {
    assert forall j :: 1 <= j < |lines| ==> lines[j] == lines[1..][j - 1];
  }

  /** The keys of the map of the lines after the header are the names its lines carry. */
  lemma DataLinesKeys(lines: seq<string>, name: string)
    requires |lines| >= 1
    ensures TableOf(lines[1..]).Some? ==>
              (name in TableOf(lines[1..]).value <==> exists j :: NamesLine(lines, j, name))
  {
    var data := lines[1..];
    assert forall j :: 1 <= j < |lines| ==> lines[j] == data[j - 1];
    TableOfSpec(data, name);
    if ParseRows(data).Some? && name in ToMap(ParseRows(data).value) {
      var j :| 0 <= j < |data| && ',' in data[j] && ParseRow(data[j]).value.name == name;
      assert NamesLine(lines, j + 1, name);
    }
  }

  /** In the map of the lines after the header, a name maps to the code of the last line
      carrying it. */
  lemma DataLinesLastWins(lines: seq<string>, j: int, name: string)
    requires |lines| >= 1 && LastNamesLine(lines, j, name)
    ensures TableOf(lines[1..]).Some? ==> TableOf(lines[1..]).value[name] == ParseRow(lines[j]).value.code
  {
    if ParseRows(lines[1..]).Some? {
      var rows := ParseRows(lines[1..]).value;
      RowsOfDataLines(lines, rows);
      LastLineIsLastRow(lines, rows, j, name);
      TableLastWins(lines, rows, j - 1, name, ParseRow(lines[j]).value.code);
    }
  }

  /** The rows parsed from the lines after the header are, one for one, the parses of those
      lines. */
  lemma RowsOfDataLines(lines: seq<string>, rows: seq<Row>)
    requires |lines| >= 1 && ParseRows(lines[1..]) == Some(rows)
    ensures |rows| == |lines| - 1
    ensures forall k :: 0 <= k < |rows| ==> ParseRow(lines[k + 1]) == Some(rows[k])
  {
    assert forall k :: 0 <= k < |rows| ==> lines[k + 1] == lines[1..][k];
  }

  /** The code the table gives a name is that of the last row carrying it. */
  lemma TableLastWins(lines: seq<string>, rows: seq<Row>, i: int, name: string, code: string)
    ensures && |lines| >= 1 && ParseRows(lines[1..]) == Some(rows)
            && 0 <= i < |rows| && LastOfName(rows, i) && rows[i].name == name && rows[i].code == code
            ==> TableOf(lines[1..]).value[name] == code
  {
    if 0 <= i < |rows| && LastOfName(rows, i) {
      ToMapLastWins(rows, i);
    }
  }

  /** When the rows are the parses of the lines after the header, the last line carrying a
      name gives the last row carrying it. */
  lemma LastLineIsLastRow(lines: seq<string>, rows: seq<Row>, j: int, name: string)
    requires |rows| == |lines| - 1
    requires forall k :: 0 <= k < |rows| ==> ParseRow(lines[k + 1]) == Some(rows[k])
    requires LastNamesLine(lines, j, name)
    ensures 0 <= j - 1 < |rows| && LastOfName(rows, j - 1)
    ensures rows[j - 1] == ParseRow(lines[j]).value && rows[j - 1].name == name
  {
    assert ParseRow(lines[j]) == Some(rows[j - 1]);
    forall k | j - 1 < k < |rows|
      ensures rows[k].name != rows[j - 1].name
    {
      assert ParseRow(lines[k + 1]) == Some(rows[k]);
      assert !NamesLine(lines, k + 1, name);
    }
  }

  /** The lookup table as a whole: it reads as a map exactly when every line after the
      header has a comma; then a name is a key exactly when some such line carries it, and
      it maps to the code (the trimmed first field) of the last line carrying it. */
  lemma ParseSkillMapSpec(csv: string, name: string)
    ensures ParseSkillMap(csv).Some? <==> forall j :: 1 <= j < |Lines(csv)| ==> ',' in Lines(csv)[j]
    ensures ParseSkillMap(csv).Some? ==>
              && (name in ParseSkillMap(csv).value <==> exists j :: NamesLine(Lines(csv), j, name))
              && forall j :: LastNamesLine(Lines(csv), j, name) ==>
                   ParseSkillMap(csv).value[name] == ParseRow(Lines(csv)[j]).value.code
  {
    DataLinesKeys(Lines(csv), name);
    forall j | LastNamesLine(Lines(csv), j, name) {
      DataLinesLastWins(Lines(csv), j, name);
    }
  }

  /** The keys of the map are exactly the rows' names. */
  lemma {:induction false} ToMapKeys(rows: seq<Row>, name: string)
    ensures name in ToMap(rows) <==> exists j :: 0 <= j < |rows| && rows[j].name == name
    decreases |rows|
  {
    if |rows| > 0 {
      var init := rows[..|rows| - 1];
      ToMapKeys(init, name);
      if name in ToMap(init) {
        var j :| 0 <= j < |init| && init[j].name == name;
        assert rows[j].name == name;
      }
      if name != rows[|rows| - 1].name && exists j :: 0 <= j < |rows| && rows[j].name == name {
        var j :| 0 <= j < |rows| && rows[j].name == name;
        assert init[j].name == name;
      }
    }
  }

  /** No row after position `j` carries the same name as row `j`. */
  ghost predicate LastOfName(rows: seq<Row>, j: int)
    requires 0 <= j < |rows|
  {
    forall k :: j < k < |rows| ==> rows[k].name != rows[j].name
  }

  /** A later row with the same name overwrites an earlier one: each name maps to the code
      of the last row carrying it. */
  lemma {:induction false} ToMapLastWins(rows: seq<Row>, j: int)
    requires 0 <= j < |rows| && LastOfName(rows, j)
    ensures rows[j].name in ToMap(rows) && ToMap(rows)[rows[j].name] == rows[j].code
    decreases |rows|
  {
    if j < |rows| - 1 {
      var init := rows[..|rows| - 1];
      assert LastOfName(init, j);
      ToMapLastWins(init, j);
    }
  }

  /** The map of a sequence of rows: its keys are exactly the rows' names, each mapped to
      the code of the last row carrying it. */
  lemma ToMapSpec(rows: seq<Row>)
    ensures forall name :: name in ToMap(rows) <==> exists j :: 0 <= j < |rows| && rows[j].name == name
    ensures forall j :: 0 <= j < |rows| && LastOfName(rows, j) ==> ToMap(rows)[rows[j].name] == rows[j].code
  {
    forall name {
      ToMapKeys(rows, name);
    }
    forall j | 0 <= j < |rows| && LastOfName(rows, j) {
      ToMapLastWins(rows, j);
    }
  }

  /** The data lines read as a map exactly when every one of them has a comma, and then the
      map's keys are exactly the names those lines carry. */
  lemma TableOfSpec(lines: seq<string>, name: string)
    ensures TableOf(lines).Some? <==> AllRowsHaveComma(lines)
    ensures TableOf(lines).Some? ==>
              (name in TableOf(lines).value <==>
               exists j :: 0 <= j < |lines| && ',' in lines[j] && ParseRow(lines[j]).value.name == name)
  {
    if ParseRows(lines).Some? {
      var rows := ParseRows(lines).value;
      ToMapKeys(rows, name);
      if name in ToMap(rows) {
        var j :| 0 <= j < |rows| && rows[j].name == name;
        assert ParseRow(lines[j]).value == rows[j];
      }
    }
  }

  /** The value `skillMap[skill]` has in JavaScript: `undefined` for a name that is not a key. */
  function Lookup(m: map<string, string>, name: string): Option<string> {
    if name in m then Some(m[name]) else None
  }

  /** `skillMap[skill] || skill`: the mapped code when the name is a key whose code is not
      empty, and otherwise the name itself. A non-empty name never resolves to "". */
  function Resolve(m: map<string, string>, skill: string): (r: string)
    ensures skill in m && m[skill] != "" ==> r == m[skill]
    ensures skill !in m || m[skill] == "" ==> r == skill
    ensures skill != "" ==> r != ""
  {
    Or(Lookup(m, skill), Some(skill)).value
  }
}
