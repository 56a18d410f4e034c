/** The storage endpoint (UPDATED-GOOGLE-APPS-SCRIPT.js): `doPost` flattens the
    team list into one string, builds a ten-cell row, appends it to the sheet
    and answers with a success or an error object. */
module AppsScript {
  import opened JsValues

  /** A cell as `appendRow` receives it: the timestamp, a value read from the
      request, or `undefined` for a property the request lacks. */
  datatype Cell = DateCell(millis: int) | ValueCell(value: Json) | UndefinedCell

  function CellOf(v: Option<Json>): Cell {
    if v.Some? then ValueCell(v.value) else UndefinedCell
  }

  const TeamsSeparator := ", "

  /** `data.teams ? data.teams.join(", ") : ""`; a truthy `teams` that is not
      an array has no `join` and throws. */
  function TeamsString(data: Json): (r: Result<string>)
    ensures data == JNull ==> r.Thrown?
    ensures data != JNull && !Truthy(GetProperty(data, "teams").value) ==> r == Ok("")
    ensures r.Ok? && r.value != "" ==> data.JObj? && "teams" in data.fields && data.fields["teams"].JArr?
    ensures data != JNull && Truthy(GetProperty(data, "teams").value) && !GetProperty(data, "teams").value.value.JArr?
      ==> r == Thrown("data.teams.join is not a function")
  {
    match GetProperty(data, "teams")
    case Thrown(m) => Thrown(m)
    case Ok(teams) =>
      if !Truthy(teams) then Ok("")
      else if teams.value.JArr? then Ok(ArrayJoin(teams.value.items, TeamsSeparator))
      else Thrown("data.teams.join is not a function")
  }

  /** A JSON array of strings. */
  function Strings(names: seq<string>): (j: Json)
    ensures j.JArr? && |j.items| == |names|
    ensures forall i :: 0 <= i < |names| ==> j.items[i] == JStr(names[i])
  {
    JArr(seq(|names|, i requires 0 <= i < |names| => JStr(names[i])))
  }

  /** A `teams` array of names gives the names joined with ", ", and an
      absent or null `teams` gives the empty string. */
  lemma TeamsStringOfNames(fields: map<string, Json>, names: seq<string>)
    ensures TeamsString(JObj(fields["teams" := Strings(names)])) == Ok(Join(names, TeamsSeparator))
    ensures "teams" !in fields ==> TeamsString(JObj(fields)) == Ok("")
    ensures TeamsString(JObj(fields["teams" := JNull])) == Ok("")
  {
    var items := Strings(names).items;
    ArrayJoinOfStrings(items, TeamsSeparator);
    assert Texts(items) == names;
  }

  /** The script's own test data. */
  lemma TeamsStringExample(fields: map<string, Json>)
    ensures TeamsString(JObj(fields["teams" := Strings(["Tech", "Design", "PR"])])) == Ok("Tech, Design, PR")
  {
    TeamsStringOfNames(fields, ["Tech", "Design", "PR"]);
    var names := ["Tech", "Design", "PR"];
    assert names[1..] == ["Design", "PR"] && names[1..][1..] == ["PR"];
    assert Join(names, TeamsSeparator) == "Tech, Design, PR";
  }

  /** Index of the first comma of `s`, or |s| when there is none. */
  function CommaIndex(s: string): (k: nat)
    ensures k <= |s|
    ensures forall i :: 0 <= i < k ==> s[i] != ','
    ensures k < |s| ==> s[k] == ','
  {
    if s == [] || s[0] == ',' then 0 else 1 + CommaIndex(s[1..])
  }

  /** Reads a team-choices cell back into the list of names. */
  function ReadTeams(column: string): seq<string>
    decreases |column|
  {
    if column == [] then []
    else
      var k := CommaIndex(column);
      if k == |column| then [column]
      else [column[..k]] + ReadTeams(column[if k + 2 <= |column| then k + 2 else |column|..])
  }

  /** A team name: non-empty and free of commas, as all seven choices are. */
  predicate IsTeamName(name: string) {
    name != [] && forall i :: 0 <= i < |name| ==> name[i] != ','
  }

  lemma {:induction false} CommaIndexAfterName(name: string, rest: string)
    requires forall i :: 0 <= i < |name| ==> name[i] != ','
    requires rest == [] || rest[0] == ','
    ensures CommaIndex(name + rest) == |name|
  {
    if name == [] {
      assert name + rest == rest;
    } else {
      assert (name + rest)[1..] == name[1..] + rest;
      CommaIndexAfterName(name[1..], rest);
    }
  }

  /** The teams string loses nothing: splitting it at ", " gives back the list. */
  lemma {:induction false} TeamsColumnRoundTrip(names: seq<string>)
    requires forall i :: 0 <= i < |names| ==> IsTeamName(names[i])
    ensures ReadTeams(Join(names, TeamsSeparator)) == names
  {
    if |names| == 1 {
      CommaIndexAfterName(names[0], "");
      assert names[0] + "" == names[0];
    } else if |names| > 1 {
      var rest := Join(names[1..], TeamsSeparator);
      var column := names[0] + (TeamsSeparator + rest);
      assert Join(names, TeamsSeparator) == column;
      CommaIndexAfterName(names[0], TeamsSeparator + rest);
      assert column[..|names[0]|] == names[0];
      assert column[|names[0]| + 2..] == rest;
      TeamsColumnRoundTrip(names[1..]);
    }
  }

  /** What each column of the sheet holds. */
  datatype Column = Timestamp | Copied(key: string) | TeamsColumn

  /** Columns A to J. */
  const Layout: seq<Column> := [
    Timestamp, Copied("name"), Copied("enrollment"), Copied("course"), Copied("phone"),
    Copied("residency"), TeamsColumn, Copied("why"), Copied("portfolio"), Copied("experience")]

  /** `data.key` on the parsed request, which is not null by the time the
      row is built. */
  function Field(data: Json, key: string): Option<Json>
    requires data != JNull
  {
    GetProperty(data, key).value
  }

  /** `newRow`: one cell per column of the layout, every copied column taken
      unchanged from the request. */
  function NewRow(timestamp: int, data: Json, teamsString: string): (row: seq<Cell>)
    requires data != JNull
    ensures |row| == |Layout| == 10
    ensures forall c :: 0 <= c < 10 ==>
      row[c] == match Layout[c]
        case Timestamp => DateCell(timestamp)
        case Copied(key) => CellOf(Field(data, key))
        case TeamsColumn => ValueCell(JStr(teamsString))
  {
    [ DateCell(timestamp),
      CellOf(Field(data, "name")),
      CellOf(Field(data, "enrollment")),
      CellOf(Field(data, "course")),
      CellOf(Field(data, "phone")),
      CellOf(Field(data, "residency")),
      ValueCell(JStr(teamsString)),
      CellOf(Field(data, "why")),
      CellOf(Field(data, "portfolio")),
      CellOf(Field(data, "experience")) ]
  }

  /** The result of everything `doPost` does before the append. */
  datatype PreparedRow = PreparedRow(data: Json, teams: string, row: seq<Cell>)

  /** Opening the sheet, parsing the request, flattening the teams and
      building the row; the first step that throws decides the error. */
  function PrepareRow(sheetOpened: Result<()>, parsed: Result<Json>, now: int): (r: Result<PreparedRow>)
    ensures sheetOpened.Thrown? ==> r == Thrown(sheetOpened.message)
    ensures sheetOpened.Ok? && parsed.Thrown? ==> r == Thrown(parsed.message)
    ensures r.Ok? <==> sheetOpened.Ok? && parsed.Ok? && TeamsString(parsed.value).Ok?
    ensures sheetOpened.Ok? && parsed.Ok? && TeamsString(parsed.value).Thrown? ==>
      r == Thrown(TeamsString(parsed.value).message)
    ensures r.Ok? ==>
      && r.value.data == parsed.value && parsed.value != JNull
      && Ok(r.value.teams) == TeamsString(parsed.value)
      && r.value.row == NewRow(now, parsed.value, r.value.teams)
  {
    if sheetOpened.Thrown? then Thrown(sheetOpened.message)
    else if parsed.Thrown? then Thrown(parsed.message)
    else
      match TeamsString(parsed.value)
      case Thrown(m) => Thrown(m)
      case Ok(teams) => Ok(PreparedRow(parsed.value, teams, NewRow(now, parsed.value, teams)))
  }

  /** The object `doPost` serialises into its response. */
  datatype ScriptReply =
    | SuccessReply(data: Json, teams: string)
    | ErrorReply(message: string)

  /** The reply as the relay parses it (the `data` field, a serialisation of
      the request, is not modelled). */
  function ReplyJson(reply: ScriptReply): (j: Json)
    ensures j.JObj? && "status" in j.fields
    ensures j.fields["status"] == JStr("success") <==> reply.SuccessReply?
    ensures reply.ErrorReply? ==> "message" in j.fields && j.fields["message"] == JStr(reply.message)
  {
    match reply
    case SuccessReply(_, teams) => JObj(map["status" := JStr("success"), "teams" := JStr(teams)])
    case ErrorReply(message) => JObj(map["status" := JStr("error"), "message" := JStr(message)])
  }

  /** The spreadsheet the script appends to. */
  class Sheet {
    var rows: seq<seq<Cell>>

    constructor (initial: seq<seq<Cell>>)
      ensures rows == initial
    {
      rows := initial;
    }

    /** `doPost(e)`, with its platform calls given as outcomes: `sheetOpened` for
        opening the sheet, `parsed` for `JSON.parse(e.postData.contents)`,
        `now` for `new Date()` and `appended` for `sheet.appendRow`, which
        either adds the row or throws without adding it. */
    method DoPost(sheetOpened: Result<()>, parsed: Result<Json>, now: int, appended: Result<()>)
      returns (reply: ScriptReply)
      modifies this
      ensures var prepared := PrepareRow(sheetOpened, parsed, now);
        && (reply.SuccessReply? <==> prepared.Ok? && appended.Ok?)
        && (reply.SuccessReply? ==>
              reply.data == prepared.value.data && reply.teams == prepared.value.teams
              && rows == old(rows) + [prepared.value.row])
        && (prepared.Thrown? ==> reply == ErrorReply(prepared.message) && rows == old(rows))
        && (prepared.Ok? && appended.Thrown? ==> reply == ErrorReply(appended.message) && rows == old(rows))
    {
      var prepared := PrepareRow(sheetOpened, parsed, now);
      if prepared.Thrown? {
        reply := ErrorReply(prepared.message);
        return;
      }
      if appended.Thrown? {
        reply := ErrorReply(appended.message);
        return;
      }
      rows := rows + [prepared.value.row];
      reply := SuccessReply(prepared.value.data, prepared.value.teams);
    }
  }

  /** A successful reply reports in `teams` exactly the string written to
      column G of the appended row, and the other cells come from the request. */
  lemma SuccessReplyMatchesRow(sheetOpened: Result<()>, parsed: Result<Json>, now: int)
    requires PrepareRow(sheetOpened, parsed, now).Ok?
    ensures var p := PrepareRow(sheetOpened, parsed, now).value;
      && p.row[6] == ValueCell(JStr(p.teams))
      && p.row[0] == DateCell(now)
      && p.row[5] == CellOf(Field(parsed.value, "residency"))
      && ReplyJson(SuccessReply(p.data, p.teams)).fields["teams"] == p.row[6].value
  {
  }
}
