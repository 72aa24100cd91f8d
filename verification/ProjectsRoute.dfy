/**
 * `/api/projects`: creation with `||` defaults and a required name, the
 * parameterised `UPDATE … SET` builder over an allow-list of columns, and
 * deletion with a 404 for an unknown id.
 */
module ProjectsRoute {
  import opened Wrappers
  import opened Strings
  import opened Store
  import opened Sequences

  datatype ProjectBody =
    | Row(row: ProjectRow)
    | Empty                                  // `res.json(undefined)`
    | Deleted(message: string, id: string)
    | Failure(error: string)

  datatype ProjectResponse = ProjectResponse(status: nat, body: ProjectBody)

  // ---------------------------------------------------------------------------
  // Create
  // ---------------------------------------------------------------------------

  /** The eight settings a new project falls back to a default for. */
  const Settings: set<Column> := {Description, SystemPrompt, Tone, Language, FontFamily, FontSize, LineSpacing, HeadingFontSize}

  /** The documented default of each setting. */
  function Default(c: Column): Value
  {
    match c
    case Description => Null
    case SystemPrompt => Str("")
    case Tone => Str("neutral")
    case Language => Str("Swedish")
    case FontFamily => Str("Times New Roman")
    case FontSize => Num(12.0)
    case LineSpacing => Num(1.5)
    case HeadingFontSize => Num(14.0)
    case _ => Undefined
  }

  /** Every column of `projects`. */
  const AllColumns: set<Column> := Settings + {Id, Name, HeadingBold, CreatedAt, UpdatedAt}

  /** The value `POST /` inserts into a column, for a body, a fresh id and the creation time. */
  function Initial(body: map<string, Value>, id: string, now: string, c: Column): Value
  {
    match c
    case Id => Str(id)
    case Name => Get(body, "name")
    case Description => Or(Get(body, "description"), Null)
    case SystemPrompt => Or(Get(body, "system_prompt"), Str(""))
    case Tone => Or(Get(body, "tone"), Str("neutral"))
    case Language => Or(Get(body, "language"), Str("Swedish"))
    case FontFamily => Or(Get(body, "font_family"), Str("Times New Roman"))
    case FontSize => Or(Get(body, "font_size"), Num(12.0))
    case LineSpacing => Or(Get(body, "line_spacing"), Num(1.5))
    case HeadingFontSize => Or(Get(body, "heading_font_size"), Num(14.0))
    case HeadingBold => if Get(body, "heading_bold") != Bool(false) then Num(1.0) else Num(0.0)
    case CreatedAt => Str(now)
    case UpdatedAt => Str(now)
  }

  /** The row `POST /` inserts: every column, the id and both timestamps as given. */
  function NewProjectRow(body: map<string, Value>, id: string, now: string): (row: ProjectRow)
    ensures forall c: Column :: c in row
    ensures row[Id] == Str(id) && row[Name] == Get(body, "name")
    ensures row[CreatedAt] == Str(now) && row[UpdatedAt] == Str(now)
  {
    AllColumnsComplete();
    map c | c in AllColumns :: Initial(body, id, now, c)
  }

  lemma AllColumnsComplete()
    ensures forall c: Column :: c in AllColumns
  {
    forall c: Column ensures c in AllColumns {
      match c
      case Id =>
      case Name =>
      case HeadingBold =>
      case CreatedAt =>
      case UpdatedAt =>
      case _ => assert c in Settings;
    }
  }

  /** Each setting is the body's value under the column's name when truthy, and its default otherwise. */
  lemma CreateDefaults(body: map<string, Value>, id: string, now: string, c: Column)
    requires c in Settings
    ensures Truthy(Get(body, ColumnName(c))) ==> NewProjectRow(body, id, now)[c] == body[ColumnName(c)]
    ensures !Truthy(Get(body, ColumnName(c))) ==> NewProjectRow(body, id, now)[c] == Default(c)
  {
    match c
    case Description =>
    case SystemPrompt =>
    case Tone =>
    case Language =>
    case FontFamily =>
    case FontSize =>
    case LineSpacing =>
    case HeadingFontSize =>
  }

  /** `heading_bold` is stored as 0 only for an explicit `false`: a missing key, `null` or `0` store 1. */
  lemma HeadingBoldOnlyFalseClears(body: map<string, Value>, id: string, now: string)
    ensures NewProjectRow(body, id, now)[HeadingBold] ==
      (if "heading_bold" in body && body["heading_bold"] == Bool(false) then Num(0.0) else Num(1.0))
  {
  }

  /** `POST /`: 400 without a truthy name; otherwise the row is inserted and returned with 201. */
  method Create(db: Database, body: map<string, Value>, id: string, now: string) returns (resp: ProjectResponse)
    modifies db
    ensures db.conversations == old(db.conversations) && db.files == old(db.files)
    ensures db.messages == old(db.messages) && db.disk == old(db.disk)
    ensures !Truthy(Get(body, "name")) ==>
      resp == ProjectResponse(400, Failure("Project name is required")) && db.projects == old(db.projects)
    ensures Truthy(Get(body, "name")) && id in old(db.projects) ==>
      resp == ProjectResponse(500, Failure(DuplicateIdError)) && db.projects == old(db.projects)
    ensures Truthy(Get(body, "name")) && id !in old(db.projects) ==>
      && db.projects == old(db.projects)[id := NewProjectRow(body, id, now)]
      && resp == ProjectResponse(201, Row(NewProjectRow(body, id, now)))
  {
    if !Truthy(Get(body, "name")) {
      return ProjectResponse(400, Failure("Project name is required"));
    }
    if id in db.projects {
      return ProjectResponse(500, Failure(DuplicateIdError));
    }
    var row := NewProjectRow(body, id, now);
    db.projects := db.projects[id := row];
    resp := ProjectResponse(201, Row(db.projects[id]));
  }

  /** The driver's message when the primary key is taken. */
  const DuplicateIdError := "SQLITE_CONSTRAINT: UNIQUE constraint failed: projects.id"

  // ---------------------------------------------------------------------------
  // Update
  // ---------------------------------------------------------------------------

  /** The columns `PUT /:id` may change, in the order the clause lists them. */
  const AllowedFields: seq<Column> :=
    [Name, Description, SystemPrompt, Tone, Language, FontFamily, FontSize, LineSpacing, HeadingFontSize, HeadingBold]

  /** The columns the body names among its own keys. */
  function BodyColumns(body: map<string, Value>): (keys: set<Column>)
    ensures forall c :: c in keys <==> ColumnName(c) in body
  {
    AllColumnsComplete();
    set c | c in AllColumns && ColumnName(c) in body
  }

  /** The allow-listed keys of the body, in allow-list order. */
  function PresentFields(body: map<string, Value>): seq<Column>
  {
    Keep(AllowedFields, BodyColumns(body))
  }

  function Fragments(fields: seq<Column>): (r: seq<string>)
    ensures |r| == |fields| && forall i | 0 <= i < |fields| :: r[i] == ColumnName(fields[i]) + " = ?"
  {
    seq(|fields|, i requires 0 <= i < |fields| => ColumnName(fields[i]) + " = ?")
  }

  /** `allowedFields.filter(…).map(f => `${f} = ?`).join(', ')`. */
  function SetClause(fields: seq<Column>): string
  {
    Join(Fragments(fields), ", ")
  }

  /** The statement the handler runs. */
  function UpdateSql(setClause: string): string
  {
    SqlHead + setClause + SqlTail
  }

  const SqlHead := "UPDATE projects SET "
  const UpdatedAtSet := ", updated_at = "
  const WhereId := " WHERE id = "
  const SqlTail := UpdatedAtSet + "?" + WhereId + "?"

  lemma SqlHeadPlain()
    ensures CountChar(SqlHead, '?') == 0
  {
    assert NoChar(SqlHead, '?');
    NoCharCount(SqlHead, '?');
  }

  /** The tail binds `updated_at` and the id. */
  lemma SqlTailPlaceholders()
    ensures CountChar(SqlTail, '?') == 2
  {
    assert NoChar(UpdatedAtSet, '?');
    assert NoChar(WhereId, '?');
    TwoMarks(UpdatedAtSet, WhereId, '?');
  }

  /** The body's values for the fields, in the fields' order. */
  function FieldValues(fields: seq<Column>, body: map<string, Value>): (r: seq<Value>)
    requires forall c | c in fields :: ColumnName(c) in body
    ensures |r| == |fields| && forall i | 0 <= i < |fields| :: r[i] == body[ColumnName(fields[i])]
  {
    seq(|fields|, i requires 0 <= i < |fields| => body[ColumnName(fields[i])])
  }

  /** The set clause is empty exactly when no allow-listed key is present. */
  lemma SetClauseEmptyIff(fields: seq<Column>)
    ensures SetClause(fields) == "" <==> fields == []
  {
    if fields != [] {
      var frags := Fragments(fields);
      assert |frags[0]| >= 4;
      if |frags| > 1 {
        assert SetClause(fields) == frags[0] + ", " + Join(frags[1..], ", ");
      }
    }
  }

  /** Keys outside the allow-list never reach the statement. */
  lemma UnknownKeysIgnored(body: map<string, Value>, key: string, v: Value)
    requires forall c | c in AllowedFields :: ColumnName(c) != key
    ensures PresentFields(body[key := v]) == PresentFields(body)
  {
    KeepAgrees(AllowedFields, BodyColumns(body[key := v]), BodyColumns(body));
  }

  /** No column name holds a `?`. */
  lemma ColumnNamePlain(c: Column)
    ensures NoChar(ColumnName(c), '?')
  {
    match c
    case Id => assert NoChar("id", '?');
    case Name => assert NoChar("name", '?');
    case Description => assert NoChar("description", '?');
    case SystemPrompt => assert NoChar("system_prompt", '?');
    case Tone => assert NoChar("tone", '?');
    case Language => assert NoChar("language", '?');
    case FontFamily => assert NoChar("font_family", '?');
    case FontSize => assert NoChar("font_size", '?');
    case LineSpacing => assert NoChar("line_spacing", '?');
    case HeadingFontSize => assert NoChar("heading_font_size", '?');
    case HeadingBold => assert NoChar("heading_bold", '?');
    case CreatedAt => assert NoChar("created_at", '?');
    case UpdatedAt => assert NoChar("updated_at", '?');
  }

  /** Each fragment holds exactly one placeholder and the separators none. */
  lemma {:induction false} SetClausePlaceholders(fields: seq<Column>)
    ensures CountChar(SetClause(fields), '?') == |fields|
    decreases |fields|
  {
    if fields != [] {
      var frags := Fragments(fields);
      var name := ColumnName(fields[0]);
      ColumnNamePlain(fields[0]);
      NoCharCount(name, '?');
      CountCharAppend(name, " = ?", '?');
      assert CountChar(frags[0], '?') == 1;
      if |fields| > 1 {
        SetClausePlaceholders(fields[1..]);
        assert Fragments(fields[1..]) == frags[1..];
        assert SetClause(fields) == frags[0] + ", " + SetClause(fields[1..]);
        CountCharAppend(frags[0], ", ", '?');
        CountCharAppend(frags[0] + ", ", SetClause(fields[1..]), '?');
      }
    }
  }

  /** The statement adds two placeholders to those of its set clause. */
  lemma SqlPlaceholders(setClause: string)
    ensures CountChar(UpdateSql(setClause), '?') == CountChar(setClause, '?') + 2
  {
    SqlHeadPlain();
    SqlTailPlaceholders();
    CountCharAppend(SqlHead, setClause, '?');
    CountCharAppend(SqlHead + setClause, SqlTail, '?');
  }

  /** The statement has exactly as many placeholders as values are bound to it. */
  lemma PlaceholdersMatchValues(body: map<string, Value>, now: string, id: string)
    ensures var fields := PresentFields(body);
      CountChar(UpdateSql(SetClause(fields)), '?') == |FieldValues(fields, body) + [Str(now), Str(id)]|
  {
    var fields := PresentFields(body);
    SetClausePlaceholders(fields);
    SqlPlaceholders(SetClause(fields));
  }

  /**
   * The set clause lists the columns in allow-list order, whatever order the
   * request gave its keys in: the present columns before any cut of the
   * allow-list come before those after it.
   */
  lemma PresentFieldsInAllowListOrder(body: map<string, Value>, k: nat)
    requires k <= |AllowedFields|
    ensures PresentFields(body) ==
      Keep(AllowedFields[..k], BodyColumns(body)) + Keep(AllowedFields[k..], BodyColumns(body))
  {
    assert AllowedFields == AllowedFields[..k] + AllowedFields[k..];
    KeepAppend(AllowedFields[..k], AllowedFields[k..], BodyColumns(body));
  }

  lemma AllowedFieldsDistinct()
    ensures Distinct(AllowedFields)
  {
  }

  /** `updated_at` is not one of the columns a client may set. */
  lemma UpdatedAtNotAllowed()
    ensures UpdatedAt !in AllowedFields
  {
  }

  /** The row `PUT /:id` leaves behind; its `updated_at` is the time of the request. */
  function UpdatedRow(row: ProjectRow, body: map<string, Value>, now: string): (r: ProjectRow)
    ensures UpdatedAt in r && r[UpdatedAt] == Str(now)
  {
    var fields := PresentFields(body);
    Assign(row, fields, FieldValues(fields, body))[UpdatedAt := Str(now)]
  }

  /** Every allow-listed column the body names takes the body's value. */
  lemma UpdateWritesPresentField(row: ProjectRow, body: map<string, Value>, now: string, c: Column)
    requires c in AllowedFields && ColumnName(c) in body
    ensures UpdatedRow(row, body, now)[c] == body[ColumnName(c)]
  {
    var fields := PresentFields(body);
    var values := FieldValues(fields, body);
    AllowedFieldsDistinct();
    KeepDistinct(AllowedFields, BodyColumns(body));
    AssignDistinct(row, fields, values);
    assert c in fields;
    var i :| 0 <= i < |fields| && fields[i] == c;
    assert Assign(row, fields, values)[c] == body[ColumnName(c)];
    UpdatedAtNotAllowed();
  }

  /** Every other column but `updated_at` keeps its value, or its absence. */
  lemma UpdateKeepsOtherColumns(row: ProjectRow, body: map<string, Value>, now: string, c: Column)
    requires c != UpdatedAt && (c !in AllowedFields || ColumnName(c) !in body)
    ensures c in UpdatedRow(row, body, now) <==> c in row
    ensures c in row ==> UpdatedRow(row, body, now)[c] == row[c]
  {
    var fields := PresentFields(body);
    AssignUntouched(row, fields, FieldValues(fields, body), c);
  }

  /** `PUT /:id`. */
  method Update(db: Database, id: string, body: map<string, Value>, now: string) returns (resp: ProjectResponse)
    modifies db
    ensures db.conversations == old(db.conversations) && db.files == old(db.files)
    ensures db.messages == old(db.messages) && db.disk == old(db.disk)
    ensures PresentFields(body) == [] ==>
      resp == ProjectResponse(400, Failure("No valid fields to update")) && db.projects == old(db.projects)
    ensures PresentFields(body) != [] && id !in old(db.projects) ==>
      resp == ProjectResponse(200, Empty) && db.projects == old(db.projects)
    ensures PresentFields(body) != [] && id in old(db.projects) ==>
      && db.projects == old(db.projects)[id := UpdatedRow(old(db.projects)[id], body, now)]
      && resp == ProjectResponse(200, Row(UpdatedRow(old(db.projects)[id], body, now)))
  {
    var fields := PresentFields(body);
    var setClause := SetClause(fields);
    SetClauseEmptyIff(fields);
    if setClause == "" {
      return ProjectResponse(400, Failure("No valid fields to update"));
    }
    var values := FieldValues(fields, body);
    values := values + [Str(now)];
    values := values + [Str(id)];
    if values[|fields| + 1].s in db.projects {
      assert values[..|fields|] == FieldValues(fields, body);
      var row := Assign(db.projects[id], fields, values[..|fields|]);
      row := row[UpdatedAt := values[|fields|]];
      db.projects := db.projects[id := row];
      resp := ProjectResponse(200, Row(db.projects[id]));
    } else {
      resp := ProjectResponse(200, Empty);
    }
  }

  // ---------------------------------------------------------------------------
  // Delete
  // ---------------------------------------------------------------------------

  /** `DELETE /:id`: 404 for an unknown id, otherwise the row is removed. */
  method Delete(db: Database, id: string) returns (resp: ProjectResponse)
    modifies db
    ensures db.conversations == old(db.conversations) && db.files == old(db.files)
    ensures db.messages == old(db.messages) && db.disk == old(db.disk)
    ensures id !in old(db.projects) ==>
      resp == ProjectResponse(404, Failure("Project not found")) && db.projects == old(db.projects)
    ensures id in old(db.projects) ==>
      resp == ProjectResponse(200, Deleted("Project deleted", id)) && db.projects == old(db.projects) - {id}
  {
    if id !in db.projects {
      return ProjectResponse(404, Failure("Project not found"));
    }
    db.projects := db.projects - {id};
    resp := ProjectResponse(200, Deleted("Project deleted", id));
  }
}
