/**
 * The backend's SQLite store, as the route handlers see it: projects and
 * conversations keyed by id, and the `files` and `messages` tables as rows in
 * insertion order, plus the set of paths present in the upload directory.
 *
 * Rows are read back in insertion order wherever the handlers order by
 * `created_at`, whose ISO timestamps are taken from the clock as rows are
 * inserted.
 */
module Store {
  import opened Wrappers

  /** A JSON/SQL value as the handlers pass it around; `Undefined` is a missing key. */
  datatype Value = Undefined | Null | Bool(b: bool) | Num(n: real) | Str(s: string) | Compound(json: string)

  /** JavaScript truthiness (numbers are never NaN here). */
  predicate Truthy(v: Value)
  {
    match v
    case Undefined => false
    case Null => false
    case Bool(b) => b
    case Num(n) => n != 0.0
    case Str(s) => s != ""
    case Compound(_) => true
  }

  /** `body[key]`, `Undefined` for a missing key. */
  function Get(body: map<string, Value>, key: string): (v: Value)
    ensures key !in body ==> v == Undefined
  {
    if key in body then body[key] else Undefined
  }

  /** `v || fallback`. */
  function Or(v: Value, fallback: Value): (r: Value)
    ensures Truthy(v) ==> r == v
    ensures !Truthy(v) ==> r == fallback
  {
    if Truthy(v) then v else fallback
  }

  /** The columns of `projects`. */
  datatype Column =
    | Id | Name | Description | SystemPrompt | Tone | Language | FontFamily
    | FontSize | LineSpacing | HeadingFontSize | HeadingBold | CreatedAt | UpdatedAt

  /** The column's SQL name, which is also its key in a request body. */
  function ColumnName(c: Column): string
  {
    match c
    case Id => "id"
    case Name => "name"
    case Description => "description"
    case SystemPrompt => "system_prompt"
    case Tone => "tone"
    case Language => "language"
    case FontFamily => "font_family"
    case FontSize => "font_size"
    case LineSpacing => "line_spacing"
    case HeadingFontSize => "heading_font_size"
    case HeadingBold => "heading_bold"
    case CreatedAt => "created_at"
    case UpdatedAt => "updated_at"
  }

  /** A project row: its columns' values; a missing column reads as `Undefined`. */
  type ProjectRow = map<Column, Value>

  /** The columns of a conversation the handlers use. */
  datatype Conversation = Conversation(projectId: string, updatedAt: string)

  /** A row of `files`. */
  datatype FileRow = FileRow(
    id: string,
    projectId: string,
    filename: string,
    filePath: string,
    fileType: string,
    fileSize: nat,
    extractedText: string,
    createdAt: string)

  /** A row of `messages`; the optional columns are SQL `NULL` when `None`. */
  datatype MessageRow = MessageRow(
    id: string,
    conversationId: string,
    role: string,
    content: string,
    referencedFiles: Option<string>,
    modelUsed: Option<string>,
    tokensUsed: Option<nat>,
    createdAt: string)

  class Database {
    var projects: map<string, ProjectRow>
    var conversations: map<string, Conversation>
    var files: seq<FileRow>
    var messages: seq<MessageRow>
    /** The paths that exist in the upload directory. */
    var disk: set<string>

    constructor ()
      ensures projects == map[] && conversations == map[] && files == [] && messages == [] && disk == {}
    {
      projects := map[];
      conversations := map[];
      files := [];
      messages := [];
      disk := {};
    }
  }
}
