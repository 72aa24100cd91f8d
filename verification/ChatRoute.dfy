/**
 * `POST /api/chat/send`: validate the request, look up the project and the
 * conversation, build the file context and the history, call the LLM service,
 * then store the user turn, the assistant turn and the conversation's new
 * `updated_at`, in that order.
 */
module ChatRoute {
  import opened Wrappers
  import opened Strings
  import opened Store
  import opened LlmService

  /** The request body; `""` stands for a missing or falsy string field. */
  datatype SendRequest = SendRequest(
    conversationId: string,
    projectId: string,
    message: string,
    referencedFileIds: Option<seq<string>>,
    model: string)

  datatype SendBody =
    | Sent(userMessageId: string, assistantMessageId: string, response: string, model: string, tokensUsed: nat)
    | Failure(error: string)

  datatype SendResponse = SendResponse(status: nat, body: SendBody)

  /** The message of the `TypeError` raised by reading `content` of an undefined LLM result. */
  const UndefinedResponseError := "Cannot read properties of undefined (reading 'content')"

  /** `!conversation_id || !project_id || !message`. */
  predicate MissingFields(req: SendRequest)
  {
    req.conversationId == "" || req.projectId == "" || req.message == ""
  }

  // ---------------------------------------------------------------------------
  // File context
  // ---------------------------------------------------------------------------

  /** The block one referenced file contributes. */
  function FileBlock(f: FileRow): (r: string)
    ensures StartsWith(r, "\n[File: " + f.filename + "]\n")
    ensures |r| >= |f.extractedText| && r[|r| - |f.extractedText|..] == f.extractedText
  {
    var header := "\n[File: " + f.filename + "]\n";
    assert (header + f.extractedText)[..|header|] == header;
    header + f.extractedText
  }

  /** `SELECT * FROM files WHERE id IN (…)`: the rows whose id is referenced, in table order. */
  function ReferencedRows(files: seq<FileRow>, ids: seq<string>): seq<FileRow>
  {
    if files == [] then []
    else (if files[0].id in ids then [files[0]] else []) + ReferencedRows(files[1..], ids)
  }

  function Blocks(rows: seq<FileRow>): (r: seq<string>)
    ensures |r| == |rows| && forall i | 0 <= i < |rows| :: r[i] == FileBlock(rows[i])
  {
    seq(|rows|, i requires 0 <= i < |rows| => FileBlock(rows[i]))
  }

  /** The `file_context` passed to the LLM service. */
  function FileContext(files: seq<FileRow>, ids: Option<seq<string>>): string
  {
    if ids.None? || |ids.value| == 0 then ""
    else Join(Blocks(ReferencedRows(files, ids.value)), "\n---\n")
  }

  /** The referenced rows are exactly the table's rows with a referenced id. */
  lemma {:induction false} ReferencedRowsExact(files: seq<FileRow>, ids: seq<string>)
    ensures forall f | f in ReferencedRows(files, ids) :: f in files && f.id in ids
    ensures forall f | f in files && f.id in ids :: f in ReferencedRows(files, ids)
    decreases |files|
  {
    if files != [] {
      ReferencedRowsExact(files[1..], ids);
      forall f | f in files && f.id in ids ensures f in ReferencedRows(files, ids) {
        if f != files[0] {
          assert f in files[1..];
        }
      }
    }
  }

  /** Which rows are used depends only on the set of ids, not on their order or repetition. */
  lemma {:induction false} ReferencedRowsIgnoreIdOrder(files: seq<FileRow>, ids1: seq<string>, ids2: seq<string>)
    requires forall x :: x in ids1 <==> x in ids2
    ensures ReferencedRows(files, ids1) == ReferencedRows(files, ids2)
    decreases |files|
  {
    if files != [] {
      ReferencedRowsIgnoreIdOrder(files[1..], ids1, ids2);
    }
  }

  /** The file context follows the table's order of files, whatever order the request lists them in. */
  lemma FileContextIgnoresIdOrder(files: seq<FileRow>, ids1: seq<string>, ids2: seq<string>)
    requires |ids1| > 0 && |ids2| > 0
    requires forall x :: x in ids1 <==> x in ids2
    ensures FileContext(files, Some(ids1)) == FileContext(files, Some(ids2))
  {
    ReferencedRowsIgnoreIdOrder(files, ids1, ids2);
  }

  lemma {:induction false} ReferencedRowsAppend(a: seq<FileRow>, b: seq<FileRow>, ids: seq<string>)
    ensures ReferencedRows(a + b, ids) == ReferencedRows(a, ids) + ReferencedRows(b, ids)
    decreases |a|
  {
    if a == [] {
      assert a + b == b;
    } else {
      var head := if a[0].id in ids then [a[0]] else [];
      assert (a + b)[0] == a[0];
      assert (a + b)[1..] == a[1..] + b;
      calc {
        ReferencedRows(a + b, ids);
        head + ReferencedRows(a[1..] + b, ids);
        { ReferencedRowsAppend(a[1..], b, ids); }
        head + (ReferencedRows(a[1..], ids) + ReferencedRows(b, ids));
        (head + ReferencedRows(a[1..], ids)) + ReferencedRows(b, ids);
        ReferencedRows(a, ids) + ReferencedRows(b, ids);
      }
    }
  }

  /**
   * Two referenced files stored one after the other give their two blocks
   * separated by `"\n---\n"`; a single referenced file gives its block alone.
   */
  lemma FileContextOfTwo(f: FileRow, g: FileRow, ids: seq<string>)
    requires f.id in ids && g.id in ids
    ensures FileContext([f], Some(ids)) == "\n[File: " + f.filename + "]\n" + f.extractedText
    ensures FileContext([f, g], Some(ids)) ==
      "\n[File: " + f.filename + "]\n" + f.extractedText + "\n---\n" + "\n[File: " + g.filename + "]\n" + g.extractedText
  {
    assert FileContext([f], Some(ids)) == FileBlock(f) by {
      assert ReferencedRows([f], ids) == [f] by {
        assert [f][1..] == [];
      }
      assert Blocks([f]) == [FileBlock(f)];
    }
    assert FileContext([f, g], Some(ids)) == FileBlock(f) + "\n---\n" + FileBlock(g) by {
      assert ReferencedRows([f, g], ids) == [f, g] by {
        assert [f, g][1..] == [g];
        assert ReferencedRows([g], ids) == [g];
      }
      assert Blocks([f, g]) == [FileBlock(f), FileBlock(g)];
      JoinTwo(FileBlock(f), FileBlock(g), "\n---\n");
    }
  }

  lemma {:induction false} NoMatchingRows(files: seq<FileRow>, ids: seq<string>)
    requires forall f | f in files :: f.id !in ids
    ensures ReferencedRows(files, ids) == []
    decreases |files|
  {
    if files != [] {
      NoMatchingRows(files[1..], ids);
    }
  }

  /** Ids that match no stored file give an empty context, as does a request that references none. */
  lemma FileContextWithoutMatches(files: seq<FileRow>, ids: Option<seq<string>>)
    requires ids.Some? ==> forall f | f in files :: f.id !in ids.value
    ensures FileContext(files, ids) == ""
  {
    if ids.Some? {
      NoMatchingRows(files, ids.value);
    }
  }

  // ---------------------------------------------------------------------------
  // History
  // ---------------------------------------------------------------------------

  /** The conversation's rows, in insertion order. */
  function ConversationRows(messages: seq<MessageRow>, conversationId: string): (r: seq<MessageRow>)
    ensures |r| <= |messages|
    ensures forall m :: m in r <==> m in messages && m.conversationId == conversationId
    decreases |messages|
  {
    if messages == [] then []
    else
      var rest := ConversationRows(messages[1..], conversationId);
      assert forall m | m in messages :: m == messages[0] || m in messages[1..];
      (if messages[0].conversationId == conversationId then [messages[0]] else []) + rest
  }

  function AsHistoryEntry(m: MessageRow): HistoryEntry
  {
    HistoryEntry(m.role, Text(m.content))
  }

  /** `SELECT role, content … WHERE conversation_id = ? ORDER BY created_at ASC LIMIT 10`. */
  function History(messages: seq<MessageRow>, conversationId: string): (r: seq<HistoryEntry>)
  {
    var rows := ConversationRows(messages, conversationId);
    var first := if |rows| <= 10 then rows else rows[..10];
    seq(|first|, i requires 0 <= i < |first| => AsHistoryEntry(first[i]))
  }

  lemma {:induction false} ConversationRowsAppend(a: seq<MessageRow>, b: seq<MessageRow>, conversationId: string)
    ensures ConversationRows(a + b, conversationId) == ConversationRows(a, conversationId) + ConversationRows(b, conversationId)
    decreases |a|
  {
    if a == [] {
      assert a + b == b;
    } else {
      var head := if a[0].conversationId == conversationId then [a[0]] else [];
      assert (a + b)[0] == a[0];
      assert (a + b)[1..] == a[1..] + b;
      calc {
        ConversationRows(a + b, conversationId);
        head + ConversationRows(a[1..] + b, conversationId);
        { ConversationRowsAppend(a[1..], b, conversationId); }
        head + (ConversationRows(a[1..], conversationId) + ConversationRows(b, conversationId));
        (head + ConversationRows(a[1..], conversationId)) + ConversationRows(b, conversationId);
        ConversationRows(a, conversationId) + ConversationRows(b, conversationId);
      }
    }
  }

  /** The history is the conversation's oldest ten turns, in order. */
  lemma HistoryIsOldestTen(messages: seq<MessageRow>, conversationId: string)
    ensures var rows := ConversationRows(messages, conversationId);
      var h := History(messages, conversationId);
      && |h| == (if |rows| <= 10 then |rows| else 10)
      && forall i | 0 <= i < |h| :: h[i] == HistoryEntry(rows[i].role, Text(rows[i].content))
  {
    var rows := ConversationRows(messages, conversationId);
    var first := if |rows| <= 10 then rows else rows[..10];
    var h := History(messages, conversationId);
    assert |h| == |first|;
    forall i | 0 <= i < |h| ensures h[i] == HistoryEntry(rows[i].role, Text(rows[i].content)) {
      assert h[i] == AsHistoryEntry(first[i]);
      assert first[i] == rows[i];
    }
  }

  /**
   * Once a conversation holds ten messages its history no longer changes:
   * rows stored later, for it or for any other conversation, are never sent.
   */
  lemma HistoryFrozenAfterTen(messages: seq<MessageRow>, later: seq<MessageRow>, conversationId: string)
    requires |ConversationRows(messages, conversationId)| >= 10
    ensures History(messages + later, conversationId) == History(messages, conversationId)
  {
    ConversationRowsAppend(messages, later, conversationId);
    var rows := ConversationRows(messages, conversationId);
    assert (rows + ConversationRows(later, conversationId))[..10] == rows[..10];
  }

  /** Rows of other conversations never enter a conversation's history. */
  lemma {:induction false} OtherConversationsIgnored(messages: seq<MessageRow>, m: MessageRow, conversationId: string)
    requires m.conversationId != conversationId
    ensures History(messages + [m], conversationId) == History(messages, conversationId)
  {
    ConversationRowsAppend(messages, [m], conversationId);
    assert ConversationRows([m], conversationId) == [];
    assert ConversationRows(messages, conversationId) + [] == ConversationRows(messages, conversationId);
  }

  // ---------------------------------------------------------------------------
  // The handler
  // ---------------------------------------------------------------------------

  /** `model || 'openrouter/anthropic/claude-haiku-4.5'`. */
  function ModelOrDefault(model: string): (r: string)
    ensures r != "" && (model != "" ==> r == model)
    ensures model == "" ==> r == HaikuId
  {
    if model != "" then model else HaikuId
  }

  /** The project's `system_prompt` as the LLM service sees it; a non-string value counts as none. */
  function SystemPromptOf(project: ProjectRow): string
  {
    if SystemPrompt in project && project[SystemPrompt].Str? then project[SystemPrompt].s else ""
  }

  /** A lower-case hexadecimal digit. */
  function HexDigit(d: int): (c: char)
    requires 0 <= d < 16
    ensures HexValue(c) == d
  {
    if d < 10 then ('0' as int + d) as char else ('a' as int + d - 10) as char
  }

  /** The value of a hexadecimal digit of either case, or -1. */
  function HexValue(c: char): int
  {
    if '0' <= c <= '9' then c as int - '0' as int
    else if 'a' <= c <= 'f' then c as int - 'a' as int + 10
    else if 'A' <= c <= 'F' then c as int - 'A' as int + 10
    else -1
  }

  /** One character as `JSON.stringify` writes it inside a string literal. */
  function JsonChar(c: char): (r: string)
    ensures 1 <= |r| <= 6
    ensures forall k | 0 <= k < |r| :: r[k] >= ' '
    ensures c >= ' ' && c != '"' && c != '\\' ==> r == [c]
    ensures c == '"' ==> r == "\\\""
    ensures c == '\\' ==> r == "\\\\"
    ensures c < ' ' ==> |r| >= 2 && r[0] == '\\'
  {
    if c == '"' then "\\\""
    else if c == '\\' then "\\\\"
    else if c == '\n' then "\\n"
    else if c == '\r' then "\\r"
    else if c == '\t' then "\\t"
    else if c as int == 8 then "\\b"
    else if c as int == 12 then "\\f"
    else if c < ' ' then "\\u00" + [HexDigit(c as int / 16), HexDigit(c as int % 16)]
    else [c]
  }

  /** The body of a JSON string literal: every quote, backslash and control character escaped. */
  function JsonEscape(s: string): (r: string)
    ensures |s| <= |r| <= 6 * |s|
    ensures forall k | 0 <= k < |r| :: r[k] >= ' '
    decreases |s|
  {
    if s == [] then [] else
      var head := JsonChar(s[0]);
      var rest := JsonEscape(s[1..]);
      assert forall k | |head| <= k < |head| + |rest| :: (head + rest)[k] == rest[k - |head|];
      head + rest
  }

  /** The character a two-character escape `\e` stands for in `JSON.parse`. */
  function ShortEscape(e: char): Option<char>
  {
    if e == '"' then Some('"')
    else if e == '\\' then Some('\\')
    else if e == '/' then Some('/')
    else if e == 'b' then Some(8 as char)
    else if e == 'f' then Some(12 as char)
    else if e == 'n' then Some('\n')
    else if e == 'r' then Some('\r')
    else if e == 't' then Some('\t')
    else None
  }

  /** The code point of `\uXXXX` at the head of `s`, when it is one and names a character. */
  function UnicodeEscape(s: string): Option<char>
  {
    if |s| >= 6 && s[0] == '\\' && s[1] == 'u'
       && HexValue(s[2]) >= 0 && HexValue(s[3]) >= 0 && HexValue(s[4]) >= 0 && HexValue(s[5]) >= 0 then
      var v := HexValue(s[2]) * 4096 + HexValue(s[3]) * 256 + HexValue(s[4]) * 16 + HexValue(s[5]);
      if v < 0xD800 || 0xE000 <= v then Some(v as char) else None
    else None
  }

  /**
   * The characters `JSON.parse` reads back from the body of a string literal.
   * A backslash that starts no escape is kept as it is, where `JSON.parse` would
   * reject the text.
   */
  function JsonUnescape(s: string): string
    decreases |s|
  {
    if s == [] then []
    else if s[0] == '\\' && |s| >= 2 && ShortEscape(s[1]).Some? then [ShortEscape(s[1]).value] + JsonUnescape(s[2..])
    else if UnicodeEscape(s).Some? then [UnicodeEscape(s).value] + JsonUnescape(s[6..])
    else [s[0]] + JsonUnescape(s[1..])
  }

  /** A control character without a short escape is read back from its `\u00XX` form. */
  lemma UnicodeEscapeOfControl(c: char, rest: string)
    requires c < ' '
    ensures var s := "\\u00" + [HexDigit(c as int / 16), HexDigit(c as int % 16)] + rest;
      UnicodeEscape(s) == Some(c) && s[6..] == rest
  {
    var s := "\\u00" + [HexDigit(c as int / 16), HexDigit(c as int % 16)] + rest;
    assert s[2] == '0' && s[3] == '0' && s[4] == HexDigit(c as int / 16) && s[5] == HexDigit(c as int % 16);
    assert s[6..] == rest;
  }

  /** Reading back one escaped character and then anything gives the character and then that thing read back. */
  lemma JsonUnescapeChar(c: char, rest: string)
    ensures JsonUnescape(JsonChar(c) + rest) == [c] + JsonUnescape(rest)
  {
    var s := JsonChar(c) + rest;
    if c >= ' ' && c != '"' && c != '\\' {
      assert s[0] == c && s[1..] == rest;
    } else if c == '"' || c == '\\' || c == '\n' || c == '\r' || c == '\t' || c as int == 8 || c as int == 12 {
      assert |JsonChar(c)| == 2;
      assert s[0] == '\\' && ShortEscape(s[1]) == Some(c) && s[2..] == rest;
    } else {
      UnicodeEscapeOfControl(c, rest);
      assert ShortEscape(s[1]).None?;
    }
  }

  /** `JSON.parse` reads back exactly what `JSON.stringify` wrote. */
  lemma {:induction false} JsonEscapeRoundTrip(s: string)
    ensures JsonUnescape(JsonEscape(s)) == s
    decreases |s|
  {
    if s != [] {
      JsonEscapeRoundTrip(s[1..]);
      JsonUnescapeChar(s[0], JsonEscape(s[1..]));
      assert s == [s[0]] + s[1..];
    }
  }

  /** Text free of quotes, backslashes and control characters is written unchanged. */
  lemma {:induction false} JsonEscapePlain(s: string)
    requires forall k | 0 <= k < |s| :: s[k] >= ' ' && s[k] != '"' && s[k] != '\\'
    ensures JsonEscape(s) == s
    decreases |s|
  {
    if s != [] {
      JsonEscapePlain(s[1..]);
      assert s == [s[0]] + s[1..];
    }
  }

  /** `JSON.stringify` of a list of ids. */
  function IdsJson(ids: seq<string>): string
  {
    "[" + Join(seq(|ids|, i requires 0 <= i < |ids| => "\"" + JsonEscape(ids[i]) + "\""), ",") + "]"
  }

  function UserRow(req: SendRequest, id: string, createdAt: string): MessageRow
  {
    MessageRow(id, req.conversationId, "user", req.message,
               if req.referencedFileIds.Some? then Some(IdsJson(req.referencedFileIds.value)) else None,
               None, None, createdAt)
  }

  function AssistantRow(req: SendRequest, reply: ChatReply, id: string, createdAt: string): MessageRow
  {
    MessageRow(id, req.conversationId, "assistant", reply.content, None, Some(reply.model), Some(reply.tokens), createdAt)
  }

  /** The LLM exchange a valid request leads to, given the store before it. */
  function Exchange(project: ProjectRow, files: seq<FileRow>, messages: seq<MessageRow>, req: SendRequest,
                    env: Env, http: HttpOutcome): (Option<Request>, ChatOutcome)
  {
    Route(ModelOrDefault(req.model),
          PromptTurns(History(messages, req.conversationId), FileContext(files, req.referencedFileIds), req.message),
          SystemPromptOf(project), env, http)
  }

  /** What the handler leaves behind: its response and the two tables it writes. */
  datatype Effect = Effect(resp: SendResponse, messages: seq<MessageRow>, conversations: map<string, Conversation>)

  /**
   * The response and the new `messages` and `conversations` tables of one
   * `/send`, given the store before it. The uuids and the three timestamps
   * taken from the clock are parameters, and so are the environment and the
   * provider's answer.
   */
  function SendEffect(projects: map<string, ProjectRow>, conversations: map<string, Conversation>,
                      files: seq<FileRow>, messages: seq<MessageRow>, req: SendRequest,
                      userMessageId: string, assistantMessageId: string,
                      userTime: string, assistantTime: string, touchTime: string,
                      env: Env, http: HttpOutcome): Effect
  {
    if MissingFields(req) then Effect(SendResponse(400, Failure("Missing required fields")), messages, conversations)
    else if req.projectId !in projects then Effect(SendResponse(404, Failure("Project not found")), messages, conversations)
    else if req.conversationId !in conversations || conversations[req.conversationId].projectId != req.projectId then
      Effect(SendResponse(404, Failure("Conversation not found")), messages, conversations)
    else
      ReplyEffect(Exchange(projects[req.projectId], files, messages, req, env, http).1, conversations, messages, req,
                  userMessageId, assistantMessageId, userTime, assistantTime, touchTime)
  }

  /** What the handler leaves behind once the model call has given its outcome. */
  function ReplyEffect(outcome: ChatOutcome, conversations: map<string, Conversation>, messages: seq<MessageRow>,
                       req: SendRequest, userMessageId: string, assistantMessageId: string,
                       userTime: string, assistantTime: string, touchTime: string): Effect
  {
    match outcome
    case Threw(m) => Effect(SendResponse(500, Failure(m)), messages, conversations)
    case ReturnedUndefined =>
      Effect(SendResponse(500, Failure(UndefinedResponseError)), messages + [UserRow(req, userMessageId, userTime)], conversations)
    case Replied(reply) =>
      Effect(SendResponse(200, Sent(userMessageId, assistantMessageId, reply.content, reply.model, reply.tokens)),
             messages + [UserRow(req, userMessageId, userTime), AssistantRow(req, reply, assistantMessageId, assistantTime)],
             conversations[req.conversationId := Conversation(req.projectId, touchTime)])
  }

  /** The `/send` handler. */
  method Send(db: Database, req: SendRequest, userMessageId: string, assistantMessageId: string,
              userTime: string, assistantTime: string, touchTime: string, env: Env, http: HttpOutcome)
    returns (resp: SendResponse)
    modifies db
    ensures db.projects == old(db.projects) && db.files == old(db.files) && db.disk == old(db.disk)
    ensures Effect(resp, db.messages, db.conversations) ==
      SendEffect(old(db.projects), old(db.conversations), old(db.files), old(db.messages), req,
                 userMessageId, assistantMessageId, userTime, assistantTime, touchTime, env, http)
  {
    var projects, conversations, files, messages := db.projects, db.conversations, db.files, db.messages;
    if MissingFields(req) {
      return SendResponse(400, Failure("Missing required fields"));
    }
    if req.projectId !in projects {
      return SendResponse(404, Failure("Project not found"));
    }
    var project := projects[req.projectId];
    if req.conversationId !in conversations || conversations[req.conversationId].projectId != req.projectId {
      return SendResponse(404, Failure("Conversation not found"));
    }

    var fileContext := FileContext(files, req.referencedFileIds);
    var messageHistory := History(messages, req.conversationId);

    var _, outcome := Chat(SystemPromptOf(project), req.message, fileContext, messageHistory,
                           ModelOrDefault(req.model), env, http);
    assert outcome == Exchange(project, files, messages, req, env, http).1;
    resp := Record(db, req, outcome, userMessageId, assistantMessageId, userTime, assistantTime, touchTime);
  }

  /** The writes and the response that follow the model call. */
  method Record(db: Database, req: SendRequest, outcome: ChatOutcome, userMessageId: string, assistantMessageId: string,
                userTime: string, assistantTime: string, touchTime: string)
    returns (resp: SendResponse)
    modifies db
    ensures db.projects == old(db.projects) && db.files == old(db.files) && db.disk == old(db.disk)
    ensures Effect(resp, db.messages, db.conversations) ==
      ReplyEffect(outcome, old(db.conversations), old(db.messages), req,
                  userMessageId, assistantMessageId, userTime, assistantTime, touchTime)
  {
    var conversations, messages := db.conversations, db.messages;
    if outcome.Threw? {
      return SendResponse(500, Failure(outcome.message));
    }

    db.messages := messages + [UserRow(req, userMessageId, userTime)];
    if outcome.ReturnedUndefined? {
      return SendResponse(500, Failure(UndefinedResponseError));
    }

    var reply := outcome.reply;
    db.messages := db.messages + [AssistantRow(req, reply, assistantMessageId, assistantTime)];
    db.conversations := conversations[req.conversationId := Conversation(req.projectId, touchTime)];
    resp := SendResponse(200, Sent(userMessageId, assistantMessageId, reply.content, reply.model, reply.tokens));
    assert db.messages == messages + [UserRow(req, userMessageId, userTime), AssistantRow(req, reply, assistantMessageId, assistantTime)];
  }

  /** A request without its three required fields is refused before any lookup, and nothing is written. */
  lemma SendValidatesFirst(projects: map<string, ProjectRow>, conversations: map<string, Conversation>,
                           files: seq<FileRow>, messages: seq<MessageRow>, req: SendRequest,
                           ids: (string, string), times: (string, string, string), env: Env, http: HttpOutcome)
    requires MissingFields(req)
    ensures SendEffect(projects, conversations, files, messages, req, ids.0, ids.1, times.0, times.1, times.2, env, http)
      == Effect(SendResponse(400, Failure("Missing required fields")), messages, conversations)
  {
  }

  /** An unknown project, or a conversation of another project, is a 404 and nothing is written. */
  lemma SendNotFound(projects: map<string, ProjectRow>, conversations: map<string, Conversation>,
                     files: seq<FileRow>, messages: seq<MessageRow>, req: SendRequest,
                     ids: (string, string), times: (string, string, string), env: Env, http: HttpOutcome)
    requires !MissingFields(req)
    requires req.projectId !in projects ||
             (req.conversationId in conversations && conversations[req.conversationId].projectId != req.projectId)
    ensures var e := SendEffect(projects, conversations, files, messages, req, ids.0, ids.1, times.0, times.1, times.2, env, http);
      e.resp.status == 404 && e.messages == messages && e.conversations == conversations
  {
  }

  /**
   * Messages are stored only after the LLM call returns: a failed call stores
   * nothing, a call that returns `undefined` stores the user turn alone (the
   * handler then fails on the missing content), and a reply stores the user
   * turn then the assistant turn and touches the conversation.
   */
  lemma SendPersistence(projects: map<string, ProjectRow>, conversations: map<string, Conversation>,
                        files: seq<FileRow>, messages: seq<MessageRow>, req: SendRequest,
                        ids: (string, string), times: (string, string, string), env: Env, http: HttpOutcome)
    ensures var e := SendEffect(projects, conversations, files, messages, req, ids.0, ids.1, times.0, times.1, times.2, env, http);
      && e.resp.status in {200, 400, 404, 500}
      && (e.messages == messages || e.messages == messages + [UserRow(req, ids.0, times.0)]
          || (e.resp.status == 200 && |e.messages| == |messages| + 2 && e.messages[..|messages| + 1] == messages + [UserRow(req, ids.0, times.0)]))
      && (e.resp.status == 200 <==> |e.messages| == |messages| + 2)
      && (e.resp.status == 200 ==>
            && e.messages[|messages| + 1].role == "assistant"
            && e.messages[|messages| + 1].content == e.resp.body.response
            && e.messages[|messages| + 1].modelUsed == Some(e.resp.body.model)
            && e.conversations.Keys == conversations.Keys
            && e.conversations[req.conversationId] == Conversation(req.projectId, times.2))
      && (e.resp.status != 200 ==> e.conversations == conversations)
    ensures var e := SendEffect(projects, conversations, files, messages, req, ids.0, ids.1, times.0, times.1, times.2, env, http);
      !MissingFields(req) && req.projectId in projects && req.conversationId in conversations
      && conversations[req.conversationId].projectId == req.projectId ==>
        var o := Exchange(projects[req.projectId], files, messages, req, env, http).1;
        && (o.Threw? ==> e.messages == messages && e.resp.status == 500)
        && (o.ReturnedUndefined? ==> e.messages == messages + [UserRow(req, ids.0, times.0)] && e.resp.status == 500)
        && (o.Replied? <==> e.resp.status == 200)
  {
    var e := SendEffect(projects, conversations, files, messages, req, ids.0, ids.1, times.0, times.1, times.2, env, http);
    var user := UserRow(req, ids.0, times.0);
    if !MissingFields(req) && req.projectId in projects && req.conversationId in conversations
       && conversations[req.conversationId].projectId == req.projectId {
      var outcome := Exchange(projects[req.projectId], files, messages, req, env, http).1;
      if outcome.Replied? {
        var assistant := AssistantRow(req, outcome.reply, ids.1, times.1);
        assert e.messages == messages + [user, assistant];
        assert (messages + [user, assistant])[..|messages| + 1] == messages + [user];
      } else if outcome.ReturnedUndefined? {
        assert e.messages == messages + [user];
      }
    }
  }

  /** The default model of a request that names none is served by OpenRouter. */
  lemma DefaultModelGoesToOpenRouter()
    ensures Dispatch(ModelOrDefault("")) == Some(OpenRouter)
  {
    HaikuDispatch();
  }

  /**
   * The user's new message is not part of the history it is sent with: the
   * history is read from the table before the send, and the new row is stored
   * after every row the history was drawn from.
   */
  lemma NewMessageNotInItsHistory(projects: map<string, ProjectRow>, conversations: map<string, Conversation>,
                                  files: seq<FileRow>, messages: seq<MessageRow>, req: SendRequest,
                                  ids: (string, string), times: (string, string, string), env: Env, http: HttpOutcome)
    requires forall m | m in messages :: m.id != ids.0
    ensures var e := SendEffect(projects, conversations, files, messages, req, ids.0, ids.1, times.0, times.1, times.2, env, http);
      var user := UserRow(req, ids.0, times.0);
      && user !in ConversationRows(messages, req.conversationId)
      && (e.messages != messages ==>
            && |e.messages| > |messages| && e.messages[..|messages|] == messages && e.messages[|messages|] == user
            && user in ConversationRows(e.messages, req.conversationId))
  {
    var e := SendEffect(projects, conversations, files, messages, req, ids.0, ids.1, times.0, times.1, times.2, env, http);
    var user := UserRow(req, ids.0, times.0);
    if e.messages != messages {
      assert e.messages == messages + [user] || exists a :: e.messages == messages + [user, a];
    }
  }
}
