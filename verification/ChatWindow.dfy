/**
 * The chat window: which uploaded files are attached to the next message,
 * and how sending appends the user's message and then exactly one reply.
 */
module ChatWindow {
  import opened Wrappers
  import opened Strings
  import opened Records
  import opened Sequences
  import LlmService

  // ---------------------------------------------------------------------------
  // Attachments
  // ---------------------------------------------------------------------------

  /** `ids.filter(y => y !== x)`. */
  function Without(ids: seq<string>, x: string): (r: seq<string>)
    ensures |r| <= |ids|
    ensures forall y | y in r :: y in ids && y != x
    ensures forall y | y in ids && y != x :: y in r
    decreases |ids|
  {
    if ids == [] then [] else (if ids[0] == x then [] else [ids[0]]) + Without(ids[1..], x)
  }

  lemma {:induction false} WithoutAppend(a: seq<string>, b: seq<string>, x: string)
    ensures Without(a + b, x) == Without(a, x) + Without(b, x)
    decreases |a|
  {
    if a == [] {
      assert a + b == b;
    } else {
      assert (a + b)[0] == a[0];
      assert (a + b)[1..] == a[1..] + b;
      WithoutAppend(a[1..], b, x);
    }
  }

  /** Removing an id that is not there changes nothing. */
  lemma {:induction false} WithoutAbsent(ids: seq<string>, x: string)
    requires x !in ids
    ensures Without(ids, x) == ids
    decreases |ids|
  {
    if ids != [] {
      assert x !in ids[1..];
      WithoutAbsent(ids[1..], x);
      assert ids == [ids[0]] + ids[1..];
    }
  }

  /** The attach button: a selected id is removed, every copy of it; another is appended. */
  function Toggle(selected: seq<string>, id: string): (r: seq<string>)
    ensures id in selected ==> id !in r && forall y | y in selected && y != id :: y in r
    ensures id in selected ==> |r| < |selected|
    ensures id !in selected ==> r == selected + [id]
  {
    if id in selected then
      var r := Without(selected, id);
      assert |r| < |selected| by {
        WithoutShorter(selected, id);
      }
      r
    else selected + [id]
  }

  lemma {:induction false} WithoutShorter(ids: seq<string>, x: string)
    requires x in ids
    ensures |Without(ids, x)| < |ids|
    decreases |ids|
  {
    if ids[0] != x {
      WithoutShorter(ids[1..], x);
    }
  }

  /** Toggling an unselected id twice restores the selection. */
  lemma ToggleTwiceRestores(selected: seq<string>, id: string)
    requires id !in selected
    ensures Toggle(Toggle(selected, id), id) == selected
  {
    WithoutAppend(selected, [id], id);
    WithoutAbsent(selected, id);
    assert Without([id], id) == [];
  }

  /** `files.filter(f => selected.includes(f.id)).map(f => f.id)`. */
  function SelectedFileIds(files: seq<Record>, selected: seq<string>): (r: seq<string>)
    ensures |r| <= |files|
    ensures forall x | x in r :: x in selected
    ensures forall i | 0 <= i < |files| && files[i].id in selected :: files[i].id in r
    decreases |files|
  {
    if files == [] then []
    else
      var rest := SelectedFileIds(files[1..], selected);
      assert forall i | 1 <= i < |files| :: files[i] == files[1..][i - 1];
      (if files[0].id in selected then [files[0].id] else []) + rest
  }

  /**
   * The ids sent are the file ids kept by the selection, in the order of
   * `files`: selected ids that name no file are dropped, and the order in
   * which files were attached does not matter.
   */
  lemma {:induction false} SelectedFileIdsKeepsFileOrder(files: seq<Record>, selected: seq<string>)
    ensures SelectedFileIds(files, selected) == Keep(Ids(files), set x | x in selected)
    decreases |files|
  {
    if files != [] {
      assert Ids(files)[1..] == Ids(files[1..]);
      assert Ids(files)[0] == files[0].id;
      SelectedFileIdsKeepsFileOrder(files[1..], selected);
    }
  }

  // ---------------------------------------------------------------------------
  // Sending
  // ---------------------------------------------------------------------------

  datatype Role = User | Assistant

  /** A message's key: a local clock value, or the id the server assigned. */
  datatype MessageId = Local(ms: nat) | Server(id: string)

  datatype ChatMessage = ChatMessage(id: MessageId, role: Role, content: string, createdAt: string)

  /** The conversation shown: its id and its project's id. */
  datatype Conversation = Conversation(id: string, projectId: string)

  /** The body posted to the chat endpoint. */
  datatype SendRequest = SendRequest(
    conversationId: string,
    projectId: string,
    message: string,
    referencedFileIds: seq<string>,
    model: string)

  /** A successful reply: the stored assistant message's id and its text. */
  datatype Reply = Reply(assistantMessageId: string, response: string)

  /** The clock reads: when the user's message is added, and when the reply or failure is. */
  datatype Clock = Clock(sentMs: nat, sentIso: string, doneMs: nat, doneIso: string)

  const FailureText := "\U{274C} Failed to send message. Make sure backend is running on port 3001."

  /**
   * The assistant message appended once the request settles: the server's
   * reply under its id, or the failure notice under the clock value plus one.
   */
  function AssistantMessage(outcome: Option<Reply>, clock: Clock): (m: ChatMessage)
    ensures m.role == Assistant && m.createdAt == clock.doneIso
    ensures outcome.Some? ==> m.id == Server(outcome.value.assistantMessageId) && m.content == outcome.value.response
    ensures outcome.None? ==> m.id == Local(clock.doneMs + 1) && m.content == FailureText
  {
    match outcome
    case Some(r) => ChatMessage(Server(r.assistantMessageId), Assistant, r.response, clock.doneIso)
    case None => ChatMessage(Local(clock.doneMs + 1), Assistant, FailureText, clock.doneIso)
  }

  class Chat {
    var messages: seq<ChatMessage>
    /** The text in the input box. */
    var newMessage: string
    var loading: bool
    var selectedModel: string
    var selectedFiles: seq<string>

    constructor ()
      ensures messages == [] && newMessage == "" && !loading && selectedFiles == []
      ensures selectedModel == LlmService.HaikuId
    {
      messages := [];
      newMessage := "";
      loading := false;
      selectedModel := LlmService.HaikuId;
      selectedFiles := [];
    }

    method Type(text: string)
      modifies this
      ensures newMessage == text
      ensures messages == old(messages) && loading == old(loading)
      ensures selectedModel == old(selectedModel) && selectedFiles == old(selectedFiles)
    {
      newMessage := text;
    }

    method ToggleFile(id: string)
      modifies this
      ensures selectedFiles == Toggle(old(selectedFiles), id)
      ensures messages == old(messages) && newMessage == old(newMessage) && loading == old(loading)
      ensures selectedModel == old(selectedModel)
    {
      selectedFiles := Toggle(selectedFiles, id);
    }

    /**
     * `handleSendMessage`. `outcome` is the server's reply, `None` when the
     * request fails. `request` is what was posted and `pending` the message
     * list while the request was in flight.
     */
    method Send(conversation: Conversation, files: seq<Record>, clock: Clock, outcome: Option<Reply>)
      returns (request: Option<SendRequest>, pending: seq<ChatMessage>)
      modifies this
      ensures selectedModel == old(selectedModel) && selectedFiles == old(selectedFiles)
      ensures Trim(old(newMessage)) == "" ==>
        && request == None && pending == old(messages)
        && messages == old(messages) && newMessage == old(newMessage) && loading == old(loading)
      ensures Trim(old(newMessage)) != "" ==>
        && request == Some(SendRequest(conversation.id, conversation.projectId, old(newMessage),
                                       SelectedFileIds(files, selectedFiles), selectedModel))
        && newMessage == "" && !loading
        && pending == old(messages) + [ChatMessage(Local(clock.sentMs), User, old(newMessage), clock.sentIso)]
        && messages == pending + [AssistantMessage(outcome, clock)]
    {
      if Trim(newMessage) == "" {
        return None, messages;
      }
      var posted;
      posted, pending := Post(conversation, files, clock, outcome);
      request := Some(posted);
    }

    /** The part of `handleSendMessage` after the blank check: post, then append the user and assistant messages. */
    method Post(conversation: Conversation, files: seq<Record>, clock: Clock, outcome: Option<Reply>)
      returns (request: SendRequest, pending: seq<ChatMessage>)
      modifies this
      ensures selectedModel == old(selectedModel) && selectedFiles == old(selectedFiles)
      ensures request == SendRequest(conversation.id, conversation.projectId, old(newMessage),
                                     SelectedFileIds(files, selectedFiles), selectedModel)
      ensures newMessage == "" && !loading
      ensures pending == old(messages) + [ChatMessage(Local(clock.sentMs), User, old(newMessage), clock.sentIso)]
      ensures messages == pending + [AssistantMessage(outcome, clock)]
    {
      var userMessage := newMessage;
      newMessage := "";
      var ids := SelectedFileIds(files, selectedFiles);
      pending := messages + [ChatMessage(Local(clock.sentMs), User, userMessage, clock.sentIso)];
      messages := pending;
      loading := true;
      request := SendRequest(conversation.id, conversation.projectId, userMessage, ids, selectedModel);
      messages := pending + [AssistantMessage(outcome, clock)];
      loading := false;
    }
  }
}
