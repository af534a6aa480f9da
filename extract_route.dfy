/**
 * app/api/extract-memory/route.ts: the order of the checks in `POST` and the
 * response each outcome maps to, over a body already read as JSON.
 */
module ExtractMemoryRoute {
  import opened Wrappers
  import opened JsonValues
  import opened Text
  import opened Types
  import opened MemoryExtractor
  import opened ExtractionPrompt

  // ===== The request schema =====

  /** One element of `messages`: a role of the enum and a string content of length at least 1. */
  function ParseMessage(j: Json): (r: Option<ChatMessage>)
    ensures r.Some? <==>
      && Member(j, "role").Some? && Member(j, "role").value.JString?
      && (Member(j, "role").value.s == "user" || Member(j, "role").value.s == "ai")
      && Member(j, "content").Some? && Member(j, "content").value.JString?
      && |Member(j, "content").value.s| >= 1
    ensures r.Some? ==>
      && RoleName(r.value.role) == Member(j, "role").value.s
      && r.value.content == Member(j, "content").value.s
  {
    match (Member(j, "role"), Member(j, "content"))
    case (Some(JString(role)), Some(JString(content))) =>
      if ParseRole(role).Some? && |content| >= 1 then Some(ChatMessage(ParseRole(role).value, content)) else None
    case _ => None
  }

  /** Every element of an array of messages, or None when one of them is malformed. */
  function ParseMessageList(items: seq<Json>): (r: Option<seq<ChatMessage>>)
    ensures r.Some? <==> forall i :: 0 <= i < |items| ==> ParseMessage(items[i]).Some?
    ensures r.Some? ==> |r.value| == |items| && forall i :: 0 <= i < |items| ==> ParseMessage(items[i]) == Some(r.value[i])
  {
    if |items| == 0 then Some([])
    else
      match (ParseMessageList(items[..|items| - 1]), ParseMessage(items[|items| - 1]))
      case (Some(init), Some(last)) =>
        assert forall i :: 0 <= i < |items| - 1 ==> items[..|items| - 1][i] == items[i];
        Some(init + [last])
      case (None, _) =>
        assert forall i :: 0 <= i < |items| - 1 ==> items[..|items| - 1][i] == items[i];
        None
      case (_, None) => None
  }

  /** `RequestSchema.safeParse(body)`: an object whose `messages` is an array of well-formed messages. */
  function ParseExtractRequest(body: Json): (r: Option<seq<ChatMessage>>)
    ensures r.Some? <==>
      && Member(body, "messages").Some? && Member(body, "messages").value.JArray?
      && forall i :: 0 <= i < |Member(body, "messages").value.items| ==> ParseMessage(Member(body, "messages").value.items[i]).Some?
    ensures r.Some? ==> var items := Member(body, "messages").value.items;
      |r.value| == |items| && forall i :: 0 <= i < |items| ==> ParseMessage(items[i]) == Some(r.value[i])
  {
    match Member(body, "messages")
    case Some(JArray(items)) => ParseMessageList(items)
    case _ => None
  }

  /** A message as the client sends it. */
  function MessageToJson(m: ChatMessage): Json {
    JObject(map["role" := JString(RoleName(m.role)), "content" := JString(m.content)])
  }

  function RequestToJson(messages: seq<ChatMessage>): Json {
    JObject(map["messages" := JArray(seq(|messages|, i requires 0 <= i < |messages| => MessageToJson(messages[i])))])
  }

  /**
   * A request of messages with non-empty contents passes the schema and gives
   * the same messages back; one empty content fails it.
   */
  lemma RequestRoundTrip(messages: seq<ChatMessage>)
    ensures (forall i :: 0 <= i < |messages| ==> messages[i].content != "") ==>
      ParseExtractRequest(RequestToJson(messages)) == Some(messages)
    ensures (exists i :: 0 <= i < |messages| && messages[i].content == "") ==>
      ParseExtractRequest(RequestToJson(messages)) == None
  {
    var items := seq(|messages|, i requires 0 <= i < |messages| => MessageToJson(messages[i]));
    assert Member(RequestToJson(messages), "messages") == Some(JArray(items));
    forall i | 0 <= i < |messages|
      ensures messages[i].content != "" ==> ParseMessage(items[i]) == Some(messages[i])
      ensures messages[i].content == "" ==> ParseMessage(items[i]) == None
    {
      MessageRoundTrip(messages[i]);
    }
    if forall i :: 0 <= i < |messages| ==> messages[i].content != "" {
      var r := ParseMessageList(items);
      assert r.Some?;
      assert r.value == messages;
    }
  }

  lemma MessageRoundTrip(m: ChatMessage)
    ensures m.content != "" ==> ParseMessage(MessageToJson(m)) == Some(m)
    ensures m.content == "" ==> ParseMessage(MessageToJson(m)) == None
  {
    var j := MessageToJson(m);
    assert Member(j, "role") == Some(JString(RoleName(m.role)));
    assert Member(j, "content") == Some(JString(m.content));
    match m.role
    case User =>
    case Ai =>
  }

  /** A role outside the enum fails the schema. */
  lemma UnknownRoleRejected(j: Json, role: string)
    requires Member(j, "role") == Some(JString(role)) && role != "user" && role != "ai"
    ensures ParseMessage(j) == None
  {
  }

  // ===== The response =====

  /** The response of `POST`: the profile with status 200, or an error with its status. */
  datatype ExtractMemoryResponse =
    | Extracted(memories: ExtractedMemory)
    | Rejected(status: nat, error: string)

  const InvalidJson: string := "Invalid JSON in request body"
  const InvalidFormat: string := "Invalid request format: "

  /**
   * `POST` once the schema has passed: `validateMessages` first, then
   * `extractMemories`. Every error `extractMemories` throws is reported with
   * status 500 under a second "Memory extraction failed: ".
   */
  function Respond(
    messages: seq<ChatMessage>,
    generateJson: (string, GenerationOptions) -> Result<Json>,
    schemaError: string): (r: ExtractMemoryResponse)
    ensures r.Extracted? ==> Validate(messages).isValid
    ensures !Validate(messages).isValid ==> r == Rejected(400, Join(WarningTexts(Validate(messages).warnings), ". "))
    ensures r.Rejected? ==> r.status == 400 || r.status == 500
    ensures r.Rejected? && r.status == 500 ==> ExtractionFailed + ExtractionFailed <= r.error
  {
    var validation := Validate(messages);
    if !validation.isValid then Rejected(400, Join(WarningTexts(validation.warnings), ". "))
    else
      match ExtractMemories(messages, generateJson, schemaError)
      case Success(memories) => Extracted(memories)
      case Failure(e) => Rejected(500, ExtractionFailed + e)
  }

  /**
   * `POST`. `body` is None when the body is not JSON (the `SyntaxError` of
   * `request.json()`); `formatError` is the schema's error message;
   * `generateJson` and `schemaError` are the model call and the schema
   * message of `extractMemories`.
   */
  function Post(
    body: Option<Json>,
    formatError: string,
    generateJson: (string, GenerationOptions) -> Result<Json>,
    schemaError: string): (r: ExtractMemoryResponse)
    ensures body.None? ==> r == Rejected(400, InvalidJson)
    ensures body.Some? && ParseExtractRequest(body.value).None? ==> r == Rejected(400, InvalidFormat + formatError)
    ensures r.Extracted? ==> body.Some? && ParseExtractRequest(body.value).Some? && Validate(ParseExtractRequest(body.value).value).isValid
    ensures r.Rejected? ==> r.status == 400 || r.status == 500
    ensures r.Rejected? && r.status == 500 ==> ExtractionFailed + ExtractionFailed <= r.error
  {
    match body
    case None => Rejected(400, InvalidJson)
    case Some(j) =>
      match ParseExtractRequest(j)
      case None => Rejected(400, InvalidFormat + formatError)
      case Some(messages) => Respond(messages, generateJson, schemaError)
  }

  /**
   * The model is asked only after the three gates pass: when the body is not
   * JSON, fails the schema or fails `validateMessages`, the response does not
   * depend on the model.
   */
  lemma GatesPrecedeExtraction(
    body: Option<Json>,
    formatError: string,
    g1: (string, GenerationOptions) -> Result<Json>,
    g2: (string, GenerationOptions) -> Result<Json>,
    schemaError: string)
    requires || body.None?
             || ParseExtractRequest(body.value).None?
             || !Validate(ParseExtractRequest(body.value).value).isValid
    ensures Post(body, formatError, g1, schemaError) == Post(body, formatError, g2, schemaError)
    ensures Post(body, formatError, g1, schemaError).Rejected?
    ensures Post(body, formatError, g1, schemaError).status == 400
  {
  }

  /** An empty list passes the schema and is rejected with exactly one message. */
  lemma EmptyListRejected(
    formatError: string,
    generateJson: (string, GenerationOptions) -> Result<Json>,
    schemaError: string)
    ensures Post(Some(RequestToJson([])), formatError, generateJson, schemaError)
      == Rejected(400, "No messages found in the conversation")
  {
    var body := RequestToJson([]);
    RequestRoundTrip([]);
    assert Post(Some(body), formatError, generateJson, schemaError) == Respond([], generateJson, schemaError);
    EmptyConversationRejected(generateJson, schemaError);
  }

  lemma EmptyConversationRejected(generateJson: (string, GenerationOptions) -> Result<Json>, schemaError: string)
    ensures Respond([], generateJson, schemaError) == Rejected(400, "No messages found in the conversation")
  {
    assert Validate([]).warnings == [NoMessages];
    OneWarning(NoMessages);
  }

  /** A conversation without user messages is rejected with exactly one message, whatever its length. */
  lemma NoUserMessagesRejected(
    messages: seq<ChatMessage>,
    formatError: string,
    generateJson: (string, GenerationOptions) -> Result<Json>,
    schemaError: string)
    requires |messages| > 0 && forall i :: 0 <= i < |messages| ==> messages[i].role == Ai && messages[i].content != ""
    ensures Post(Some(RequestToJson(messages)), formatError, generateJson, schemaError)
      == Rejected(400, "No user messages found in the conversation")
  {
    var body := RequestToJson(messages);
    RequestRoundTrip(messages);
    assert ParseExtractRequest(body) == Some(messages);
    assert Post(Some(body), formatError, generateJson, schemaError) == Respond(messages, generateJson, schemaError);
    assert forall i :: 0 <= i < |messages| ==> messages[i].role != User;
    NoRoleCount(messages, User);
    assert Validate(messages).warnings == [NoUserMessages];
    OneWarning(NoUserMessages);
    assert Post(Some(body), formatError, generateJson, schemaError) == Rejected(400, WarningText(NoUserMessages));
    NoUserText();
  }

  lemma NoUserText()
    ensures WarningText(NoUserMessages) == "No user messages found in the conversation"
  {
  }

  /** A single warning is reported as its text alone. */
  lemma OneWarning(w: Warning)
    ensures Join(WarningTexts([w]), ". ") == WarningText(w)
  {
    assert WarningTexts([w]) == [WarningText(w)];
  }

  /**
   * Warnings do not block: a request that passes `validateMessages`, with any
   * warnings, gets the profile the model describes.
   */
  lemma WarningsDoNotBlock(
    body: Json,
    formatError: string,
    generateJson: (string, GenerationOptions) -> Result<Json>,
    schemaError: string,
    j: Json,
    m: ExtractedMemory)
    requires ParseExtractRequest(body).Some?
    requires Validate(ParseExtractRequest(body).value).isValid
    requires generateJson(CreateMemoryExtractionPrompt(ParseExtractRequest(body).value), ExtractionOptions)
      == Success(j)
    requires Describes(j, m)
    ensures Post(Some(body), formatError, generateJson, schemaError) == Extracted(m)
  {
    ExtractMemoriesAccepts(ParseExtractRequest(body).value, generateJson, schemaError, j, m);
  }
}
