/**
 * app/api/generate-response/route.ts: the request schema, the query check and
 * the dispatch of `POST` to all personas, to one persona, or to an error, over
 * a body already read as JSON.
 */
module GenerateResponseRoute {
  import opened Wrappers
  import opened JsonValues
  import opened Text
  import opened Types
  import opened Personalities
  import opened PersonalityEngine

  // ===== The request schema =====

  /** A request that passed the schema; the two optional fields are None when absent. */
  datatype GenerateRequest = GenerateRequest(
    query: string,
    memories: ExtractedMemory,
    personality: Option<PersonalityType>,
    generateAll: Option<bool>)

  /** `z.string().min(5).max(500)`: the length of the query as sent, untrimmed. */
  predicate QueryInRange(query: string) {
    5 <= |query| <= 500
  }

  /** `personality`: absent, or one of the three ids; None when present and anything else. */
  function ParsePersonalityField(field: Option<Json>): Option<Option<PersonalityType>> {
    match field
    case None => Some(None)
    case Some(JString(s)) => if ParsePersonalityType(s).Some? then Some(ParsePersonalityType(s)) else None
    case Some(_) => None
  }

  /** `generateAll`: absent, or a boolean; None when present and anything else. */
  function ParseGenerateAllField(field: Option<Json>): Option<Option<bool>> {
    match field
    case None => Some(None)
    case Some(JBool(b)) => Some(Some(b))
    case Some(_) => None
  }

  /** `RequestSchema.safeParse(body)`: all four fields must pass. */
  function ParseGenerateRequest(body: Json): (r: Option<GenerateRequest>)
    ensures r.Some? ==> QueryInRange(r.value.query)
    ensures r.Some? <==>
      && Member(body, "query").Some? && Member(body, "query").value.JString?
      && QueryInRange(Member(body, "query").value.s)
      && Member(body, "memories").Some? && ParseExtractedMemory(Member(body, "memories").value).Some?
      && ParsePersonalityField(Member(body, "personality")).Some?
      && ParseGenerateAllField(Member(body, "generateAll")).Some?
    ensures r.Some? ==>
      && r.value.query == Member(body, "query").value.s
      && ParseExtractedMemory(Member(body, "memories").value) == Some(r.value.memories)
      && ParsePersonalityField(Member(body, "personality")) == Some(r.value.personality)
      && ParseGenerateAllField(Member(body, "generateAll")) == Some(r.value.generateAll)
  {
    match (Member(body, "query"), Member(body, "memories"))
    case (Some(JString(query)), Some(memories)) =>
      if QueryInRange(query) && ParseExtractedMemory(memories).Some?
         && ParsePersonalityField(Member(body, "personality")).Some?
         && ParseGenerateAllField(Member(body, "generateAll")).Some?
      then
        Some(GenerateRequest(query, ParseExtractedMemory(memories).value,
          ParsePersonalityField(Member(body, "personality")).value,
          ParseGenerateAllField(Member(body, "generateAll")).value))
      else None
    case _ => None
  }

  /** Optional means absent, not null: a `personality` or `generateAll` of null fails the schema. */
  lemma NullOptionalRejected(body: Json)
    requires Member(body, "personality") == Some(JNull) || Member(body, "generateAll") == Some(JNull)
    ensures ParseGenerateRequest(body) == None
  {
  }

  // ===== The response =====

  /** The response of `POST`: all replies or one reply with status 200, or an error with its status. */
  datatype GenerateResponseResult =
    | AllResponses(responses: seq<PersonalityResponse>)
    | SingleResponse(response: string, memoryReferences: seq<string>)
    | Rejected(status: nat, error: string)

  const InvalidJson: string := "Invalid JSON in request body"
  const InvalidFormat: string := "Invalid request format: "
  // Split after "Must " so that the first characters, which tell this message
  // from the query messages, can be read off without unfolding the whole literal.
  const MustSpecify: string := "Must " + "specify either 'personality' or 'generateAll: true'"
  const ResponseFailed: string := "Response generation failed: "

  /** The `generateAll` branch: all three replies, or a 500 with the failure. */
  function RespondAll(request: GenerateRequest, generate: (string, GenerationOptions) -> Result<string>)
    : (r: GenerateResponseResult)
    ensures r.AllResponses? || (r.Rejected? && r.status == 500 && ResponseFailed <= r.error)
    ensures r.AllResponses? ==> |r.responses| == 3
  {
    match GenerateAllPersonalityResponses(request.query, request.memories, generate)
    case Success(responses) => AllResponses(responses)
    case Failure(e) => Rejected(500, ResponseFailed + e)
  }

  /** The `personality` branch: that persona's trimmed reply and references, or a 500 with the failure. */
  function RespondOne(request: GenerateRequest, t: PersonalityType, generate: (string, GenerationOptions) -> Result<string>)
    : (r: GenerateResponseResult)
    ensures r.SingleResponse? || (r.Rejected? && r.status == 500 && ResponseFailed <= r.error)
    ensures r.SingleResponse? ==> IsTrimmed(r.response)
  {
    match GeneratePersonalityResponse(t, request.query, request.memories, generate)
    case Success(result) => SingleResponse(result.response, result.memoryReferences)
    case Failure(e) => Rejected(500, ResponseFailed + e)
  }

  /** The dispatch on a valid query: `generateAll`, then `personality`, then neither. */
  function Route(request: GenerateRequest, generate: (string, GenerationOptions) -> Result<string>)
    : (r: GenerateResponseResult)
    ensures r.AllResponses? ==> request.generateAll == Some(true) && |r.responses| == 3
    ensures r.SingleResponse? ==> request.generateAll != Some(true) && request.personality.Some? && IsTrimmed(r.response)
    ensures r.Rejected? ==> r.status == 400 || r.status == 500
    ensures r.Rejected? && r.status == 400 ==> r.error == MustSpecify
    ensures r.Rejected? && r.status == 500 ==> ResponseFailed <= r.error
  {
    if request.generateAll == Some(true) then RespondAll(request, generate)
    else if request.personality.Some? then RespondOne(request, request.personality.value, generate)
    else Rejected(400, MustSpecify)
  }

  /** `POST` once the schema has passed: `validateQuery` first, then the dispatch. */
  function Dispatch(request: GenerateRequest, generate: (string, GenerationOptions) -> Result<string>)
    : (r: GenerateResponseResult)
    ensures !ValidateQuery(request.query).isValid ==> r == Rejected(400, QueryErrorText(ValidateQuery(request.query).error.value))
    ensures ValidateQuery(request.query).isValid ==> r == Route(request, generate)
  {
    var check := ValidateQuery(request.query);
    if !check.isValid then Rejected(400, QueryErrorText(check.error.value))
    else Route(request, generate)
  }

  /**
   * `POST`. `body` is None when the body is not JSON (the `SyntaxError` of
   * `request.json()`); `formatError` is the schema's error message; `generate`
   * is the model call.
   */
  function Post(
    body: Option<Json>,
    formatError: string,
    generate: (string, GenerationOptions) -> Result<string>): (r: GenerateResponseResult)
    ensures body.None? ==> r == Rejected(400, InvalidJson)
    ensures body.Some? && ParseGenerateRequest(body.value).None? ==> r == Rejected(400, InvalidFormat + formatError)
    ensures !r.Rejected? ==> body.Some? && ParseGenerateRequest(body.value).Some?
    ensures r.Rejected? ==> r.status == 400 || r.status == 500
  {
    match body
    case None => Rejected(400, InvalidJson)
    case Some(j) =>
      match ParseGenerateRequest(j)
      case None => Rejected(400, InvalidFormat + formatError)
      case Some(request) => Dispatch(request, generate)
  }

  /**
   * The model is asked only after the gates pass: when the body is not JSON,
   * fails the schema or fails `validateQuery`, the response is a 400 that does
   * not depend on the model.
   */
  lemma GatesPrecedeGeneration(
    body: Option<Json>,
    formatError: string,
    g1: (string, GenerationOptions) -> Result<string>,
    g2: (string, GenerationOptions) -> Result<string>)
    requires || body.None?
             || ParseGenerateRequest(body.value).None?
             || !ValidateQuery(ParseGenerateRequest(body.value).value.query).isValid
    ensures Post(body, formatError, g1) == Post(body, formatError, g2)
    ensures Post(body, formatError, g1).Rejected? && Post(body, formatError, g1).status == 400
  {
  }

  /**
   * The schema counts the query as sent and `validateQuery` the trimmed query:
   * six spaces pass the schema and are then rejected as empty.
   */
  lemma SpacesQueryRejected(request: GenerateRequest, generate: (string, GenerationOptions) -> Result<string>)
    requires request.query == "      "
    ensures QueryInRange(request.query)
    ensures Dispatch(request, generate) == Rejected(400, QueryErrorText(EmptyQuery))
  {
    assert forall i :: 0 <= i < |request.query| ==> IsSpace(request.query[i]);
    assert ValidateQuery(request.query).error == Some(EmptyQuery);
  }

  /** A body whose query is six spaces, and which otherwise passes the schema, gets that 400 from `POST`. */
  lemma SpacesBodyRejected(body: Json, formatError: string, generate: (string, GenerationOptions) -> Result<string>)
    requires Member(body, "query") == Some(JString("      "))
    requires ParseGenerateRequest(body).Some?
    ensures Post(Some(body), formatError, generate) == Rejected(400, QueryErrorText(EmptyQuery))
  {
    SpacesQueryRejected(ParseGenerateRequest(body).value, generate);
  }

  /** "a" followed by four spaces passes the schema and is rejected as too short. */
  lemma PaddedQueryTooShort(request: GenerateRequest, generate: (string, GenerationOptions) -> Result<string>)
    requires request.query == "a    "
    ensures QueryInRange(request.query)
    ensures Dispatch(request, generate) == Rejected(400, QueryErrorText(ShortQuery))
  {
    TrimPadded();
    assert ValidateQuery(request.query).error == Some(ShortQuery);
  }

  lemma TrimPadded()
    ensures Trim("a    ") == "a"
  {
    var s := "a    ";
    assert !IsSpace(s[0]) && forall i :: 1 <= i < 5 ==> s[i] == ' ';
    assert TrimStart(s) == s;
    var r := TrimEnd(s);
    assert |r| == 1 && r == s[..1];
  }

  /** The schema caps the query at 500 characters, so the "too long" message of `validateQuery` is never sent. */
  lemma TooLongNeverSent(body: Option<Json>, formatError: string, generate: (string, GenerationOptions) -> Result<string>)
    ensures Post(body, formatError, generate) != Rejected(400, QueryErrorText(LongQuery))
  {
    var long := QueryErrorText(LongQuery);
    assert long[0] == 'Q';
    var r := Post(body, formatError, generate);
    if body.None? {
      assert r.error[0] == 'I';
    } else if ParseGenerateRequest(body.value).None? {
      assert r.error == InvalidFormat + formatError;
      assert r.error[0] == 'I';
    } else {
      var request := ParseGenerateRequest(body.value).value;
      assert r == Dispatch(request, generate);
      var check := ValidateQuery(request.query);
      if !check.isValid {
        assert check.error.value != LongQuery;
        if r.error == long {
          QueryErrorTextInjective(check.error.value, LongQuery);
        }
      } else {
        assert r == Route(request, generate);
        assert MustSpecify[0] == 'M';
      }
    }
  }

  /** `generateAll: true` wins over any `personality`, and sends the three replies when all succeed. */
  lemma GenerateAllTakesPrecedence(
    request: GenerateRequest,
    other: Option<PersonalityType>,
    generate: (string, GenerationOptions) -> Result<string>)
    requires request.generateAll == Some(true)
    ensures Dispatch(request, generate) == Dispatch(request.(personality := other), generate)
    ensures var all := GenerateAllPersonalityResponses(request.query, request.memories, generate);
      ValidateQuery(request.query).isValid && all.Success? ==> Dispatch(request, generate) == AllResponses(all.value)
  {
    var request' := request.(personality := other);
    assert request'.query == request.query;
    if ValidateQuery(request.query).isValid {
      assert Dispatch(request, generate) == RespondAll(request, generate);
      assert Dispatch(request', generate) == RespondAll(request', generate);
    }
  }

  /**
   * With a persona and without `generateAll: true`, the response carries that
   * persona's trimmed reply and its references.
   */
  lemma SinglePersonaReply(
    request: GenerateRequest,
    t: PersonalityType,
    generate: (string, GenerationOptions) -> Result<string>,
    text: string)
    requires ValidateQuery(request.query).isValid
    requires request.generateAll != Some(true) && request.personality == Some(t)
    requires generate(CreatePersonalityPrompt(t, request.query, request.memories), ResponseOptions(t)) == Success(text)
    ensures Dispatch(request, generate) == SingleResponse(Trim(text), MemoryReferences(text, request.memories))
  {
  }

  /** Without `generateAll: true` and without a persona the request is rejected; `generateAll: false` counts as absent. */
  lemma NeitherRejected(request: GenerateRequest, generate: (string, GenerationOptions) -> Result<string>)
    requires ValidateQuery(request.query).isValid
    requires request.generateAll != Some(true) && request.personality.None?
    ensures Dispatch(request, generate) == Rejected(400, MustSpecify)
  {
  }
}
