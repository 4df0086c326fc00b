/** The pydantic models of the chat endpoint (app/schemas/chat.py): the
    request body with its length and range constraints and defaults, the
    response body with its defaults, and the error body. Each model is a
    datatype plus the validating constructor pydantic runs on raw fields. */
module ChatSchemas {
  import opened Common

  const MaxMessageLength := 1000
  const MaxCodeLength := 10000
  const MaxProblemIdLength := 100
  const MaxHintLevel := 3
  const DefaultLanguage := "python"
  const DefaultModel := "gemini-pro"

  /** Body of POST /api/chat once validated. */
  datatype ChatRequest = ChatRequest(
    message: string,
    code: Option<string> := None,
    problemId: Option<string> := None,
    language: string := DefaultLanguage,
    hintLevel: int := 0)

  /** Body of POST /api/chat as it arrives. */
  datatype ChatBody = ChatBody(
    message: Field<string>,
    code: Field<string> := Missing,
    problemId: Field<string> := Missing,
    language: Field<string> := Missing,
    hintLevel: Field<int> := Missing)

  /** The constraints `ChatRequest` declares on its fields. */
  predicate ValidChatRequest(r: ChatRequest)
  {
    && 1 <= |r.message| <= MaxMessageLength
    && (r.code.Some? ==> |r.code.value| <= MaxCodeLength)
    && (r.problemId.Some? ==> |r.problemId.value| <= MaxProblemIdLength)
    && 0 <= r.hintLevel <= MaxHintLevel
  }

  /** What pydantic does with a chat body: check each field in declaration
      order, fill in the defaults. */
  function ParseChatRequest(b: ChatBody): (r: Result<ChatRequest>)
    ensures r.Ok? <==>
      && b.message.Given? && 1 <= |b.message.value| <= MaxMessageLength
      && (b.code.Given? ==> |b.code.value| <= MaxCodeLength)
      && (b.problemId.Given? ==> |b.problemId.value| <= MaxProblemIdLength)
      && !b.language.Null?
      && (b.hintLevel.Missing? || (b.hintLevel.Given? && 0 <= b.hintLevel.value <= MaxHintLevel))
    ensures r.Ok? ==> ValidChatRequest(r.value)
    ensures r.Ok? ==> r.value.message == b.message.value
  {
    var message :- RequiredText(b.message, "message", 1, MaxMessageLength);
    var code :- OptionalText(b.code, "code", MaxCodeLength);
    var problemId :- OptionalText(b.problemId, "problem_id", MaxProblemIdLength);
    var language :- TextWithDefault(b.language, "language", DefaultLanguage);
    var hintLevel :- BoundedInt(b.hintLevel, "hint_level", 0, 0, MaxHintLevel);
    Ok(ChatRequest(message, code, problemId, language, hintLevel))
  }

  /** The body a client sends for a given request: every field present,
      `null` standing for `None`. */
  function ChatBodyOf(r: ChatRequest): ChatBody
  {
    ChatBody(Given(r.message), FieldOf(r.code), FieldOf(r.problemId), Given(r.language), Given(r.hintLevel))
  }

  /** A request survives the trip through its body exactly when it meets
      the declared constraints. */
  lemma ChatRequestRoundTrip(r: ChatRequest)
    ensures ParseChatRequest(ChatBodyOf(r)) == Ok(r) <==> ValidChatRequest(r)
  {
  }

  /** Leaving out every optional field gives the declared defaults. */
  lemma ChatRequestDefaults(m: string)
    requires 1 <= |m| <= MaxMessageLength
    ensures ParseChatRequest(ChatBody(Given(m))) == Ok(ChatRequest(m, None, None, "python", 0))
  {
  }

  /** Body of a successful chat reply. */
  datatype ChatResponse = ChatResponse(
    response: string,
    tokensUsed: Option<int> := None,
    model: string := DefaultModel,
    sessionId: Option<string> := None)

  /** Constructing `ChatResponse(...)` from keyword arguments. */
  function NewChatResponse(
    response: Field<string>,
    tokensUsed: Field<int> := Missing,
    model: Field<string> := Missing,
    sessionId: Field<string> := Missing): (r: Result<ChatResponse>)
    ensures r.Ok? <==> response.Given? && !model.Null?
  {
    var text :- RequiredString(response, "response");
    var modelName :- TextWithDefault(model, "model", DefaultModel);
    Ok(ChatResponse(text, OptionalValue(tokensUsed), modelName, OptionalValue(sessionId)))
  }

  lemma ChatResponseRoundTrip(c: ChatResponse)
    ensures NewChatResponse(Given(c.response), FieldOf(c.tokensUsed), Given(c.model), FieldOf(c.sessionId)) == Ok(c)
  {
  }

  lemma ChatResponseDefaults(text: string)
    ensures NewChatResponse(Given(text)) == Ok(ChatResponse(text, None, "gemini-pro", None))
  {
  }

  /** Body of an error reply (429 and 500 of the chat endpoint). */
  datatype ErrorResponse = ErrorResponse(error: string, message: string, retryAfter: Option<int> := None)

  function NewErrorResponse(error: Field<string>, message: Field<string>, retryAfter: Field<int> := Missing): (r: Result<ErrorResponse>)
    ensures r.Ok? <==> error.Given? && message.Given?
  {
    var e :- RequiredString(error, "error");
    var m :- RequiredString(message, "message");
    Ok(ErrorResponse(e, m, OptionalValue(retryAfter)))
  }

  lemma ErrorResponseRoundTrip(e: ErrorResponse)
    ensures NewErrorResponse(Given(e.error), Given(e.message), FieldOf(e.retryAfter)) == Ok(e)
  {
  }
}
