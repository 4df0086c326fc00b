/** The chat endpoint (app/routers/chat.py): validate the body, pass the
    rate limit, fill gaps in the request from the caller's session, count
    the message on that session, and ask the mentor. */
module ChatRouter {
  import opened Common
  import opened Http
  import opened ChatSchemas
  import opened Session
  import RateLimiter
  import VertexAi

  /** The limit the endpoint is declared with: 10 requests a minute. */
  const ChatMaxRequests := 10
  const ChatWindowSeconds := 60
  const AiServiceError := "ai_service_error"
  const AiTrouble := "I'm having trouble connecting to the AI service. Please try again in a moment."

  /** What the mentor is told besides the question. */
  datatype MentorContext = MentorContext(code: Option<string>, problemId: Option<string>, hintLevel: int)

  /** The request's own code and problem when it sends them, the cached
      ones of the caller's session otherwise; the hint level always comes
      from the request, since the body never leaves it unset. */
  function ResolveContext(req: ChatRequest, cached: Option<CodeSession>): (c: MentorContext)
    ensures c.hintLevel == req.hintLevel
    ensures req.code.Some? ==> c.code == req.code
    ensures req.problemId.Some? ==> c.problemId == req.problemId
    ensures cached.None? ==> c.code == req.code && c.problemId == req.problemId
    ensures cached.Some? && req.code.None? ==> c.code == Some(cached.value.currentCode)
    ensures cached.Some? && req.problemId.None? ==> c.problemId == cached.value.problemId
  {
    match cached
    case None => MentorContext(req.code, req.problemId, req.hintLevel)
    case Some(s) =>
      MentorContext(Some(Prefer(req.code, s.currentCode)),
                    if req.problemId.Some? then req.problemId else s.problemId,
                    req.hintLevel)
  }

  /** A session adds nothing to a request that carries its own code and
      problem, and its cached hint level is never used. */
  lemma CompleteRequestIgnoresSession(req: ChatRequest, s: CodeSession)
    requires req.code.Some? && req.problemId.Some?
    ensures ResolveContext(req, Some(s)) == ResolveContext(req, None)
  {
  }

  /** `get_session(session_id) if session_id else None`: the session the
      header names, when it is non-empty and stored. */
  function CachedSession(sessionHeader: Option<string>, sessions: map<string, CodeSession>): (cached: Option<CodeSession>)
    ensures cached.Some? <==> sessionHeader.Some? && sessionHeader.value != "" && sessionHeader.value in sessions
    ensures cached.Some? ==> cached.value == sessions[sessionHeader.value]
  {
    if sessionHeader.Some? && sessionHeader.value != "" && sessionHeader.value in sessions
    then Some(sessions[sessionHeader.value]) else None
  }

  /** `update_session(session_id, message_count=...)`'s one assignment. */
  function CountUpdate(s: CodeSession): (us: seq<Assignment>)
    ensures AllFit(us)
    ensures ApplyAll(s, us) == s.(messageCount := s.messageCount + 1)
  {
    var us := [Assignment("message_count", Number(s.messageCount + 1))];
    assert us[1..] == [];
    us
  }

  /** Counting a message keeps a record well formed. */
  lemma CountKeepsWellFormed(id: string, s: CodeSession, now: int)
    requires WellFormed(id, s)
    ensures WellFormed(id, ApplyAll(s, CountUpdate(s)).(lastUpdated := now))
  {
  }

  /** The 500 the endpoint turns any failure of the mentor call into. */
  function AiFailure(): (e: Reply<ChatResponse>)
    ensures e.HttpException? && e.statusCode == InternalServerError
    ensures e.detail.Structured? && e.detail.body.error == AiServiceError && e.detail.body.retryAfter.None?
  {
    HttpException(InternalServerError, Structured(ErrorResponse(AiServiceError, AiTrouble)))
  }

  /** The sessions once `chat` has counted a message: the session the
      header names, if any, has one more message and a fresh
      `last_updated`. */
  function Counted(sessions: map<string, CodeSession>, sessionHeader: Option<string>, now: int): map<string, CodeSession>
  {
    var cached := CachedSession(sessionHeader, sessions);
    if cached.Some? then
      sessions[sessionHeader.value := cached.value.(messageCount := cached.value.messageCount + 1, lastUpdated := now)]
    else sessions
  }

  /** Counting touches only the session found: no id comes or goes, every
      other record is unchanged, and the one found changes only in its
      message count (one more) and its `last_updated` (now). */
  lemma CountedTouchesOnlyTheHit(sessions: map<string, CodeSession>, sessionHeader: Option<string>, now: int)
    ensures Counted(sessions, sessionHeader, now).Keys == sessions.Keys
    ensures forall id :: id in sessions && (CachedSession(sessionHeader, sessions).None? || id != sessionHeader.value) ==>
      Counted(sessions, sessionHeader, now)[id] == sessions[id]
    ensures CachedSession(sessionHeader, sessions).Some? ==>
      var before := sessions[sessionHeader.value];
      var after := Counted(sessions, sessionHeader, now)[sessionHeader.value];
      && after.messageCount == before.messageCount + 1
      && after.lastUpdated == now
      && after.(messageCount := before.messageCount, lastUpdated := before.lastUpdated) == before
  {
  }

  /** What an accepted, valid request leads to: the caller's session (if
      the header names one) counts the message whatever the mentor does,
      and the reply is `ChatReply` over the session found. */
  ghost predicate Answered(reply: Reply<ChatResponse>, req: ChatRequest, sessionHeader: Option<string>,
                           before: map<string, CodeSession>, after: map<string, CodeSession>,
                           now: int, aiReply: Option<string>)
  {
    && after == Counted(before, sessionHeader, now)
    && reply == ChatReply(req, CachedSession(sessionHeader, before), sessionHeader, aiReply)
  }

  /** Look up the caller's session and count the message on it. */
  method CountMessage(store: SessionStore, sessionHeader: Option<string>, now: int) returns (cached: Option<CodeSession>)
    modifies store
    ensures cached == CachedSession(sessionHeader, old(store.sessions))
    ensures store.sessions == Counted(old(store.sessions), sessionHeader, now)
    ensures old(store.Consistent()) ==> store.Consistent()
  {
    cached := None;
    if sessionHeader.Some? && sessionHeader.value != "" {
      cached := store.GetSession(sessionHeader.value);
    }
    if cached.Some? {
      var s := cached.value;
      ghost var wasConsistent := store.Consistent();
      if wasConsistent {
        CountKeepsWellFormed(sessionHeader.value, s, now);
      }
      var _ := store.UpdateSession(sessionHeader.value, CountUpdate(s), now);
    }
  }

  /** The reply built from the mentor's answer, or the 500 when it failed. */
  function ChatReply(req: ChatRequest, cached: Option<CodeSession>, sessionHeader: Option<string>, aiReply: Option<string>)
    : Reply<ChatResponse>
  {
    var c := ResolveContext(req, cached);
    var g := VertexAi.GenerateResponse(req.message, c.code, c.problemId, c.hintLevel, aiReply);
    if g.Failed? then AiFailure()
    else Success(ChatResponse(g.response, Some(g.tokensUsed), g.model, if cached.Some? then sessionHeader else None))
  }

  /** A mentor failure gives the 500; an answer gives a response carrying
      it, the model name, the session id when a session was found, and the
      token estimate over the prompt built from the resolved context. */
  lemma ChatReplyMeaning(req: ChatRequest, cached: Option<CodeSession>, sessionHeader: Option<string>, aiReply: Option<string>)
    ensures aiReply.None? ==> ChatReply(req, cached, sessionHeader, aiReply) == AiFailure()
    ensures aiReply.Some? ==>
      var reply := ChatReply(req, cached, sessionHeader, aiReply);
      var c := ResolveContext(req, cached);
      var prompt := VertexAi.BuildContext(req.message, c.code, c.problemId, c.hintLevel);
      && reply.Success?
      && reply.body.response == aiReply.value
      && reply.body.model == VertexAi.ModelName
      && reply.body.sessionId == (if cached.Some? then sessionHeader else None)
      && reply.body.tokensUsed.Some?
      && 4 * reply.body.tokensUsed.value <= |prompt| + |aiReply.value| < 4 * reply.body.tokensUsed.value + 4
  {
    if aiReply.Some? {
      var c := ResolveContext(req, cached);
      VertexAi.GenerateResponseTokens(req.message, c.code, c.problemId, c.hintLevel, aiReply.value);
    }
  }

  /** The body of the endpoint once validation and the rate limit passed. */
  method Answer(store: SessionStore, req: ChatRequest, sessionHeader: Option<string>, now: int, aiReply: Option<string>)
    returns (reply: Reply<ChatResponse>)
    modifies store
    ensures Answered(reply, req, sessionHeader, old(store.sessions), store.sessions, now, aiReply)
    ensures old(store.Consistent()) ==> store.Consistent()
  {
    var cached := CountMessage(store, sessionHeader, now);
    reply := ChatReply(req, cached, sessionHeader, aiReply);
  }

  /** `POST /api/chat`. The mentor's reply, or its failure (`None`), is a
      parameter; so is the time. */
  method Chat(limiter: RateLimiter.SimpleRateLimiter, store: SessionStore, request: RateLimiter.RequestInfo,
              body: ChatBody, sessionHeader: Option<string>, now: int, aiReply: Option<string>)
    returns (reply: Reply<ChatResponse>)
    modifies limiter`requests, limiter`requestCount, store
    // 422: the body is checked before anything else runs.
    ensures ParseChatRequest(body).Err? ==>
      (reply == HttpException(UnprocessableEntity, Plain(ParseChatRequest(body).field))
       && store.sessions == old(store.sessions)
       && limiter.requests == old(limiter.requests) && limiter.requestCount == old(limiter.requestCount))
    ensures ParseChatRequest(body).Ok? ==>
      var key := RateLimiter.ClientKey(request);
      var d := RateLimiter.Decide(old(limiter.Times(key)), ChatMaxRequests, ChatWindowSeconds, now);
      // The limiter records the check whether or not it lets the request through.
      && RateLimiter.Recorded(old(limiter.requests), old(limiter.requestCount), limiter.requests, limiter.requestCount,
                              limiter.cleanupThreshold, key, ChatMaxRequests, ChatWindowSeconds, now)
      // 429: the rate limit is checked next, and the sessions are not touched.
      && (!d.allowed ==>
            (reply == RateLimiter.TooManyRequestsError<ChatResponse>(
               RateLimiter.RetryDelay(old(limiter.Times(key)), ChatMaxRequests, ChatWindowSeconds, now))
             && store.sessions == old(store.sessions)))
      && (d.allowed ==>
            Answered(reply, ParseChatRequest(body).value, sessionHeader, old(store.sessions), store.sessions, now, aiReply))
    ensures old(store.Consistent()) ==> store.Consistent()
    ensures old(limiter.Valid()) ==> limiter.Valid()
    ensures old(limiter.WithinLimit(ChatMaxRequests)) ==> limiter.WithinLimit(ChatMaxRequests)
    ensures old(limiter.AllNotAfter(now)) ==> limiter.AllNotAfter(now)
  {
    var parsed := ParseChatRequest(body);
    if parsed.Err? {
      return HttpException(UnprocessableEntity, Plain(parsed.field));
    }
    var gate := RateLimiter.Guard(limiter, Some(request), ChatMaxRequests, ChatWindowSeconds, now);
    if gate.HttpException? {
      return HttpException(gate.statusCode, gate.detail);
    }
    reply := Answer(store, parsed.value, sessionHeader, now, aiReply);
  }
}
