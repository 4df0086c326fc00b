/** The context endpoints (app/routers/context.py): background sync of the
    editor state into a session, deletion, statistics, cleanup, and
    appending a conversation message. Handlers take the shared store; the
    `X-Session-ID` header is a string ("" when absent), and the fresh
    UUID and the clock are parameters. */
module ContextRouter {
  import opened Common
  import opened Session
  import opened Http

  const MaxSyncCodeLength := 10000
  const MaxContentLength := 5000
  const SyncedMessage := "Context synchronized successfully"
  const HeaderRequired := "X-Session-ID header required"
  const SessionNotFound := "Session not found"
  const SessionDeleted := "Session deleted"

  // -----------------------------------------------------------------------
  // Request bodies

  datatype SyncBody = SyncBody(
    code: Field<string> := Missing,
    problemId: Field<string> := Missing,
    problemTitle: Field<string> := Missing,
    language: Field<string> := Missing,
    hintLevel: Field<int> := Missing)

  /** `ContextSyncRequest` once validated. */
  datatype SyncRequest = SyncRequest(
    code: Option<string>,
    problemId: Option<string>,
    problemTitle: Option<string>,
    language: string,
    hintLevel: int)

  predicate ValidSyncRequest(r: SyncRequest)
  {
    && (r.code.Some? ==> |r.code.value| <= MaxSyncCodeLength)
    && 0 <= r.hintLevel <= MaxHintLevel
  }

  function ParseSyncRequest(b: SyncBody): (r: Result<SyncRequest>)
    ensures r.Ok? <==>
      && (b.code.Given? ==> |b.code.value| <= MaxSyncCodeLength)
      && !b.language.Null?
      && (b.hintLevel.Missing? || (b.hintLevel.Given? && 0 <= b.hintLevel.value <= MaxHintLevel))
    ensures r.Ok? ==> ValidSyncRequest(r.value)
  {
    var code :- OptionalText(b.code, "code", MaxSyncCodeLength);
    var language :- TextWithDefault(b.language, "language", "python");
    var hintLevel :- BoundedInt(b.hintLevel, "hint_level", 0, 0, MaxHintLevel);
    Ok(SyncRequest(code, OptionalValue(b.problemId), OptionalValue(b.problemTitle), language, hintLevel))
  }

  function SyncBodyOf(r: SyncRequest): SyncBody
  {
    SyncBody(FieldOf(r.code), FieldOf(r.problemId), FieldOf(r.problemTitle), Given(r.language), Given(r.hintLevel))
  }

  lemma SyncRequestRoundTrip(r: SyncRequest)
    ensures ParseSyncRequest(SyncBodyOf(r)) == Ok(r) <==> ValidSyncRequest(r)
  {
  }

  datatype SyncResponse = SyncResponse(sessionId: string, synced: bool, message: string)

  datatype MessageBody = MessageBody(role: Field<string>, content: Field<string>)

  /** `ConversationMessageRequest` once validated. */
  datatype MessageRequest = MessageRequest(role: string, content: string)

  /** The role pattern `^(user|assistant)$`. */
  predicate IsRole(role: string)
  {
    role == "user" || role == "assistant"
  }

  function ParseMessageRequest(b: MessageBody): (r: Result<MessageRequest>)
    ensures r.Ok? <==>
      b.role.Given? && IsRole(b.role.value) && b.content.Given? && 1 <= |b.content.value| <= MaxContentLength
    ensures r.Ok? ==> r.value == MessageRequest(b.role.value, b.content.value)
  {
    var role :- RequiredString(b.role, "role");
    var role' :- if IsRole(role) then Ok(role) else Err("role");
    var content :- RequiredText(b.content, "content", 1, MaxContentLength);
    Ok(MessageRequest(role', content))
  }

  datatype MessageAdded = MessageAdded(success: bool, messageCount: int, historySize: nat)

  // -----------------------------------------------------------------------
  // What a sync does to a record

  /** The keyword arguments `sync_context` gives `create_session`. */
  function CreateKwargs(req: SyncRequest): seq<Assignment>
  {
    [ Assignment("problem_id", MaybeText(req.problemId)),
      Assignment("problem_title", MaybeText(req.problemTitle)),
      Assignment("current_code", Text(Prefer(req.code, ""))),
      Assignment("language", Text(req.language)),
      Assignment("hint_level", Number(req.hintLevel)) ]
  }

  /** The keyword arguments `sync_context` gives `update_session`: the
      optional fields fall back to what the record holds. */
  function SyncUpdates(s: CodeSession, req: SyncRequest): seq<Assignment>
  {
    [ Assignment("current_code", Text(Prefer(req.code, s.currentCode))),
      Assignment("problem_id", MaybeText(if req.problemId.Some? then req.problemId else s.problemId)),
      Assignment("problem_title", MaybeText(if req.problemTitle.Some? then req.problemTitle else s.problemTitle)),
      Assignment("language", Text(req.language)),
      Assignment("hint_level", Number(req.hintLevel)) ]
  }

  /** The record a first sync creates. */
  function SyncedSession(id: string, clientIp: string, req: SyncRequest, now: int): (r: CodeSession)
    ensures r.sessionId == id && r.userIp == clientIp
    ensures r.currentCode == (if req.code.Some? then req.code.value else "")
    ensures r.problemId == req.problemId && r.problemTitle == req.problemTitle
    ensures r.language == req.language && r.hintLevel == req.hintLevel
    ensures r.messageCount == 0 && r.history == [] && r.createdAt == now && r.lastUpdated == now
  {
    DefaultSession(id, clientIp, now).(
      problemId := req.problemId, problemTitle := req.problemTitle,
      currentCode := Prefer(req.code, ""), language := req.language, hintLevel := req.hintLevel)
  }

  /** The record after a later sync: code, problem id and title change
      only when sent; language and hint level always; the conversation,
      its counter, the owner and the creation time stay. */
  function MergedSession(s: CodeSession, req: SyncRequest, now: int): (r: CodeSession)
    ensures r.currentCode == (if req.code.Some? then req.code.value else s.currentCode)
    ensures r.problemId == (if req.problemId.Some? then req.problemId else s.problemId)
    ensures r.problemTitle == (if req.problemTitle.Some? then req.problemTitle else s.problemTitle)
    ensures r.language == req.language && r.hintLevel == req.hintLevel && r.lastUpdated == now
    ensures r.sessionId == s.sessionId && r.userIp == s.userIp && r.createdAt == s.createdAt
    ensures r.messageCount == s.messageCount && r.history == s.history
  {
    s.(currentCode := Prefer(req.code, s.currentCode),
       problemId := if req.problemId.Some? then req.problemId else s.problemId,
       problemTitle := if req.problemTitle.Some? then req.problemTitle else s.problemTitle,
       language := req.language, hintLevel := req.hintLevel, lastUpdated := now)
  }

  /** Syncing the same state twice is the same as syncing it once: the
      endpoint is an idempotent upsert. */
  lemma SyncIdempotent(s: CodeSession, req: SyncRequest, t1: int, t2: int)
    ensures MergedSession(MergedSession(s, req, t1), req, t2) == MergedSession(s, req, t2)
  {
  }

  /** Five keyword arguments applied one after the other. */
  lemma ApplyFive(s: CodeSession, us: seq<Assignment>)
    requires |us| == 5 && AllFit(us)
    ensures ApplyAll(s, us)
            == SetAttr(SetAttr(SetAttr(SetAttr(SetAttr(s, us[0]), us[1]), us[2]), us[3]), us[4])
  {
    var s1 := SetAttr(s, us[0]);
    var s2 := SetAttr(s1, us[1]);
    var s3 := SetAttr(s2, us[2]);
    var s4 := SetAttr(s3, us[3]);
    var s5 := SetAttr(s4, us[4]);
    assert ApplyAll(s, us) == ApplyAll(s1, us[1..]);
    assert ApplyAll(s1, us[1..]) == ApplyAll(s2, us[2..]) by { assert us[1..][1..] == us[2..]; }
    assert ApplyAll(s2, us[2..]) == ApplyAll(s3, us[3..]) by { assert us[2..][1..] == us[3..]; }
    assert ApplyAll(s3, us[3..]) == ApplyAll(s4, us[4..]) by { assert us[3..][1..] == us[4..]; }
    assert ApplyAll(s4, us[4..]) == ApplyAll(s5, us[5..]) by { assert us[4..][1..] == us[5..]; }
    assert us[5..] == [];
  }

  lemma CreateKwargsBuildSyncedSession(id: string, clientIp: string, req: SyncRequest, now: int)
    ensures AllFit(CreateKwargs(req))
    ensures forall i :: 0 <= i < |CreateKwargs(req)| ==>
      CreateKwargs(req)[i].name != "session_id" && CreateKwargs(req)[i].name != "user_ip"
    ensures ApplyAll(DefaultSession(id, clientIp, now), CreateKwargs(req)) == SyncedSession(id, clientIp, req, now)
  {
    ApplyFive(DefaultSession(id, clientIp, now), CreateKwargs(req));
  }

  lemma SyncUpdatesMerge(s: CodeSession, req: SyncRequest, now: int)
    ensures AllFit(SyncUpdates(s, req))
    ensures ApplyAll(s, SyncUpdates(s, req)).(lastUpdated := now) == MergedSession(s, req, now)
  {
    ApplyFive(s, SyncUpdates(s, req));
  }

  // -----------------------------------------------------------------------
  // Handlers

  /** POST /sync: validate the body, then update the session named by the
      header, or create one under a fresh id when the header is empty or
      unknown. */
  method SyncContext(store: SessionStore, body: SyncBody, sessionHeader: string, clientIp: string, freshId: string, now: int)
    returns (reply: Reply<SyncResponse>)
    modifies store
    ensures ParseSyncRequest(body).Err? ==>
      reply == HttpException(UnprocessableEntity, Plain(ParseSyncRequest(body).field))
      && store.sessions == old(store.sessions)
    ensures ParseSyncRequest(body).Ok? && sessionHeader != "" && sessionHeader in old(store.sessions) ==>
      reply == Success(SyncResponse(sessionHeader, true, SyncedMessage))
      && store.sessions == old(store.sessions)[sessionHeader :=
           MergedSession(old(store.sessions)[sessionHeader], ParseSyncRequest(body).value, now)]
    ensures ParseSyncRequest(body).Ok? && (sessionHeader == "" || sessionHeader !in old(store.sessions)) ==>
      reply == Success(SyncResponse(freshId, true, SyncedMessage))
      && store.sessions == old(store.sessions)[freshId := SyncedSession(freshId, clientIp, ParseSyncRequest(body).value, now)]
    ensures reply.Success? ==> reply.body.synced && reply.body.sessionId in store.sessions
    ensures old(store.Consistent()) ==> store.Consistent()
  {
    var parsed := ParseSyncRequest(body);
    if parsed.Err? {
      return HttpException(UnprocessableEntity, Plain(parsed.field));
    }
    var req := parsed.value;
    var session := if sessionHeader != "" then store.GetSession(sessionHeader) else None;
    if session.None? {
      CreateKwargsBuildSyncedSession(freshId, clientIp, req, now);
      var created := store.CreateSession(freshId, clientIp, CreateKwargs(req), now);
      reply := Success(SyncResponse(freshId, true, SyncedMessage));
    } else {
      SyncUpdatesMerge(session.value, req, now);
      var updated := store.UpdateSession(sessionHeader, SyncUpdates(session.value, req), now);
      reply := Success(SyncResponse(sessionHeader, true, SyncedMessage));
    }
  }

  /** DELETE /session/{id}. */
  method DeleteSession(store: SessionStore, id: string) returns (reply: Reply<string>)
    modifies store
    ensures id in old(store.sessions) ==>
      reply == Success(SessionDeleted) && store.sessions == old(store.sessions) - {id}
    ensures id !in old(store.sessions) ==>
      reply == HttpException(NotFound, Plain(SessionNotFound)) && store.sessions == old(store.sessions)
    ensures old(store.Consistent()) ==> store.Consistent()
  {
    if id in store.sessions {
      store.sessions := store.sessions - {id};
      return Success(SessionDeleted);
    }
    reply := HttpException(NotFound, Plain(SessionNotFound));
  }

  /** The counters GET /stats reports. */
  datatype Stats = Stats(totalSessions: nat, activeSessions: nat, totalMessages: int)

  ghost function ActiveIds(m: map<string, CodeSession>): set<string>
  {
    set id | id in m && m[id].messageCount > 0
  }

  ghost function ActiveAmong(m: map<string, CodeSession>, keys: set<string>): set<string>
  {
    set id | id in keys && id in m && m[id].messageCount > 0
  }

  /** The sum of `message_count` over the records under `keys`. */
  ghost function SumCounts(m: map<string, CodeSession>, keys: set<string>): int
    requires keys <= m.Keys
    decreases keys
  {
    if keys == {} then 0
    else
      var k :| k in keys;
      m[k].messageCount + SumCounts(m, keys - {k})
  }

  /** The sum does not depend on which record is taken first. */
  lemma {:induction false} SumCountsRemove(m: map<string, CodeSession>, keys: set<string>, k: string)
    requires keys <= m.Keys && k in keys
    ensures SumCounts(m, keys) == m[k].messageCount + SumCounts(m, keys - {k})
    decreases keys
  {
    var j :| j in keys && SumCounts(m, keys) == m[j].messageCount + SumCounts(m, keys - {j});
    if j != k {
      SumCountsRemove(m, keys - {j}, k);
      SumCountsRemove(m, keys - {k}, j);
      assert keys - {j} - {k} == keys - {k} - {j};
    }
  }

  lemma ActiveAtMostTotal(m: map<string, CodeSession>)
    ensures |ActiveIds(m)| <= |m|
  {
    var active := ActiveIds(m);
    assert active <= m.Keys;
    assert m.Keys == active + (m.Keys - active);
  }

  /** GET /stats: the number of sessions, of sessions with messages, and
      of messages. */
  method ContextStats(store: SessionStore) returns (stats: Stats)
    ensures stats.totalSessions == |store.sessions|
    ensures stats.activeSessions == |ActiveIds(store.sessions)| <= stats.totalSessions
    ensures stats.totalMessages == SumCounts(store.sessions, store.sessions.Keys)
  {
    var m := store.sessions;
    var active := 0;
    var total := 0;
    var pending := m.Keys;
    while pending != {}
      invariant pending <= m.Keys
      invariant total + SumCounts(m, pending) == SumCounts(m, m.Keys)
      invariant active == |ActiveAmong(m, m.Keys - pending)|
      decreases pending
    {
      var id :| id in pending;
      SumCountsRemove(m, pending, id);
      if m[id].messageCount > 0 {
        assert ActiveAmong(m, m.Keys - (pending - {id})) == ActiveAmong(m, m.Keys - pending) + {id};
        active := active + 1;
      } else {
        assert ActiveAmong(m, m.Keys - (pending - {id})) == ActiveAmong(m, m.Keys - pending);
      }
      total := total + m[id].messageCount;
      pending := pending - {id};
    }
    assert m.Keys - pending == m.Keys;
    assert ActiveAmong(m, m.Keys) == ActiveIds(m);
    ActiveAtMostTotal(m);
    stats := Stats(|m|, active, total);
  }

  /** POST /cleanup: drop the expired sessions, report how many went and
      how many are left. */
  method CleanupSessions(store: SessionStore, now: int, maxAgeHours: int := 24) returns (removed: nat, remaining: nat)
    modifies store
    ensures store.sessions == FreshSessions(old(store.sessions), maxAgeHours, now)
    ensures removed == |StaleIds(old(store.sessions), maxAgeHours, now)|
    ensures remaining == |store.sessions|
    ensures removed + remaining == |old(store.sessions)|
    ensures old(store.Consistent()) ==> store.Consistent()
  {
    CleanupPartition(store.sessions, maxAgeHours, now);
    removed := store.CleanupOldSessions(maxAgeHours, now);
    remaining := |store.sessions|;
  }

  /** POST /message: validate the body, demand the header (400) and a known
      session (404) before changing anything, then append the message. */
  method AddConversationMessage(store: SessionStore, body: MessageBody, sessionHeader: string, now: int)
    returns (reply: Reply<MessageAdded>)
    modifies store
    ensures ParseMessageRequest(body).Err? ==>
      reply == HttpException(UnprocessableEntity, Plain(ParseMessageRequest(body).field))
      && store.sessions == old(store.sessions)
    ensures ParseMessageRequest(body).Ok? && sessionHeader == "" ==>
      reply == HttpException(BadRequest, Plain(HeaderRequired)) && store.sessions == old(store.sessions)
    ensures ParseMessageRequest(body).Ok? && sessionHeader != "" && sessionHeader !in old(store.sessions) ==>
      reply == HttpException(NotFound, Plain(SessionNotFound)) && store.sessions == old(store.sessions)
    ensures ParseMessageRequest(body).Ok? && sessionHeader != "" && sessionHeader in old(store.sessions) ==>
      var req := ParseMessageRequest(body).value;
      var s := WithMessage(old(store.sessions)[sessionHeader], Message(req.role, req.content, now), MaxHistory, now);
      && store.sessions == old(store.sessions)[sessionHeader := s]
      && reply == Success(MessageAdded(true, s.messageCount, |s.history|))
    ensures old(store.Consistent()) ==> store.Consistent()
    ensures old(store.Consistent()) && reply.Success? ==>
      reply.body.historySize <= MaxHistory && reply.body.historySize <= reply.body.messageCount
  {
    var parsed := ParseMessageRequest(body);
    if parsed.Err? {
      return HttpException(UnprocessableEntity, Plain(parsed.field));
    }
    var req := parsed.value;
    if sessionHeader == "" {
      return HttpException(BadRequest, Plain(HeaderRequired));
    }
    var session := store.GetSession(sessionHeader);
    if session.None? {
      return HttpException(NotFound, Plain(SessionNotFound));
    }
    var success := store.AddMessage(sessionHeader, req.role, req.content, MaxHistory, now);
    var updated := store.sessions[sessionHeader];
    reply := Success(MessageAdded(true, updated.messageCount, |updated.history|));
  }

  /** The body of GET /summary/{session_id}. */
  datatype SessionSummary = SessionSummary(sessionId: string, summary: string, messageCount: int, hasHistory: bool)

  /** GET /summary/{session_id}: 404 for an unknown session; otherwise the
      conversation summary with the message count and whether there is any
      history, which is exactly whether the summary is non-empty. */
  method GetSessionSummary(store: SessionStore, id: string) returns (reply: Reply<SessionSummary>)
    ensures id !in store.sessions ==> reply == HttpException(NotFound, Plain(SessionNotFound))
    ensures id in store.sessions ==>
      var s := store.sessions[id];
      reply == Success(SessionSummary(id, Summary(Some(s), MaxExchanges), s.messageCount, s.history != []))
    ensures reply.Success? ==> (reply.body.hasHistory <==> reply.body.summary != "")
  {
    var summary := store.GetConversationSummary(id);
    var session := store.GetSession(id);
    if session.None? {
      return HttpException(NotFound, Plain(SessionNotFound));
    }
    SummaryPresentIffHistory(session.value, MaxExchanges);
    reply := Success(SessionSummary(id, summary, session.value.messageCount, session.value.history != []));
  }
}
