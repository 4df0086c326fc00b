# voicecode backend, modelled in Dafny

This project models the request-handling core of the voicecode FastAPI
backend: an AI coding mentor that students talk to while solving problems.

- **Session store** (`models/session.py`, module `Session`). An in-memory
  table from session id to a record of the student's code, problem, hint
  level and recent conversation. Its operations are get, create, update,
  age-based cleanup, append-with-trim of the history, and a text summary of
  the recent history. The table is the class `SessionStore` over a
  `map<string, CodeSession>`.
- **Context endpoints** (`routers/context.py`, module `ContextRouter`):
  background sync (get-or-create under the `X-Session-ID` header, merging
  only the fields that were sent), delete, stats, cleanup, adding a
  conversation message, and the conversation summary of a session.
- **Rate limiter** (`utils/rate_limiter.py`, module `RateLimiter`): the
  sliding-window limiter object `SimpleRateLimiter`, its periodic cleanup,
  and the wrapper that derives the client key and raises 429.
- **Chat endpoint** (`routers/chat.py`, module `ChatRouter`): validation,
  rate limit, filling gaps in the request from the caller's session,
  counting the message on that session, and mapping a mentor failure to 500.
- **Schemas** (`schemas/chat.py`, module `ChatSchemas`): the field
  constraints and defaults of `ChatRequest`, `ChatResponse` and
  `ErrorResponse`. A raw body field is `Missing`, `Null` or `Given(v)`.
  Validation is a function from raw fields to `Ok(record)` or
  `Err(field)`.
- **Mentor service** (`services/vertex_ai_service.py`, module `VertexAi`):
  the prompt builder, the token estimate, and the screen for replies that
  give the solution away.

Module `Common` holds the shared vocabulary: `Option`, `Result`, raw body
fields, and the Python string built-ins the handlers use. Module `Http`
holds the HTTP outcome, either a body or an `HTTPException(status, detail)`.

Clock readings, fresh UUIDs and the mentor's reply are parameters (`now`,
`freshId`, `aiReply`). Times are whole seconds.

Among the results proved about the model:
- at every call, the requests a client had accepted in the last
  `window_seconds` number at most `max_requests`
  (`RateLimiter.SlidingWindowBound`);
- on a clock of whole seconds and for windows under a day, `retry_after` is
  exactly the wait until the next request would be accepted, and one second
  less is not enough (`RateLimiter.RetryAfterIsExact`; sub-second clock
  readings break this, see "Left out");
- every handler keeps each stored record well formed (`Session.WellFormed`).
  The id matches its key, the hint level lies in 0..3, the history holds at
  most 20 messages, and the history is never longer than the message count.
- `context_stats` counts active sessions and messages independently of
  iteration order, and active sessions never exceed total sessions.

The chat endpoint never uses a session's cached hint level, despite the
fall-back written at `routers/chat.py:93`: `ChatRequest.hint_level` defaults
to 0 and is never `None`. `ChatRouter.ResolveContext` and
`ChatRouter.CompleteRequestIgnoresSession` state this.

`validate_response` is modelled as written, although no code in the
repository calls it.

## Model

All source paths are under `voicecode-backend/app/`.

| member | source | states |
|---|---|---|
| Common.Prefer | voicecode-backend/app/routers/context.py:63-65 | `x if x is not None else cached`: the given value when there is one, the cached one otherwise |
| Common.RequiredText | voicecode-backend/app/schemas/chat.py:22-28 | a required `str` field with length bounds is accepted iff it is present and within the bounds, and the failure names the field |
| Common.RequiredString | voicecode-backend/app/routers/context.py:146-147 | a required `str` field is accepted iff present, and the failure names the field |
| Common.OptionalValue | voicecode-backend/app/schemas/chat.py:30-42 | an `Optional` field is `Some` exactly when a value was sent, and then holds that value |
| Common.FieldOf | voicecode-backend/app/schemas/chat.py:84-100 | serialising an optional value sends it when present and `null` otherwise |
| Common.OptionalText | voicecode-backend/app/schemas/chat.py:30-42 | an `Optional[str]` with `max_length` is rejected iff a value longer than the bound was sent |
| Common.TextWithDefault | voicecode-backend/app/schemas/chat.py:44-48 | a `str` field with a default takes the default when left out, the value when sent, and rejects `null` |
| Common.BoundedInt | voicecode-backend/app/schemas/chat.py:50-56 | an `int` field with default and `ge`/`le` is accepted iff left out or sent within bounds |
| Common.Lower | voicecode-backend/app/services/vertex_ai_service.py:236 | ASCII lower-casing keeps the length and lower-cases each ASCII capital, leaving other characters alone |
| Common.CountChar | voicecode-backend/app/services/vertex_ai_service.py:222 | `text.count('\n')` is the number of occurrences of the character (its multiplicity in the text) |
| Common.Join | voicecode-backend/app/models/session.py:139 | `sep.join` of no parts is empty and of one part is that part |
| Common.JoinEnds | voicecode-backend/app/models/session.py:139 | a join of two or more parts starts with the first part and a separator and ends with a separator and the last part |
| Common.FirstField | voicecode-backend/app/utils/rate_limiter.py:184 | `split(',')[0]` is the longest prefix without the separator, and is followed by the separator when shorter than the text |
| Common.Strip | voicecode-backend/app/utils/rate_limiter.py:184 | `strip()` returns a slice `s[a..b]` of its input such that every character before `a` and from `b` on is whitespace, and the slice neither starts nor ends with whitespace |
| Common.TrimsLeaveSlice | voicecode-backend/app/utils/rate_limiter.py:184 | trimming the end of the trimmed start leaves the slice after the leading whitespace, and only whitespace follows it |
| Common.StripKeepsOut | voicecode-backend/app/utils/rate_limiter.py:184 | a character absent from the input is absent from its stripped form, so the stripped first entry of `X-Forwarded-For` holds no comma |
| Common.StripIdempotent | voicecode-backend/app/utils/rate_limiter.py:184 | stripping twice is stripping once |
| Common.NatToString | voicecode-backend/app/utils/rate_limiter.py:202 | the decimal text of a number is non-empty and all digits |
| Common.NatToStringRoundTrip | voicecode-backend/app/utils/rate_limiter.py:202 | reading the decimal text back gives the number again |
| ChatSchemas.ParseChatRequest | voicecode-backend/app/schemas/chat.py:15-56 | a chat body is valid iff the message has 1..1000 characters, any code has at most 10000, any problem id at most 100, language is not `null`, and hint_level is left out or in 0..3; a valid body yields a request satisfying `ValidChatRequest` with the message sent |
| ChatSchemas.ChatRequestRoundTrip | voicecode-backend/app/schemas/chat.py:22-56 | sending a request's own fields validates back to that request iff it satisfies the constraints |
| ChatSchemas.ChatRequestDefaults | voicecode-backend/app/schemas/chat.py:30-56 | a body with only a message gets no code, no problem id, language "python" and hint level 0 |
| ChatSchemas.NewChatResponse | voicecode-backend/app/schemas/chat.py:71-100 | a response validates iff `response` is given and `model` is not `null` |
| ChatSchemas.ChatResponseRoundTrip | voicecode-backend/app/schemas/chat.py:78-100 | building a response from its own fields gives it back |
| ChatSchemas.ChatResponseDefaults | voicecode-backend/app/schemas/chat.py:84-100 | a response with only text has no token count, model "gemini-pro" and no session id |
| ChatSchemas.NewErrorResponse | voicecode-backend/app/schemas/chat.py:113-134 | an error body validates iff `error` and `message` are given |
| ChatSchemas.ErrorResponseRoundTrip | voicecode-backend/app/schemas/chat.py:118-134 | building an error body from its own fields gives it back |
| Session.LastAssigned | voicecode-backend/app/models/session.py:71-73 | the last value assigned to a name exists iff some keyword names it |
| Session.SetAttrGetAttr | voicecode-backend/app/models/session.py:71-73 | after `setattr`, the named attribute reads back the value set and every other attribute is unchanged |
| Session.ApplyAllGetAttr | voicecode-backend/app/models/session.py:71-73 | after the keyword loop, each attribute holds the last value assigned to it, or its old value when no keyword names it |
| Session.AttributesDetermineSession | voicecode-backend/app/models/session.py:13-32 | two records that agree on every attribute are equal, so the previous lemma pins the whole updated record |
| Session.UnknownNamesIgnored | voicecode-backend/app/models/session.py:71-73 | keywords that name no attribute change nothing (the `hasattr` filter) |
| Session.ExpiredInSeconds | voicecode-backend/app/models/session.py:84-85 | the age test in hours, `(now - last_updated) / 3600 > max_age_hours`, holds iff the age in seconds exceeds `max_age_hours * 3600` |
| Session.FreshIsRemoval | voicecode-backend/app/models/session.py:81-91 | keeping the sessions that are not expired is the same map as deleting the expired ids |
| Session.CleanupPartition | voicecode-backend/app/models/session.py:81-91 | the removed ids and the kept sessions are disjoint, together make up the whole store, and their counts add up to its size |
| Session.PySuffix | voicecode-backend/app/models/session.py:108 | `h[-n:]` is a suffix of `h`; for `n == 0` it is all of `h`, for `n > 0` it has `min(n, len(h))` elements |
| Session.TrimKeepsNewest | voicecode-backend/app/models/session.py:104-108 | for `max_messages >= 1`, appending then trimming keeps exactly the newest `min(len+1, max_messages)` messages, ending with the new one |
| Session.TrimZeroKeepsAll | voicecode-backend/app/models/session.py:107-108 | with `max_messages == 0` nothing is trimmed, because `h[-0:]` is the whole list |
| Session.TrimNeverGrows | voicecode-backend/app/models/session.py:107-108 | trimming never lengthens the history |
| Session.WithMessage | voicecode-backend/app/models/session.py:103-111 | adding a message counts exactly one more message even when trimming drops old ones; the history grows by at most one, and for `max_messages >= 1` it is non-empty, within the bound and ends with the new message; only history, count and timestamp change |
| Session.AppendThenTrim | voicecode-backend/app/models/session.py:104-108 | appending then trimming grows the history by at most one; for `max_messages >= 1` the result is non-empty, within the bound and ends with the new message |
| Session.RoleLabel | voicecode-backend/app/models/session.py:132 | the label is "User" iff the role is "user" |
| Session.Shortened | voicecode-backend/app/models/session.py:134 | content of at most 150 characters is kept; longer content becomes its first 150 characters followed by "..." |
| Session.SummaryLines | voicecode-backend/app/models/session.py:130-137 | the summary lines are the header, one line per recent message in order, then the footer |
| Session.FormatLines | voicecode-backend/app/models/session.py:130-137 | the loop builds exactly the lines `SummaryLines` defines: header, one line per message in order, footer |
| Session.SummaryFramed | voicecode-backend/app/models/session.py:130-139 | a non-empty summary starts with the header line and ends with the footer line |
| Session.JoinedLinesFramed | voicecode-backend/app/models/session.py:137-139 | joining the summary lines with newlines puts the header first and the footer last |
| Session.SummaryPresentIffHistory | voicecode-backend/app/models/session.py:120-139 | with at least one exchange asked for, the summary is empty iff the history is |
| Session.SummaryCoversNewest | voicecode-backend/app/models/session.py:120-128 | with at least one exchange asked for, a session with history gets a summary of its newest `min(len, 2*max_exchanges)` messages |
| Session.SessionStore.constructor | voicecode-backend/app/models/session.py:49 | the store starts empty |
| Session.SessionStore.GetSession | voicecode-backend/app/models/session.py:51-53 | a known id yields its stored record, an unknown id yields nothing |
| Session.SessionStore.CreateSession | voicecode-backend/app/models/session.py:55-63 | the defaults with the keywords applied are stored under the id, replacing any earlier record and leaving other ids alone; a hint level outside 0..3 fails validation and stores nothing |
| Session.SessionStore.UpdateSession | voicecode-backend/app/models/session.py:65-76 | an unknown id returns nothing and changes nothing; a known id gets the keywords applied in order and `last_updated` refreshed, and only that entry changes |
| Session.SessionStore.CleanupOldSessions | voicecode-backend/app/models/session.py:78-91 | exactly the expired sessions are removed, all others are kept, the count removed is returned, and the store stays well formed |
| Session.SessionStore.AddMessage | voicecode-backend/app/models/session.py:94-112 | succeeds iff the id is known; on failure nothing changes; on success only that entry changes, as `WithMessage` says; the store stays well formed for `1 <= max_messages <= 20` |
| Session.SessionStore.GetConversationSummary | voicecode-backend/app/models/session.py:115-139 | the loop builds the summary `Session.Summary` defines: empty for an unknown session or empty history, otherwise the framed lines of the recent messages |
| ContextRouter.ParseSyncRequest | voicecode-backend/app/routers/context.py:19-25 | a sync body is valid iff any code has at most 10000 characters, language is not `null`, and hint_level is left out or in 0..3 |
| ContextRouter.SyncRequestRoundTrip | voicecode-backend/app/routers/context.py:19-25 | sending a sync request's own fields validates back to it iff it satisfies the constraints |
| ContextRouter.ParseMessageRequest | voicecode-backend/app/routers/context.py:144-147 | a message body is valid iff the role is exactly "user" or "assistant" and the content has 1..5000 characters |
| ContextRouter.SyncedSession | voicecode-backend/app/routers/context.py:47-57 | a new session holds the sent problem, title, language and hint level, the code or "" when none was sent, no messages, and the current time |
| ContextRouter.MergedSession | voicecode-backend/app/routers/context.py:59-68 | code, problem id and title are replaced only when sent; language and hint level always are; identity, count, history and creation time are kept |
| ContextRouter.SyncIdempotent | voicecode-backend/app/routers/context.py:59-68 | syncing the same request twice is the same as syncing it once |
| ContextRouter.ApplyFive | voicecode-backend/app/routers/context.py:61-68 | applying five keywords is applying each in turn |
| ContextRouter.CreateKwargsBuildSyncedSession | voicecode-backend/app/routers/context.py:49-57 | the keywords `sync_context` passes to `create_session` fit their attributes, name neither `session_id` nor `user_ip`, and build exactly `SyncedSession` |
| ContextRouter.SyncUpdatesMerge | voicecode-backend/app/routers/context.py:61-68 | the keywords `sync_context` passes to `update_session` build exactly `MergedSession` |
| ContextRouter.SyncContext | voicecode-backend/app/routers/context.py:33-75 | an invalid body gives 422 and no change; a known non-empty header id is merged and returned; otherwise a session is created under the fresh id and that id is returned; every success reports `synced` and leaves the returned id in the store, which stays well formed |
| ContextRouter.DeleteSession | voicecode-backend/app/routers/context.py:106-117 | a present id is removed and nothing else changes; an absent id gives 404 and no change |
| ContextRouter.SumCountsRemove | voicecode-backend/app/routers/context.py:124 | the message total splits into one session's count plus the total of the rest, whichever session is taken out |
| ContextRouter.ActiveAtMostTotal | voicecode-backend/app/routers/context.py:122-123 | active sessions are at most all sessions |
| ContextRouter.ContextStats | voicecode-backend/app/routers/context.py:119-129 | the loop reports the store size, the number of sessions with `message_count > 0` (at most the size), and the sum of all message counts |
| ContextRouter.CleanupSessions | voicecode-backend/app/routers/context.py:133-141 | exactly the expired sessions go; `removed + remaining` equals the size before |
| ContextRouter.AddConversationMessage | voicecode-backend/app/routers/context.py:150-179 | 422, then 400 for an empty header, then 404 for an unknown session, each with no change; otherwise the message is added and the reply carries the new count and history size, which is at most 20 and at most the count |
| ContextRouter.GetSessionSummary | voicecode-backend/app/routers/context.py:187-207 | 404 for an unknown session; otherwise the session id, the summary of its last 5 exchanges, its message count and whether it has history, which holds iff the summary is non-empty |
| RateLimiter.Prune | voicecode-backend/app/utils/rate_limiter.py:84-87 | the comprehension never keeps more times than there were |
| RateLimiter.PruneMember | voicecode-backend/app/utils/rate_limiter.py:84-87 | a time survives pruning iff it was stored and lies strictly after the window start |
| RateLimiter.PruneAppend | voicecode-backend/app/utils/rate_limiter.py:84-87 | pruning distributes over concatenation |
| RateLimiter.PruneTwice | voicecode-backend/app/utils/rate_limiter.py:84-90 | pruning to a window and then a later one is pruning to the later one |
| RateLimiter.PruneKeepsAll | voicecode-backend/app/utils/rate_limiter.py:84-87 | nothing is dropped when every time is inside the window |
| RateLimiter.PruneDrops | voicecode-backend/app/utils/rate_limiter.py:84-87 | something is dropped when some time is outside the window |
| RateLimiter.Min | voicecode-backend/app/utils/rate_limiter.py:95 | `min` returns an element no greater than any other |
| RateLimiter.Max | voicecode-backend/app/utils/rate_limiter.py:128 | `max` returns an element no smaller than any other |
| RateLimiter.TimedeltaSeconds | voicecode-backend/app/utils/rate_limiter.py:96 | `timedelta.seconds` lies in 0..86399 and equals the delta when the delta is already in that range |
| RateLimiter.Decide | voicecode-backend/app/utils/rate_limiter.py:76-115 | a request is accepted iff fewer than `max_requests` pruned times remain; acceptance stores the pruned list plus now; rejection stores only the pruned list |
| RateLimiter.RetryDelay | voicecode-backend/app/utils/rate_limiter.py:93-115 | the `retry_after` returned is 0 on acceptance and always lies in 0..86399, the range of `timedelta.seconds` |
| RateLimiter.DecideKeepsBound | voicecode-backend/app/utils/rate_limiter.py:84-107 | with a fixed `max_requests`, a stored list within the limit stays within it |
| RateLimiter.DecideKeepsNotAfter | voicecode-backend/app/utils/rate_limiter.py:84-107 | a check at `now` stores no time later than `now` when none was stored before |
| RateLimiter.RetryAfterWithinWindow | voicecode-backend/app/utils/rate_limiter.py:95-96 | when no stored time is in the future, a rejection's `retry_after` lies between 0 and `window_seconds` |
| RateLimiter.RejectionWait | voicecode-backend/app/utils/rate_limiter.py:93-96 | for windows under a day, a rejection keeps exactly `max_requests` times and its retry is the time until the oldest leaves the window |
| RateLimiter.RetryAfterIsExact | voicecode-backend/app/utils/rate_limiter.py:93-103 | for windows under a day, a request made `retry_after` seconds later is accepted and one made a second earlier is still rejected |
| RateLimiter.StillFullWhileAllInside | voicecode-backend/app/utils/rate_limiter.py:84-93 | a full list whose every time is still inside the window rejects |
| RateLimiter.RoomOnceOneLeaves | voicecode-backend/app/utils/rate_limiter.py:84-93 | a list within the limit accepts once one of its times has left the window |
| RateLimiter.WindowStep | voicecode-backend/app/utils/rate_limiter.py:84-107 | if the stored list is the window of the accepted times at an earlier call, then at a later call it prunes to the same list as the accepted times, and appending now to either gives the same list |
| RateLimiter.StoredIsWindowOfAdmitted | voicecode-backend/app/utils/rate_limiter.py:76-115 | over any non-decreasing run of checks, the stored list is exactly the accepted times still in the window, and holds at most `max_requests` |
| RateLimiter.NondecreasingPrefix | voicecode-backend/app/utils/rate_limiter.py:76 | dropping the last call of a non-decreasing run leaves a non-decreasing run, and the dropped call is no earlier than the one before it |
| RateLimiter.LastCheck | voicecode-backend/app/utils/rate_limiter.py:76-115 | the last check of a run decides on the list the earlier checks left, and its time joins the accepted ones exactly when it is accepted |
| RateLimiter.SlidingWindowBound | voicecode-backend/app/utils/rate_limiter.py:84-107 | at every check, the accepted requests of the last `window_seconds` number at most `max_requests` |
| RateLimiter.StaleMeansForgotten | voicecode-backend/app/utils/rate_limiter.py:125-129 | an entry is stale iff all its times are before the cutoff, and then a window starting at or after the cutoff prunes all of it, so deleting it changes no later decision |
| RateLimiter.WithoutStaleIsRemoval | voicecode-backend/app/utils/rate_limiter.py:118-136 | keeping the live entries is the same map as deleting the stale identifiers |
| RateLimiter.RecordedKeepsEntry | voicecode-backend/app/utils/rate_limiter.py:89-136 | the cleanup never drops the list a check has just stored, so after any check the client's list is exactly `Decide`'s list, the step by which `Stored` follows a run of checks |
| RateLimiter.SimpleRateLimiter.constructor | voicecode-backend/app/utils/rate_limiter.py:38-53 | no entries, counter 0, threshold 100 |
| RateLimiter.SimpleRateLimiter.Times | voicecode-backend/app/utils/rate_limiter.py:80 | the `defaultdict` lookup: the stored list, or an empty one for a new identifier |
| RateLimiter.SimpleRateLimiter.CleanupOldEntries | voicecode-backend/app/utils/rate_limiter.py:118-136 | exactly the identifiers whose list is empty or whose latest time is before the cutoff are removed; the rest are unchanged |
| RateLimiter.SimpleRateLimiter.CheckRateLimit | voicecode-backend/app/utils/rate_limiter.py:56-115 | returns `Decide`'s verdict and `RetryDelay`; leaves the state `Recorded` describes: the pruned list (plus now if accepted) is stored, only accepted requests are counted, and the acceptance that reaches 100 also drops the stale entries and resets the counter; keeps the counter below 100, every list within `max_requests`, and retry within the window |
| RateLimiter.ClientKey | voicecode-backend/app/utils/rate_limiter.py:179-187 | a non-empty `X-Forwarded-For` gives its first comma-separated entry stripped (no comma, no edge whitespace); otherwise the peer host, else "unknown" |
| RateLimiter.TooManyRequestsError | voicecode-backend/app/utils/rate_limiter.py:196-205 | a 429 whose detail is `rate_limit_exceeded` carrying the same `retry_after` |
| RateLimiter.Guard | voicecode-backend/app/utils/rate_limiter.py:158-208 | with no request object the call proceeds and the limiter is untouched; otherwise the check of the client's key leaves the limiter as `Recorded` describes (pruned list plus now on acceptance, with the count and the cleanup at 100; only the pruned list on rejection), an accepted check proceeds and a rejected one raises the 429 with `RetryDelay`; the counter bound, the per-list bound and "no time after now" are kept |
| VertexAi.ContextFramed | voicecode-backend/app/services/vertex_ai_service.py:72-133 | the prompt begins with the fixed mentor instruction and ends with the question line followed by the closing reminder |
| VertexAi.ContextCarriesQuestion | voicecode-backend/app/services/vertex_ai_service.py:127-128 | the student's question always appears in the prompt |
| VertexAi.ContextCarriesProblem | voicecode-backend/app/services/vertex_ai_service.py:115-116 | a non-empty problem id appears verbatim in the prompt |
| VertexAi.ContextCarriesCode | voicecode-backend/app/services/vertex_ai_service.py:119-120 | non-empty code appears verbatim between fence lines |
| VertexAi.ContextCarriesHints | voicecode-backend/app/services/vertex_ai_service.py:123-125 | a positive hint level appears as "Hints already given: n/3" |
| VertexAi.EmptyContextIsOmitted | voicecode-backend/app/services/vertex_ai_service.py:114-125 | an empty problem id or code prompts exactly as if absent, and a hint level of 0 or less as if 0 |
| VertexAi.InstructionLengthIsExact | voicecode-backend/app/services/vertex_ai_service.py:98-112 | the fixed instruction is 467 characters long |
| VertexAi.PromptLengthIsExact | voicecode-backend/app/services/vertex_ai_service.py:72-133 | the prompt's length, added up section by section, is the length of the prompt `build_context` returns |
| VertexAi.TokensUsed | voicecode-backend/app/services/vertex_ai_service.py:185 | the estimate `t` for lengths `c` and `r` satisfies `4t <= c + r < 4t + 4` |
| VertexAi.GenerateResponse | voicecode-backend/app/services/vertex_ai_service.py:136-202 | a reply is returned iff the model answered, carrying the model's text and the model name "gemini-2.5-flash"; otherwise the friendly service error |
| VertexAi.GenerateResponseTokens | voicecode-backend/app/services/vertex_ai_service.py:166-187 | the token estimate of a reply is a quarter, rounded down, of the length of the prompt actually built plus the reply |
| VertexAi.ValidateResponse | voicecode-backend/app/services/vertex_ai_service.py:205-240 | accepts iff the reply is not (fenced Python/JavaScript with more than 5 newlines) and contains none of the four giveaway phrases, ignoring case |
| VertexAi.LowerIdempotent | voicecode-backend/app/services/vertex_ai_service.py:236 | lower-casing twice is lower-casing once |
| VertexAi.GiveawayIgnoresCase | voicecode-backend/app/services/vertex_ai_service.py:235-238 | the phrase check gives the same answer on the reply and on its lower-cased form |
| VertexAi.FenceCheckIsCaseSensitive | voicecode-backend/app/services/vertex_ai_service.py:220-225 | the fence check does not see "```Python": a long reply with that fence passes while the same reply with "```python" is rejected |
| ChatRouter.ResolveContext | voicecode-backend/app/routers/chat.py:89-106 | the request's code and problem win when sent; with a session they fall back to its cached code and problem; without one the request's values are used; the hint level is always the request's |
| ChatRouter.CompleteRequestIgnoresSession | voicecode-backend/app/routers/chat.py:89-93 | a request carrying code and problem gets the same context with or without a session |
| ChatRouter.CachedSession | voicecode-backend/app/routers/chat.py:85-86 | a session is found iff the header is present, non-empty and names a stored session, and then it is that stored record |
| ChatRouter.CountUpdate | voicecode-backend/app/routers/chat.py:96 | the one keyword raises `message_count` by exactly one and changes nothing else |
| ChatRouter.CountKeepsWellFormed | voicecode-backend/app/routers/chat.py:96 | counting a message keeps a well-formed record well formed |
| ChatRouter.AiFailure | voicecode-backend/app/routers/chat.py:136-148 | a 500 whose detail error is `ai_service_error` |
| ChatRouter.CountedTouchesOnlyTheHit | voicecode-backend/app/routers/chat.py:88-96 | counting adds and removes no id, leaves every other record unchanged, and changes the record found only by one more message and a `last_updated` of now |
| ChatRouter.CountMessage | voicecode-backend/app/routers/chat.py:84-96 | returns the session `CachedSession` finds, leaves the store as `Counted` describes (one more message on that session, nothing else), and keeps the store well formed |
| ChatRouter.ChatReplyMeaning | voicecode-backend/app/routers/chat.py:110-130 | a mentor failure gives the 500; an answer gives a response with the reply, model "gemini-2.5-flash", the session id iff a session was found, and the token estimate over the prompt built from the resolved context |
| ChatRouter.Answer | voicecode-backend/app/routers/chat.py:85-130 | after the checks: the session hit counts the message whatever the mentor does, and the reply follows `ChatReply`; the store stays well formed |
| ChatRouter.Chat | voicecode-backend/app/routers/chat.py:55-148 | 422 before anything else, touching neither store nor limiter; otherwise the limiter records the check of the client's key as `Recorded` describes, a rejection gives the 429 with `RetryDelay` and touches no session, and an acceptance gives `Answer`'s reply and store; the store's well-formedness and the limiter's invariants, including "no time after now", are kept |

## Left out

- The browser-side audio code, `routers/voice.py` (a WebSocket proxy) and `services/elevenlabs_service.py` are not part of this model: they are network forwarding and floating-point cost estimates.
- `main.py` and `config.py` are not part of this model: app wiring, CORS and settings.
- The Gemini SDK calls (`genai.configure`, `GenerativeModel`, `generate_content`) are foreign. The model's reply, or its failure, is the `aiReply` parameter.
- `datetime.now()` and `uuid.uuid4()` become the parameters `now` and `freshId`. Times are whole seconds, so sub-second differences are not modelled.
- Logging is left out everywhere, including `chat`'s `technical_details` field. That field is `None` unless the module logger is set to DEBUG, which configuration outside the core decides.
- `avg_messages_per_session` in `context_stats` is a float division and is left out.
- `get_session_info` (a read-only debugging view that formats dates as ISO strings) and `chat_health` (a readiness probe of the SDK object) are left out.
- Session records are values in the map, not shared objects. The handlers read a record after changing it (`routers/context.py:177-178`), and the model reads the new map entry there, which returns the same values. What the model does not capture is aliasing between a record handed out earlier and later updates to it.
- Three error branches cannot be reached and are not modelled as code:
  - `sync_context`'s 500: nothing in its `try` can fail once the body has validated;
  - `add_conversation_message`'s 500: `add_message` on a session just found always succeeds;
  - `chat`'s re-raise of `HTTPException`: the 429 is raised by the rate-limit wrapper, outside the handler's `try`.
- Pydantic's coercions, such as the string "3" accepted as the int 3, are not modelled; body fields arrive already typed. A rejected body yields 422 with the name of the first failing field, not pydantic's full list of errors.
- `str.lower()` is modelled for ASCII letters only; Unicode case mapping is not modelled.
- `sync_context` reads `http_request.client.host` without a `None` check. The model takes the client address as a string.
- Session.SessionStore.UpdateSession requires every value to have its attribute's declared type (`AllFit`). Python's `setattr` on these records does not validate, but every caller in the core passes values of the right type.
- Session.SessionStore.UpdateSession treats a keyword that names a method of the record (`copy`, `json`, ...) like any unknown name and ignores it. In Python `hasattr` finds such a name and pydantic's assignment then raises. Every caller in the core passes declared field names only.
- Session.SessionStore.CreateSession requires that no keyword names `session_id` or `user_ip`; Python would reject such a call with a `TypeError` for a duplicate keyword.
- RateLimiter.SimpleRateLimiter.CheckRateLimit requires `max_requests >= 1`. With `max_requests <= 0` and no recent requests, Python's `min([])` raises `ValueError`. The only caller passes 10.
- RateLimiter.Decide and RateLimiter.Guard carry the same `max_requests >= 1` requirement, for the same reason.
- RateLimiter.RetryAfterIsExact holds on a clock of whole seconds only. `datetime.now()` carries microseconds and `timedelta.seconds` rounds the wait down: with a 60-second window, the oldest request at 0.0 and a rejection at 30.5, `retry_after` is 29, and a retry at 59.5 is still rejected.
- RateLimiter.StoredIsWindowOfAdmitted and RateLimiter.SlidingWindowBound assume clock readings that never go back (`Nondecreasing`). The limiter reads naive local time, which goes back an hour when daylight saving time ends; across such a jump the bound is not claimed.
- The rate limiter's window theorem (`SlidingWindowBound`) is stated per client key. It assumes the same `max_requests` and `window_seconds` on every call, and does not bound requests from several keys together.
