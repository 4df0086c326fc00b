/** The in-memory session store (app/models/session.py): a table from
    session id to the cached coding context of one user, with a bounded
    conversation history. Clock readings are integer seconds passed in by
    the caller. */
module Session {
  import opened Common

  /** `add_message`'s default `max_messages`. */
  const MaxHistory := 20
  /** `get_conversation_summary`'s default `max_exchanges`. */
  const MaxExchanges := 5
  /** Longest message content a summary line shows in full. */
  const SummaryContentLimit := 150
  const SummaryHeader := "[PREVIOUS CONVERSATION SUMMARY]"
  const SummaryFooter := "[END OF SUMMARY - Continue from where we left off]"
  const MaxHintLevel := 3

  datatype Message = Message(role: string, content: string, timestamp: int)

  /** One user's coding session with its cached context. */
  datatype CodeSession = CodeSession(
    sessionId: string,
    userIp: string,
    problemId: Option<string>,
    problemTitle: Option<string>,
    currentCode: string,
    language: string,
    hintLevel: int,
    lastUpdated: int,
    messageCount: int,
    createdAt: int,
    history: seq<Message>)

  /** A record built from just its id and owner: every other attribute at
      its declared default, both timestamps at `now`. */
  function DefaultSession(id: string, userIp: string, now: int): CodeSession
  {
    CodeSession(id, userIp, None, None, "", "python", 0, now, 0, now, [])
  }

  // -----------------------------------------------------------------------
  // Attributes by name: the keyword arguments of `create_session` and
  // `update_session`.

  datatype Value = Text(text: string) | MaybeText(maybe: Option<string>) | Number(number: int) | History(messages: seq<Message>)

  datatype Assignment = Assignment(name: string, value: Value)

  /** The declared fields of a record: the names whose assignment the
      record accepts. `hasattr` also finds methods such as `copy` and
      `json`, but pydantic refuses to assign to those. */
  const Attributes: set<string> := {
    "session_id", "user_ip", "problem_id", "problem_title", "current_code", "language",
    "hint_level", "last_updated", "message_count", "created_at", "conversation_history"
  }

  /** `getattr(session, name)`. */
  function GetAttr(s: CodeSession, name: string): Value
    requires name in Attributes
  {
    if name == "session_id" then Text(s.sessionId)
    else if name == "user_ip" then Text(s.userIp)
    else if name == "problem_id" then MaybeText(s.problemId)
    else if name == "problem_title" then MaybeText(s.problemTitle)
    else if name == "current_code" then Text(s.currentCode)
    else if name == "language" then Text(s.language)
    else if name == "hint_level" then Number(s.hintLevel)
    else if name == "last_updated" then Number(s.lastUpdated)
    else if name == "message_count" then Number(s.messageCount)
    else if name == "created_at" then Number(s.createdAt)
    else History(s.history)
  }

  /** The value has the type the named attribute is declared with (names
      that are not attributes may carry anything: they are skipped). */
  predicate Fits(a: Assignment)
  {
    if a.name in {"session_id", "user_ip", "current_code", "language"} then a.value.Text?
    else if a.name in {"problem_id", "problem_title"} then a.value.MaybeText?
    else if a.name in {"hint_level", "last_updated", "message_count", "created_at"} then a.value.Number?
    else if a.name == "conversation_history" then a.value.History?
    else true
  }

  /** `if hasattr(session, key): setattr(session, key, value)`. */
  function SetAttr(s: CodeSession, a: Assignment): CodeSession
    requires Fits(a)
  {
    var v := a.value;
    if a.name == "session_id" then s.(sessionId := v.text)
    else if a.name == "user_ip" then s.(userIp := v.text)
    else if a.name == "problem_id" then s.(problemId := v.maybe)
    else if a.name == "problem_title" then s.(problemTitle := v.maybe)
    else if a.name == "current_code" then s.(currentCode := v.text)
    else if a.name == "language" then s.(language := v.text)
    else if a.name == "hint_level" then s.(hintLevel := v.number)
    else if a.name == "last_updated" then s.(lastUpdated := v.number)
    else if a.name == "message_count" then s.(messageCount := v.number)
    else if a.name == "created_at" then s.(createdAt := v.number)
    else if a.name == "conversation_history" then s.(history := v.messages)
    else s
  }

  predicate AllFit(us: seq<Assignment>)
  {
    forall i :: 0 <= i < |us| ==> Fits(us[i])
  }

  /** The keyword arguments applied in order. */
  function ApplyAll(s: CodeSession, us: seq<Assignment>): CodeSession
    requires AllFit(us)
    decreases |us|
  {
    if us == [] then s else ApplyAll(SetAttr(s, us[0]), us[1..])
  }

  /** The value the last assignment to `name` carries, if any. */
  function LastAssigned(us: seq<Assignment>, name: string): (r: Option<Value>)
    ensures r.Some? <==> exists i :: 0 <= i < |us| && us[i].name == name
    decreases |us|
  {
    if us == [] then None
    else
      var later := LastAssigned(us[1..], name);
      if later.Some? then later
      else if us[0].name == name then Some(us[0].value)
      else None
  }

  /** `setattr` followed by `getattr`: the named attribute reads back the
      value just set, every other attribute is untouched. */
  lemma SetAttrGetAttr(s: CodeSession, a: Assignment, name: string)
    requires Fits(a) && name in Attributes
    ensures GetAttr(SetAttr(s, a), name) == if a.name == name then a.value else GetAttr(s, name)
  {
    if a.name !in Attributes {
      assert SetAttr(s, a) == s;
    }
  }

  /** After the assignments, every attribute holds the last value assigned
      to it, or its old value when none names it. */
  lemma {:induction false} ApplyAllGetAttr(s: CodeSession, us: seq<Assignment>, name: string)
    requires AllFit(us) && name in Attributes
    ensures GetAttr(ApplyAll(s, us), name)
            == if LastAssigned(us, name).Some? then LastAssigned(us, name).value else GetAttr(s, name)
    decreases |us|
  {
    if us != [] {
      ApplyAllGetAttr(SetAttr(s, us[0]), us[1..], name);
      SetAttrGetAttr(s, us[0], name);
    }
  }

  /** Two records agree on every attribute only if they are equal. */
  lemma AttributesDetermineSession(a: CodeSession, b: CodeSession)
    requires forall n :: n in Attributes ==> GetAttr(a, n) == GetAttr(b, n)
    ensures a == b
  {
    assert GetAttr(a, "session_id") == GetAttr(b, "session_id");
    assert GetAttr(a, "user_ip") == GetAttr(b, "user_ip");
    assert GetAttr(a, "problem_id") == GetAttr(b, "problem_id");
    assert GetAttr(a, "problem_title") == GetAttr(b, "problem_title");
    assert GetAttr(a, "current_code") == GetAttr(b, "current_code");
    assert GetAttr(a, "language") == GetAttr(b, "language");
    assert GetAttr(a, "hint_level") == GetAttr(b, "hint_level");
    assert GetAttr(a, "last_updated") == GetAttr(b, "last_updated");
    assert GetAttr(a, "message_count") == GetAttr(b, "message_count");
    assert GetAttr(a, "created_at") == GetAttr(b, "created_at");
    assert GetAttr(a, "conversation_history") == GetAttr(b, "conversation_history");
  }

  /** Assignments to names that are not attributes change nothing. */
  lemma {:induction false} UnknownNamesIgnored(s: CodeSession, us: seq<Assignment>)
    requires AllFit(us)
    requires forall i :: 0 <= i < |us| ==> us[i].name !in Attributes
    ensures ApplyAll(s, us) == s
    decreases |us|
  {
    if us != [] {
      UnknownNamesIgnored(s, us[1..]);
    }
  }

  // -----------------------------------------------------------------------
  // Age-based expiry

  /** `(now - last_updated).total_seconds() / 3600 > max_age_hours`. */
  predicate Expired(s: CodeSession, maxAgeHours: int, now: int)
  {
    (now - s.lastUpdated) as real / 3600.0 > maxAgeHours as real
  }

  /** The age test in whole seconds: strictly older than the limit. */
  lemma ExpiredInSeconds(s: CodeSession, maxAgeHours: int, now: int)
    ensures Expired(s, maxAgeHours, now) <==> now - s.lastUpdated > maxAgeHours * 3600
  {
    var age := (now - s.lastUpdated) as real;
    assert age / 3600.0 > maxAgeHours as real <==> age > (maxAgeHours * 3600) as real;
  }

  function StaleIds(m: map<string, CodeSession>, maxAgeHours: int, now: int): set<string>
  {
    set id | id in m && Expired(m[id], maxAgeHours, now)
  }

  function FreshSessions(m: map<string, CodeSession>, maxAgeHours: int, now: int): map<string, CodeSession>
  {
    map id | id in m && !Expired(m[id], maxAgeHours, now) :: m[id]
  }

  /** Keeping the fresh sessions is deleting the stale ids. */
  lemma FreshIsRemoval(m: map<string, CodeSession>, maxAgeHours: int, now: int)
    ensures FreshSessions(m, maxAgeHours, now) == m - StaleIds(m, maxAgeHours, now)
  {
    var kept := FreshSessions(m, maxAgeHours, now);
    var rest := m - StaleIds(m, maxAgeHours, now);
    assert kept.Keys == rest.Keys;
    assert forall id :: id in kept ==> kept[id] == rest[id];
  }

  /** Cleanup splits the table: each session is either dropped (and
      counted) or kept unchanged, never both. */
  lemma CleanupPartition(m: map<string, CodeSession>, maxAgeHours: int, now: int)
    ensures StaleIds(m, maxAgeHours, now) !! FreshSessions(m, maxAgeHours, now).Keys
    ensures StaleIds(m, maxAgeHours, now) + FreshSessions(m, maxAgeHours, now).Keys == m.Keys
    ensures |StaleIds(m, maxAgeHours, now)| + |FreshSessions(m, maxAgeHours, now)| == |m|
  {
    var stale := StaleIds(m, maxAgeHours, now);
    var kept := FreshSessions(m, maxAgeHours, now).Keys;
    assert stale + kept == m.Keys;
    assert |stale + kept| == |stale| + |kept|;
  }

  // -----------------------------------------------------------------------
  // Bounded conversation history

  /** Python's `s[-n:]`. */
  function PySuffix<T>(s: seq<T>, n: int): (r: seq<T>)
    ensures |r| <= |s| && r == s[|s| - |r|..]
    ensures n == 0 ==> r == s
    ensures n > 0 ==> |r| == if |s| < n then |s| else n
  {
    if n > 0 then s[(if |s| > n then |s| - n else 0)..]
    else s[(if -n < |s| then -n else |s|)..]
  }

  /** `if len(h) > max_messages: h = h[-max_messages:]`. */
  function Trim<T>(h: seq<T>, maxMessages: int): seq<T>
  {
    if |h| > maxMessages then PySuffix(h, maxMessages) else h
  }

  /** Appending then trimming keeps the last `maxMessages` messages: the
      new one last, the older ones in order. */
  lemma TrimKeepsNewest<T>(h: seq<T>, m: T, maxMessages: int)
    requires maxMessages >= 1
    ensures var t := Trim(h + [m], maxMessages);
      && |t| == (if |h| + 1 <= maxMessages then |h| + 1 else maxMessages)
      && t == (h + [m])[|h| + 1 - |t|..]
      && t[|t| - 1] == m
  {
  }

  /** With `max_messages == 0` the slice `h[-0:]` is the whole list, so
      nothing is ever dropped. */
  lemma TrimZeroKeepsAll<T>(h: seq<T>)
    ensures Trim(h, 0) == h
  {
  }

  /** Whatever the bound, trimming never lengthens the history. */
  lemma TrimNeverGrows<T>(h: seq<T>, maxMessages: int)
    ensures |Trim(h, maxMessages)| <= |h|
  {
  }

  /** The record after `add_message`: trimmed history, one more message
      counted, `last_updated` refreshed. */
  function WithMessage(s: CodeSession, m: Message, maxMessages: int, now: int): (r: CodeSession)
    ensures r.messageCount == s.messageCount + 1
    ensures |r.history| <= |s.history| + 1
    ensures maxMessages >= 1 ==> 1 <= |r.history| <= maxMessages && r.history[|r.history| - 1] == m
    ensures r == s.(history := r.history, messageCount := r.messageCount, lastUpdated := now)
  {
    AppendThenTrim(s.history, m, maxMessages);
    s.(history := Trim(s.history + [m], maxMessages), messageCount := s.messageCount + 1, lastUpdated := now)
  }

  /** What `WithMessage` needs of the trimmed history. */
  lemma AppendThenTrim<T>(h: seq<T>, m: T, maxMessages: int)
    ensures var t := Trim(h + [m], maxMessages);
      && |t| <= |h| + 1
      && (maxMessages >= 1 ==> 1 <= |t| <= maxMessages && t[|t| - 1] == m)
  {
    TrimNeverGrows(h + [m], maxMessages);
    if maxMessages >= 1 {
      TrimKeepsNewest(h, m, maxMessages);
    }
  }

  // -----------------------------------------------------------------------
  // Conversation summary

  function RoleLabel(role: string): (r: string)
    ensures r == "User" <==> role == "user"
  {
    if role == "user" then "User" else "You (AI)"
  }

  /** A message's content as a summary line shows it. */
  function Shortened(content: string): (r: string)
    ensures |content| <= SummaryContentLimit ==> r == content
    ensures |content| > SummaryContentLimit ==>
      |r| == SummaryContentLimit + 3 && r[..SummaryContentLimit] == content[..SummaryContentLimit]
      && r[SummaryContentLimit..] == "..."
  {
    if |content| > SummaryContentLimit then content[..SummaryContentLimit] + "..." else content
  }

  function SummaryLine(m: Message): string
  {
    "- " + RoleLabel(m.role) + ": " + Shortened(m.content)
  }

  /** The messages a summary covers: the last `2 * maxExchanges`. */
  function Recent(h: seq<Message>, maxExchanges: int): seq<Message>
  {
    PySuffix(h, maxExchanges * 2)
  }

  function SummaryLines(recent: seq<Message>): (lines: seq<string>)
    ensures |lines| == |recent| + 2
    ensures lines[0] == SummaryHeader && lines[|lines| - 1] == SummaryFooter
    ensures forall i :: 0 <= i < |recent| ==> lines[i + 1] == SummaryLine(recent[i])
  {
    [SummaryHeader] + seq(|recent|, i requires 0 <= i < |recent| => SummaryLine(recent[i])) + [SummaryFooter]
  }

  /** The loop of `get_conversation_summary`: one line per message, the
      content cut to 150 characters, between the header and the footer. */
  method FormatLines(recent: seq<Message>) returns (lines: seq<string>)
    ensures lines == SummaryLines(recent)
  {
    lines := [SummaryHeader];
    var i := 0;
    while i < |recent|
      invariant 0 <= i <= |recent|
      invariant |lines| == i + 1 && lines[0] == SummaryHeader
      invariant forall k :: 0 <= k < i ==> lines[k + 1] == SummaryLine(recent[k])
    {
      var content := recent[i].content;
      if |content| > SummaryContentLimit {
        content := content[..SummaryContentLimit] + "...";
      }
      var line := "- " + RoleLabel(recent[i].role) + ": " + content;
      assert line == SummaryLine(recent[i]);
      lines := lines + [line];
      i := i + 1;
    }
    lines := lines + [SummaryFooter];
    LinesAreSummaryLines(lines, recent);
  }

  /** A list shaped like the summary lines of `recent` is those lines. */
  lemma LinesAreSummaryLines(lines: seq<string>, recent: seq<Message>)
    requires |lines| == |recent| + 2
    requires lines[0] == SummaryHeader && lines[|lines| - 1] == SummaryFooter
    requires forall k :: 0 <= k < |recent| ==> lines[k + 1] == SummaryLine(recent[k])
    ensures lines == SummaryLines(recent)
  {
    var wanted := SummaryLines(recent);
    forall k | 0 <= k < |lines| ensures lines[k] == wanted[k] {
      if 0 < k < |lines| - 1 {
        assert lines[(k - 1) + 1] == SummaryLine(recent[k - 1]);
      }
    }
  }

  /** `get_conversation_summary` on a looked-up session. */
  function Summary(session: Option<CodeSession>, maxExchanges: int): string
  {
    if session.None? || session.value.history == [] then ""
    else
      var recent := Recent(session.value.history, maxExchanges);
      if recent == [] then "" else Join(SummaryLines(recent), "\n")
  }

  /** A non-empty summary is framed by the header and footer lines. */
  lemma SummaryFramed(session: Option<CodeSession>, maxExchanges: int)
    requires Summary(session, maxExchanges) != ""
    ensures var r := Summary(session, maxExchanges);
      && |r| >= 1 + |SummaryFooter|
      && r[..|SummaryHeader| + 1] == SummaryHeader + "\n"
      && r[|r| - 1 - |SummaryFooter|..] == "\n" + SummaryFooter
  {
    var recent := Recent(session.value.history, maxExchanges);
    JoinedLinesFramed(recent);
  }

  lemma JoinedLinesFramed(recent: seq<Message>)
    ensures var r := Join(SummaryLines(recent), "\n");
      && |r| >= 1 + |SummaryFooter|
      && r[..|SummaryHeader| + 1] == SummaryHeader + "\n"
      && r[|r| - 1 - |SummaryFooter|..] == "\n" + SummaryFooter
  {
    JoinFramedBy(SummaryLines(recent), SummaryHeader, SummaryFooter, "\n");
  }

  lemma JoinFramedBy(lines: seq<string>, first: string, last: string, sep: string)
    requires |lines| >= 2 && lines[0] == first && lines[|lines| - 1] == last
    ensures var r := Join(lines, sep);
      && |r| >= |sep| + |last|
      && r[..|first| + |sep|] == first + sep
      && r[|r| - |sep| - |last|..] == sep + last
  {
    JoinEnds(lines, sep);
  }

  /** With at least one exchange asked for, a session with history always
      gets a summary, and it covers the newest `2 * maxExchanges` messages. */
  lemma SummaryCoversNewest(s: CodeSession, maxExchanges: int)
    requires maxExchanges >= 1 && s.history != []
    ensures Summary(Some(s), maxExchanges) == Join(SummaryLines(Recent(s.history, maxExchanges)), "\n")
    ensures var recent := Recent(s.history, maxExchanges);
      && |recent| == (if |s.history| < 2 * maxExchanges then |s.history| else 2 * maxExchanges)
      && recent == s.history[|s.history| - |recent|..]
  {
  }

  /** With at least one exchange asked for, the summary is empty exactly
      when the history is. */
  lemma SummaryPresentIffHistory(s: CodeSession, maxExchanges: int)
    requires maxExchanges >= 1
    ensures Summary(Some(s), maxExchanges) != "" <==> s.history != []
  {
    if s.history != [] {
      SummaryCoversNewest(s, maxExchanges);
      JoinedLinesFramed(Recent(s.history, maxExchanges));
    }
  }

  // -----------------------------------------------------------------------
  // The store

  /** What every handler keeps true of each stored record. */
  predicate WellFormed(id: string, s: CodeSession)
  {
    && s.sessionId == id
    && 0 <= s.hintLevel <= MaxHintLevel
    && |s.history| <= MaxHistory
    && |s.history| <= s.messageCount
  }

  class SessionStore {
    var sessions: map<string, CodeSession>

    constructor()
      ensures sessions == map[]
    {
      sessions := map[];
    }

    ghost predicate Consistent()
      reads this
    {
      forall id :: id in sessions ==> WellFormed(id, sessions[id])
    }

    /** `get_session`. */
    function GetSession(id: string): (r: Option<CodeSession>)
      reads this
      ensures r.Some? <==> id in sessions
      ensures r.Some? ==> r.value == sessions[id]
    {
      if id in sessions then Some(sessions[id]) else None
    }

    /** `create_session`: build the record from the defaults and the keyword
        arguments, let pydantic check `hint_level` (None stands for its
        ValidationError), and store it, replacing any record with that id. */
    method CreateSession(id: string, userIp: string, kwargs: seq<Assignment>, now: int) returns (r: Option<CodeSession>)
      requires AllFit(kwargs)
      requires forall i :: 0 <= i < |kwargs| ==> kwargs[i].name != "session_id" && kwargs[i].name != "user_ip"
      modifies this
      ensures var rec := ApplyAll(DefaultSession(id, userIp, now), kwargs);
        && (r.Some? <==> 0 <= rec.hintLevel <= MaxHintLevel)
        && (r.Some? ==> r.value == rec && sessions == old(sessions)[id := rec])
        && (r.None? ==> sessions == old(sessions))
    {
      var rec := ApplyAll(DefaultSession(id, userIp, now), kwargs);
      if 0 <= rec.hintLevel <= MaxHintLevel {
        sessions := sessions[id := rec];
        r := Some(rec);
      } else {
        r := None;
      }
    }

    /** `update_session`: on an unknown id nothing happens; otherwise each
        keyword naming an attribute is set in turn and `last_updated` is
        refreshed. */
    method UpdateSession(id: string, updates: seq<Assignment>, now: int) returns (r: Option<CodeSession>)
      requires AllFit(updates)
      modifies this
      ensures id !in old(sessions) ==> r == None && sessions == old(sessions)
      ensures id in old(sessions) ==>
        var rec := ApplyAll(old(sessions)[id], updates).(lastUpdated := now);
        r == Some(rec) && sessions == old(sessions)[id := rec]
    {
      if id !in sessions {
        return None;
      }
      var session := sessions[id];
      var i := 0;
      while i < |updates|
        invariant 0 <= i <= |updates|
        invariant ApplyAll(session, updates[i..]) == ApplyAll(old(sessions)[id], updates)
      {
        assert updates[i..][1..] == updates[i + 1..];
        session := SetAttr(session, updates[i]);
        i := i + 1;
      }
      session := session.(lastUpdated := now);
      sessions := sessions[id := session];
      r := Some(session);
    }

    /** `cleanup_old_sessions`: collect the expired ids, then delete them. */
    method CleanupOldSessions(maxAgeHours: int, now: int) returns (removed: nat)
      modifies this
      ensures sessions == FreshSessions(old(sessions), maxAgeHours, now)
      ensures removed == |StaleIds(old(sessions), maxAgeHours, now)|
      ensures old(Consistent()) ==> Consistent()
    {
      var toRemove: set<string> := {};
      var pending := sessions.Keys;
      while pending != {}
        invariant pending <= sessions.Keys
        invariant toRemove == set id | id in sessions.Keys - pending && Expired(sessions[id], maxAgeHours, now)
        decreases pending
      {
        var id :| id in pending;
        if Expired(sessions[id], maxAgeHours, now) {
          toRemove := toRemove + {id};
        }
        pending := pending - {id};
      }
      assert toRemove == StaleIds(sessions, maxAgeHours, now);
      removed := |toRemove|;
      var doomed := toRemove;
      while doomed != {}
        invariant doomed <= toRemove
        invariant sessions == old(sessions) - (toRemove - doomed)
        decreases doomed
      {
        var id :| id in doomed;
        sessions := sessions - {id};
        doomed := doomed - {id};
      }
      assert toRemove - doomed == toRemove;
      FreshIsRemoval(old(sessions), maxAgeHours, now);
    }

    /** `add_message`: false on an unknown id; otherwise append, trim to the
        last `maxMessages`, count the message and refresh `last_updated`. */
    method AddMessage(id: string, role: string, content: string, maxMessages: int, now: int) returns (ok: bool)
      modifies this
      ensures ok <==> id in old(sessions)
      ensures !ok ==> sessions == old(sessions)
      ensures ok ==> sessions == old(sessions)[id := WithMessage(old(sessions)[id], Message(role, content, now), maxMessages, now)]
      ensures old(Consistent()) && 1 <= maxMessages <= MaxHistory ==> Consistent()
    {
      if id !in sessions {
        return false;
      }
      var session := sessions[id];
      var history := session.history + [Message(role, content, now)];
      if |history| > maxMessages {
        history := PySuffix(history, maxMessages);
      }
      session := session.(history := history, messageCount := session.messageCount + 1, lastUpdated := now);
      sessions := sessions[id := session];
      ok := true;
    }

    /** `get_conversation_summary`: header, one line per recent message,
        footer, joined with newlines; "" when there is nothing to tell. */
    method GetConversationSummary(id: string, maxExchanges: int := MaxExchanges) returns (summary: string)
      ensures summary == Summary(GetSession(id), maxExchanges)
    {
      if id !in sessions || sessions[id].history == [] {
        return "";
      }
      var recent := PySuffix(sessions[id].history, maxExchanges * 2);
      if recent == [] {
        return "";
      }
      var lines := FormatLines(recent);
      summary := Join(lines, "\n");
    }
  }
}
