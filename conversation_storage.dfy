/** The conversation store: three SQLite tables (sessions, messages, insights)
    held in memory. The statements that change a table are methods of
    `ConversationStore`; the read-only queries are functions over the tables'
    contents. Time is an abstract clock value supplied by the caller. */
module ConversationStorage {
  import opened Wrappers
  import opened Sql

  /** `user_name` when `createSession` is called without one. */
  const DefaultUserName: string := "معاوية"
  /** `model` when `saveMessage`'s metadata names none. */
  const DefaultModel: string := "claude-sonnet-4-20250514"
  /** `importance` when `saveInsight` is called without one. */
  const DefaultImportance: string := "medium"
  /** The history limit `exportConversation` uses. */
  const ExportHistoryLimit: int := 1000
  /** The message `clearConversation` resolves with. */
  const ArchivedNotice: string := "تم أرشفة المحادثة"

  datatype Status = Active | Archived

  /** A row of `sessions`, without its key `session_id`. */
  datatype Session = Session(
    userName: string,
    createdAt: nat,
    updatedAt: nat,
    messageCount: nat,
    status: Status)

  /** A row of `messages`. `cost_usd` is not modelled. */
  datatype Message = Message(
    id: nat,
    sessionId: string,
    role: string,
    content: string,
    timestamp: nat,
    tokensInput: Nullable<int>,
    tokensOutput: Nullable<int>,
    model: string)

  /** The optional metadata of `saveMessage`. */
  datatype Metadata = Metadata(
    tokensInput: Nullable<int>,
    tokensOutput: Nullable<int>,
    model: Option<string>)

  const NoMetadata: Metadata := Metadata(Null, Null, None)

  /** What `saveMessage` resolves with. */
  datatype SavedMessage = SavedMessage(id: nat, sessionId: string, role: string, content: string)

  /** A row of `insights`. */
  datatype Insight = Insight(
    id: nat,
    sessionId: string,
    messageId: Nullable<int>,
    category: string,
    content: string,
    importance: string,
    timestamp: nat)

  /** The columns `getHistory` selects. */
  datatype HistoryRow = HistoryRow(
    role: string,
    content: string,
    timestamp: nat,
    tokensInput: Nullable<int>,
    tokensOutput: Nullable<int>)

  /** The row `getSessionStats` returns (without `total_cost`). */
  datatype SessionStats = SessionStats(
    totalMessages: nat,
    userMessages: Nullable<int>,
    assistantMessages: Nullable<int>,
    totalTokensInput: Nullable<int>,
    totalTokensOutput: Nullable<int>,
    firstMessage: Nullable<int>,
    lastMessage: Nullable<int>)

  /** The row `getDatabaseStats` returns (without `total_cost`). */
  datatype DatabaseStats = DatabaseStats(
    totalSessions: nat,
    activeSessions: nat,
    totalMessages: nat,
    totalInsights: nat)

  /** A row of `getAllSessions`: `SELECT *` includes the key. */
  datatype SessionRow = SessionRow(sessionId: string, session: Session)

  /** What `clearConversation` resolves with. */
  datatype Cleared = Cleared(message: string, sessionId: string)

  /** What `exportConversation` resolves with, without `exported_at`.
      `session` is absent when no row has the id. */
  datatype Export = Export(
    session: Option<Session>,
    messages: seq<HistoryRow>,
    insights: seq<Insight>,
    stats: SessionStats)

  // ---------------------------------------------------------------------
  // Row order and selection

  /** Every earlier row stands in relation `before` to every later one. */
  predicate SortedBy<T>(rows: seq<T>, before: (T, T) -> bool)
  {
    forall i, j :: 0 <= i < j < |rows| ==> before(rows[i], rows[j])
  }

  /** The AUTOINCREMENT ids of the rows grow with their position. */
  predicate IdsIncreasing(msgs: seq<Message>)
  {
    SortedBy(msgs, (a: Message, b: Message) => a.id < b.id)
  }

  /** Timestamps never go backwards in insertion order. */
  predicate Chronological(msgs: seq<Message>)
  {
    SortedBy(msgs, (a: Message, b: Message) => a.timestamp <= b.timestamp)
  }

  predicate InsightIdsIncreasing(ins: seq<Insight>)
  {
    SortedBy(ins, (a: Insight, b: Insight) => a.id < b.id)
  }

  predicate InsightsChronological(ins: seq<Insight>)
  {
    SortedBy(ins, (a: Insight, b: Insight) => a.timestamp <= b.timestamp)
  }

  /** A `WHERE` clause: the rows that satisfy `keep`, in table order. */
  function Where<T(!new)>(rows: seq<T>, keep: T -> bool): (r: seq<T>)
    ensures |r| <= |rows|
    ensures forall x :: x in r <==> x in rows && keep(x)
  {
    if rows == [] then []
    else (if keep(rows[0]) then [rows[0]] else []) + Where(rows[1..], keep)
  }

  lemma {:induction false} WhereAppend<T(!new)>(rows: seq<T>, x: T, keep: T -> bool)
    ensures Where(rows + [x], keep) == Where(rows, keep) + (if keep(x) then [x] else [])
  {
    if rows != [] {
      assert (rows + [x])[1..] == rows[1..] + [x];
      WhereAppend(rows[1..], x, keep);
    } else {
      assert Where([x][1..], keep) == [];
    }
  }

  /** A `WHERE` that no row satisfies selects nothing. */
  lemma {:induction false} WhereNone<T(!new)>(rows: seq<T>, keep: T -> bool)
    ensures (forall x | x in rows :: !keep(x)) ==> Where(rows, keep) == []
  {
    if rows != [] {
      assert forall x | x in rows[1..] :: x in rows;
      WhereNone(rows[1..], keep);
    }
  }

  /** Selecting rows keeps any order the table had. */
  lemma {:induction false} WhereKeepsOrder<T(!new)>(rows: seq<T>, keep: T -> bool, before: (T, T) -> bool)
    requires SortedBy(rows, before)
    ensures SortedBy(Where(rows, keep), before)
  {
    if rows != [] {
      assert SortedBy(rows[1..], before) by {
        forall i, j | 0 <= i < j < |rows[1..]| ensures before(rows[1..][i], rows[1..][j]) {
          assert rows[1..][i] == rows[i + 1] && rows[1..][j] == rows[j + 1];
        }
      }
      WhereKeepsOrder(rows[1..], keep, before);
      var tail := Where(rows[1..], keep);
      forall y | y in tail ensures before(rows[0], y) {
        var k :| 0 <= k < |rows[1..]| && rows[1..][k] == y;
        assert rows[k + 1] == y;
      }
    }
  }

  /** SQL `LIMIT n`: at most `n` rows; SQLite reads a negative limit as no limit. */
  function Limit<T>(rows: seq<T>, limit: int): seq<T>
  {
    if limit < 0 || |rows| <= limit then rows else rows[..limit]
  }

  /** How many of `n` rows `LIMIT limit` keeps. */
  function Kept(n: nat, limit: int): nat
  {
    if limit < 0 || n <= limit then n else limit
  }

  /** The last `Kept(|s|, limit)` elements of `s`, in their order. */
  function LastRows<T>(s: seq<T>, limit: int): (r: seq<T>)
    ensures |r| == Kept(|s|, limit)
  {
    s[|s| - Kept(|s|, limit)..]
  }

  /** JavaScript `Array.prototype.reverse`, as a value. */
  function Reverse<T>(s: seq<T>): seq<T>
  {
    seq(|s|, i requires 0 <= i < |s| => s[|s| - 1 - i])
  }

  // ---------------------------------------------------------------------
  // Read-only queries

  /** `WHERE session_id = ?` on `messages`. */
  function MessagesOf(msgs: seq<Message>, sessionId: string): seq<Message>
  {
    Where(msgs, (m: Message) => m.sessionId == sessionId)
  }

  /** `WHERE session_id = ?` on `insights`. */
  function InsightsOf(ins: seq<Insight>, sessionId: string): seq<Insight>
  {
    Where(ins, (i: Insight) => i.sessionId == sessionId)
  }

  /** The rows of `getHistory` before the column selection:
      `ORDER BY id DESC LIMIT ?` and then `reverse()`. The messages table is
      kept in id order (`IdsIncreasing`), so reversing a session's rows is
      ordering them by id, descending (see `NewestFirstIsIdDescending`). */
  function RecentMessages(msgs: seq<Message>, sessionId: string, limit: int): (r: seq<Message>)
    ensures r == LastRows(MessagesOf(msgs, sessionId), limit)
  {
    LastOfReversed(MessagesOf(msgs, sessionId), limit);
    Reverse(Limit(Reverse(MessagesOf(msgs, sessionId)), limit))
  }

  function ToHistoryRow(m: Message): HistoryRow
  {
    HistoryRow(m.role, m.content, m.timestamp, m.tokensInput, m.tokensOutput)
  }

  /** `getHistory(sessionId, limit)`. */
  function GetHistory(msgs: seq<Message>, sessionId: string, limit: int): (r: seq<HistoryRow>)
    ensures |r| == Kept(|MessagesOf(msgs, sessionId)|, limit)
  {
    var recent := RecentMessages(msgs, sessionId, limit);
    seq(|recent|, i requires 0 <= i < |recent| => ToHistoryRow(recent[i]))
  }

  /** Reversing a session's rows in the id-ordered table lists them by id,
      newest first: this is what `ORDER BY id DESC` returns. */
  lemma NewestFirstIsIdDescending(msgs: seq<Message>, sessionId: string)
    requires IdsIncreasing(msgs)
    ensures var d := Reverse(MessagesOf(msgs, sessionId));
      forall i, j :: 0 <= i < j < |d| ==> d[i].id > d[j].id
  {
    WhereKeepsOrder(msgs, (m: Message) => m.sessionId == sessionId, (a: Message, b: Message) => a.id < b.id);
  }

  /** The history is exactly the session's last `Kept(n, limit)` messages, in
      append order; with no effective limit it is the whole session. */
  lemma RecentIsLastOfSession(msgs: seq<Message>, sessionId: string, limit: int)
    ensures var s := MessagesOf(msgs, sessionId);
      RecentMessages(msgs, sessionId, limit) == LastRows(s, limit)
    ensures var s := MessagesOf(msgs, sessionId);
      limit < 0 || |s| <= limit ==> RecentMessages(msgs, sessionId, limit) == s
  {
    LastOfReversed(MessagesOf(msgs, sessionId), limit);
  }

  /** Reversing, keeping the first `limit` and reversing back keeps the
      last `limit`. */
  lemma LastOfReversed<T>(s: seq<T>, limit: int)
    ensures Reverse(Limit(Reverse(s), limit)) == LastRows(s, limit)
  {
    var k := Kept(|s|, limit);
    var r := Reverse(Limit(Reverse(s), limit));
    var t := LastRows(s, limit);
    assert |r| == k == |t|;
    forall i | 0 <= i < k ensures r[i] == t[i] {
      assert Limit(Reverse(s), limit)[k - 1 - i] == Reverse(s)[k - 1 - i];
    }
  }

  /** `getHistory` returns the last `min(limit, n)` messages of the session,
      oldest first, in ascending id order. */
  lemma HistoryIsLastRows(msgs: seq<Message>, sessionId: string, limit: int)
    ensures var s := MessagesOf(msgs, sessionId); var h := GetHistory(msgs, sessionId, limit);
      var k := Kept(|s|, limit);
      && (limit >= 0 ==> |h| <= limit)
      && |h| <= |s|
      && (forall i :: 0 <= i < k ==> h[i] == ToHistoryRow(s[|s| - k + i]))
  {
    RecentIsLastOfSession(msgs, sessionId, limit);
  }

  /** The history comes in ascending id order. */
  lemma RecentInIdOrder(msgs: seq<Message>, sessionId: string, limit: int)
    requires IdsIncreasing(msgs)
    ensures var r := RecentMessages(msgs, sessionId, limit);
      forall i, j :: 0 <= i < j < |r| ==> r[i].id < r[j].id
  {
    var s := MessagesOf(msgs, sessionId);
    RecentIsLastOfSession(msgs, sessionId, limit);
    WhereKeepsOrder(msgs, (m: Message) => m.sessionId == sessionId, (a: Message, b: Message) => a.id < b.id);
    LastRowsKeepOrder(s, limit, (a: Message, b: Message) => a.id < b.id);
  }

  /** The last rows of a sorted table are sorted the same way. */
  lemma LastRowsKeepOrder<T>(s: seq<T>, limit: int, before: (T, T) -> bool)
    requires SortedBy(s, before)
    ensures SortedBy(LastRows(s, limit), before)
  {
    var r := LastRows(s, limit);
    var d := |s| - |r|;
    forall i, j | 0 <= i < j < |r| ensures before(r[i], r[j]) {
      assert r[i] == s[d + i] && r[j] == s[d + j];
    }
  }

  /** `CASE WHEN role = ? THEN 1 ELSE 0 END`, row by row. */
  function RoleFlags(rows: seq<Message>, role: string): seq<Nullable<int>>
  {
    seq(|rows|, i requires 0 <= i < |rows| => Value(if rows[i].role == role then 1 else 0))
  }

  function TokensInputColumn(rows: seq<Message>): seq<Nullable<int>>
  {
    seq(|rows|, i requires 0 <= i < |rows| => rows[i].tokensInput)
  }

  function TokensOutputColumn(rows: seq<Message>): seq<Nullable<int>>
  {
    seq(|rows|, i requires 0 <= i < |rows| => rows[i].tokensOutput)
  }

  function TimestampColumn(rows: seq<Message>): seq<int>
  {
    seq(|rows|, i requires 0 <= i < |rows| => rows[i].timestamp)
  }

  /** How many of the rows carry the role. */
  function CountRole(rows: seq<Message>, role: string): nat
  {
    |Where(rows, (m: Message) => m.role == role)|
  }

  /** `getSessionStats(sessionId)`. */
  function GetSessionStats(msgs: seq<Message>, sessionId: string): (r: SessionStats)
    ensures r.totalMessages == |MessagesOf(msgs, sessionId)|
    ensures r.totalMessages == 0 <==> forall m | m in msgs :: m.sessionId != sessionId
  {
    var rows := MessagesOf(msgs, sessionId);
    assert rows != [] ==> rows[0] in rows;
    SessionStats(
      |rows|,
      Sum(RoleFlags(rows, "user")),
      Sum(RoleFlags(rows, "assistant")),
      Sum(TokensInputColumn(rows)),
      Sum(TokensOutputColumn(rows)),
      Min(TimestampColumn(rows)),
      Max(TimestampColumn(rows)))
  }

  /** Summing the 1/0 role flags counts the rows with that role; over no
      rows the `SUM` is NULL. */
  lemma {:induction false} RoleFlagsSum(rows: seq<Message>, role: string)
    ensures NonNull(RoleFlags(rows, role)) != [] <==> rows != []
    ensures rows != [] ==> Total(NonNull(RoleFlags(rows, role))) == CountRole(rows, role)
  {
    if rows != [] {
      assert RoleFlags(rows, role)[0] == Value(if rows[0].role == role then 1 else 0);
      assert RoleFlags(rows, role)[1..] == RoleFlags(rows[1..], role);
      RoleFlagsSum(rows[1..], role);
    }
  }

  /** What each field of `getSessionStats` means. */
  lemma SessionStatsMeaning(msgs: seq<Message>, sessionId: string)
    ensures var rows := MessagesOf(msgs, sessionId); var st := GetSessionStats(msgs, sessionId);
      && st.totalMessages == |rows|
      && st.userMessages == (if rows == [] then Null else Value(CountRole(rows, "user")))
      && st.assistantMessages == (if rows == [] then Null else Value(CountRole(rows, "assistant")))
      && st.totalTokensInput == (if NonNull(TokensInputColumn(rows)) == [] then Null
                                 else Value(Total(NonNull(TokensInputColumn(rows)))))
      && st.totalTokensOutput == (if NonNull(TokensOutputColumn(rows)) == [] then Null
                                  else Value(Total(NonNull(TokensOutputColumn(rows)))))
  {
    var rows := MessagesOf(msgs, sessionId);
    RoleFlagsSum(rows, "user");
    RoleFlagsSum(rows, "assistant");
    SumIsTotalOfNonNull(RoleFlags(rows, "user"));
    SumIsTotalOfNonNull(RoleFlags(rows, "assistant"));
    SumIsTotalOfNonNull(TokensInputColumn(rows));
    SumIsTotalOfNonNull(TokensOutputColumn(rows));
  }

  /** A session without messages gets a count of 0 and NULL for every `SUM`,
      `MIN` and `MAX`; no error. */
  lemma EmptySessionStats(msgs: seq<Message>, sessionId: string)
    requires forall m | m in msgs :: m.sessionId != sessionId
    ensures GetSessionStats(msgs, sessionId) == SessionStats(0, Null, Null, Null, Null, Null, Null)
  {
    NoMessagesOf(msgs, sessionId);
  }

  lemma NoMessagesOf(msgs: seq<Message>, sessionId: string)
    requires forall m | m in msgs :: m.sessionId != sessionId
    ensures MessagesOf(msgs, sessionId) == []
  {
    WhereNone(msgs, (m: Message) => m.sessionId == sessionId);
  }

  /** With timestamps that never go backwards, the first and last message
      times are those of the session's first and last message. */
  lemma StatsTimeBounds(msgs: seq<Message>, sessionId: string)
    requires Chronological(msgs)
    ensures var rows := MessagesOf(msgs, sessionId); var st := GetSessionStats(msgs, sessionId);
      rows != [] ==> st.firstMessage == Value(rows[0].timestamp) && st.lastMessage == Value(rows[|rows| - 1].timestamp)
  {
    WhereKeepsOrder(msgs, (m: Message) => m.sessionId == sessionId, (a: Message, b: Message) => a.timestamp <= b.timestamp);
    FirstAndLastTimes(MessagesOf(msgs, sessionId));
  }

  /** Over rows in time order, `MIN(timestamp)` is the first row's time and
      `MAX(timestamp)` the last row's. */
  lemma FirstAndLastTimes(rows: seq<Message>)
    requires Chronological(rows)
    ensures rows != [] ==>
      && Min(TimestampColumn(rows)) == Value(rows[0].timestamp)
      && Max(TimestampColumn(rows)) == Value(rows[|rows| - 1].timestamp)
  {
    if rows != [] {
      var ts := TimestampColumn(rows);
      forall i | 0 <= i < |ts| ensures ts[0] <= ts[i] <= ts[|ts| - 1] {
        if 0 < i {
          assert rows[0].timestamp <= rows[i].timestamp;
        }
        if i < |ts| - 1 {
          assert rows[i].timestamp <= rows[|rows| - 1].timestamp;
        }
      }
      MinIsLeast(ts, 0);
      MaxIsGreatest(ts, |ts| - 1);
    }
  }

  /** `getInsights(sessionId)`: `ORDER BY timestamp DESC`. Rows with equal
      timestamps may come in any order; this model lists them newest
      insertion first. */
  function GetInsights(ins: seq<Insight>, sessionId: string): (r: seq<Insight>)
    ensures multiset(r) == multiset(InsightsOf(ins, sessionId))
    ensures forall x :: x in r <==> x in ins && x.sessionId == sessionId
  {
    var s := InsightsOf(ins, sessionId);
    ReversePermutes(s);
    assert forall x :: x in Reverse(s) <==> x in multiset(Reverse(s));
    Reverse(s)
  }

  /** Reversing rows lists each of them as often as before. */
  lemma {:induction false} ReversePermutes<T>(s: seq<T>)
    ensures multiset(Reverse(s)) == multiset(s)
    decreases |s|
  {
    if s != [] {
      ReversePermutes(s[1..]);
      assert Reverse(s) == Reverse(s[1..]) + [s[0]];
      assert s == [s[0]] + s[1..];
    }
  }

  /** `getInsights` returns exactly the session's insights, each once,
      latest timestamp first. */
  lemma InsightsNewestFirst(ins: seq<Insight>, sessionId: string)
    requires InsightsChronological(ins)
    ensures var r := GetInsights(ins, sessionId);
      && |r| == |InsightsOf(ins, sessionId)|
      && multiset(r) == multiset(InsightsOf(ins, sessionId))
      && (forall x :: x in r <==> x in ins && x.sessionId == sessionId)
      && (forall i, j :: 0 <= i < j < |r| ==> r[i].timestamp >= r[j].timestamp)
  {
    var s := InsightsOf(ins, sessionId);
    WhereKeepsOrder(ins, (i: Insight) => i.sessionId == sessionId, (a: Insight, b: Insight) => a.timestamp <= b.timestamp);
    var r := GetInsights(ins, sessionId);
    forall x ensures x in r <==> x in s {
      if x in s {
        var k :| 0 <= k < |s| && s[k] == x;
        assert r[|s| - 1 - k] == x;
      }
    }
  }

  /** The ids of the sessions whose status is `'active'`. */
  function ActiveIds(sessions: map<string, Session>): set<string>
  {
    set id | id in sessions && sessions[id].status == Active
  }

  /** `getDatabaseStats()`. */
  function GetDatabaseStats(sessions: map<string, Session>, msgs: seq<Message>, ins: seq<Insight>): (r: DatabaseStats)
    ensures r.activeSessions <= r.totalSessions
  {
    SubsetNoLarger(ActiveIds(sessions), sessions.Keys);
    DatabaseStats(|sessions|, |ActiveIds(sessions)|, |msgs|, |ins|)
  }

  lemma {:induction false} SubsetNoLarger<T>(a: set<T>, b: set<T>)
    requires a <= b
    ensures |a| <= |b|
    decreases |b|
  {
    if a != {} {
      var x :| x in a;
      SubsetNoLarger(a - {x}, b - {x});
    }
  }

  /** Writing one session row changes the active set only at that id. */
  lemma ActiveIdsUpdate(sessions: map<string, Session>, id: string, s: Session)
    ensures ActiveIds(sessions[id := s]) == (ActiveIds(sessions) - {id}) + (if s.status == Active then {id} else {})
  {
  }

  /** `exportConversation(sessionId)`. */
  function ExportConversation(sessions: map<string, Session>, msgs: seq<Message>, ins: seq<Insight>, sessionId: string): (r: Export)
    ensures r.session.Some? <==> sessionId in sessions
    ensures r.session.Some? ==> r.session.value == sessions[sessionId]
    ensures |r.messages| == Kept(r.stats.totalMessages, ExportHistoryLimit) <= ExportHistoryLimit
    ensures r.stats == GetSessionStats(msgs, sessionId) && r.stats.totalMessages == |MessagesOf(msgs, sessionId)|
    ensures r.messages == GetHistory(msgs, sessionId, ExportHistoryLimit)
    ensures r.insights == GetInsights(ins, sessionId)
    ensures (forall x | x in ins :: x.sessionId != sessionId) ==> r.insights == []
  {
    WhereNone(ins, (i: Insight) => i.sessionId == sessionId);
    Export(
      if sessionId in sessions then Some(sessions[sessionId]) else None,
      GetHistory(msgs, sessionId, ExportHistoryLimit),
      GetInsights(ins, sessionId),
      GetSessionStats(msgs, sessionId))
  }

  // ---------------------------------------------------------------------
  // The message_count invariant

  /** Every message names an existing session, and every session's
      `message_count` is the number of its messages. */
  predicate CountsAgree(sessions: map<string, Session>, msgs: seq<Message>)
  {
    && (forall m | m in msgs :: m.sessionId in sessions)
    && (forall id | id in sessions :: sessions[id].messageCount == |MessagesOf(msgs, id)|)
  }

  /** A new session with count 0 keeps the counts in agreement. */
  lemma CountsAgreeAfterCreate(sessions: map<string, Session>, msgs: seq<Message>, id: string, s: Session)
    requires id !in sessions && s.messageCount == 0
    ensures CountsAgree(sessions, msgs) ==> CountsAgree(sessions[id := s], msgs)
  {
    if CountsAgree(sessions, msgs) {
      NoMessagesOf(msgs, id);
    }
  }

  /** Appending a message to an existing session and incrementing that
      session's counter keeps the counts in agreement. */
  lemma CountsAgreeAfterSave(sessions: map<string, Session>, msgs: seq<Message>, m: Message, updatedAt: nat)
    requires m.sessionId in sessions
    ensures var s := sessions[m.sessionId];
      CountsAgree(sessions, msgs) ==>
      CountsAgree(sessions[m.sessionId := s.(messageCount := s.messageCount + 1, updatedAt := updatedAt)], msgs + [m])
  {
    forall id | id in sessions
      ensures MessagesOf(msgs + [m], id) == MessagesOf(msgs, id) + (if m.sessionId == id then [m] else [])
    {
      WhereAppend(msgs, m, (x: Message) => x.sessionId == id);
    }
  }

  // ---------------------------------------------------------------------
  // Table invariants

  /** Messages in id and time order, none newer than the AUTOINCREMENT
      counter or the clock. */
  predicate MessageTableOk(msgs: seq<Message>, lastId: nat, clock: nat)
  {
    && IdsIncreasing(msgs)
    && Chronological(msgs)
    && (forall m | m in msgs :: m.id <= lastId && m.timestamp <= clock)
  }

  predicate InsightTableOk(ins: seq<Insight>, lastId: nat, clock: nat)
  {
    && InsightIdsIncreasing(ins)
    && InsightsChronological(ins)
    && (forall x | x in ins :: x.id <= lastId && x.timestamp <= clock)
  }

  predicate SessionTableOk(sessions: map<string, Session>, clock: nat)
  {
    forall id | id in sessions :: sessions[id].createdAt <= sessions[id].updatedAt <= clock
  }

  /** Appending a row with the next id at the current time keeps the
      messages table in order. */
  lemma MessageTableAppend(msgs: seq<Message>, lastId: nat, clock: nat, m: Message)
    requires MessageTableOk(msgs, lastId, clock)
    requires m.id == lastId + 1 && clock <= m.timestamp
    ensures MessageTableOk(msgs + [m], m.id, m.timestamp)
    ensures forall x | x in msgs :: x.id < m.id
  {
    SortedAppend(msgs, m, (a: Message, b: Message) => a.id < b.id);
    SortedAppend(msgs, m, (a: Message, b: Message) => a.timestamp <= b.timestamp);
  }

  lemma InsightTableAppend(ins: seq<Insight>, lastId: nat, clock: nat, x: Insight)
    requires InsightTableOk(ins, lastId, clock)
    requires x.id == lastId + 1 && clock <= x.timestamp
    ensures InsightTableOk(ins + [x], x.id, x.timestamp)
    ensures forall y | y in ins :: y.id < x.id
  {
    SortedAppend(ins, x, (a: Insight, b: Insight) => a.id < b.id);
    SortedAppend(ins, x, (a: Insight, b: Insight) => a.timestamp <= b.timestamp);
  }

  /** Refreshing one session's `updated_at` to the current time keeps the
      sessions table in order. */
  lemma SessionTouch(sessions: map<string, Session>, id: string, now: nat)
    requires SessionTableOk(sessions, now) && id in sessions
    ensures var s := sessions[id];
      SessionTableOk(sessions[id := s.(messageCount := s.messageCount + 1, updatedAt := now)], now)
  {
  }

  /** Time moving forward keeps every table invariant. */
  lemma ClockAdvance(msgs: seq<Message>, lastMessageId: nat, ins: seq<Insight>, lastInsightId: nat,
                     sessions: map<string, Session>, clock: nat, now: nat)
    requires clock <= now
    requires MessageTableOk(msgs, lastMessageId, clock)
    requires InsightTableOk(ins, lastInsightId, clock)
    requires SessionTableOk(sessions, clock)
    ensures MessageTableOk(msgs, lastMessageId, now)
    ensures InsightTableOk(ins, lastInsightId, now)
    ensures SessionTableOk(sessions, now)
  {
  }

  // ---------------------------------------------------------------------
  // The store

  class ConversationStore {
    var sessions: map<string, Session>
    var messages: seq<Message>
    var insights: seq<Insight>
    /** The AUTOINCREMENT counters: the largest ids ever handed out. */
    var lastMessageId: nat
    var lastInsightId: nat
    /** The latest time the store has seen. */
    var clock: nat

    ghost predicate Valid()
      reads this
    {
      && MessageTableOk(messages, lastMessageId, clock)
      && InsightTableOk(insights, lastInsightId, clock)
      && SessionTableOk(sessions, clock)
    }

    /** Empty tables (the schema creation). */
    constructor ()
      ensures Valid() && CountsAgree(sessions, messages)
      ensures sessions == map[] && messages == [] && insights == []
      ensures lastMessageId == 0 && lastInsightId == 0 && clock == 0
    {
      sessions, messages, insights := map[], [], [];
      lastMessageId, lastInsightId, clock := 0, 0, 0;
    }

    /** `createSession`: `INSERT OR IGNORE` of a new session row. */
    method CreateSession(sessionId: string, userName: Option<string>, now: nat) returns (id: string)
      requires Valid() && clock <= now
      modifies this
      ensures Valid() && clock == now
      ensures id == sessionId
      ensures sessionId in old(sessions) ==> sessions == old(sessions)
      ensures sessionId !in old(sessions) ==>
        sessions == old(sessions)[sessionId := Session(userName.GetOr(DefaultUserName), now, now, 0, Active)]
      ensures messages == old(messages) && insights == old(insights)
      ensures lastMessageId == old(lastMessageId) && lastInsightId == old(lastInsightId)
      ensures var before := GetDatabaseStats(old(sessions), old(messages), old(insights));
        var after := GetDatabaseStats(sessions, messages, insights);
        if sessionId in old(sessions) then after == before
        else after == before.(totalSessions := before.totalSessions + 1, activeSessions := before.activeSessions + 1)
      ensures old(CountsAgree(sessions, messages)) ==> CountsAgree(sessions, messages)
    {
      if sessionId !in sessions {
        var s := Session(userName.GetOr(DefaultUserName), now, now, 0, Active);
        CountsAgreeAfterCreate(sessions, messages, sessionId, s);
        ActiveIdsUpdate(sessions, sessionId, s);
        assert sessionId !in ActiveIds(sessions);
        sessions := sessions[sessionId := s];
      }
      clock := now;
      id := sessionId;
    }

    /** `saveMessage`: insert one message, then add one to the session's
        `message_count` and refresh its `updated_at`. The foreign key is not
        enforced: for an unknown session the message is stored and the
        counter update matches no row. */
    method SaveMessage(sessionId: string, role: string, content: string, metadata: Metadata, now: nat)
      returns (saved: SavedMessage)
      requires Valid() && clock <= now
      modifies this
      ensures Valid() && clock == now
      ensures saved == SavedMessage(old(lastMessageId) + 1, sessionId, role, content)
      ensures lastMessageId == saved.id
      ensures forall m | m in old(messages) :: m.id < saved.id
      ensures messages == old(messages) + [Message(saved.id, sessionId, role, content, now,
        metadata.tokensInput, metadata.tokensOutput, metadata.model.GetOr(DefaultModel))]
      ensures sessionId in old(sessions) ==>
        sessions == old(sessions)[sessionId := old(sessions)[sessionId].(
          messageCount := old(sessions)[sessionId].messageCount + 1, updatedAt := now)]
      ensures sessionId !in old(sessions) ==> sessions == old(sessions)
      ensures insights == old(insights) && lastInsightId == old(lastInsightId)
      ensures old(CountsAgree(sessions, messages)) && sessionId in old(sessions) ==> CountsAgree(sessions, messages)
      ensures sessionId !in old(sessions) ==> !CountsAgree(sessions, messages)
    {
      var m := Message(lastMessageId + 1, sessionId, role, content, now,
        metadata.tokensInput, metadata.tokensOutput, metadata.model.GetOr(DefaultModel));
      ClockAdvance(messages, lastMessageId, insights, lastInsightId, sessions, clock, now);
      MessageTableAppend(messages, lastMessageId, now, m);
      if sessionId in sessions {
        CountsAgreeAfterSave(sessions, messages, m, now);
        var s := sessions[sessionId];
        SessionTouch(sessions, sessionId, now);
        sessions := sessions[sessionId := s.(messageCount := s.messageCount + 1, updatedAt := now)];
      } else {
        assert m in messages + [m];
      }
      messages := messages + [m];
      lastMessageId := m.id;
      clock := now;
      saved := SavedMessage(m.id, sessionId, role, content);
    }

    /** `saveInsight`: insert one insight row. */
    method SaveInsight(sessionId: string, messageId: Nullable<int>, category: string, content: string,
                       importance: Option<string>, now: nat) returns (id: nat)
      requires Valid() && clock <= now
      modifies this
      ensures Valid() && clock == now
      ensures id == old(lastInsightId) + 1 && lastInsightId == id
      ensures forall x | x in old(insights) :: x.id < id
      ensures insights == old(insights) + [Insight(id, sessionId, messageId, category, content,
        importance.GetOr(DefaultImportance), now)]
      ensures sessions == old(sessions) && messages == old(messages) && lastMessageId == old(lastMessageId)
    {
      id := lastInsightId + 1;
      var x := Insight(id, sessionId, messageId, category, content, importance.GetOr(DefaultImportance), now);
      ClockAdvance(messages, lastMessageId, insights, lastInsightId, sessions, clock, now);
      InsightTableAppend(insights, lastInsightId, clock, x);
      insights := insights + [Insight(id, sessionId, messageId, category, content, importance.GetOr(DefaultImportance), now)];
      lastInsightId := id;
      clock := now;
    }

    /** `clearConversation`: the status of that one session becomes
        `'archived'`; nothing else changes. */
    method ClearConversation(sessionId: string) returns (r: Cleared)
      requires Valid()
      modifies this
      ensures Valid()
      ensures r == Cleared(ArchivedNotice, sessionId)
      ensures sessionId in old(sessions) ==>
        sessions == old(sessions)[sessionId := old(sessions)[sessionId].(status := Archived)]
      ensures sessionId !in old(sessions) ==> sessions == old(sessions)
      ensures messages == old(messages) && insights == old(insights) && clock == old(clock)
      ensures lastMessageId == old(lastMessageId) && lastInsightId == old(lastInsightId)
      ensures forall limit: int :: GetHistory(messages, sessionId, limit) == GetHistory(old(messages), sessionId, limit)
      ensures var before := GetDatabaseStats(old(sessions), old(messages), old(insights));
        var after := GetDatabaseStats(sessions, messages, insights);
        after.activeSessions == (if sessionId in ActiveIds(old(sessions)) then before.activeSessions - 1 else before.activeSessions)
        && after.totalSessions == before.totalSessions
      ensures old(CountsAgree(sessions, messages)) ==> CountsAgree(sessions, messages)
    {
      if sessionId in sessions {
        var s := sessions[sessionId].(status := Archived);
        ActiveIdsUpdate(sessions, sessionId, s);
        sessions := sessions[sessionId := s];
      }
      r := Cleared(ArchivedNotice, sessionId);
    }

    /** `getAllSessions`: every session row, most recently updated first.
        Rows with equal `updated_at` may come in any order. */
    method GetAllSessions() returns (rows: seq<SessionRow>)
      ensures |rows| == |sessions|
      ensures forall r | r in rows :: r.sessionId in sessions && r.session == sessions[r.sessionId]
      ensures forall id | id in sessions :: exists i :: 0 <= i < |rows| && rows[i].sessionId == id
      ensures forall i, j :: 0 <= i < j < |rows| ==> rows[i].sessionId != rows[j].sessionId
      ensures forall i, j :: 0 <= i < j < |rows| ==> rows[i].session.updatedAt >= rows[j].session.updatedAt
    {
      var remaining := sessions.Keys;
      rows := [];
      while remaining != {}
        invariant ListedLatestFirst(sessions, rows, remaining)
        invariant |rows| + |remaining| == |sessions.Keys|
        decreases |remaining|
      {
        LatestExists(sessions, remaining);
        var top :| top in remaining && forall id | id in remaining :: sessions[id].updatedAt <= sessions[top].updatedAt;
        ListedExtend(sessions, rows, remaining, top);
        rows := rows + [SessionRow(top, sessions[top])];
        remaining := remaining - {top};
      }
    }
  }

  /** `rows` lists every session outside `remaining` once, with its row,
      most recently updated first, and none is older than a session still
      in `remaining`. */
  ghost predicate ListedLatestFirst(sessions: map<string, Session>, rows: seq<SessionRow>, remaining: set<string>)
  {
    ListedRows(sessions, rows, remaining) && ListedOrdered(rows) && ListedAhead(sessions, rows, remaining)
  }

  /** The listed rows are exactly the sessions outside `remaining`. */
  ghost predicate ListedRows(sessions: map<string, Session>, rows: seq<SessionRow>, remaining: set<string>)
  {
    && remaining <= sessions.Keys
    && (forall i :: 0 <= i < |rows| ==>
          rows[i].sessionId in sessions && rows[i].session == sessions[rows[i].sessionId] && rows[i].sessionId !in remaining)
    && (forall id | id in sessions && id !in remaining :: exists i :: 0 <= i < |rows| && rows[i].sessionId == id)
  }

  /** No session is listed twice, and the list is most recently updated first. */
  ghost predicate ListedOrdered(rows: seq<SessionRow>)
  {
    && (forall i, j :: 0 <= i < j < |rows| ==> rows[i].sessionId != rows[j].sessionId)
    && (forall i, j :: 0 <= i < j < |rows| ==> rows[i].session.updatedAt >= rows[j].session.updatedAt)
  }

  /** Every listed session is at least as recent as every remaining one. */
  ghost predicate ListedAhead(sessions: map<string, Session>, rows: seq<SessionRow>, remaining: set<string>)
    requires remaining <= sessions.Keys
  {
    forall i, id | 0 <= i < |rows| && id in remaining :: rows[i].session.updatedAt >= sessions[id].updatedAt
  }

  /** Moving the latest remaining session to the end of the list keeps it
      ordered. */
  lemma ListedExtend(sessions: map<string, Session>, rows: seq<SessionRow>, remaining: set<string>, top: string)
    requires ListedLatestFirst(sessions, rows, remaining)
    requires top in remaining
    requires forall id | id in remaining :: sessions[id].updatedAt <= sessions[top].updatedAt
    ensures ListedLatestFirst(sessions, rows + [SessionRow(top, sessions[top])], remaining - {top})
  {
    ExtendRows(sessions, rows, remaining, top);
    ExtendOrdered(sessions, rows, remaining, top);
    ExtendAhead(sessions, rows, remaining, top);
  }

  lemma ExtendRows(sessions: map<string, Session>, rows: seq<SessionRow>, remaining: set<string>, top: string)
    requires ListedRows(sessions, rows, remaining) && top in remaining
    ensures ListedRows(sessions, rows + [SessionRow(top, sessions[top])], remaining - {top})
  {
    var rows' := rows + [SessionRow(top, sessions[top])];
    var remaining' := remaining - {top};
    forall id | id in sessions && id !in remaining'
      ensures exists i :: 0 <= i < |rows'| && rows'[i].sessionId == id
    {
      if id == top {
        assert rows'[|rows|].sessionId == id;
      } else {
        var i :| 0 <= i < |rows| && rows[i].sessionId == id;
        assert rows'[i].sessionId == id;
      }
    }
  }

  lemma ExtendOrdered(sessions: map<string, Session>, rows: seq<SessionRow>, remaining: set<string>, top: string)
    requires ListedRows(sessions, rows, remaining) && ListedOrdered(rows) && ListedAhead(sessions, rows, remaining)
    requires top in remaining
    ensures ListedOrdered(rows + [SessionRow(top, sessions[top])])
  {
  }

  lemma ExtendAhead(sessions: map<string, Session>, rows: seq<SessionRow>, remaining: set<string>, top: string)
    requires remaining <= sessions.Keys && ListedAhead(sessions, rows, remaining)
    requires top in remaining
    requires forall id | id in remaining :: sessions[id].updatedAt <= sessions[top].updatedAt
    ensures ListedAhead(sessions, rows + [SessionRow(top, sessions[top])], remaining - {top})
  {
  }

  /** Appending a row that comes after every earlier row keeps the order. */
  lemma SortedAppend<T>(rows: seq<T>, x: T, before: (T, T) -> bool)
    requires SortedBy(rows, before)
    requires forall i :: 0 <= i < |rows| ==> before(rows[i], x)
    ensures SortedBy(rows + [x], before)
  {
    var r := rows + [x];
    forall i, j | 0 <= i < j < |r| ensures before(r[i], r[j]) {
      if j < |rows| {
        assert r[i] == rows[i] && r[j] == rows[j];
      } else {
        assert r[i] == rows[i] && r[j] == x;
      }
    }
  }

  /** A non-empty set of sessions has a most recently updated one. */
  lemma {:induction false} LatestExists(sessions: map<string, Session>, ids: set<string>)
    requires ids != {} && ids <= sessions.Keys
    ensures exists top :: top in ids && forall id | id in ids :: sessions[id].updatedAt <= sessions[top].updatedAt
    decreases |ids|
  {
    var x :| x in ids;
    if ids != {x} {
      LatestExists(sessions, ids - {x});
      var y :| y in ids - {x} && forall id | id in ids - {x} :: sessions[id].updatedAt <= sessions[y].updatedAt;
      if sessions[x].updatedAt <= sessions[y].updatedAt {
        assert forall id | id in ids :: sessions[id].updatedAt <= sessions[y].updatedAt;
      } else {
        assert forall id | id in ids :: sessions[id].updatedAt <= sessions[x].updatedAt;
      }
    }
  }
}
