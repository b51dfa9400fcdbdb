/** The chat endpoints of the Express server that stores its conversations:
    `POST /api/chat`, `POST /api/clear` and `GET /api/history/:sessionId?`.
    The hosted model is a gateway function from the replayed conversation to
    a completion or a failure. */
module ChatServer {
  import opened Wrappers
  import opened Sql
  import opened ConversationStorage

  /** How many stored messages `/api/chat` replays to the model. */
  const ChatHistoryLimit: nat := 20
  /** How many messages `/api/history` returns. */
  const HistoryViewLimit: int := 100
  /** The session `/api/clear` and `/api/history` use when given none. */
  const DefaultSessionName: string := "default"
  /** The prefix of the time-derived session id `/api/chat` makes up. */
  const SessionIdPrefix: string := "muawiya-"

  const MessageRequired: string := "Message is required"
  const ApiKeyError: string := "API Key غير صحيح. يرجى التحقق من ANTHROPIC_API_KEY"
  const GenericError: string := "حدث خطأ في معالجة السؤال"

  /** The body of `POST /api/chat`; a field left out is `None`. */
  datatype ChatRequest = ChatRequest(message: Option<string>, sessionId: Option<string>, userName: Option<string>)

  /** One role/content pair sent to the model. */
  datatype Turn = Turn(role: string, content: string)

  /** What the model gateway answers: generated text with its token usage,
      or an error that may carry an HTTP status. */
  datatype GatewayReply =
    | Completion(text: string, inputTokens: nat, outputTokens: nat)
    | GatewayFailure(status: Option<int>, message: string)

  datatype Tokens = Tokens(input: nat, output: nat, total: nat)

  /** The JSON answer of `/api/chat` and its HTTP status (without `cost`). */
  datatype ChatResponse =
    | ChatOk(response: string, sessionId: string, conversationLength: nat, tokens: Tokens)
    | ChatError(status: nat, error: string, details: Option<string>)

  /** The JSON answer of `/api/history`. */
  datatype HistoryView = HistoryView(history: seq<HistoryRow>, stats: SessionStats, sessionId: string, length: nat)

  // ---------------------------------------------------------------------
  // Validation

  /** The characters `String.prototype.trim` removes: white space and line
      terminators. */
  predicate IsJsWhitespace(c: char)
  {
    || c == '\t' || c == '\n' || c == '\U{000B}' || c == '\U{000C}' || c == '\r' || c == ' '
    || c == '\U{00A0}' || c == '\U{1680}' || '\U{2000}' <= c <= '\U{200A}'
    || c == '\U{2028}' || c == '\U{2029}' || c == '\U{202F}' || c == '\U{205F}'
    || c == '\U{3000}' || c == '\U{FEFF}'
  }

  function TrimStart(s: string): (r: string)
  {
    if s != [] && IsJsWhitespace(s[0]) then TrimStart(s[1..]) else s
  }

  function TrimEnd(s: string): (r: string)
  {
    if s != [] && IsJsWhitespace(s[|s| - 1]) then TrimEnd(s[..|s| - 1]) else s
  }

  lemma {:induction false} TrimStartShape(s: string)
    ensures TrimStart(s) == [] <==> forall i :: 0 <= i < |s| ==> IsJsWhitespace(s[i])
    ensures TrimStart(s) != [] ==> !IsJsWhitespace(TrimStart(s)[0])
  {
    if s != [] && IsJsWhitespace(s[0]) {
      TrimStartShape(s[1..]);
      assert forall i :: 0 < i < |s| ==> s[i] == s[1..][i - 1];
    }
  }

  lemma {:induction false} TrimEndKeepsHead(s: string)
    requires s != [] && !IsJsWhitespace(s[0])
    ensures TrimEnd(s) != [] && TrimEnd(s)[0] == s[0]
  {
    if IsJsWhitespace(s[|s| - 1]) {
      TrimEndKeepsHead(s[..|s| - 1]);
    }
  }

  /** `String.prototype.trim`: nothing is left exactly when every character
      is white space. */
  function Trim(s: string): (r: string)
    ensures r == [] <==> forall i :: 0 <= i < |s| ==> IsJsWhitespace(s[i])
  {
    TrimStartShape(s);
    if TrimStart(s) != [] then
      TrimEndKeepsHead(TrimStart(s));
      TrimEnd(TrimStart(s))
    else
      TrimEnd(TrimStart(s))
  }

  /** `!message || message.trim() === ''`: no message, or one made of
      white space only. */
  predicate MessageMissing(message: Option<string>)
    ensures MessageMissing(message) <==>
      message.None? || forall i :: 0 <= i < |message.value| ==> IsJsWhitespace(message.value[i])
  {
    message.None? || message.value == "" || Trim(message.value) == ""
  }

  // ---------------------------------------------------------------------
  // Defaults

  function DigitChar(d: nat): char
    requires d < 10
  {
    ('0' as int + d) as char
  }

  /** The number a string of decimal digits denotes, read left to right. */
  function DigitsValue(s: string): int
  {
    if s == [] then 0 else 10 * DigitsValue(s[..|s| - 1]) + (s[|s| - 1] as int - '0' as int)
  }

  /** The decimal digits of a number, as `String(n)` writes them. */
  function Decimal(n: nat): (r: string)
    ensures r != [] && forall i :: 0 <= i < |r| ==> '0' <= r[i] <= '9'
  {
    if n < 10 then [DigitChar(n)] else Decimal(n / 10) + [DigitChar(n % 10)]
  }

  /** The digits `Decimal` writes denote the number again. */
  lemma {:induction false} DecimalValue(n: nat)
    ensures DigitsValue(Decimal(n)) == n
  {
    var d := Decimal(n);
    if n < 10 {
      assert d[..0] == [];
    } else {
      assert d[..|d| - 1] == Decimal(n / 10);
      DecimalValue(n / 10);
    }
  }

  /** `'muawiya-' + Date.now()`, given the time in milliseconds. */
  function DefaultSessionId(millis: nat): (r: string)
    ensures |r| > |SessionIdPrefix| && r[..|SessionIdPrefix|] == SessionIdPrefix
    ensures forall i :: |SessionIdPrefix| <= i < |r| ==> '0' <= r[i] <= '9'
    ensures DigitsValue(r[|SessionIdPrefix|..]) == millis
  {
    var d := Decimal(millis);
    assert forall i :: |SessionIdPrefix| <= i < |SessionIdPrefix + d| ==> (SessionIdPrefix + d)[i] == d[i - |SessionIdPrefix|];
    assert (SessionIdPrefix + d)[|SessionIdPrefix|..] == d;
    DecimalValue(millis);
    SessionIdPrefix + d
  }

  /** Requests at two different times get two different default sessions. */
  lemma DefaultSessionIdsDiffer(millis1: nat, millis2: nat)
    requires millis1 != millis2
    ensures DefaultSessionId(millis1) != DefaultSessionId(millis2)
  {
    var a, b := DefaultSessionId(millis1), DefaultSessionId(millis2);
    assert DigitsValue(a[|SessionIdPrefix|..]) != DigitsValue(b[|SessionIdPrefix|..]);
  }

  /** The session a chat request goes to: the id it names (the destructuring
      default only replaces a missing one, so an empty id is kept), or
      `muawiya-` followed by the time's digits. */
  function ChatSessionId(request: ChatRequest, millis: nat): (r: string)
    ensures request.sessionId.Some? ==> r == request.sessionId.value
    ensures request.sessionId.None? ==>
      && |r| > |SessionIdPrefix| && r[..|SessionIdPrefix|] == SessionIdPrefix
      && forall i :: |SessionIdPrefix| <= i < |r| ==> '0' <= r[i] <= '9'
    ensures request.sessionId.None? ==> r == DefaultSessionId(millis) && DigitsValue(r[|SessionIdPrefix|..]) == millis
  {
    request.sessionId.GetOr(DefaultSessionId(millis))
  }

  // ---------------------------------------------------------------------
  // POST /api/chat

  /** `dbHistory.map(msg => ({ role, content }))`. */
  function Turns(rows: seq<HistoryRow>): seq<Turn>
  {
    seq(|rows|, i requires 0 <= i < |rows| => Turn(rows[i].role, rows[i].content))
  }

  /** The user message `/api/chat` stores. */
  function UserMessage(id: nat, sessionId: string, text: string, now: nat): Message
  {
    Message(id, sessionId, "user", text, now, Null, Null, DefaultModel)
  }

  /** The assistant message `/api/chat` stores after a completion. */
  function AssistantMessage(id: nat, sessionId: string, text: string, inputTokens: nat, outputTokens: nat, now: nat): Message
  {
    Message(id, sessionId, "assistant", text, now, Value(inputTokens), Value(outputTokens), DefaultModel)
  }

  /** A stored message as the model sees it. */
  function AsTurn(m: Message): Turn
  {
    Turn(m.role, m.content)
  }

  /** Each stored message as a turn, in order. */
  function TurnsOf(ms: seq<Message>): seq<Turn>
  {
    seq(|ms|, i requires 0 <= i < |ms| => AsTurn(ms[i]))
  }

  /** Turning messages into turns goes message by message: it distributes
      over concatenation. */
  lemma TurnsOfAppend(a: seq<Message>, b: seq<Message>)
    ensures TurnsOf(a + b) == TurnsOf(a) + TurnsOf(b)
  {
    assert forall i :: 0 <= i < |a + b| ==> TurnsOf(a + b)[i] == (TurnsOf(a) + TurnsOf(b))[i];
  }

  /** The last `k` messages of session `sid`, oldest first, read from the
      end of the table one row at a time: a description of `getHistory`'s
      rows that does not go through `ORDER BY id DESC` and `reverse()`. */
  function LastOfSession(msgs: seq<Message>, sid: string, k: nat): (r: seq<Message>)
    ensures |r| <= k
    decreases |msgs|
  {
    if msgs == [] || k == 0 then []
    else if msgs[|msgs| - 1].sessionId == sid then LastOfSession(msgs[..|msgs| - 1], sid, k - 1) + [msgs[|msgs| - 1]]
    else LastOfSession(msgs[..|msgs| - 1], sid, k)
  }

  /** Reading backwards picks the same rows as the query: the session's
      last `min(k, n)` messages. */
  lemma {:induction false} LastOfSessionIsSuffix(msgs: seq<Message>, sid: string, k: nat)
    ensures var s := MessagesOf(msgs, sid);
      LastOfSession(msgs, sid, k) == LastRows(s, k)
    decreases |msgs|
  {
    var s := MessagesOf(msgs, sid);
    if msgs == [] {
      assert s == [];
    } else if k == 0 {
      assert LastRows(s, 0) == [];
    } else {
      var p, m := msgs[..|msgs| - 1], msgs[|msgs| - 1];
      assert msgs == p + [m];
      if m.sessionId == sid {
        LastOfSessionIsSuffix(p, sid, k - 1);
        SessionRowLast(p, m, sid, k);
      } else {
        LastOfSessionIsSuffix(p, sid, k);
        OtherRowLast(p, m, sid, k);
      }
    }
  }

  /** The inductive step of `LastOfSessionIsSuffix` when the last row
      belongs to the session. */
  lemma SessionRowLast(p: seq<Message>, m: Message, sid: string, k: nat)
    requires k > 0 && m.sessionId == sid
    requires LastOfSession(p, sid, k - 1) == LastRows(MessagesOf(p, sid), k - 1)
    ensures LastOfSession(p + [m], sid, k) == LastRows(MessagesOf(p + [m], sid), k)
  {
    assert (p + [m])[..|p|] == p;
    WhereAppend(p, m, (m: Message) => m.sessionId == sid);
    SuffixAppend(MessagesOf(p, sid), m, k);
  }

  /** The inductive step of `LastOfSessionIsSuffix` when the last row
      belongs to another session. */
  lemma OtherRowLast(p: seq<Message>, m: Message, sid: string, k: nat)
    requires k > 0 && m.sessionId != sid
    requires LastOfSession(p, sid, k) == LastRows(MessagesOf(p, sid), k)
    ensures LastOfSession(p + [m], sid, k) == LastRows(MessagesOf(p + [m], sid), k)
  {
    assert (p + [m])[..|p|] == p;
    WhereAppend(p, m, (m: Message) => m.sessionId == sid);
  }

  /** Taking the last `k` of a sequence grown by one is taking the last
      `k - 1` before it and then the new element. */
  lemma SuffixAppend<T>(s: seq<T>, x: T, k: nat)
    requires k > 0
    ensures LastRows(s + [x], k) == LastRows(s, k - 1) + [x]
  {
  }

  /** The turns `/api/chat` builds from `getHistory` are those of the
      session's last `k` messages. */
  lemma HistoryTurns(msgs: seq<Message>, sid: string, k: nat)
    ensures Turns(GetHistory(msgs, sid, k)) == TurnsOf(LastOfSession(msgs, sid, k))
  {
    RecentIsLastOfSession(msgs, sid, k);
    LastOfSessionIsSuffix(msgs, sid, k);
    RowTurns(RecentMessages(msgs, sid, k), GetHistory(msgs, sid, k));
  }

  /** Projecting messages to history rows and then to turns is projecting
      them to turns. */
  lemma RowTurns(ms: seq<Message>, rows: seq<HistoryRow>)
    requires |rows| == |ms| && forall i :: 0 <= i < |ms| ==> rows[i] == ToHistoryRow(ms[i])
    ensures Turns(rows) == TurnsOf(ms)
  {
  }

  /** What the model is sent once the user message `user` is stored after
      `msgs`: the last 20 messages of the session, oldest first. */
  function ReplayedTurns(msgs: seq<Message>, user: Message): seq<Turn>
  {
    TurnsOf(LastOfSession(msgs + [user], user.sessionId, ChatHistoryLimit))
  }

  /** The replay holds between 1 and 20 messages and ends with the message
      just stored, so `conversationLength` lies in 3..22. */
  lemma ReplayWindow(msgs: seq<Message>, user: Message)
    ensures var t := ReplayedTurns(msgs, user);
      && 1 <= |t| <= 20
      && t[|t| - 1] == Turn(user.role, user.content)
      && 3 <= |t| + 2 <= 22
  {
    assert (msgs + [user])[..|msgs|] == msgs;
    var w := LastOfSession(msgs + [user], user.sessionId, ChatHistoryLimit);
    assert w == LastOfSession(msgs, user.sessionId, ChatHistoryLimit - 1) + [user];
  }

  /** The replay is the session's history, oldest first: with fewer than
      20 messages in the session it is all of them, then the new one. */
  lemma ReplayIsWholeShortSession(msgs: seq<Message>, user: Message)
    requires |MessagesOf(msgs, user.sessionId)| < 20
    ensures var s := MessagesOf(msgs, user.sessionId); var t := ReplayedTurns(msgs, user);
      && |t| == |s| + 1
      && (forall i :: 0 <= i < |s| ==> t[i] == Turn(s[i].role, s[i].content))
      && t[|s|] == Turn(user.role, user.content)
  {
    var s := MessagesOf(msgs, user.sessionId);
    assert (msgs + [user])[..|msgs|] == msgs;
    LastOfSessionIsSuffix(msgs, user.sessionId, ChatHistoryLimit - 1);
    var w := LastOfSession(msgs + [user], user.sessionId, ChatHistoryLimit);
    assert w == s + [user];
  }

  /** `POST /api/chat`. A blank message is refused before the store is
      touched; any other message goes to `Converse` in the session named by
      the request, or in a new time-derived one. The request arrives at
      `now`; the model's completion comes back at `later`. */
  method HandleChat(store: ConversationStore, request: ChatRequest, gateway: seq<Turn> -> GatewayReply,
                    now: nat, later: nat, millis: nat)
    returns (response: ChatResponse)
    requires store.Valid() && store.clock <= now <= later
    modifies store
    ensures store.Valid()
    ensures MessageMissing(request.message) ==>
      response == ChatError(400, MessageRequired, None) && unchanged(store)
    ensures !MessageMissing(request.message) ==>
      && ConversedAs(old(store.sessions), old(store.messages), old(store.insights), old(store.lastMessageId),
                     store.sessions, store.messages, store.insights,
                     ChatSessionId(request, millis), request.message.value, request.userName, gateway, now, later, response)
      && store.lastMessageId == old(store.lastMessageId) + (|store.messages| - |old(store.messages)|)
      && store.lastInsightId == old(store.lastInsightId)
      && store.clock == (if response.ChatOk? then later else now)
  {
    if MessageMissing(request.message) {
      return ChatError(400, MessageRequired, None);
    }
    response := Converse(store, ChatSessionId(request, millis), request.message.value, request.userName, gateway, now, later);
  }

  /** What a chat turn in session `sid` that stored `added` messages does
      to the sessions, `createSession` having run at `now` and the last
      `saveMessage` at `touched`: the session exists afterwards (an existing
      one keeps its name, creation time and status; a new one is `'active'`,
      created at `now`, under the given name or the default), its
      `message_count` has grown by `added`, its `updated_at` is the time of
      the last stored message (before any, the old one, or `now` for a new
      session), and no other session is created or changed. */
  ghost predicate SessionOpened(sessions: map<string, Session>, sessions': map<string, Session>,
                                sid: string, userName: Option<string>, added: int, now: nat, touched: nat)
  {
    && sessions'.Keys == sessions.Keys + {sid}
    && (sid in sessions ==>
          sessions'[sid].userName == sessions[sid].userName
          && sessions'[sid].createdAt == sessions[sid].createdAt
          && sessions'[sid].status == sessions[sid].status)
    && (sid !in sessions ==>
          sessions'[sid].userName == userName.GetOr(DefaultUserName)
          && sessions'[sid].createdAt == now
          && sessions'[sid].status == Active)
    && sessions'[sid].messageCount == (if sid in sessions then sessions[sid].messageCount else 0) + added
    && sessions'[sid].updatedAt == (if added != 0 then touched else if sid in sessions then sessions[sid].updatedAt else now)
    && (forall id | id in sessions && id != sid :: sessions'[id] == sessions[id])
  }

  /** What the exchange appends to the messages and answers, given what the
      gateway replied to the replayed `turns`: on a completion the assistant
      message, stamped `later`, follows the user message; on a failure only
      the user message stays, and the answer is a 500 whose text singles out
      a rejected key. */
  predicate Exchanged(msgs: seq<Message>, msgs': seq<Message>, user: Message, turns: seq<Turn>,
                      reply: GatewayReply, later: nat, response: ChatResponse)
  {
    match reply
    case Completion(answer, inputTokens, outputTokens) =>
      && msgs' == msgs + [user, AssistantMessage(user.id + 1, user.sessionId, answer, inputTokens, outputTokens, later)]
      && response == ChatOk(answer, user.sessionId, |turns| + 2, Tokens(inputTokens, outputTokens, inputTokens + outputTokens))
    case GatewayFailure(status, message) =>
      && msgs' == msgs + [user]
      && response == ChatError(500, if status == Some(401) then ApiKeyError else GenericError, Some(message))
  }

  /** The effect of one chat exchange in session `sid` on the tables, and
      its answer: the session is opened and the user message stored at
      `now`, the last 20 messages including it are replayed to the gateway,
      and its reply decides what is appended (at `later`) and answered. */
  ghost predicate ConversedAs(
    sessions: map<string, Session>, msgs: seq<Message>, ins: seq<Insight>, lastId: nat,
    sessions': map<string, Session>, msgs': seq<Message>, ins': seq<Insight>,
    sid: string, text: string, userName: Option<string>, gateway: seq<Turn> -> GatewayReply, now: nat, later: nat,
    response: ChatResponse)
  {
    var user := UserMessage(lastId + 1, sid, text, now);
    var turns := ReplayedTurns(msgs, user);
    var reply := gateway(turns);
    && SessionOpened(sessions, sessions', sid, userName, |msgs'| - |msgs|, now, if reply.Completion? then later else now)
    && ins' == ins
    && 1 <= |turns| <= 20 && turns[|turns| - 1] == Turn("user", text)
    && Exchanged(msgs, msgs', user, turns, reply, later, response)
  }

  /** The first half of the `/api/chat` handler: create the session if it
      is new, store the user message, and read back the replay. */
  method OpenTurn(store: ConversationStore, sid: string, text: string, userName: Option<string>, now: nat)
    returns (turns: seq<Turn>)
    requires store.Valid() && store.clock <= now
    modifies store
    ensures store.Valid() && store.clock == now
    ensures SessionOpened(old(store.sessions), store.sessions, sid, userName, 1, now, now)
    ensures store.messages == old(store.messages) + [UserMessage(old(store.lastMessageId) + 1, sid, text, now)]
    ensures store.lastMessageId == old(store.lastMessageId) + 1
    ensures store.insights == old(store.insights) && store.lastInsightId == old(store.lastInsightId)
    ensures turns == ReplayedTurns(old(store.messages), UserMessage(old(store.lastMessageId) + 1, sid, text, now))
  {
    ghost var sessions0 := store.sessions;
    var _ := store.CreateSession(sid, userName, now);
    SessionOpenedByCreate(sessions0, store.sessions, sid, userName, now);
    StoreUserMessage(store, sid, text, now, sessions0, userName);
    turns := Turns(GetHistory(store.messages, sid, ChatHistoryLimit));
    HistoryTurns(store.messages, sid, ChatHistoryLimit);
  }

  /** `storage.saveMessage(sessionId, 'user', message)` in the session just
      opened. */
  method StoreUserMessage(store: ConversationStore, sid: string, text: string, now: nat,
                          ghost sessions0: map<string, Session>, ghost userName: Option<string>)
    requires store.Valid() && store.clock <= now
    requires SessionOpened(sessions0, store.sessions, sid, userName, 0, now, now)
    modifies store
    ensures store.Valid() && store.clock == now
    ensures SessionOpened(sessions0, store.sessions, sid, userName, 1, now, now)
    ensures store.messages == old(store.messages) + [UserMessage(old(store.lastMessageId) + 1, sid, text, now)]
    ensures store.lastMessageId == old(store.lastMessageId) + 1
    ensures store.insights == old(store.insights) && store.lastInsightId == old(store.lastInsightId)
  {
    ghost var sessions1 := store.sessions;
    var _ := store.SaveMessage(sid, "user", text, NoMetadata, now);
    SessionOpenedTouched(sessions0, sessions1, store.sessions, sid, userName, 0, now, now, now);
  }

  /** The body of the `/api/chat` handler after validation: open the turn at
      `now`, send the replay to the gateway, store its completion at `later`. */
  method Converse(store: ConversationStore, sid: string, text: string, userName: Option<string>,
                  gateway: seq<Turn> -> GatewayReply, now: nat, later: nat) returns (response: ChatResponse)
    requires store.Valid() && store.clock <= now <= later
    modifies store
    ensures store.Valid()
    ensures ConversedAs(old(store.sessions), old(store.messages), old(store.insights), old(store.lastMessageId),
                        store.sessions, store.messages, store.insights, sid, text, userName, gateway, now, later, response)
    ensures store.lastMessageId == old(store.lastMessageId) + (|store.messages| - |old(store.messages)|)
    ensures store.lastInsightId == old(store.lastInsightId)
    ensures store.clock == (if response.ChatOk? then later else now)
  {
    ghost var sessions0, msgs0, ins0, lastId0 := store.sessions, store.messages, store.insights, store.lastMessageId;
    var turns := OpenTurn(store, sid, text, userName, now);
    response := Answer(store, sid, text, turns, gateway, now, later, lastId0, msgs0, ins0, sessions0, userName);
  }

  /** The second half of the `/api/chat` handler: what the gateway's reply
      to the replayed `turns` makes the handler store and answer, which
      completes the exchange the first half opened. */
  method Answer(store: ConversationStore, sid: string, ghost text: string, turns: seq<Turn>, gateway: seq<Turn> -> GatewayReply,
                ghost now: nat, later: nat, ghost lastId0: nat, ghost msgs0: seq<Message>, ghost ins0: seq<Insight>,
                ghost sessions0: map<string, Session>, ghost userName: Option<string>)
    returns (response: ChatResponse)
    requires store.Valid() && store.clock <= later
    requires store.messages == msgs0 + [UserMessage(lastId0 + 1, sid, text, now)] && store.lastMessageId == lastId0 + 1
    requires store.insights == ins0
    requires turns == ReplayedTurns(msgs0, UserMessage(lastId0 + 1, sid, text, now))
    requires SessionOpened(sessions0, store.sessions, sid, userName, 1, now, now)
    modifies store
    ensures store.Valid()
    ensures ConversedAs(sessions0, msgs0, ins0, lastId0, store.sessions, store.messages, store.insights,
                        sid, text, userName, gateway, now, later, response)
    ensures store.lastInsightId == old(store.lastInsightId)
    ensures store.lastMessageId == old(store.lastMessageId) + (|store.messages| - |old(store.messages)|)
    ensures store.clock == (if response.ChatOk? then later else old(store.clock))
  {
    ghost var user := UserMessage(lastId0 + 1, sid, text, now);
    var reply := gateway(turns);
    match reply {
      case GatewayFailure(status, message) =>
        response := ChatError(500, if status == Some(401) then ApiKeyError else GenericError, Some(message));
      case Completion(answer, inputTokens, outputTokens) =>
        StoreAnswer(store, sid, answer, inputTokens, outputTokens, now, later, user, msgs0, sessions0, userName);
        response := ChatOk(answer, sid, |turns| + 2, Tokens(inputTokens, outputTokens, inputTokens + outputTokens));
    }
    ConversedIntro(sessions0, msgs0, ins0, lastId0, store.sessions, store.messages, store.insights, sid, text, userName,
                   gateway, now, later, turns, response);
  }

  /** The last step of a successful exchange: store the completion, when it
      arrives at `later`, as the assistant message of the opened session. */
  method StoreAnswer(store: ConversationStore, sid: string, answer: string, inputTokens: nat, outputTokens: nat,
                     ghost now: nat, later: nat,
                     ghost user: Message, ghost msgs0: seq<Message>, ghost sessions0: map<string, Session>, ghost userName: Option<string>)
    requires store.Valid() && store.clock <= later
    requires user.sessionId == sid
    requires store.messages == msgs0 + [user] && store.lastMessageId == user.id
    requires SessionOpened(sessions0, store.sessions, sid, userName, 1, now, now)
    modifies store
    ensures store.Valid() && store.clock == later
    ensures SessionOpened(sessions0, store.sessions, sid, userName, 2, now, later)
    ensures store.messages == msgs0 + [user, AssistantMessage(user.id + 1, sid, answer, inputTokens, outputTokens, later)]
    ensures store.lastMessageId == user.id + 1
    ensures store.insights == old(store.insights) && store.lastInsightId == old(store.lastInsightId)
  {
    ghost var sessions1 := store.sessions;
    var _ := store.SaveMessage(sid, "assistant", answer, Metadata(Value(inputTokens), Value(outputTokens), None), later);
    SessionOpenedTouched(sessions0, sessions1, store.sessions, sid, userName, 1, now, now, later);
    assert store.messages == msgs0 + [user] + [AssistantMessage(user.id + 1, sid, answer, inputTokens, outputTokens, later)];
  }

  /** `createSession` at `now` opens the session with no message added yet. */
  lemma SessionOpenedByCreate(sessions: map<string, Session>, sessions1: map<string, Session>,
                              sid: string, userName: Option<string>, now: nat)
    requires sid in sessions ==> sessions1 == sessions
    requires sid !in sessions ==> sessions1 == sessions[sid := Session(userName.GetOr(DefaultUserName), now, now, 0, Active)]
    ensures SessionOpened(sessions, sessions1, sid, userName, 0, now, now)
  {
  }

  /** Storing one more message in the opened session at time `t` (a new
      `message_count` and `updated_at`) keeps it opened, touched at `t`. */
  lemma SessionOpenedTouched(sessions: map<string, Session>, sessions1: map<string, Session>, sessions2: map<string, Session>,
                             sid: string, userName: Option<string>, added: nat, now: nat, touched: nat, t: nat)
    requires SessionOpened(sessions, sessions1, sid, userName, added, now, touched)
    requires sid in sessions1
    requires sessions2 == sessions1[sid := sessions1[sid].(messageCount := sessions1[sid].messageCount + 1, updatedAt := t)]
    ensures SessionOpened(sessions, sessions2, sid, userName, added + 1, now, t)
  {
  }

  /** The replay facts `ConversedAs` adds to an exchange. */
  lemma ConversedIntro(sessions: map<string, Session>, msgs: seq<Message>, ins: seq<Insight>, lastId: nat,
                       sessions': map<string, Session>, msgs': seq<Message>, ins': seq<Insight>,
                       sid: string, text: string, userName: Option<string>, gateway: seq<Turn> -> GatewayReply,
                       now: nat, later: nat, turns: seq<Turn>, response: ChatResponse)
    requires turns == ReplayedTurns(msgs, UserMessage(lastId + 1, sid, text, now))
    requires SessionOpened(sessions, sessions', sid, userName, |msgs'| - |msgs|, now,
                           if gateway(turns).Completion? then later else now)
    requires ins' == ins
    requires Exchanged(msgs, msgs', UserMessage(lastId + 1, sid, text, now), turns, gateway(turns), later, response)
    ensures ConversedAs(sessions, msgs, ins, lastId, sessions', msgs', ins', sid, text, userName, gateway, now, later, response)
  {
    ReplayWindow(msgs, UserMessage(lastId + 1, sid, text, now));
  }

  /** The messages of session `id` once `added`, all of session `sid`, is
      appended. */
  lemma {:induction false} MessagesOfAppended(msgs: seq<Message>, added: seq<Message>, sid: string, id: string)
    requires forall m | m in added :: m.sessionId == sid
    ensures MessagesOf(msgs + added, id) == MessagesOf(msgs, id) + (if id == sid then added else [])
    decreases |added|
  {
    if added == [] {
      assert msgs + added == msgs;
    } else {
      var front, last := added[..|added| - 1], added[|added| - 1];
      assert added == front + [last];
      assert msgs + added == (msgs + front) + [last];
      assert last in added;
      MessagesOfAppended(msgs, front, sid, id);
      WhereAppend(msgs + front, last, (m: Message) => m.sessionId == id);
    }
  }

  /** Opening a turn and storing `added` messages in it keeps every
      session's `message_count` equal to its number of messages, and every
      message attached to an existing session. */
  lemma OpenedKeepsCounts(sessions: map<string, Session>, sessions': map<string, Session>, msgs: seq<Message>,
                          added: seq<Message>, sid: string, userName: Option<string>, now: nat, touched: nat)
    requires SessionOpened(sessions, sessions', sid, userName, |added|, now, touched)
    requires forall m | m in added :: m.sessionId == sid
    ensures CountsAgree(sessions, msgs) ==> CountsAgree(sessions', msgs + added)
  {
    if CountsAgree(sessions, msgs) {
      forall id | id in sessions' ensures sessions'[id].messageCount == |MessagesOf(msgs + added, id)| {
        MessagesOfAppended(msgs, added, sid, id);
        if id == sid && sid !in sessions {
          NoMessagesOf(msgs, sid);
        }
      }
    }
  }

  /** A chat exchange keeps `message_count` in step with the messages: the
      one or two messages it stores are counted in their session. */
  lemma ChatKeepsCounts(
    sessions: map<string, Session>, msgs: seq<Message>, ins: seq<Insight>, lastId: nat,
    sessions': map<string, Session>, msgs': seq<Message>, ins': seq<Insight>,
    sid: string, text: string, userName: Option<string>, gateway: seq<Turn> -> GatewayReply, now: nat, later: nat,
    response: ChatResponse)
    requires ConversedAs(sessions, msgs, ins, lastId, sessions', msgs', ins', sid, text, userName, gateway, now, later, response)
    ensures CountsAgree(sessions, msgs) ==> CountsAgree(sessions', msgs')
  {
    var user := UserMessage(lastId + 1, sid, text, now);
    match gateway(ReplayedTurns(msgs, user))
    case Completion(answer, inputTokens, outputTokens) =>
      OpenedKeepsCounts(sessions, sessions', msgs,
        [user, AssistantMessage(user.id + 1, sid, answer, inputTokens, outputTokens, later)], sid, userName, now, later);
    case GatewayFailure(_, _) =>
      OpenedKeepsCounts(sessions, sessions', msgs, [user], sid, userName, now, now);
  }

  /** `conversationLength` adds two for the current exchange to a replay
      that already holds the user's message: after a successful exchange in
      a session that had fewer than 20 messages, it is one more than the
      number of messages the session now holds. */
  lemma ConversationLengthOvercounts(
    sessions: map<string, Session>, msgs: seq<Message>, ins: seq<Insight>, lastId: nat,
    sessions': map<string, Session>, msgs': seq<Message>, ins': seq<Insight>,
    sid: string, text: string, userName: Option<string>, gateway: seq<Turn> -> GatewayReply, now: nat, later: nat,
    response: ChatResponse)
    requires ConversedAs(sessions, msgs, ins, lastId, sessions', msgs', ins', sid, text, userName, gateway, now, later, response)
    requires response.ChatOk? && |MessagesOf(msgs, sid)| < ChatHistoryLimit
    ensures response.conversationLength == |MessagesOf(msgs', sid)| + 1
  {
    var user := UserMessage(lastId + 1, sid, text, now);
    ReplayIsWholeShortSession(msgs, user);
    match gateway(ReplayedTurns(msgs, user))
    case Completion(answer, inputTokens, outputTokens) =>
      MessagesOfAppended(msgs, [user, AssistantMessage(user.id + 1, sid, answer, inputTokens, outputTokens, later)], sid, sid);
    case GatewayFailure(_, _) =>
  }

  // ---------------------------------------------------------------------
  // POST /api/clear and GET /api/history/:sessionId?

  /** `POST /api/clear`: archives the session named in the body, or
      `'default'` when the body names none. */
  method HandleClear(store: ConversationStore, sessionId: Option<string>) returns (result: Cleared)
    requires store.Valid()
    modifies store
    ensures store.Valid()
    ensures var sid := sessionId.GetOr(DefaultSessionName);
      && result == Cleared(ArchivedNotice, sid)
      && (sid in old(store.sessions) ==> store.sessions == old(store.sessions)[sid := old(store.sessions)[sid].(status := Archived)])
      && (sid !in old(store.sessions) ==> store.sessions == old(store.sessions))
    ensures store.messages == old(store.messages) && store.insights == old(store.insights)
    ensures store.lastMessageId == old(store.lastMessageId) && store.lastInsightId == old(store.lastInsightId)
    ensures store.clock == old(store.clock)
  {
    result := store.ClearConversation(sessionId.GetOr(DefaultSessionName));
  }

  /** The session `/api/history` reads from its optional path parameter:
      `req.params.sessionId || 'default'`, so an empty id also falls back. */
  function HistorySessionId(param: Option<string>): (r: string)
    ensures r != []
    ensures param.Some? && param.value != "" ==> r == param.value
    ensures param.None? || param.value == "" ==> r == DefaultSessionName
  {
    if param.None? || param.value == "" then DefaultSessionName else param.value
  }

  /** `GET /api/history/:sessionId?`: the last 100 messages and the stats. */
  function HandleHistory(msgs: seq<Message>, param: Option<string>): (r: HistoryView)
    ensures param.None? || param.value == "" ==> r.sessionId == DefaultSessionName
    ensures param.Some? && param.value != "" ==> r.sessionId == param.value
    ensures r.length == |r.history| <= HistoryViewLimit
    ensures r.length == Kept(r.stats.totalMessages, HistoryViewLimit)
    ensures r.stats == GetSessionStats(msgs, r.sessionId) && r.stats.totalMessages == |MessagesOf(msgs, r.sessionId)|
    ensures var s := MessagesOf(msgs, r.sessionId);
      forall i :: 0 <= i < |r.history| ==> r.history[i] == ToHistoryRow(s[|s| - |r.history| + i])
  {
    var sid := HistorySessionId(param);
    HistoryIsLastRows(msgs, sid, HistoryViewLimit);
    var history := GetHistory(msgs, sid, HistoryViewLimit);
    HistoryView(history, GetSessionStats(msgs, sid), sid, |history|)
  }
}
