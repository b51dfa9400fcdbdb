# Mizan conversation service: a Dafny model

This project models the core of the Mizan assistant back end:

- **The conversation store.** This is the SQLite database behind the Express server. It has three tables: `sessions`, `messages` and `insights`.
  - `createSession`, `saveMessage`, `saveInsight` and `clearConversation` change the tables. They are methods of the class `ConversationStorage.ConversationStore`, whose fields are the tables, the two AUTOINCREMENT counters and the latest time seen.
  - The read-only queries (`getHistory`, `getSessionStats`, `getInsights`, `getDatabaseStats`, `exportConversation`) are functions over the table contents.
  - `getAllSessions` is a method that selects the most recently updated remaining session, one at a time.
  - SQL aggregates follow SQL: `SUM` over no non-NULL value is NULL, and so are `MIN`/`MAX` over no rows. These are in module `Sql`.
- **The chat endpoint of the Express server.** `POST /api/chat` validates the message and opens the session. It stores the user message and replays the session's last 20 messages to the hosted model. Then it stores the answer and replies.
  - The hosted model is a function parameter, the *gateway*. It maps the replayed turns to a completion (text and token counts) or to a failure with an optional HTTP status.
  - The defaults of `POST /api/clear` and `GET /api/history/:sessionId?` are modelled too.
- **The Cloudflare Worker.** This covers:
  - the canned-answer matcher `getGrokAnswer`;
  - the route decision of `handleRequest`;
  - the validation and defaults of `handleAskQuestion`, up to the row it would save.

What is proved:

- **Invariants the store keeps.**
  - Ids increase with insertion.
  - Timestamps never go backwards.
  - `created_at <= updated_at`.
  - Each session's `message_count` equals its number of messages, as long as every message names an existing session.
- **What the history means.** `getHistory` returns the session's last `min(limit, n)` messages, oldest first, in ascending id order.
- **What the chat exchange appends and answers,** including what is replayed to the model.
- **How `getGrokAnswer` decides:**
  - the first matching key wins;
  - any question containing "ما" gets the first answer;
  - the `'عميل'` stem check is dead code;
  - the fallback text comes back exactly when no searched word occurs.

One property of the code is worth stating up front. `conversationLength` is the replay length plus two. The replay already holds the new user message, so in a short session the reply counts one message more than the session holds (`ChatServer.ConversationLengthOvercounts`). The model keeps the code's value.

## Model

| member | source | states |
|---|---|---|
| Sql.SumIsTotalOfNonNull | conversation-storage.js:177-198 | SQL `SUM` over a column is NULL when no value is non-NULL, otherwise the total of the non-NULL values |
| Sql.Sum | conversation-storage.js:177-198 | SQL `SUM` evaluated row by row from NULL; its meaning is stated by `SumIsTotalOfNonNull` |
| Sql.SumFromValue | conversation-storage.js:177-198 | once the running `SUM` holds a value, the result is that value plus the total of the non-NULL rest |
| Sql.Min | conversation-storage.js:177-198 | `MIN(timestamp)` is NULL on no rows, otherwise a value that occurs and is below every value |
| Sql.Max | conversation-storage.js:177-198 | `MAX(timestamp)` is NULL on no rows, otherwise a value that occurs and is above every value |
| Sql.MinFrom | conversation-storage.js:177-198 | `MIN` over the rows from a position on is NULL exactly when no row is left, otherwise a value of one of those rows below all of them |
| Sql.MaxFrom | conversation-storage.js:177-198 | `MAX` over the rows from a position on is NULL exactly when no row is left, otherwise a value of one of those rows above all of them |
| Sql.MinIsLeast | conversation-storage.js:177-198 | a value at or below every value of the column is its `MIN` |
| Sql.MaxIsGreatest | conversation-storage.js:177-198 | a value at or above every value of the column is its `MAX` |
| Sql.NonNull | conversation-storage.js:177-198 | the non-NULL values of a column, none more than the column has, and none exactly when every value is NULL |
| ConversationStorage.Where | conversation-storage.js:141-156 | a `WHERE` selection holds exactly the rows that satisfy the condition, no more rows than the table |
| ConversationStorage.WhereAppend | conversation-storage.js:105-136 | selecting from a table grown by one row is the old selection plus that row if it satisfies the condition |
| ConversationStorage.WhereNone | conversation-storage.js:177-198 | a condition no row satisfies selects nothing |
| ConversationStorage.WhereKeepsOrder | conversation-storage.js:141-156 | selection keeps any order the table had |
| ConversationStorage.GetHistory | conversation-storage.js:141-156 | `getHistory` returns `min(limit, n)` rows for a session of `n` messages; a negative limit keeps all |
| ConversationStorage.RecentMessages | conversation-storage.js:141-156 | the rows behind `getHistory` are the last `min(limit, n)` of the session's messages, in append order |
| ConversationStorage.NewestFirstIsIdDescending | conversation-storage.js:141-156 | reversing a session's rows lists them by id, descending, which is `ORDER BY id DESC` |
| ConversationStorage.RecentIsLastOfSession | conversation-storage.js:141-156 | `ORDER BY id DESC LIMIT ?` then `reverse()` is exactly the session's last `min(limit, n)` messages in append order, and the whole session when the limit does not bite |
| ConversationStorage.LastOfReversed | conversation-storage.js:141-156 | reversing, keeping the first `limit` rows and reversing back keeps the last `min(limit, n)` rows, in order, for any row type |
| ConversationStorage.HistoryIsLastRows | conversation-storage.js:141-156 | each history row is the selected columns of the matching one of the session's last messages; never more than `limit` or `n` rows |
| ConversationStorage.RecentInIdOrder | conversation-storage.js:141-156 | the history comes oldest first, in strictly ascending id order |
| ConversationStorage.LastRowsKeepOrder | conversation-storage.js:141-156 | the last rows of a table sorted by some relation are sorted by it too |
| ConversationStorage.RoleFlagsSum | conversation-storage.js:177-198 | `SUM(CASE WHEN role = ? THEN 1 ELSE 0 END)` counts the rows with that role; with no rows the sum is NULL |
| ConversationStorage.SessionStatsMeaning | conversation-storage.js:177-198 | each field of `getSessionStats`: the message count, the user and assistant counts, and the token totals with SQL NULL semantics |
| ConversationStorage.GetSessionStats | conversation-storage.js:177-198 | `total_messages` is the number of the session's messages, and it is 0 exactly when no message names the session |
| ConversationStorage.EmptySessionStats | conversation-storage.js:177-198 | a session without messages gets count 0 and NULL for every other field, not an error |
| ConversationStorage.NoMessagesOf | conversation-storage.js:141-156 | a session no message names has no history rows |
| ConversationStorage.StatsTimeBounds | conversation-storage.js:177-198 | `first_message` and `last_message` are the timestamps of the session's first and last message |
| ConversationStorage.FirstAndLastTimes | conversation-storage.js:177-198 | over rows in time order, `MIN(timestamp)` is the first row's time and `MAX(timestamp)` the last row's |
| ConversationStorage.InsightsNewestFirst | conversation-storage.js:220-231 | `getInsights` returns every insight of the session exactly once (the same multiset) and nothing else, in descending timestamp order |
| ConversationStorage.GetInsights | conversation-storage.js:220-231 | `getInsights` returns the session's insights and only those, each as often as stored |
| ConversationStorage.ReversePermutes | conversation-storage.js:220-231 | reading rows in the opposite order keeps every row, as often as it occurs |
| ConversationStorage.GetDatabaseStats | conversation-storage.js:281-298 | the active sessions are never more than the sessions |
| ConversationStorage.SubsetNoLarger | conversation-storage.js:281-298 | a subset of the sessions is no larger than the set of sessions |
| ConversationStorage.ActiveIdsUpdate | conversation-storage.js:236-247 | writing one session row changes the set of active sessions only at that id |
| ConversationStorage.ExportConversation | conversation-storage.js:252-276 | the export holds the session row exactly when it exists; its stats are `getSessionStats` of that session (the count is the number of its messages); its messages are `getHistory(sessionId, 1000)` of that session; its insights are `getInsights` of that session, none for a session without any |
| ConversationStorage.CountsAgreeAfterCreate | conversation-storage.js:89-100 | adding a session with count 0 keeps every `message_count` equal to its number of messages |
| ConversationStorage.CountsAgreeAfterSave | conversation-storage.js:105-136 | storing a message and incrementing its session's counter keeps the counts in agreement |
| ConversationStorage.MessageTableAppend | conversation-storage.js:105-136 | a message with the next AUTOINCREMENT id at the current time keeps the table in id and time order |
| ConversationStorage.InsightTableAppend | conversation-storage.js:203-215 | an insight with the next id at the current time keeps the insights in id and time order |
| ConversationStorage.SessionTouch | conversation-storage.js:124-130 | refreshing `updated_at` to the current time keeps `created_at <= updated_at <= now` |
| ConversationStorage.ClockAdvance | conversation-storage.js:105-136 | time moving forward keeps every table invariant |
| ConversationStorage.ConversationStore.constructor | conversation-storage.js:32-84 | the schema starts with three empty tables, which satisfy every invariant; both AUTOINCREMENT counters and the clock start at 0, so the first row of each table gets id 1 and any request time is allowed |
| ConversationStorage.ConversationStore.CreateSession | conversation-storage.js:89-100 | `INSERT OR IGNORE`: an existing session is untouched; a new one gets the given or default user name, creation and update time now, count 0, status active; one more session and one more active session in the database stats; counts stay in agreement |
| ConversationStorage.ConversationStore.SaveMessage | conversation-storage.js:105-136 | appends one message with the next id, the current time and the default model when none is given; increments the session's `message_count` and sets `updated_at`; for an unknown session the message is still stored and the counts no longer agree |
| ConversationStorage.ConversationStore.SaveInsight | conversation-storage.js:203-215 | appends one insight with the next id, the current time and importance `medium` by default; nothing else changes |
| ConversationStorage.ConversationStore.ClearConversation | conversation-storage.js:236-247 | only that session's status becomes archived; its messages and history stay; active sessions drop by one if it was active |
| ConversationStorage.ConversationStore.GetAllSessions | conversation-storage.js:161-172 | every session row exactly once, most recently updated first |
| ConversationStorage.ListedExtend | conversation-storage.js:161-172 | moving the latest remaining session to the end of the list keeps the list complete, duplicate-free and ordered |
| ConversationStorage.ExtendRows | conversation-storage.js:161-172 | listing the chosen session next keeps every session either listed or still remaining |
| ConversationStorage.ExtendOrdered | conversation-storage.js:161-172 | listing the latest remaining session next keeps the list in descending `updated_at` order |
| ConversationStorage.ExtendAhead | conversation-storage.js:161-172 | after listing the latest remaining session, every listed session is at least as recent as every session still remaining |
| ConversationStorage.SortedAppend | conversation-storage.js:105-136 | appending a row that follows every earlier one keeps the table ordered |
| ConversationStorage.LatestExists | conversation-storage.js:161-172 | a non-empty set of sessions has a most recently updated one |
| ChatServer.TrimStartShape | grok-server-with-db.js:117 | leading-space trimming leaves nothing exactly when every character is white space, else a non-space first character |
| ChatServer.TrimEndKeepsHead | grok-server-with-db.js:117 | trailing-space trimming keeps a non-space first character |
| ChatServer.Trim | grok-server-with-db.js:117 | `message.trim() === ''` exactly when every character of the message is JavaScript white space |
| ChatServer.MessageMissing | grok-server-with-db.js:117 | the 400 guard fires exactly when the message is absent or consists of white space only |
| ChatServer.Decimal | grok-server-with-db.js:113 | `Date.now()` is written as a non-empty string of decimal digits |
| ChatServer.DecimalValue | grok-server-with-db.js:113 | the digits written for `Date.now()` denote that number, read back by an independent left-to-right digit fold |
| ChatServer.DefaultSessionId | grok-server-with-db.js:113 | the default session id is `muawiya-` followed by digits only, and those digits denote the request time in milliseconds |
| ChatServer.DefaultSessionIdsDiffer | grok-server-with-db.js:113 | requests at two different times get two different default session ids |
| ChatServer.ChatSessionId | grok-server-with-db.js:111-113 | a given `sessionId` is used as it is, even the empty string the destructuring default keeps; without one the id is `DefaultSessionId` of the request time, whose digits denote that time |
| ChatServer.LastOfSession | grok-server-with-db.js:128 | reading the table backwards keeps at most `k` messages |
| ChatServer.LastOfSessionIsSuffix | grok-server-with-db.js:128 | reading backwards picks the session's last `min(k, n)` messages, the same rows as the history query |
| ChatServer.SessionRowLast | grok-server-with-db.js:128 | the inductive step of the above when the last row belongs to the session |
| ChatServer.OtherRowLast | grok-server-with-db.js:128 | the inductive step of the above when the last row belongs to another session |
| ChatServer.SuffixAppend | grok-server-with-db.js:128 | the last `k` of a sequence grown by one are its last `k - 1` and the new element |
| ChatServer.HistoryTurns | grok-server-with-db.js:128-134 | the turns built from `getHistory(sessionId, 20)` are those of the session's last 20 messages |
| ChatServer.RowTurns | grok-server-with-db.js:131-134 | projecting messages to history rows and then to turns is projecting them to turns |
| ChatServer.ReplayWindow | grok-server-with-db.js:128-166 | the replay holds 1 to 20 messages and ends with the user message just stored, so `conversationLength` lies in 3..22 |
| ChatServer.ReplayIsWholeShortSession | grok-server-with-db.js:128-134 | with fewer than 20 messages in the session, the whole session is replayed in order, then the new message |
| ChatServer.TurnsOfAppend | grok-server-with-db.js:131-134 | mapping messages to role/content turns distributes over concatenation, so the replay of earlier messages plus the new one is their turns plus its turn |
| ChatServer.HandleChat | grok-server-with-db.js:109-193 | a missing or blank message gets 400 and leaves the store unchanged. Otherwise: the session (given or `muawiya-<ms>`) is created if new, with the user name or the default `معاوية`, status active and creation time the request time; an existing session keeps its name, creation time and status. The user message is stored with the next id at the request time; the last 20 messages are replayed to the gateway. On a completion the assistant message with its tokens is stored with the following id at the later reply time, and the answer, session, `conversationLength` and token totals are returned. On a failure a 500 comes back whose text depends on status 401, and only the user message stays stored. `message_count` grows by the messages stored, `updated_at` is the time of the last one, no other session changes, the message counter advances by the messages stored, the insight counter stays, and the clock ends at the reply time on success |
| ChatServer.OpenTurn | grok-server-with-db.js:122-134 | creates the session if new (active, created now) or keeps it, appends the user message with the next id at time `now`, counts it in the session with `updated_at` now, leaves the insights and their counter alone, and returns the replay of the last 20 messages |
| ChatServer.StoreUserMessage | grok-server-with-db.js:125 | the user message is appended with the next id and the current time, the opened session counts one more message and is updated now, and the insights and their counter are untouched |
| ChatServer.Converse | grok-server-with-db.js:122-192 | a valid message leads to the exchange `HandleChat` states, with the same counters and clock |
| ChatServer.Answer | grok-server-with-db.js:137-192 | calls the gateway on the replay: a completion is stored at the reply time and answered, a failure is answered with a 500 and stores nothing more; either way the whole exchange from the state before the request holds, and the clock ends at the reply time on success and is unchanged on failure |
| ChatServer.StoreAnswer | grok-server-with-db.js:153-158 | appends the assistant message with the id after the user message, its token counts and the reply time; the session counts both messages and is updated at the reply time; the clock moves to the reply time |
| ChatServer.SessionOpenedByCreate | grok-server-with-db.js:122 | `createSession` leaves the session opened with nothing added: a new one active, with the given or default name and created now, an existing one untouched |
| ChatServer.SessionOpenedTouched | grok-server-with-db.js:125 | storing one more message in an opened session at time `t` counts it and sets `updated_at` to `t`, keeping the rest of the opening |
| ChatServer.ConversedIntro | grok-server-with-db.js:109-193 | the three steps of the handler together are the stated exchange |
| ChatServer.MessagesOfAppended | grok-server-with-db.js:122-158 | messages appended to one session add to that session's messages only |
| ChatServer.OpenedKeepsCounts | grok-server-with-db.js:122-158 | opening the session and storing its messages keeps every `message_count` equal to its number of messages |
| ChatServer.ChatKeepsCounts | grok-server-with-db.js:109-193 | a chat exchange, successful or not, keeps every `message_count` equal to its number of messages |
| ChatServer.ConversationLengthOvercounts | grok-server-with-db.js:166 | after a successful exchange in a session of fewer than 20 messages, `conversationLength` is one more than the messages the session holds |
| ChatServer.HandleClear | grok-server-with-db.js:200-208 | archives the named session, or `default` when none is named; no other session changes; messages, insights, both id counters and the clock stay |
| ChatServer.HistorySessionId | grok-server-with-db.js:216 | the `/api/history` id is never empty: a non-empty optional path parameter `sessionId` is used as it is, a missing or empty one becomes `default` |
| ChatServer.HandleHistory | grok-server-with-db.js:214-229 | reads the named session, or `default` for a missing or empty id; the history is the session's last 100 messages (all of them when fewer) as history rows in append order; `length` is the number of rows; the stats are `getSessionStats` of that session |
| CloudflareWorker.Lower | cloudflare-worker.js:120 | keeps the length and leaves no ASCII capital; every character other than `A`-`Z` is unchanged and each of `A`-`Z` becomes its lower-case letter |
| CloudflareWorker.LowerNoUpper | cloudflare-worker.js:123 | lowercasing a string without capitals returns it unchanged |
| CloudflareWorker.LowerIdempotent | cloudflare-worker.js:120 | lowercasing twice is lowercasing once |
| CloudflareWorker.Split | cloudflare-worker.js:123 | `split` always yields at least one piece |
| CloudflareWorker.SplitNoSep | cloudflare-worker.js:123 | a string without the separator splits into itself |
| CloudflareWorker.SplitWord | cloudflare-worker.js:123 | a word followed by the separator splits off as one piece |
| CloudflareWorker.SplitJoin | cloudflare-worker.js:123 | splitting words joined by a separator none of them contains gives the words back |
| CloudflareWorker.SplitNoUpper | cloudflare-worker.js:123 | splitting a lowercased key yields pieces without capitals, so every key word is lower case |
| CloudflareWorker.JoinNoUpper | cloudflare-worker.js:123 | words without capitals joined by a non-capital have no capital, so `toLowerCase` leaves the key alone |
| CloudflareWorker.KeyWordsOfJoin | cloudflare-worker.js:123 | a key made of space-free lower-case words is matched by its first three words |
| CloudflareWorker.KeyWordsOfFour | cloudflare-worker.js:123 | a four-word key is matched by its first three words |
| CloudflareWorker.KeyWordsOfThree | cloudflare-worker.js:123 | a three-word key is matched by all three of its words |
| CloudflareWorker.FirstThree | cloudflare-worker.js:123 | `slice(0, 3)` is a prefix of at most three words |
| CloudflareWorker.KeyWords | cloudflare-worker.js:123 | a key yields one to three lower-case words; which words is stated by `KeyWordsOfJoin`, `KeyWordsOfFour` and `KeyWordsOfThree` |
| CloudflareWorker.Contains | cloudflare-worker.js:124 | `includes`: the empty string occurs in every string, and a string that occurs is no longer than the one it occurs in |
| CloudflareWorker.MatchesKey | cloudflare-worker.js:124 | `some(word => includes(word))`: a key with an empty word among its first three (a leading or doubled space) matches every question |
| CloudflareWorker.FirstMatch | cloudflare-worker.js:122-127 | a loop answer is the answer of some table entry |
| CloudflareWorker.GrokAnswer | cloudflare-worker.js:119-134 | the answer is one of the three table answers or the fallback text |
| CloudflareWorker.FirstMatchIsFirst | cloudflare-worker.js:122-127 | keys are tried in declaration order: the first key with a word in the question gives the answer |
| CloudflareWorker.FirstMatchNone | cloudflare-worker.js:122-127 | the loop falls through exactly when no key matches |
| CloudflareWorker.FirstMatchOfThree | cloudflare-worker.js:122-127 | on a three-entry table the loop tries the entries in order and returns the first matching entry's answer, or nothing |
| CloudflareWorker.LoopUnrolled | cloudflare-worker.js:122-127 | over `QA_DATABASE` the loop answers with the first of the three keys, in declaration order, that has a word in the question |
| CloudflareWorker.MatchedBy | cloudflare-worker.js:124 | a key matches any question that contains one of its words |
| CloudflareWorker.KeyWordsOfTable | cloudflare-worker.js:21-25 | the words each key is matched by are its first three words |
| CloudflareWorker.KeyWords1 | cloudflare-worker.js:22 | the first key is matched by "ما", "أكبر" and "مشاكل" |
| CloudflareWorker.KeyWords2 | cloudflare-worker.js:23 | the second key is matched by "كم", "عميل" and "نشط" |
| CloudflareWorker.KeyWords3 | cloudflare-worker.js:24 | the third key is matched by "ما", "حالة" and "الفواتير؟" |
| CloudflareWorker.QuestionWordAlwaysFirst | cloudflare-worker.js:119-127 | any question containing "ما" gets the first answer |
| CloudflareWorker.ClientStemUnreachable | cloudflare-worker.js:129 | a question containing 'عميل' is answered by the loop (first or second answer), so the stem check never fires |
| CloudflareWorker.FallbackIffNoWord | cloudflare-worker.js:119-134 | the fallback text comes back exactly when the lowercased question contains none of the key words and none of the three stems |
| CloudflareWorker.FallbackIffNoStem | cloudflare-worker.js:128-133 | the fallback comes back exactly when the loop falls through and no stem occurs |
| CloudflareWorker.AnswersAreNotFallback | cloudflare-worker.js:21-25 | no table answer is the fallback text |
| CloudflareWorker.RouteOf | cloudflare-worker.js:31-61 | OPTIONS is the CORS preflight on every path; `POST /api/ask`, `GET /api/history` and `GET /api/stats` are dispatched; every other request gets the service description `Grok API for Mizan`, version `1.0`, status `online` |
| CloudflareWorker.HandleAsk | cloudflare-worker.js:63-87 | a missing or empty question is refused with 400 and nothing to save; otherwise the answer is `getGrokAnswer`'s and the saved row carries the question, the answer, the user name (`Muawiya` by default) and its ASCII-lowercased id; its session key is exactly `Given(id)` for a non-empty given id and `Clock(millis)` when none or an empty one is given |

## Left out

- The SQLite driver, the schema statements, the indexes, `close`, and storage errors. The tables are values and every statement succeeds.
- Asynchrony: every operation runs to completion before the next one.
- The clock. Times are natural numbers supplied by the caller, who passes a time no earlier than the last one. `Date.now()` for default session ids is a separate parameter.
- `cost_usd`, `total_cost` and the `cost` field of the `/api/chat` answer: these are floating-point values.
- `exported_at` in `exportConversation`: it is the current time only.
- The Anthropic client, `SYSTEM_PROMPT` and the knowledge base. The hosted model is the gateway parameter of `HandleChat`.
- Express: request parsing, headers, `/health`, `/api/export`, `/api/sessions` and `/api/stats` of the server. Those routes only call the store functions modelled here.
- The Supabase calls of the Worker (`saveToSupabase`, `handleGetHistory`), the placeholder `handleGetStats`, which returns constant JSON, and `jsonResponse`. `HandleAsk` returns the row it would send; the row's `created_at` and the `conversation_id` and `timestamp` fields of its reply are not modelled.
- Non-string JSON values: the model takes every body field as a string or absent.
- `netlify/functions/chat.js` is not part of this model.
- Integer widths: ids, counts and token numbers are unbounded.
- CloudflareWorker.Lower: only ASCII capitals are lowered. `toLowerCase` also lowers other scripts' capitals. The keys and stems are Arabic and have no case, so `getGrokAnswer` is unaffected, but the `user_id` that `HandleAsk` derives from a user name with a non-ASCII capital (`Émile`) keeps that capital where the Worker would lower it.
- ChatServer.HandleChat: `createSession` and the user message are both stamped with the request time `now`. The server reads `CURRENT_TIMESTAMP` twice, in two consecutive store calls with no network call between them, so the two can differ only by a clock tick. The assistant message gets its own later time.
- ConversationStorage.GetHistory: the default `limit = 20` of `getHistory` is not modelled; the limit is always a parameter, and every caller in the modelled code passes one (20, 100 or 1000).
- ConversationStorage.GetInsights: rows with equal timestamps come newest insertion first. SQLite leaves that order unspecified.
- ConversationStorage.ConversationStore.GetAllSessions: the order among sessions with equal `updated_at` is left open, as in SQLite.
- ConversationStorage.ConversationStore.SaveMessage: the foreign key on `session_id` is not enforced, as in SQLite by default. A message for an unknown session is stored.
