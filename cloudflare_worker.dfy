/** The Cloudflare Worker variant of the service: a canned-answer matcher
    over a three-entry question table, the request router, and the
    validation of `POST /api/ask`. The Supabase calls are not modelled;
    `HandleAsk` returns the row it would send instead. */
module CloudflareWorker {
  import opened Wrappers

  // ---------------------------------------------------------------------
  // The question table

  /** One `QA_DATABASE` entry: a sample question and its canned answer. */
  datatype QaEntry = QaEntry(question: string, answer: string)

  /** The sample questions, word by word. */
  const Key1: string := "ما" + " " + "أكبر" + " " + "مشاكل" + " " + "ميزان؟"
  const Key2: string := "كم" + " " + "عميل" + " " + "نشط" + " " + "لدينا؟"
  const Key3: string := "ما" + " " + "حالة" + " " + "الفواتير؟"

  /** The answers, one string piece per line of the text. */
  const Answer1: string :=
    "أكبر 3 مشاكل:\n" + "1️⃣ احتراق معاوية (40%)\n" + "2️⃣ أزمة سيولة (15,640 OMR)\n" + "3️⃣ تركيز إيرادات (67.6% من عميلين)"
  const Answer2: string := "15 عميل نشط:\n" + "🏛️ 2 حكومي\n" + "🏢 13 قطاع خاص"
  const Answer3: string := "💰 إيرادات: 21,540 OMR\n" + "💸 محصّل: 2,100 OMR\n" + "🚨 مستحقات: 15,640 OMR"

  /** What `getGrokAnswer` says when nothing matches. */
  const Fallback: string := "سؤال ممتاز! 🤔\n\n" + "للأسف، أحتاج مزيد من التفاصيل.\n\n" + "جرب الأسئلة السريعة أعلاه!"

  /** The entries in declaration order, which is the order `for...in`
      visits string keys. */
  const QaDatabase: seq<QaEntry> := [QaEntry(Key1, Answer1), QaEntry(Key2, Answer2), QaEntry(Key3, Answer3)]

  /** The stems tried after the table, with the answer each one gives. */
  const StemClient: string := "عميل"
  const StemProblem: string := "مشكل"
  const StemInvoice: string := "فاتور"

  // ---------------------------------------------------------------------
  // String operations

  function LowerChar(c: char): char
  {
    if 'A' <= c <= 'Z' then (c as int + 32) as char else c
  }

  /** `String.prototype.toLowerCase`, for the ASCII letters: the result
      has no capital left, and every other character stays where it was. */
  function Lower(s: string): (r: string)
    ensures |r| == |s| && NoUpper(r)
    ensures forall i :: 0 <= i < |s| && !('A' <= s[i] <= 'Z') ==> r[i] == s[i]
    ensures forall i :: 0 <= i < |s| && 'A' <= s[i] <= 'Z' ==> r[i] == (s[i] as int + 32) as char
  {
    seq(|s|, i requires 0 <= i < |s| => LowerChar(s[i]))
  }

  predicate NoUpper(s: string)
  {
    forall i :: 0 <= i < |s| ==> !('A' <= s[i] <= 'Z')
  }

  lemma LowerNoUpper(s: string)
    requires NoUpper(s)
    ensures Lower(s) == s
  {
    assert forall i :: 0 <= i < |s| ==> Lower(s)[i] == s[i];
  }

  /** Lowercasing twice is lowercasing once. */
  lemma LowerIdempotent(s: string)
    ensures Lower(Lower(s)) == Lower(s)
  {
    LowerNoUpper(Lower(s));
  }

  /** `String.prototype.split(sep)`: the pieces between separators, with an
      empty piece wherever two separators meet or one ends the string. */
  function Split(s: string, sep: char): (r: seq<string>)
    ensures |r| >= 1
  {
    if s == [] then [[]]
    else
      var rest := Split(s[1..], sep);
      if s[0] == sep then [[]] + rest else [[s[0]] + rest[0]] + rest[1..]
  }

  /** The pieces of a string without capitals have no capitals. */
  lemma {:induction false} SplitNoUpper(s: string, sep: char)
    requires NoUpper(s)
    ensures forall w | w in Split(s, sep) :: NoUpper(w)
    decreases |s|
  {
    if s != [] {
      assert NoUpper(s[1..]);
      SplitNoUpper(s[1..], sep);
      var rest := Split(s[1..], sep);
      if s[0] != sep {
        assert rest[0] in rest;
        assert NoUpper([s[0]] + rest[0]);
        assert forall w | w in rest[1..] :: w in rest;
      }
    }
  }

  lemma {:induction false} SplitNoSep(w: string, sep: char)
    requires sep !in w
    ensures Split(w, sep) == [w]
  {
    if w != [] {
      assert sep !in w[1..];
      SplitNoSep(w[1..], sep);
      assert [w[0]] + w[1..] == w;
    }
  }

  /** A piece without the separator, then the separator, splits off as one
      word. */
  lemma {:induction false} SplitWord(w: string, sep: char, rest: string)
    requires sep !in w
    ensures Split(w + [sep] + rest, sep) == [w] + Split(rest, sep)
  {
    var s := w + [sep] + rest;
    if w == [] {
      assert s[1..] == rest;
    } else {
      assert s[1..] == w[1..] + [sep] + rest;
      assert sep !in w[1..];
      SplitWord(w[1..], sep, rest);
      assert [w[0]] + w[1..] == w;
    }
  }

  /** `Array.prototype.join(sep)` on a non-empty list of words. */
  function Join(words: seq<string>, sep: char): string
    requires words != []
  {
    if |words| == 1 then words[0] else words[0] + [sep] + Join(words[1..], sep)
  }

  /** Splitting words joined by a separator none of them contains gives the
      words back. */
  lemma {:induction false} SplitJoin(words: seq<string>, sep: char)
    requires words != [] && forall i :: 0 <= i < |words| ==> sep !in words[i]
    ensures Split(Join(words, sep), sep) == words
  {
    if |words| == 1 {
      SplitNoSep(words[0], sep);
    } else {
      assert forall i :: 0 <= i < |words| - 1 ==> words[1..][i] == words[i + 1];
      SplitJoin(words[1..], sep);
      SplitWord(words[0], sep, Join(words[1..], sep));
      assert [words[0]] + words[1..] == words;
    }
  }

  /** Words without capitals, joined by a non-capital, have no capital. */
  lemma {:induction false} JoinNoUpper(words: seq<string>, sep: char)
    requires words != [] && forall i :: 0 <= i < |words| ==> NoUpper(words[i])
    requires !('A' <= sep <= 'Z')
    ensures NoUpper(Join(words, sep))
  {
    if |words| > 1 {
      assert forall i :: 0 <= i < |words| - 1 ==> words[1..][i] == words[i + 1];
      JoinNoUpper(words[1..], sep);
      var head, tail := words[0] + [sep], Join(words[1..], sep);
      assert NoUpper(head) by {
        assert forall i :: 0 <= i < |head| - 1 ==> head[i] == words[0][i];
      }
      assert forall i :: 0 <= i < |head| + |tail| ==>
        (head + tail)[i] == if i < |head| then head[i] else tail[i - |head|];
    }
  }

  /** `Array.prototype.slice(0, 3)`. */
  function FirstThree(words: seq<string>): (r: seq<string>)
    ensures |r| == if |words| < 3 then |words| else 3
    ensures r <= words
  {
    if |words| <= 3 then words else words[..3]
  }

  /** `String.prototype.includes`: the empty string is in every string, and
      nothing longer than the string is in it. */
  predicate Contains(haystack: string, needle: string)
    ensures needle == [] ==> Contains(haystack, needle)
    ensures Contains(haystack, needle) ==> |needle| <= |haystack|
  {
    assert needle == [] ==> OccursAt(haystack, needle, 0);
    exists i | 0 <= i <= |haystack| - |needle| :: OccursAt(haystack, needle, i)
  }

  /** `needle` starts at position `i` of `haystack`. */
  predicate OccursAt(haystack: string, needle: string, i: int)
  {
    0 <= i <= |haystack| - |needle| && haystack[i..i + |needle|] == needle
  }

  // ---------------------------------------------------------------------
  // getGrokAnswer

  /** The words a key is matched by: its first three space-separated words,
      lowercased. */
  function KeyWords(key: string): (r: seq<string>)
    ensures 1 <= |r| <= 3
    ensures forall w | w in r :: NoUpper(w)
  {
    SplitNoUpper(Lower(key), ' ');
    FirstThree(Split(Lower(key), ' '))
  }

  /** `keyWords.some(word => lowerQuestion.includes(word))`. */
  predicate MatchesKey(key: string, lowerQuestion: string)
    ensures (exists w | w in KeyWords(key) :: w == []) ==> MatchesKey(key, lowerQuestion)
  {
    exists w | w in KeyWords(key) :: Contains(lowerQuestion, w)
  }

  /** The `for...in` loop: the answer of the first entry whose key matches. */
  function FirstMatch(table: seq<QaEntry>, lowerQuestion: string): (r: Option<string>)
    ensures r.Some? ==> exists e | e in table :: r.value == e.answer
  {
    if table == [] then None
    else if MatchesKey(table[0].question, lowerQuestion) then Some(table[0].answer)
    else FirstMatch(table[1..], lowerQuestion)
  }

  /** `getGrokAnswer(question)`. */
  function GrokAnswer(question: string): (r: string)
    ensures r == Answer1 || r == Answer2 || r == Answer3 || r == Fallback
  {
    var lower := Lower(question);
    match FirstMatch(QaDatabase, lower)
    case Some(answer) => answer
    case None =>
      if Contains(lower, StemClient) then Answer2
      else if Contains(lower, StemProblem) then Answer1
      else if Contains(lower, StemInvoice) then Answer3
      else Fallback
  }

  /** The first matching entry wins: entries before it do not match, and
      with no matching entry the loop falls through. */
  lemma {:induction false} FirstMatchIsFirst(table: seq<QaEntry>, q: string, j: int)
    requires 0 <= j < |table| && MatchesKey(table[j].question, q)
    requires forall i :: 0 <= i < j ==> !MatchesKey(table[i].question, q)
    ensures FirstMatch(table, q) == Some(table[j].answer)
  {
    if j > 0 {
      assert !MatchesKey(table[0].question, q);
      assert table[1..][j - 1] == table[j];
      FirstMatchIsFirst(table[1..], q, j - 1);
    }
  }

  lemma {:induction false} FirstMatchNone(table: seq<QaEntry>, q: string)
    ensures FirstMatch(table, q) == None <==> forall i :: 0 <= i < |table| ==> !MatchesKey(table[i].question, q)
  {
    if table != [] {
      FirstMatchNone(table[1..], q);
      assert forall i :: 1 <= i < |table| ==> table[i] == table[1..][i - 1];
    }
  }

  /** The words each key is matched by. */
  lemma KeyWordsOfTable()
    ensures KeyWords(Key1) == ["ما", "أكبر", "مشاكل"]
    ensures KeyWords(Key2) == ["كم", "عميل", "نشط"]
    ensures KeyWords(Key3) == ["ما", "حالة", "الفواتير؟"]
  {
    KeyWords1();
    KeyWords2();
    KeyWords3();
  }

  lemma KeyWords1()
    ensures KeyWords(Key1) == ["ما", "أكبر", "مشاكل"]
  {
    KeyWordsOfFour("ما", "أكبر", "مشاكل", "ميزان؟");
  }

  lemma KeyWords2()
    ensures KeyWords(Key2) == ["كم", "عميل", "نشط"]
  {
    KeyWordsOfFour("كم", "عميل", "نشط", "لدينا؟");
  }

  lemma KeyWords3()
    ensures KeyWords(Key3) == ["ما", "حالة", "الفواتير؟"]
  {
    KeyWordsOfThree("ما", "حالة", "الفواتير؟");
  }

  /** A word `split(' ')` keeps whole and `toLowerCase` leaves alone. */
  predicate PlainWord(w: string)
  {
    ' ' !in w && NoUpper(w)
  }

  lemma KeyWordsOfFour(a: string, b: string, c: string, d: string)
    requires PlainWord(a) && PlainWord(b) && PlainWord(c) && PlainWord(d)
    ensures KeyWords(a + " " + b + " " + c + " " + d) == [a, b, c]
  {
    var words := [a, b, c, d];
    assert words[1..] == [b, c, d] && words[1..][1..] == [c, d] && words[1..][1..][1..] == [d];
    assert Join([c, d], ' ') == c + [' '] + d;
    assert Join([b, c, d], ' ') == b + [' '] + (c + [' '] + d);
    assert Join(words, ' ') == a + [' '] + (b + [' '] + (c + [' '] + d));
    assert a + " " + b + " " + c + " " + d == a + [' '] + (b + [' '] + (c + [' '] + d));
    KeyWordsOfJoin(words);
  }

  lemma KeyWordsOfThree(a: string, b: string, c: string)
    requires PlainWord(a) && PlainWord(b) && PlainWord(c)
    ensures KeyWords(a + " " + b + " " + c) == [a, b, c]
  {
    var words := [a, b, c];
    assert words[1..] == [b, c] && words[1..][1..] == [c];
    assert Join([b, c], ' ') == b + [' '] + c;
    assert Join(words, ' ') == a + [' '] + (b + [' '] + c);
    assert a + " " + b + " " + c == a + [' '] + (b + [' '] + c);
    KeyWordsOfJoin(words);
  }

  /** A key made of words without spaces or capitals is matched by its
      first three words. */
  lemma KeyWordsOfJoin(words: seq<string>)
    requires words != [] && forall i :: 0 <= i < |words| ==> PlainWord(words[i])
    ensures KeyWords(Join(words, ' ')) == FirstThree(words)
  {
    JoinNoUpper(words, ' ');
    LowerNoUpper(Join(words, ' '));
    SplitJoin(words, ' ');
  }

  /** Any question containing "ما" gets the first answer, because that is
      the first word of the first key. */
  lemma QuestionWordAlwaysFirst(question: string)
    requires Contains(Lower(question), "ما")
    ensures GrokAnswer(question) == Answer1
  {
    KeyWords1();
    MatchedBy(Key1, Lower(question), "ما");
    LoopUnrolled(Lower(question));
  }

  /** The `'عميل'` stem is dead code: a question containing it is answered
      in the loop, by the first or the second entry. */
  lemma ClientStemUnreachable(question: string)
    requires Contains(Lower(question), StemClient)
    ensures FirstMatch(QaDatabase, Lower(question)).Some?
    ensures GrokAnswer(question) == Answer1 || GrokAnswer(question) == Answer2
  {
    var q := Lower(question);
    KeyWords2();
    MatchedBy(Key2, q, StemClient);
    LoopUnrolled(q);
  }

  /** A key matches a question containing one of its words. */
  lemma MatchedBy(key: string, q: string, w: string)
    requires w in KeyWords(key) && Contains(q, w)
    ensures MatchesKey(key, q)
  {
  }

  /** Every word `getGrokAnswer` looks for, in the order it looks. */
  const SearchedWords: seq<string> :=
    ["ما", "أكبر", "مشاكل", "كم", "عميل", "نشط", "ما", "حالة", "الفواتير؟", StemClient, StemProblem, StemInvoice]

  /** The fallback text comes back exactly when the lowercased question
      contains none of the searched words. */
  lemma FallbackIffNoWord(question: string)
    ensures GrokAnswer(question) == Fallback <==>
      forall w | w in SearchedWords :: !Contains(Lower(question), w)
  {
    var q := Lower(question);
    FallbackIffNoStem(question);
    LoopUnrolled(q);
    KeyWordsOfTable();
  }

  /** The fallback comes back exactly when neither the loop nor a stem
      answers. */
  lemma FallbackIffNoStem(question: string)
    ensures var q := Lower(question);
      GrokAnswer(question) == Fallback <==>
        && FirstMatch(QaDatabase, q) == None
        && !Contains(q, StemClient) && !Contains(q, StemProblem) && !Contains(q, StemInvoice)
  {
    AnswersAreNotFallback();
  }

  /** The loop over the table, written out: the keys are tried in
      declaration order and the first that matches gives its answer. */
  lemma LoopUnrolled(q: string)
    ensures FirstMatch(QaDatabase, q) ==
      if MatchesKey(Key1, q) then Some(Answer1)
      else if MatchesKey(Key2, q) then Some(Answer2)
      else if MatchesKey(Key3, q) then Some(Answer3)
      else None
  {
    FirstMatchOfThree(QaEntry(Key1, Answer1), QaEntry(Key2, Answer2), QaEntry(Key3, Answer3), q);
  }

  /** The loop over any three-entry table, written out. */
  lemma FirstMatchOfThree(e1: QaEntry, e2: QaEntry, e3: QaEntry, q: string)
    ensures FirstMatch([e1, e2, e3], q) ==
      if MatchesKey(e1.question, q) then Some(e1.answer)
      else if MatchesKey(e2.question, q) then Some(e2.answer)
      else if MatchesKey(e3.question, q) then Some(e3.answer)
      else None
  {
    assert [e3][1..] == [];
    assert FirstMatch([e3], q) == if MatchesKey(e3.question, q) then Some(e3.answer) else None;
    assert [e2, e3][1..] == [e3];
    assert FirstMatch([e2, e3], q) == if MatchesKey(e2.question, q) then Some(e2.answer) else FirstMatch([e3], q);
    assert [e1, e2, e3][1..] == [e2, e3];
  }

  lemma AnswersAreNotFallback()
    ensures Answer1 != Fallback && Answer2 != Fallback && Answer3 != Fallback
  {
    assert Fallback[0] == 'س';
    assert Answer1[0] == 'أ';
    assert Answer2[0] == '1';
    assert Answer3[0] == '💰';
  }

  // ---------------------------------------------------------------------
  // handleRequest

  /** The service description every other request gets, with the default
      status 200 of `jsonResponse`. */
  datatype ServiceDescription = ServiceDescription(service: string, version: string, status: string)

  const ServiceInfoBody: ServiceDescription := ServiceDescription("Grok API for Mizan", "1.0", "online")

  /** Where `handleRequest` sends a request; the fall-through answers with
      the service description. */
  datatype Route = Preflight | Ask | History | Stats | ServiceInfo(description: ServiceDescription)

  /** The route decision on the request method and the URL path. */
  function RouteOf(verb: string, path: string): (r: Route)
    ensures r == Preflight <==> verb == "OPTIONS"
    ensures r == Ask <==> verb == "POST" && path == "/api/ask"
    ensures r == History <==> verb == "GET" && path == "/api/history"
    ensures r == Stats <==> verb == "GET" && path == "/api/stats"
    ensures r.ServiceInfo? <==>
      verb != "OPTIONS" && !(verb == "POST" && path == "/api/ask")
      && !(verb == "GET" && (path == "/api/history" || path == "/api/stats"))
    ensures r.ServiceInfo? ==> r.description == ServiceDescription("Grok API for Mizan", "1.0", "online")
  {
    if verb == "OPTIONS" then Preflight
    else if path == "/api/ask" && verb == "POST" then Ask
    else if path == "/api/history" && verb == "GET" then History
    else if path == "/api/stats" && verb == "GET" then Stats
    else ServiceInfo(ServiceInfoBody)
  }

  // ---------------------------------------------------------------------
  // handleAskQuestion

  const DefaultAskUserName: string := "Muawiya"
  const QuestionRequired: string := "Question is required"

  /** `session_id || Date.now()`: the given id, or the time when none (or an
      empty one) is given. */
  datatype SessionKey = Given(id: string) | Clock(millis: nat)

  /** The parsed body of `POST /api/ask`; a field left out is `None`. */
  datatype AskBody = AskBody(question: Option<string>, userName: Option<string>, sessionId: Option<string>)

  /** The row sent to the `conversations` table. */
  datatype ConversationRecord = ConversationRecord(
    userId: string, userName: string, question: string, answer: string, session: SessionKey)

  datatype AskOutcome =
    | AskRejected(status: nat, error: string)
    | AskAnswered(answer: string, record: ConversationRecord)

  /** `!question`, for a string-valued or missing field. */
  predicate QuestionMissing(question: Option<string>)
  {
    question.None? || question.value == ""
  }

  /** `handleAskQuestion` up to the Supabase call: a missing question is
      refused with 400 and nothing to save; otherwise the canned answer and
      the row to save. */
  function HandleAsk(body: AskBody, millis: nat): (r: AskOutcome)
    ensures r.AskRejected? <==> QuestionMissing(body.question)
    ensures r.AskRejected? ==> r == AskRejected(400, QuestionRequired)
    ensures r.AskAnswered? ==>
      var userName := body.userName.GetOr(DefaultAskUserName);
      && r.answer == GrokAnswer(body.question.value)
      && r.record.answer == r.answer
      && r.record.question == body.question.value
      && r.record.userName == userName
      && r.record.userId == Lower(userName)
      && r.record.session == (if body.sessionId.None? || body.sessionId.value == "" then Clock(millis)
                              else Given(body.sessionId.value))
  {
    if QuestionMissing(body.question) then AskRejected(400, QuestionRequired)
    else
      var question := body.question.value;
      var userName := body.userName.GetOr(DefaultAskUserName);
      var answer := GrokAnswer(question);
      var session := if body.sessionId.None? || body.sessionId.value == "" then Clock(millis) else Given(body.sessionId.value);
      AskAnswered(answer, ConversationRecord(Lower(userName), userName, question, answer, session))
  }
}
