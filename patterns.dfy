/**
 * The fast-path classifier of the chatbot (`PatternManager`): ordered tables of
 * chitchat and document intents, each with a pattern, and canned responses per
 * chitchat intent. Every pattern in the repository is a parenthesised alternation
 * of plain words, so it is kept here as its list of alternatives, and a search for
 * it succeeds exactly when one alternative occurs in the text.
 */
module Patterns {
  import opened Wrappers
  import opened Text
  import opened Dict
  import opened Calendar

  /** The alternatives of a pattern `(lit1|lit2|...)`. */
  type Pattern = seq<string>

  /** An intent table: intent name to pattern, in insertion order. */
  type Table = seq<(string, Pattern)>

  /** The canned answers: intent name to its list of answers, in insertion order. */
  type Responses = seq<(string, seq<string>)>

  /** `re.search(pattern, text)` succeeds: one of the alternatives occurs in `text`. */
  predicate Matches(p: Pattern, text: string)
  {
    exists a :: a in p && IsInfix(a, text)
  }

  /** The sentinel answers that send a query on to the router. */
  const DocumentQuery: string := "DOCUMENT_QUERY"
  const GeneralQuery: string := "GENERAL_QUERY"

  /** The answer when the time of day cannot be read. */
  const NoTimeMessage: string := "Xin lỗi, không thể lấy thời gian hiện tại."

  /** The answer for a chitchat intent without registered responses. */
  const NoAnswerMessage: string := "Xin lỗi, tôi chưa có câu trả lời cho nội dung này."

  /** What precedes the time of day in the answer to a `time` question. */
  const TimePrefix: string := "Bây giờ là "

  /** The intents the fast path answers from the clock or ahead of all others. */
  const PriorityIntents: seq<string> := ["time", "date", "weather"]

  const DefaultChitchatPatterns: Table := [
    ("greeting", ["xin chào", "hello", "hi", "chào", "hey"]),
    ("family", ["gia đình", "nhà", "bao nhiêu người", "mấy người"]),
    ("name", ["tên", "tên gì", "là ai", "bạn là"]),
    ("time", ["mấy giờ", "thời gian", "giờ giấc"]),
    ("date", ["ngày", "thứ", "hôm nay"]),
    ("health", ["khỏe", "thế nào"]),
    ("age", ["mấy tuổi", "bao nhiêu tuổi"]),
    ("goodbye", ["tạm biệt", "bye", "goodbye", "gặp lại sau", "hẹn gặp lại"]),
    ("thanks", ["cảm ơn", "thank", "cảm ơn bạn rất nhiều"]),
    ("weather", ["thời tiết", "nắng", "mưa"]),
    ("general", ["ừ", "ok", "được", "vâng", "yes"]),
    ("sad", ["buồn", "cảm thấy buồn", "cảm thấy buồn bã", "cảm thấy buồn phiền", "thất tình"]),
    ("emotion", ["vui", "buồn", "giận", "thích", "yêu", "ghét", "nhớ"]),
    ("opinion", ["nghĩ", "suy nghĩ", "ý kiến", "quan điểm"]),
    ("personal", ["sở thích", "thích gì", "đam mê", "yêu thích"]),
    ("ability", ["có thể", "làm được", "khả năng", "biết"]),
    ("confirmation", ["phải không", "đúng không", "có phải", "có đúng"]),
    ("smalltalk", ["thế à", "vậy à", "ừ nhỉ", "thật không", "thật à"]),
    ("chat_fuck", ["con cặc", "địt mẹ mày", "fuck you", "ngu", "điên"])
  ]

  const DefaultDocPatterns: Table := [
    ("what", ["là gì", "như thế nào", "ra sao", "thế nào", "gì", "những gì", "định nghĩa", "khái niệm"]),
    ("how", ["làm sao", "như thế nào", "cách", "phương pháp", "bằng cách nào", "quy trình", "các bước"]),
    ("why", ["tại sao", "vì sao", "lý do", "nguyên nhân", "do đâu"]),
    ("when", ["khi nào", "lúc nào"]),
    ("where", ["ở đâu", "chỗ nào", "nơi nào"]),
    ("which", ["loại nào", "cái nào", "nào"]),
    ("explain", ["giải thích", "phân tích", "trình bày"]),
    ("compare", ["so sánh", "khác nhau"]),
    ("list", ["liệt kê", "kể", "nêu"]),
    ("define", ["định nghĩa", "khái niệm", "nghĩa"]),
    ("find", ["tìm", "tra cứu", "xem", "kiếm", "lookup"]),
    ("analyze", ["phân tích", "đánh giá", "nhận xét", "review"]),
    ("summarize", ["tóm tắt", "tổng hợp", "summary", "overview"]),
    ("technical", ["kỹ thuật", "công nghệ", "phương pháp", "algorithm", "thuật toán"]),
    ("reference", ["tham khảo", "nguồn", "trích dẫn", "cite"])
  ]

  const DefaultResponses: Responses := [
    ("greeting", ["Xin chào! Tôi là AI HÀN BẢO, tôi có thể giúp gì cho bạn?", "Chào bạn! Rất vui được gặp bạn."]),
    ("family", ["Tôi là một AI nên không có gia đình theo nghĩa thông thường. Nhưng tôi có một cộng đồng người dùng và nhà phát triển rất tuyệt vời!", "Là một AI, tôi không có gia đình như con người. Tôi được tạo ra để hỗ trợ mọi người như bạn.", "Tôi là trợ lý ảo nên không có gia đình thực sự. Nhưng tôi rất vui được trò chuyện với bạn!"]),
    ("general", ["Vâng, tôi hiểu rồi. Bạn cần giúp đỡ gì không?", "OK, tôi đang lắng nghe bạn.", "Được, bạn cứ nói tiếp nhé."]),
    ("thanks", ["Không có gì, đó là nhiệm vụ của tôi!", "Rất vui khi được giúp bạn!", "Không có chi bạn nhé!"]),
    ("name", ["Tôi là AI HÀN BẢO, tôi có thể giúp gì cho bạn?"]),
    ("age", ["Tôi là AI HÀN BẢO, tôi không có tuổi, còn bạn mấy tuổi?"]),
    ("health", ["Tôi rất khỏe, còn bạn thì sao?"]),
    ("weather", ["hỏi chị google nhá"]),
    ("goodbye", ["Tạm biệt bạn! Hẹn gặp lại sau nhé!"]),
    ("sad", ["Đừng buồn nhé, tôi sẽ luôn ở đây để hỗ trợ bạn", "Tôi rất vui khi được trò chuyện với bạn", "Tôi không biết nói gì để làm bạn vui hơn, nhưng tôi sẽ luôn ở đây để hỗ trợ bạn"]),
    ("chat_fuck", ["ê ê không chửi thề nha mày, đcm mày"])
  ]

  // ---------------------------------------------------------------------------
  // What get_responses computes

  /** The first intent of `t`, in table order, whose pattern matches `text`. */
  function FirstMatch(t: Table, text: string): Option<string>
  {
    if t == [] then None
    else if Matches(t[0].1, text) then Some(t[0].0)
    else FirstMatch(t[1..], text)
  }

  /** Every intent of `t` whose pattern matches `text`, in table order. */
  function MatchingIntents(t: Table, text: string): (found: seq<string>)
    ensures |found| <= |t|
  {
    if t == [] then []
    else (if Matches(t[0].1, text) then [t[0].0] else []) + MatchingIntents(t[1..], text)
  }

  /** The first intent of `found` other than `time`, `date` and `weather`. */
  function FirstOther(found: seq<string>): (other: Option<string>)
    ensures other.Some? ==> other.value in found && other.value !in PriorityIntents
  {
    if found == [] then None
    else if found[0] !in PriorityIntents then Some(found[0])
    else FirstOther(found[1..])
  }

  /** `responses.get(intent, [apology])`. */
  function ResponsesFor(responses: Responses, intent: string): seq<string>
  {
    match Get(responses, intent)
    case Some(answers) => answers
    case None => [NoAnswerMessage]
  }

  /**
   * The answer of the fast path for the lower-cased `text`: a document intent wins
   * outright; otherwise `time`, then `date`, then `weather`, then the first other
   * matching chitchat intent decides; with no match at all the query goes on.
   */
  function FastPath(chitchat: Table, doc: Table, responses: Responses,
                    text: string, clock: Clock): seq<string>
    requires Get(responses, "weather").Some?
    requires ValidClock(clock)
  {
    match FirstMatch(doc, text)
    case Some(intent) => [DocumentQuery, intent]
    case None =>
      var found := MatchingIntents(chitchat, text);
      if "time" in found then
        match clock.time
        case None => [NoTimeMessage]
        case Some(t) => [TimePrefix + FormatTime(t)]
      else if "date" in found then [FormatDate(clock.date)]
      else if "weather" in found then Get(responses, "weather").value
      else match FirstOther(found)
        case Some(intent) => ResponsesFor(responses, intent)
        case None => [GeneralQuery]
  }

  // ---------------------------------------------------------------------------
  // Properties of the matching

  /** The first match is the intent of the earliest matching entry of the table. */
  lemma {:induction false} FirstMatchSpec(t: Table, text: string, k: string)
    ensures FirstMatch(t, text) == Some(k) <==>
      exists i :: 0 <= i < |t| && t[i].0 == k && Matches(t[i].1, text) &&
        forall j :: 0 <= j < i ==> !Matches(t[j].1, text)
    ensures FirstMatch(t, text).None? <==> forall i :: 0 <= i < |t| ==> !Matches(t[i].1, text)
  {
    if t != [] {
      FirstMatchSpec(t[1..], text, k);
      if !Matches(t[0].1, text) {
        if FirstMatch(t, text) == Some(k) {
          var i :| 0 <= i < |t[1..]| && t[1..][i].0 == k && Matches(t[1..][i].1, text) &&
            forall j :: 0 <= j < i ==> !Matches(t[1..][j].1, text);
          assert forall j :: 0 <= j < i + 1 ==> !Matches(t[j].1, text) by {
            forall j | 0 < j < i + 1 ensures !Matches(t[j].1, text) {
              assert t[j] == t[1..][j - 1];
            }
          }
        }
        if exists i :: 0 <= i < |t| && t[i].0 == k && Matches(t[i].1, text) &&
            forall j :: 0 <= j < i ==> !Matches(t[j].1, text) {
          var i :| 0 <= i < |t| && t[i].0 == k && Matches(t[i].1, text) &&
            forall j :: 0 <= j < i ==> !Matches(t[j].1, text);
          assert i > 0;
          assert t[1..][i - 1] == t[i];
          assert forall j :: 0 <= j < i - 1 ==> t[1..][j] == t[j + 1];
        }
        assert forall i :: 0 < i < |t| ==> t[i] == t[1..][i - 1];
      }
    }
  }

  /** An intent is collected exactly when one of its entries matches. */
  lemma {:induction false} MatchingIntentsSpec(t: Table, text: string, k: string)
    ensures k in MatchingIntents(t, text) <==>
      exists i :: 0 <= i < |t| && t[i].0 == k && Matches(t[i].1, text)
  {
    if t != [] {
      MatchingIntentsSpec(t[1..], text, k);
      assert forall i :: 0 < i < |t| ==> t[i] == t[1..][i - 1];
      if k in MatchingIntents(t[1..], text) {
        var i :| 0 <= i < |t[1..]| && t[1..][i].0 == k && Matches(t[1..][i].1, text);
        assert t[i + 1] == t[1..][i];
      }
    }
  }

  /** The collected intents are those of the table, in order, so no intent is collected twice. */
  lemma {:induction false} MatchingIntentsDistinct(t: Table, text: string)
    requires DistinctKeys(t)
    ensures forall i, j :: 0 <= i < j < |MatchingIntents(t, text)| ==>
      MatchingIntents(t, text)[i] != MatchingIntents(t, text)[j]
  {
    if t != [] {
      var rest := MatchingIntents(t[1..], text);
      MatchingIntentsDistinct(t[1..], text);
      MatchingIntentsSpec(t[1..], text, t[0].0);
      forall i | 0 <= i < |t[1..]|
        ensures t[1..][i].0 != t[0].0
      {
        assert t[1..][i] == t[i + 1];
      }
    }
  }

  /** The first match of a table is the head of the intents collected from it. */
  lemma {:induction false} FirstMatchIsFirstIntent(t: Table, text: string)
    ensures FirstMatch(t, text) ==
      (if MatchingIntents(t, text) == [] then None else Some(MatchingIntents(t, text)[0]))
  {
    if t != [] {
      FirstMatchIsFirstIntent(t[1..], text);
    }
  }

  /** Lower-casing the text again does not change the answer: the fast path ignores case. */
  lemma CaseInsensitive(chitchat: Table, doc: Table, responses: Responses,
                        text: string, clock: Clock)
    requires Get(responses, "weather").Some?
    requires ValidClock(clock)
    ensures FastPath(chitchat, doc, responses, Lower(Lower(text)), clock)
         == FastPath(chitchat, doc, responses, Lower(text), clock)
  {
    LowerIdempotent(text);
  }

  // ---------------------------------------------------------------------------
  // The order of precedence of get_responses

  /** A matching document pattern decides, whatever the chitchat patterns and the clock. */
  lemma DocumentPrecedence(chitchat: Table, doc: Table, responses: Responses,
                           text: string, clock: Clock, i: int)
    requires Get(responses, "weather").Some?
    requires ValidClock(clock)
    requires 0 <= i < |doc| && Matches(doc[i].1, text)
    requires forall j :: 0 <= j < i ==> !Matches(doc[j].1, text)
    ensures FastPath(chitchat, doc, responses, text, clock) == [DocumentQuery, doc[i].0]
  {
    FirstMatchSpec(doc, text, doc[i].0);
  }

  /** No document pattern matches `text`. */
  predicate NoDocument(doc: Table, text: string)
  {
    forall j :: 0 <= j < |doc| ==> !Matches(doc[j].1, text)
  }

  /** No entry of `t` named `name` matches `text`. */
  predicate Unmatched(t: Table, name: string, text: string)
  {
    forall j :: 0 <= j < |t| && t[j].0 == name ==> !Matches(t[j].1, text)
  }

  /**
   * Without a document match, a matching `time` pattern is answered from the clock,
   * whatever else matches, and the answer reads back as the clock's time.
   */
  lemma TimeAnswer(chitchat: Table, doc: Table, responses: Responses,
                   text: string, clock: Clock, i: int)
    requires Get(responses, "weather").Some?
    requires ValidClock(clock)
    requires NoDocument(doc, text)
    requires 0 <= i < |chitchat| && chitchat[i].0 == "time" && Matches(chitchat[i].1, text)
    ensures var r := FastPath(chitchat, doc, responses, text, clock);
      |r| == 1 &&
      (clock.time.None? ==> r[0] == NoTimeMessage) &&
      (clock.time.Some? ==> TimePrefix <= r[0] && ParseTime(r[0][|TimePrefix|..]) == clock.time)
  {
    FirstMatchSpec(doc, text, "");
    MatchingIntentsSpec(chitchat, text, "time");
    if clock.time.Some? {
      var t := clock.time.value;
      TimeRoundTrip(t);
      assert (TimePrefix + FormatTime(t))[|TimePrefix|..] == FormatTime(t);
    }
  }

  /**
   * Without a document or `time` match, a matching `date` pattern is answered with
   * the rendered date, which reads back as the clock's date.
   */
  lemma DateAnswer(chitchat: Table, doc: Table, responses: Responses,
                   text: string, clock: Clock, i: int)
    requires Get(responses, "weather").Some?
    requires ValidClock(clock)
    requires NoDocument(doc, text) && Unmatched(chitchat, "time", text)
    requires 0 <= i < |chitchat| && chitchat[i].0 == "date" && Matches(chitchat[i].1, text)
    ensures var r := FastPath(chitchat, doc, responses, text, clock);
      |r| == 1 && ParseDate(r[0]) == Some(clock.date)
  {
    FirstMatchSpec(doc, text, "");
    MatchingIntentsSpec(chitchat, text, "time");
    MatchingIntentsSpec(chitchat, text, "date");
    DateRoundTrip(clock.date);
  }

  /** Without a document, `time` or `date` match, a matching `weather` pattern gives its canned answers. */
  lemma WeatherAnswer(chitchat: Table, doc: Table, responses: Responses,
                      text: string, clock: Clock, i: int)
    requires Get(responses, "weather").Some?
    requires ValidClock(clock)
    requires NoDocument(doc, text) && Unmatched(chitchat, "time", text)
    requires Unmatched(chitchat, "date", text)
    requires 0 <= i < |chitchat| && chitchat[i].0 == "weather" && Matches(chitchat[i].1, text)
    ensures FastPath(chitchat, doc, responses, text, clock) == Get(responses, "weather").value
  {
    FirstMatchSpec(doc, text, "");
    MatchingIntentsSpec(chitchat, text, "time");
    MatchingIntentsSpec(chitchat, text, "date");
    MatchingIntentsSpec(chitchat, text, "weather");
  }

  /**
   * Otherwise the earliest matching chitchat entry decides: its canned answers, or
   * the apology when it has none.
   */
  lemma OtherAnswer(chitchat: Table, doc: Table, responses: Responses,
                    text: string, clock: Clock, i: int)
    requires Get(responses, "weather").Some?
    requires ValidClock(clock)
    requires NoDocument(doc, text)
    requires Unmatched(chitchat, "time", text) && Unmatched(chitchat, "date", text)
    requires Unmatched(chitchat, "weather", text)
    requires 0 <= i < |chitchat| && Matches(chitchat[i].1, text)
    requires forall j :: 0 <= j < i ==> !Matches(chitchat[j].1, text)
    ensures FastPath(chitchat, doc, responses, text, clock) ==
      ResponsesFor(responses, chitchat[i].0)
  {
    var found := MatchingIntents(chitchat, text);
    FirstMatchSpec(doc, text, "");
    FirstMatchSpec(chitchat, text, chitchat[i].0);
    FirstMatchIsFirstIntent(chitchat, text);
    MatchingIntentsSpec(chitchat, text, "time");
    MatchingIntentsSpec(chitchat, text, "date");
    MatchingIntentsSpec(chitchat, text, "weather");
    assert found[0] == chitchat[i].0;
  }

  /** Canned answers are never empty and never begin with a sentinel. */
  predicate CannedResponses(responses: Responses)
  {
    forall i :: 0 <= i < |responses| ==>
      (responses[i].1 != [] && responses[i].1[0] != DocumentQuery && responses[i].1[0] != GeneralQuery)
  }

  /**
   * With canned answers that are not sentinels, the fast path sends a query on to
   * document search exactly when a document pattern matches, and on to general
   * handling exactly when no pattern at all matches; every answer is non-empty.
   */
  lemma SentinelAnswers(chitchat: Table, doc: Table, responses: Responses,
                        text: string, clock: Clock)
    requires Get(responses, "weather").Some?
    requires ValidClock(clock)
    requires CannedResponses(responses)
    ensures FastPath(chitchat, doc, responses, text, clock) != []
    ensures FastPath(chitchat, doc, responses, text, clock)[0] == DocumentQuery <==>
      !NoDocument(doc, text)
    ensures FastPath(chitchat, doc, responses, text, clock)[0] == GeneralQuery <==>
      NoDocument(doc, text) && NoDocument(chitchat, text)
    ensures FastPath(chitchat, doc, responses, text, clock) == [GeneralQuery] <==>
      NoDocument(doc, text) && NoDocument(chitchat, text)
  {
    var r := FastPath(chitchat, doc, responses, text, clock);
    var found := MatchingIntents(chitchat, text);
    FirstMatchSpec(doc, text, "");
    FirstMatchSpec(chitchat, text, "");
    FirstMatchIsFirstIntent(chitchat, text);
    if FirstMatch(doc, text).None? {
      if "time" in found {
        if clock.time.Some? {
          assert r[0][0] == TimePrefix[0];
        }
      } else if "date" in found {
        var w := clock.date.weekday;
        assert r[0][0] == WeekdayNames[w][0];
      } else if "weather" in found {
        GetFound(responses, "weather");
      } else if FirstOther(found).Some? {
        GetFound(responses, FirstOther(found).value);
      }
    }
  }

  // ---------------------------------------------------------------------------
  // The pattern manager

  class PatternManager {
    var chitchatPatterns: Table
    var docPatterns: Table
    var responses: Responses

    /** The three tables are dictionaries, and `weather` always has answers. */
    ghost predicate Valid()
      reads this
    {
      DistinctKeys(chitchatPatterns) && DistinctKeys(docPatterns) && DistinctKeys(responses)
      && Get(responses, "weather").Some?
    }

    /** `PatternManager()`: the built-in tables. */
    constructor ()
      ensures Valid()
      ensures chitchatPatterns == DefaultChitchatPatterns && docPatterns == DefaultDocPatterns
      ensures responses == DefaultResponses
    {
      chitchatPatterns := DefaultChitchatPatterns;
      docPatterns := DefaultDocPatterns;
      responses := DefaultResponses;
      DefaultTablesValid();
    }

    /** `add_chitchat_pattern`: sets the pattern of one chitchat intent. */
    method AddChitchatPattern(intent: string, pattern: Pattern)
      requires Valid()
      modifies this
      ensures Valid()
      ensures chitchatPatterns == Put(old(chitchatPatterns), intent, pattern)
      ensures docPatterns == old(docPatterns) && responses == old(responses)
    {
      PutKeys(chitchatPatterns, intent, pattern);
      chitchatPatterns := Put(chitchatPatterns, intent, pattern);
    }

    /** `add_doc_pattern`: sets the pattern of one document intent. */
    method AddDocPattern(intent: string, pattern: Pattern)
      requires Valid()
      modifies this
      ensures Valid()
      ensures docPatterns == Put(old(docPatterns), intent, pattern)
      ensures chitchatPatterns == old(chitchatPatterns) && responses == old(responses)
    {
      PutKeys(docPatterns, intent, pattern);
      docPatterns := Put(docPatterns, intent, pattern);
    }

    /** `add_response`: sets the canned responses of one intent. */
    method AddResponse(intent: string, answers: seq<string>)
      requires Valid()
      modifies this
      ensures Valid()
      ensures responses == Put(old(responses), intent, answers)
      ensures chitchatPatterns == old(chitchatPatterns) && docPatterns == old(docPatterns)
    {
      PutKeys(responses, intent, answers);
      PutGet(responses, intent, answers, "weather");
      responses := Put(responses, intent, answers);
    }

    /** `get_responses`: the fast-path answer for `text`, read from the given clock. */
    method GetResponses(text: string, clock: Clock) returns (r: seq<string>)
      requires Valid()
      requires ValidClock(clock)
      ensures r == FastPath(chitchatPatterns, docPatterns, responses, Lower(text), clock)
    {
      var lowered := Lower(text);
      var i := 0;
      while i < |docPatterns|
        invariant 0 <= i <= |docPatterns|
        invariant FirstMatch(docPatterns, lowered) == FirstMatch(docPatterns[i..], lowered)
      {
        if Matches(docPatterns[i].1, lowered) {
          return [DocumentQuery, docPatterns[i].0];
        }
        i := i + 1;
      }

      var found: seq<string> := [];
      i := 0;
      while i < |chitchatPatterns|
        invariant 0 <= i <= |chitchatPatterns|
        invariant MatchingIntents(chitchatPatterns, lowered)
                  == found + MatchingIntents(chitchatPatterns[i..], lowered)
      {
        if Matches(chitchatPatterns[i].1, lowered) {
          found := found + [chitchatPatterns[i].0];
        }
        i := i + 1;
      }
      assert found == MatchingIntents(chitchatPatterns, lowered);

      if "time" in found {
        var now := clock.time;
        if now.None? {
          return [NoTimeMessage];
        }
        return [TimePrefix + FormatTime(now.value)];
      }
      if "date" in found {
        return [FormatDate(clock.date)];
      }
      if "weather" in found {
        return Get(responses, "weather").value;
      }
      var other := FirstOtherIntent(found);
      if other.Some? {
        var intent := other.value;
        return ResponsesFor(responses, intent);
      }
      return [GeneralQuery];
    }
  }

  /** The loop of `get_responses` over the matched intents that skips `time`, `date` and `weather`. */
  method FirstOtherIntent(found: seq<string>) returns (other: Option<string>)
    ensures other == FirstOther(found)
  {
    var j := 0;
    while j < |found|
      invariant 0 <= j <= |found|
      invariant FirstOther(found) == FirstOther(found[j..])
    {
      if found[j] !in PriorityIntents {
        return Some(found[j]);
      }
      j := j + 1;
    }
    return None;
  }

  /** The built-in tables are dictionaries with a `weather` entry. */
  lemma DefaultTablesValid()
    ensures DistinctKeys(DefaultChitchatPatterns) && DistinctKeys(DefaultDocPatterns)
    ensures DistinctKeys(DefaultResponses) && Get(DefaultResponses, "weather").Some?
  {
    DefaultChitchatKeysDistinct();
    DefaultDocKeysDistinct();
    DefaultResponsesKeysDistinct();
  }

  lemma DefaultResponsesKeysDistinct()
    ensures DistinctKeys(DefaultResponses)
  {
  }

  lemma DefaultChitchatKeysDistinct()
    ensures DistinctKeys(DefaultChitchatPatterns)
  {
  }

  lemma DefaultDocKeysDistinct()
    ensures DistinctKeys(DefaultDocPatterns)
  {
  }
}
