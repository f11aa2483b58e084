/**
 * The answering pipeline: the normalisation of a question, its weighted
 * classification into chitchat, document or general, and the router that picks a
 * canned answer, a document-grounded answer, a chitchat answer or a general one.
 * The language model is the function `generate` from prompts to text; the lexical
 * and vector rankings are the functions `lexical` and `dense` from the question to
 * ranked documents.
 */
module SmartAns {
  import opened Wrappers
  import opened Text
  import opened Calendar
  import opened Dict
  import opened Patterns
  import opened Merge
  import opened Utils

  // ---------------------------------------------------------------------------
  // preprocess_query

  /** The punctuation `preprocess_query` turns into spaces. */
  const SpecialChars: string := "!\"#$%&'()*+,-./:;<=>?@[\\]^_`{|}~"

  /** `s.replace(c, r)` for single characters. */
  function Replace(s: string, c: char, r: char): string
  {
    seq(|s|, i requires 0 <= i < |s| => if s[i] == c then r else s[i])
  }

  /** The characters of `SpecialChars`: the ASCII punctuation, four ranges of code points. */
  predicate IsSpecial(c: char)
  {
    '!' <= c <= '/' || ':' <= c <= '@' || '[' <= c <= '`' || '{' <= c <= '~'
  }

  lemma SpecialCharsAreSpecial(c: char)
    ensures c in SpecialChars <==> IsSpecial(c)
  {
  }

  /** Every punctuation character of `s` turned into a space. */
  function Blank(s: string): string
  {
    seq(|s|, i requires 0 <= i < |s| => if IsSpecial(s[i]) then ' ' else s[i])
  }

  /** The normal form of a question: lower case, punctuation to spaces, single spaces. */
  function Normalize(query: string): string
  {
    Join(Words(Blank(Strip(Lower(query), Whitespace))), " ")
  }

  lemma PrefixStep<T>(xs: seq<T>, k: int, x: T)
    requires 0 <= k < |xs|
    ensures x in xs[..k + 1] <==> x in xs[..k] || x == xs[k]
  {
    assert xs[..k + 1] == xs[..k] + [xs[k]];
  }

  /** `preprocess_query`. */
  method PreprocessQuery(query: string) returns (normal: string)
    ensures normal == Normalize(query)
  {
    var q := Strip(Lower(query), Whitespace);
    ghost var stripped := q;
    for k := 0 to |SpecialChars|
      invariant |q| == |stripped|
      invariant forall i :: 0 <= i < |q| ==>
        q[i] == if stripped[i] in SpecialChars[..k] then ' ' else stripped[i]
    {
      var c := SpecialChars[k];
      SpecialCharsAreSpecial(c);
      q := Replace(q, c, ' ');
      forall i | 0 <= i < |q|
        ensures q[i] == if stripped[i] in SpecialChars[..k + 1] then ' ' else stripped[i]
      {
        PrefixStep(SpecialChars, k, stripped[i]);
      }
    }
    forall i | 0 <= i < |q|
      ensures q[i] == Blank(stripped)[i]
    {
      assert SpecialChars[..|SpecialChars|] == SpecialChars;
      SpecialCharsAreSpecial(stripped[i]);
    }
    assert q == Blank(stripped);
    normal := Join(Words(q), " ");
  }

  /** A character that survives normalisation: lower-cased already and not punctuation. */
  predicate Clean(c: char)
  {
    !IsSpecial(c) && LowerChar(c) == c
  }

  /** Before splitting, the lowered, stripped and blanked question is already clean. */
  lemma BlankClean(query: string)
    ensures forall i :: 0 <= i < |Blank(Strip(Lower(query), Whitespace))| ==>
      Clean(Blank(Strip(Lower(query), Whitespace))[i])
  {
    var s := Strip(Lower(query), Whitespace);
    LowerIsLower(query);
    StripKeeps(Lower(query), Whitespace, c => LowerChar(c) == c);
    forall i | 0 <= i < |s|
      ensures Clean(Blank(s)[i])
    {
      BlankCleanAt(s, i);
    }
  }

  lemma BlankCleanAt(s: string, i: int)
    requires 0 <= i < |s| && LowerChar(s[i]) == s[i]
    ensures Clean(Blank(s)[i])
  {
  }

  /**
   * The normal form holds no punctuation and no upper-case letter; its only
   * whitespace is single spaces between words, none at either end.
   */
  lemma NormalizeSpec(query: string)
    ensures forall i :: 0 <= i < |Normalize(query)| ==> Clean(Normalize(query)[i])
    ensures SingleSpaced(Normalize(query))
    ensures Normalize(query) != [] ==> Normalize(query)[0] != ' ' && Normalize(query)[|Normalize(query)| - 1] != ' '
  {
    NormalizeClean(query);
    var blank := Blank(Strip(Lower(query), Whitespace));
    WordsAreWords(blank);
    JoinSingleSpaced(Words(blank));
  }

  lemma NormalizeClean(query: string)
    ensures forall i :: 0 <= i < |Normalize(query)| ==> Clean(Normalize(query)[i])
  {
    var blank := Blank(Strip(Lower(query), Whitespace));
    var ws := Words(blank);
    BlankClean(query);
    WordsKeep(blank, Clean);
    JoinKeeps(ws, " ", Clean);
    var r := Normalize(query);
    forall i | 0 <= i < |r|
      ensures Clean(r[i])
    {
      assert r[i] in r;
    }
  }

  /** Lowering and blanking leave a clean string alone. */
  lemma CleanFixed(s: string)
    requires forall i :: 0 <= i < |s| ==> Clean(s[i])
    ensures Lower(s) == s && Blank(s) == s
  {
    forall i | 0 <= i < |s|
      ensures Lower(s)[i] == s[i] && Blank(s)[i] == s[i]
    {
      CleanAt(s, i);
    }
  }

  lemma CleanAt(s: string, i: int)
    requires 0 <= i < |s| && Clean(s[i])
    ensures Lower(s)[i] == s[i] && Blank(s)[i] == s[i]
  {
  }

  /** Normalising a normal form changes nothing. */
  lemma NormalizeIdempotent(query: string)
    ensures Normalize(Normalize(query)) == Normalize(query)
  {
    var r := Normalize(query);
    var ws := Words(Blank(Strip(Lower(query), Whitespace)));
    NormalizeSpec(query);
    CleanFixed(r);
    if r != [] {
      assert r[0] !in Whitespace && r[|r| - 1] !in Whitespace;
    }
    StripNoop(r, Whitespace);
    WordsAreWords(Blank(Strip(Lower(query), Whitespace)));
    JoinWordsRoundTrip(ws);
  }

  // ---------------------------------------------------------------------------
  // classify_query

  datatype Category = Chitchat | Document | General

  /** The category, its score in tenths and the intent it was decided by. */
  datatype Classification = Classification(category: Category, confidence: int, intent: string)

  /** The weights of `classify_query`, in tenths; any other intent weighs `DefaultWeight`. */
  const ChitchatWeights: map<string, int> :=
    map["greeting" := 15, "emotion" := 13, "personal" := 12, "smalltalk" := 11, "opinion" := 9]
  const DocWeights: map<string, int> :=
    map["technical" := 15, "analyze" := 13, "find" := 12, "what" := 11, "how" := 11]
  const DefaultWeight: int := 10

  /** The thresholds of the decision, in tenths. */
  const ChitchatThreshold: int := 10
  const DocThreshold: int := 8

  /** The confidence of the `general` outcome, in tenths. */
  const GeneralConfidence: int := 5

  /** `weights.get(intent, 1.0)`. */
  function Weight(weights: map<string, int>, intent: string): int
  {
    if intent in weights then weights[intent] else DefaultWeight
  }

  /** The score of `text` against a table: the weights of the matching entries added up. */
  function Score(t: Table, weights: map<string, int>, text: string): int
  {
    if t == [] then 0
    else (if Matches(t[0].1, text) then Weight(weights, t[0].0) else 0) + Score(t[1..], weights, text)
  }

  /** The sum of the weights of a list of intents. */
  function WeightSum(weights: map<string, int>, intents: seq<string>): int
  {
    if intents == [] then 0 else Weight(weights, intents[0]) + WeightSum(weights, intents[1..])
  }

  /** Every weight of `weights`, and the default, is at least `m`. */
  predicate WeightsAtLeast(weights: map<string, int>, m: int)
  {
    m <= DefaultWeight && forall k :: k in weights ==> weights[k] >= m
  }

  /** The score is the sum, over the matching intents, of their weights. */
  lemma {:induction false} ScoreIsSum(t: Table, weights: map<string, int>, text: string)
    ensures Score(t, weights, text) == WeightSum(weights, MatchingIntents(t, text))
  {
    if t != [] {
      ScoreIsSum(t[1..], weights, text);
      if Matches(t[0].1, text) {
        assert [t[0].0] + MatchingIntents(t[1..], text) == MatchingIntents(t, text);
      } else {
        assert MatchingIntents(t, text) == MatchingIntents(t[1..], text);
      }
    }
  }

  /** With weights of at least `m > 0`, the score is zero without a match and at least `m` with one. */
  lemma {:induction false} ScoreBounds(t: Table, weights: map<string, int>, text: string, m: int)
    requires m > 0 && WeightsAtLeast(weights, m)
    ensures FirstMatch(t, text).None? ==> Score(t, weights, text) == 0
    ensures FirstMatch(t, text).Some? ==> Score(t, weights, text) >= m
  {
    if t != [] {
      ScoreBounds(t[1..], weights, text, m);
    }
  }

  /** The chitchat weights are at least 0.9, the document weights at least 1.0. */
  lemma WeightsPositive()
    ensures WeightsAtLeast(ChitchatWeights, 9)
    ensures WeightsAtLeast(DocWeights, 10)
  {
  }

  /**
   * The decision of `classify_query` on a normalised question: chitchat when its score
   * beats the document score and reaches 1.0, else document when that score reaches
   * 0.8, else general.
   */
  function Classify(chitchat: Table, doc: Table, text: string): Classification
  {
    var chitchatScore := Score(chitchat, ChitchatWeights, text);
    var docScore := Score(doc, DocWeights, text);
    WeightsPositive();
    ScoreBounds(chitchat, ChitchatWeights, text, 9);
    ScoreBounds(doc, DocWeights, text, 10);
    if chitchatScore > docScore && chitchatScore >= ChitchatThreshold then
      Classification(Chitchat, chitchatScore, FirstMatch(chitchat, text).value)
    else if docScore >= DocThreshold then
      Classification(Document, docScore, FirstMatch(doc, text).value)
    else
      Classification(General, GeneralConfidence, "general")
  }

  /**
   * One scoring loop of `classify_query`: the weights of the matching entries added
   * up, and the first matching intent.
   */
  method ScoreTable(t: Table, weights: map<string, int>, text: string)
    returns (score: int, found: Option<string>)
    ensures score == Score(t, weights, text)
    ensures found == FirstMatch(t, text)
  {
    score := 0;
    found := None;
    for i := 0 to |t|
      invariant score + Score(t[i..], weights, text) == Score(t, weights, text)
      invariant found.None? ==> FirstMatch(t, text) == FirstMatch(t[i..], text)
      invariant found.Some? ==> found == FirstMatch(t, text)
    {
      if Matches(t[i].1, text) {
        score := score + Weight(weights, t[i].0);
        if found.None? {
          found := Some(t[i].0);
        }
      }
    }
  }

  /** `classify_query`, over a fresh pattern manager's tables. */
  method ClassifyQuery(query: string) returns (c: Classification)
    ensures c == Classify(DefaultChitchatPatterns, DefaultDocPatterns, Normalize(query))
  {
    var q := PreprocessQuery(query);
    var pm := new PatternManager();
    var chitchatScore, foundChitchat := ScoreTable(pm.chitchatPatterns, ChitchatWeights, q);
    var docScore, foundDoc := ScoreTable(pm.docPatterns, DocWeights, q);
    WeightsPositive();
    ScoreBounds(pm.chitchatPatterns, ChitchatWeights, q, 9);
    ScoreBounds(pm.docPatterns, DocWeights, q, 10);
    if chitchatScore > docScore && chitchatScore >= ChitchatThreshold {
      return Classification(Chitchat, chitchatScore, foundChitchat.value);
    } else if docScore >= DocThreshold {
      return Classification(Document, docScore, foundDoc.value);
    } else {
      return Classification(General, GeneralConfidence, "general");
    }
  }

  /** A chitchat outcome has confidence at least 1.0 and names the first matching chitchat intent. */
  lemma ClassifyChitchat(chitchat: Table, doc: Table, text: string)
    requires Classify(chitchat, doc, text).category == Chitchat
    ensures Classify(chitchat, doc, text).confidence >= ChitchatThreshold
    ensures Classify(chitchat, doc, text).confidence == Score(chitchat, ChitchatWeights, text)
    ensures Some(Classify(chitchat, doc, text).intent) == FirstMatch(chitchat, text)
  {
  }

  /**
   * A document outcome has confidence at least 0.8, equal to the document score, and
   * names the first matching document intent.
   */
  lemma ClassifyDocument(chitchat: Table, doc: Table, text: string)
    requires Classify(chitchat, doc, text).category == Document
    ensures Classify(chitchat, doc, text).confidence >= DocThreshold
    ensures Classify(chitchat, doc, text).confidence == Score(doc, DocWeights, text)
    ensures Some(Classify(chitchat, doc, text).intent) == FirstMatch(doc, text)
  {
  }

  /**
   * The order of the decision: chitchat exactly when its score is strictly above the
   * document score and reaches 1.0; document exactly when that fails and the document
   * score reaches 0.8.
   */
  lemma ClassifyOrder(chitchat: Table, doc: Table, text: string)
    ensures var cs, ds := Score(chitchat, ChitchatWeights, text), Score(doc, DocWeights, text);
      (Classify(chitchat, doc, text).category == Chitchat <==> cs > ds && cs >= ChitchatThreshold)
      && (Classify(chitchat, doc, text).category == Document <==>
            !(cs > ds && cs >= ChitchatThreshold) && ds >= DocThreshold)
  {
  }

  /**
   * Every document weight is at least 1.0, so the general outcome comes exactly when
   * no document pattern matches and the chitchat score stays below 1.0.
   */
  lemma ClassifyGeneral(chitchat: Table, doc: Table, text: string)
    ensures Classify(chitchat, doc, text).category == General <==>
      NoDocument(doc, text) && Score(chitchat, ChitchatWeights, text) < ChitchatThreshold
    ensures Classify(chitchat, doc, text).category == General ==>
      Classify(chitchat, doc, text) == Classification(General, GeneralConfidence, "general")
  {
    WeightsPositive();
    ScoreBounds(doc, DocWeights, text, 10);
    FirstMatchSpec(doc, text, "");
  }

  // ---------------------------------------------------------------------------
  // smart_response

  /** The three prompts the language model is given. */
  datatype Prompt =
    | DocumentPrompt(context: string, question: string)
    | ChitchatPrompt(question: string, intent: string, confidence: int)
    | GeneralPrompt(question: string, intent: string, confidence: int)

  /** The answer when the document route retrieves nothing. */
  const NotFoundMessage: string := "Tôi không tìm thấy thông tin liên quan trong tài liệu."

  /** What is trimmed from a document answer after its echo of the question. */
  const EchoTrim: set<char> := {' ', ',', '.', ':'}

  /** The tag in front of a chitchat answer. */
  function ChitchatTag(intent: string): string
  {
    "[Chitchat - " + intent + "] "
  }

  /**
   * A document answer that starts with the question, ignoring case, loses that many
   * characters and then spaces, commas, full stops and colons at both ends.
   */
  function StripEcho(response: string, query: string): string
  {
    if Lower(query) <= Lower(response) then Strip(response[|query|..], EchoTrim) else response
  }

  /**
   * Without an echo of the question the answer is left alone. With one, what remains
   * is the slice of the answer after the echo that starts at its first character
   * other than a space, comma, full stop or colon; only such characters are cut on
   * either side of it, and it neither begins nor ends with one.
   */
  lemma StripEchoSpec(response: string, query: string)
    ensures !(Lower(query) <= Lower(response)) ==> StripEcho(response, query) == response
    ensures Lower(query) <= Lower(response) ==>
      var r := StripEcho(response, query);
      var n := |query|;
      var j := LeftEnd(response[n..], EchoTrim);
      n + j + |r| <= |response| && r == response[n + j..n + j + |r|]
      && (forall k :: n <= k < n + j ==> response[k] in EchoTrim)
      && (forall k :: n + j + |r| <= k < |response| ==> response[k] in EchoTrim)
      && (r != [] ==> r[0] !in EchoTrim && r[|r| - 1] !in EchoTrim)
  {
    if Lower(query) <= Lower(response) {
      var n := |query|;
      assert n <= |response| by {
        assert |Lower(query)| <= |Lower(response)|;
      }
      StripAfter(response, n, EchoTrim);
    }
  }

  /** The four ways a question is answered. */
  datatype Route = Canned(answer: string) | DocumentRoute | ChitchatRoute | GeneralRoute

  /**
   * The route `smart_response` takes, given the fast path's answers and the
   * classification: a canned answer is returned as it is; the document route is
   * taken on the fast path's document sentinel or a confident document
   * classification; then a confident chitchat classification; otherwise the general
   * route.
   */
  function Routing(responses: seq<string>, c: Classification): Route
    requires responses != []
  {
    if responses[0] != DocumentQuery && responses[0] != GeneralQuery then Canned(responses[0])
    else if responses[0] == DocumentQuery || (c.category == Document && c.confidence >= DocThreshold) then
      DocumentRoute
    else if c.category == Chitchat && c.confidence >= 7 then ChitchatRoute
    else GeneralRoute
  }

  /** The answer along each route. */
  function Respond(query: string, responses: seq<string>, c: Classification,
                   lexical: string -> seq<Doc>, dense: string -> seq<Doc>,
                   generate: Prompt -> string): string
    requires responses != []
  {
    match Routing(responses, c)
    case Canned(a) => a
    case DocumentRoute =>
      var docs := Retrieved(lexical(query), dense(query));
      if docs == [] then NotFoundMessage
      else StripEcho(generate(DocumentPrompt(Context(docs), query)), query)
    case ChitchatRoute => ChitchatTag(c.intent) + generate(ChitchatPrompt(query, c.intent, c.confidence))
    case GeneralRoute => generate(GeneralPrompt(query, c.intent, c.confidence))
  }

  /**
   * Where a question goes, in terms of the patterns: the fast path matches the
   * lower-cased question, the classifier its normal form. A canned answer comes
   * exactly when no document pattern and some chitchat pattern matches; the
   * document route exactly when a document pattern matches or nothing matches and
   * the classifier says document; the chitchat and general routes exactly when
   * nothing matches and the classifier says so (a chitchat score is at least 1.0,
   * so the 0.7 bound never turns one away).
   */
  lemma RouteSpec(chitchat: Table, doc: Table, responses: Responses, query: string, clock: Clock)
    requires Get(responses, "weather").Some?
    requires ValidClock(clock)
    requires CannedResponses(responses)
    ensures var text := Lower(query);
      var fast := FastPath(chitchat, doc, responses, text, clock);
      var c := Classify(chitchat, doc, Normalize(query));
      fast != []
      && (Routing(fast, c).Canned? <==> NoDocument(doc, text) && !NoDocument(chitchat, text))
      && (Routing(fast, c).Canned? ==> Routing(fast, c).answer == fast[0])
      && (Routing(fast, c) == DocumentRoute <==>
           !NoDocument(doc, text) || (NoDocument(chitchat, text) && c.category == Document))
      && (Routing(fast, c) == ChitchatRoute <==>
           NoDocument(doc, text) && NoDocument(chitchat, text) && c.category == Chitchat)
      && (Routing(fast, c) == GeneralRoute <==>
           NoDocument(doc, text) && NoDocument(chitchat, text) && c.category == General)
  {
    var text := Lower(query);
    var c := Classify(chitchat, doc, Normalize(query));
    SentinelAnswers(chitchat, doc, responses, text, clock);
    if c.category == Chitchat {
      ClassifyChitchat(chitchat, doc, Normalize(query));
    } else if c.category == Document {
      ClassifyDocument(chitchat, doc, Normalize(query));
    }
  }

  /**
   * On the document route the answer is the apology exactly when neither ranking
   * finds anything; otherwise the model answers from the retrieved passages, with
   * any echo of the question removed.
   */
  lemma DocumentAnswer(query: string, responses: seq<string>, c: Classification,
                       lexical: string -> seq<Doc>, dense: string -> seq<Doc>,
                       generate: Prompt -> string)
    requires responses != [] && Routing(responses, c) == DocumentRoute
    ensures lexical(query) == [] && dense(query) == [] ==>
      Respond(query, responses, c, lexical, dense, generate) == NotFoundMessage
    ensures lexical(query) != [] || dense(query) != [] ==>
      var docs := Retrieved(lexical(query), dense(query));
      docs != [] &&
      Respond(query, responses, c, lexical, dense, generate) ==
        StripEcho(generate(DocumentPrompt(Context(docs), query)), query)
  {
    RetrievedEmpty(lexical(query), dense(query));
  }

  /** The canned answers of the default tables are never sentinels. */
  lemma DefaultResponsesCanned()
    ensures CannedResponses(DefaultResponses)
  {
  }

  /** The fast path on the default tables: never empty. */
  function DefaultFastPath(query: string, clock: Clock): (r: seq<string>)
    requires ValidClock(clock)
    ensures r != []
  {
    DefaultResponsesCanned();
    DefaultTablesValid();
    SentinelAnswers(DefaultChitchatPatterns, DefaultDocPatterns, DefaultResponses, Lower(query), clock);
    FastPath(DefaultChitchatPatterns, DefaultDocPatterns, DefaultResponses, Lower(query), clock)
  }

  /** The classification of the question, as `classify_query` makes it. */
  function DefaultClassify(query: string): Classification
  {
    Classify(DefaultChitchatPatterns, DefaultDocPatterns, Normalize(query))
  }

  /** The answer of `smart_response`. */
  function Answer(query: string, lexical: string -> seq<Doc>, dense: string -> seq<Doc>,
                  generate: Prompt -> string, clock: Clock): string
    requires ValidClock(clock)
  {
    Respond(query, DefaultFastPath(query, clock), DefaultClassify(query), lexical, dense, generate)
  }

  /** The part of `smart_response` after the fast path and the classification. */
  method Reply(query: string, responses: seq<string>, c: Classification,
               lexical: string -> seq<Doc>, dense: string -> seq<Doc>,
               generate: Prompt -> string) returns (answer: string)
    requires responses != []
    ensures answer == Respond(query, responses, c, lexical, dense, generate)
  {
    if responses[0] != DocumentQuery && responses[0] != GeneralQuery {
      return responses[0];
    }
    if responses[0] == DocumentQuery || (c.category == Document && c.confidence >= DocThreshold) {
      var docs := HybridRetriever(query, lexical, dense);
      if docs == [] {
        return NotFoundMessage;
      }
      var context := Context(docs);
      var response := generate(DocumentPrompt(context, query));
      if Lower(query) <= Lower(response) {
        response := Strip(response[|query|..], EchoTrim);
      }
      return response;
    } else if c.category == Chitchat && c.confidence >= 7 {
      var response := generate(ChitchatPrompt(query, c.intent, c.confidence));
      return ChitchatTag(c.intent) + response;
    } else {
      return generate(GeneralPrompt(query, c.intent, c.confidence));
    }
  }

  /** `smart_response(query, bm25_retriever, vector_store)`, with the model and the clock passed in. */
  method SmartResponse(query: string, lexical: string -> seq<Doc>, dense: string -> seq<Doc>,
                       generate: Prompt -> string, clock: Clock) returns (answer: string)
    requires ValidClock(clock)
    ensures answer == Answer(query, lexical, dense, generate, clock)
  {
    var c := ClassifyQuery(query);
    var pm := new PatternManager();
    var responses := pm.GetResponses(query, clock);
    assert responses == DefaultFastPath(query, clock);
    answer := Reply(query, responses, c, lexical, dense, generate);
  }
}
