# A verified model of the HÀN BẢO chatbot's question router and hybrid retrieval

The chatbot answers Vietnamese questions about a PDF collection. Before any
language model is involved, three pieces of plain logic decide what happens to a
question, and this project models them in Dafny and proves what they promise:

- **The pattern manager** (`pattern_manager.py`). An object that holds two
  insertion-ordered tables of intent patterns (chitchat and document) and a table
  of canned answers. Its `get_responses` is a fast path. A document pattern wins
  first and yields the sentinel `DOCUMENT_QUERY`. Then the time, the date and the
  weather are answered in that order of priority. Then the first other matched
  chitchat intent gets its canned answers. If nothing matched, the result is
  `GENERAL_QUERY`. The class `Patterns.PatternManager` keeps the three tables as
  fields, and its `add_*` methods update them in place.
- **The smart answerer** (`smart_ans.py`). `preprocess_query` brings a question to a
  normal form: lower case, no outer whitespace, punctuation blanked, single spaces.
  `classify_query` adds weighted pattern hits into a chitchat score and a document
  score and decides between chitchat, document and general. `smart_response`
  routes the question: a canned answer, a document answer grounded in retrieved
  passages (with the echo of the question cut off), a tagged chitchat answer, or
  a general answer.
- **Hybrid retrieval** (`BM25_FAISS_query.py`, `query.py`, `utils.py`). Lexical (BM25)
  and dense (FAISS) hits are merged without repeating a passage. `hybrid_search`
  interleaves the two top-5 lists and keeps 5. `hybrid_retriever` concatenates the
  two top-3 lists and keeps 3. Beside them sit the query variations of the search
  tool and its keyed de-duplication of results.

Inputs from outside the program are parameters:
- the retrievers are functions `string -> seq<Doc>`;
- the language model is a function from the three prompts to text;
- the Vietnam-time clock is a `Clock` value (a time that may be unavailable, and a
  date with its weekday).

The weights and thresholds are kept in tenths (1.5 is 15, 0.8 is 8), so the
arithmetic is exact.

Modules, one per concern:
- `Wrappers`: `Option`.
- `Text`: Python's `lower`, `strip`, `split`, `join`, `split('\n')` and
  literal-alternative `re.search`.
- `Dict`: insertion-ordered dictionaries as association lists.
- `Calendar`: `strftime` renderings and their parsers.
- `Patterns`: `pattern_manager.py`.
- `SmartAns`: `smart_ans.py`.
- `Merge`: documents and the shared merge loop.
- `Bm25FaissQuery`, `Query`, `Utils`: one module per retrieval file.

## Model

| member | source | states |
|---|---|---|
| Patterns.PatternManager.constructor | pattern_manager.py:7-93 | the three tables start as the built-in chitchat patterns, document patterns and canned answers, with distinct keys and a weather answer |
| Patterns.PatternManager.AddChitchatPattern | pattern_manager.py:95-97 | the chitchat table becomes the old one with the intent set to the pattern (replaced in place if present, appended otherwise); the other tables are unchanged and keys stay distinct |
| Patterns.PatternManager.AddDocPattern | pattern_manager.py:99-101 | the same for the document table, leaving chitchat patterns and answers unchanged |
| Patterns.PatternManager.AddResponse | pattern_manager.py:103-105 | the same for the canned answers, leaving both pattern tables unchanged |
| Dict.Put | pattern_manager.py:95-105 | computes `d[k] = v` on an insertion-ordered dictionary: the value replaced at its place, or a new entry appended |
| Dict.Get | pattern_manager.py:166 | computes `d.get(k)`: the value stored under the key, or none |
| Dict.PutGet | pattern_manager.py:95-105 | after setting a key, looking it up gives the new value and every other key gives what it gave before |
| Dict.PutKeys | pattern_manager.py:95-105 | setting a key keeps keys distinct and keeps their insertion order; a new key is appended last |
| Dict.PutEntries | pattern_manager.py:95-105 | setting an existing key replaces its value at its own position; a new key adds one entry at the end |
| Dict.GetSpec | pattern_manager.py:166 | a lookup misses exactly when the key is absent, and otherwise returns the value stored under that key |
| Dict.GetFound | pattern_manager.py:166 | a successful lookup returns a value stored under that key |
| Patterns.PatternManager.GetResponses | pattern_manager.py:134-168 | the loop returns exactly the fast-path answer for the lower-cased text and the current tables |
| Patterns.FirstOtherIntent | pattern_manager.py:164-166 | the loop finds the first matched intent other than time, date and weather, or none |
| Patterns.Matches | pattern_manager.py:147 | computes `re.search(pattern, text)` for a pattern of literal alternatives: some alternative occurs in the text |
| Patterns.FastPath | pattern_manager.py:134-168 | computes the fast-path answer: the document sentinel and the first matching document intent; else for a matched "time" the time sentence or its apology, for "date" the date sentence, for "weather" the stored weather answers, for another matched chitchat intent its stored answers or the fallback; else the general sentinel |
| Patterns.FirstMatch | pattern_manager.py:140-142 | computes the intent of the first entry, in table order, whose pattern occurs in the text, or none |
| Patterns.MatchingIntents | pattern_manager.py:145-148 | computes the intents whose patterns occur in the text, in table order; there are never more than table entries |
| Patterns.FirstOther | pattern_manager.py:164-166 | computes the first collected intent other than time, date and weather; what it finds was collected and is none of those three |
| Patterns.ResponsesFor | pattern_manager.py:166 | computes `responses.get(intent, [apology])` |
| Patterns.FirstMatchSpec | pattern_manager.py:140-142 | the first matching intent is the key of a matching entry that no earlier entry matches; there is none exactly when no entry matches |
| Patterns.MatchingIntentsSpec | pattern_manager.py:145-148 | an intent is collected exactly when some entry with that key matches the text |
| Patterns.MatchingIntentsDistinct | pattern_manager.py:145-148 | with distinct table keys, the collected intents are distinct |
| Patterns.FirstMatchIsFirstIntent | pattern_manager.py:140-148 | the first match is the head of the collected intents, or none when nothing was collected |
| Patterns.DocumentPrecedence | pattern_manager.py:140-142 | when a document pattern matches, the answer is the sentinel and the first matching document intent, whatever chitchat patterns match |
| Patterns.TimeAnswer | pattern_manager.py:151-155 | with no document match and "time" matched, the single answer is the apology when the clock has no time, and otherwise the time prefix followed by a rendering that parses back to the clock's time |
| Patterns.DateAnswer | pattern_manager.py:157-158 | with no document or time match and "date" matched, the single answer parses back to the clock's date and weekday |
| Patterns.WeatherAnswer | pattern_manager.py:160-161 | with no document, time or date match and "weather" matched, the answer is the stored weather list |
| Patterns.OtherAnswer | pattern_manager.py:164-166 | otherwise the first matched chitchat intent's stored answers are returned, or the fallback apology when it has none |
| Patterns.SentinelAnswers | pattern_manager.py:134-168 | the answer is never empty; it starts with the document sentinel exactly when a document pattern matches, and it starts with (and then is exactly) the general sentinel exactly when no pattern of either table matches |
| Patterns.CaseInsensitive | pattern_manager.py:137 | lower-casing already lower-cased text again changes nothing in the fast path |
| Patterns.DefaultTablesValid | pattern_manager.py:8-93 | the built-in tables have distinct keys and a weather answer |
| Text.Lower | smart_ans.py:15 | lower-casing keeps the length |
| Text.LowerIdempotent | pattern_manager.py:137 | lower-casing twice is lower-casing once |
| Text.LowerIsLower | smart_ans.py:15 | every character of a lower-cased string is its own lower case |
| Text.LeftEnd | smart_ans.py:15 | the index of the first character outside the trimmed set; every character before it is in the set |
| Text.RightEnd | smart_ans.py:15 | the index just after the last character outside the trimmed set; every character from it on is in the set |
| Text.Strip | smart_ans.py:15 | a stripped string is no longer than the original and, if not empty, begins and ends outside the trimmed set |
| Text.StripSpec | smart_ans.py:15 | a stripped string is the middle slice of the original, with only trimmed characters cut on either side |
| Text.StripKeeps | smart_ans.py:15 | any property of every character survives stripping |
| Text.StripNoop | smart_ans.py:15 | a string that neither begins nor ends in the set is unchanged by stripping |
| Text.StripAfter | smart_ans.py:131 | stripping the tail after position n gives the piece of the string that starts at the first character after n outside the set; only characters of the set lie between n and that piece, and after it |
| Text.TakeWordSpec | smart_ans.py:23 | the first word is a whitespace-free prefix, followed by whitespace or the end |
| Text.Words | smart_ans.py:23 | computes `str.split()`: the maximal runs of non-whitespace characters, in order |
| Text.Join | smart_ans.py:23 | computes `sep.join(ws)`: the words with the separator between each two |
| Text.IsInfix | pattern_manager.py:141 | computes whether a literal occurs somewhere in the text |
| Text.WordsAreWords | smart_ans.py:23 | `split()` yields non-empty words without whitespace |
| Text.WordsCons | smart_ans.py:23 | a word followed by whitespace splits into that word and the split of the rest |
| Text.WordsOfWord | smart_ans.py:23 | a single word splits into itself |
| Text.JoinWordsRoundTrip | BM25_FAISS_query.py:82-84 | joining words with single spaces and splitting again gives back the words |
| Text.JoinSingleSpaced | smart_ans.py:23 | joining words with single spaces gives text with no leading, trailing or doubled space |
| Text.WordsKeep | smart_ans.py:23 | a property of every character holds for every character of every word |
| Text.JoinKeeps | smart_ans.py:23 | a property of every character of the words and the separator holds for every character of the join |
| Text.SplitOn | query.py:37 | splitting on a character yields at least one part |
| Text.SplitOnGlue | query.py:37 | a prefix free of the separator is glued onto the first part |
| Text.SplitJoinRoundTrip | query.py:37 | joining separator-free parts with the separator and splitting again gives back the parts |
| Text.IsInfixAt | pattern_manager.py:141 | a literal alternative is searched for exactly when it occurs at some position of the text |
| Calendar.FormatTime | pattern_manager.py:115 | computes `strftime("%H:%M:%S")`: hour, minute and second as two zero-padded digits each, joined by colons |
| Calendar.FormatDate | pattern_manager.py:117-131 | computes the Vietnamese weekday name, ", ngày " and `strftime('%d/%m/%Y')` |
| Calendar.TimeRoundTrip | pattern_manager.py:111-115 | a valid time renders as eight characters `HH:MM:SS` that parse back to the same time |
| Calendar.DateRoundTrip | pattern_manager.py:117-131 | a valid date renders as its Vietnamese weekday name, the separator and `dd/mm/yyyy`, which parse back to the same date and weekday |
| Calendar.ParseDateFields | pattern_manager.py:131 | a weekday name and zero-padded day, month and year parse back to their date |
| Calendar.WeekdayNamesDistinct | pattern_manager.py:121-129 | the seven weekday names are distinct, so the weekday can be read back from the name |
| Calendar.DigitsRoundTrip | pattern_manager.py:115 | a number below 10^width renders as width zero-padded digits that read back as the number |
| Calendar.IndexOfDistinct | pattern_manager.py:130 | in a list without repeats, looking up the entry at position i finds position i |
| SmartAns.Replace | smart_ans.py:20 | computes `query.replace(char, ' ')` for one character |
| SmartAns.Blank | smart_ans.py:18-20 | computes the outcome of the whole replacement loop: every punctuation character turned into a space |
| SmartAns.Normalize | smart_ans.py:12-25 | computes the normal form: lower case, stripped of outer whitespace, every punctuation character replaced by a space, words joined by single spaces |
| SmartAns.Weight | smart_ans.py:45 | computes `weights.get(intent, 1.0)`, in tenths |
| SmartAns.Score | smart_ans.py:43-48 | computes the sum of the weights (default 1.0, in tenths) of the intents whose patterns occur in the text |
| SmartAns.Classify | smart_ans.py:69-75 | computes the verdict: chitchat with its score and first intent when that score beats the document score and is at least 1.0; else document when the document score is at least 0.8; else ("general", 0.5, "general") |
| SmartAns.StripEcho | smart_ans.py:130-131 | computes the answer without an echo of the question: when it starts with the question ignoring case, the rest after the question's length, stripped of spaces, commas, full stops and colons |
| SmartAns.Routing | smart_ans.py:87-155 | computes the route: a fast-path answer that is not a sentinel is returned as it is; then document on the document sentinel or a document verdict of at least 0.8; then chitchat on a chitchat verdict of at least 0.7; else general |
| SmartAns.Respond | smart_ans.py:87-169 | computes the answer along the route: the canned answer; the not-found message or the echo-stripped model answer for the retrieved context; the tagged chitchat answer; the general answer |
| SmartAns.SpecialCharsAreSpecial | smart_ans.py:18 | a character is in the punctuation string exactly when it is ASCII punctuation |
| SmartAns.PreprocessQuery | smart_ans.py:12-25 | the replacement loop over the punctuation string computes exactly the normal form of the question |
| SmartAns.NormalizeSpec | smart_ans.py:12-25 | the normal form holds only lower-case, non-punctuation characters, has no doubled space and neither begins nor ends with a space |
| SmartAns.NormalizeClean | smart_ans.py:15-20 | every character of the normal form is its own lower case and is not punctuation |
| SmartAns.CleanFixed | smart_ans.py:15-20 | text made only of such characters is fixed by lower-casing and by the punctuation blanking |
| SmartAns.NormalizeIdempotent | smart_ans.py:12-25 | normalising a normal form changes nothing |
| SmartAns.ScoreTable | smart_ans.py:43-48 | the loop over a pattern table computes the weighted score and the first matched intent |
| SmartAns.ScoreIsSum | smart_ans.py:43-48 | a score is the sum of the weights (default 1.0) of exactly the matched intents |
| SmartAns.ScoreBounds | smart_ans.py:61-66 | with every weight at least m, a score is 0 when nothing matches and at least m otherwise |
| SmartAns.WeightsPositive | smart_ans.py:34-58 | every chitchat weight is at least 0.9 and every document weight at least 1.0 |
| SmartAns.ClassifyQuery | smart_ans.py:27-75 | the method returns the classification of the normalised question over the built-in tables |
| SmartAns.ClassifyChitchat | smart_ans.py:69-70 | a chitchat verdict has confidence at least 1.0, equal to the chitchat score, and names the first matched chitchat intent |
| SmartAns.ClassifyDocument | smart_ans.py:71-72 | a document verdict has confidence at least 0.8, equal to the document score, and names the first matched document intent |
| SmartAns.ClassifyOrder | smart_ans.py:69-75 | the verdict is chitchat exactly when the chitchat score is strictly above the document score and at least 1.0, and document exactly when that fails and the document score is at least 0.8 |
| SmartAns.ClassifyGeneral | smart_ans.py:73-75 | the verdict is general exactly when no document pattern matches and the chitchat score is below 1.0, and it is then ("general", 0.5, "general") |
| SmartAns.StripEchoSpec | smart_ans.py:130-131 | an answer that does not start with the question (ignoring case) is kept. Otherwise what remains is the slice of the answer after the echo that starts at the first character other than a space, comma, full stop or colon. Only such characters are cut on either side of it, and it neither begins nor ends with one |
| SmartAns.RouteSpec | smart_ans.py:83-155 | the fast path is never empty; a canned answer is given exactly when no document pattern and some chitchat pattern matches, and it is the fast path's first answer; the document, chitchat and general routes are taken exactly under the stated pattern and classification conditions |
| SmartAns.DocumentAnswer | smart_ans.py:101-133 | on the document route, no retrieved passage gives the not-found message; otherwise the passages are non-empty and the answer is the echo-stripped model output for their joined context |
| SmartAns.DefaultResponsesCanned | pattern_manager.py:49-93 | no built-in canned answer list is empty or starts with a sentinel |
| SmartAns.DefaultFastPath | smart_ans.py:83-84 | the fast path on the built-in tables never returns an empty list, so `responses[0]` is defined |
| SmartAns.Reply | smart_ans.py:87-169 | the branching after the fast path returns exactly the answer of the route taken |
| SmartAns.Answer | smart_ans.py:77-169 | computes the answer of `smart_response`: the routed answer for the built-in fast path on the question and the classification of its normal form |
| SmartAns.SmartResponse | smart_ans.py:77-169 | the whole answerer returns the routed answer for the built-in tables, the normalised classification and the injected retrievers, model and clock |
| Merge.Dedupe | utils.py:41-44 | computes what the seen-set loop keeps: each passage whose content did not appear earlier, in order |
| Merge.Hybrid | BM25_FAISS_query.py:47-71 | computes `hybrid_search`: the top 5 of each list, alternated, de-duplicated, cut to 5 |
| Merge.Context | query.py:37 | computes the passages' contents joined by newlines |
| Merge.Take | BM25_FAISS_query.py:71 | a `[:k]` slice is the prefix of length min(k, length) |
| Merge.Interleave | BM25_FAISS_query.py:60-69 | the alternation is as long as both lists together (that it is a permutation of them is `InterleavePermutes`) |
| Merge.InterleavePermutes | BM25_FAISS_query.py:60-69 | the alternation is a permutation of the two lists together |
| Merge.InterleaveAlternates | BM25_FAISS_query.py:60-69 | while both lists last, position 2k holds the k-th lexical hit and 2k+1 the k-th dense hit |
| Merge.InterleaveStep | BM25_FAISS_query.py:61-69 | one round of the loop visits the i-th lexical hit, then the i-th dense hit, whichever exist |
| Merge.InterleaveDistinct | BM25_FAISS_query.py:60-69 | alternating two lists without repeated contents repeats no content |
| Merge.InterleaveMembers | BM25_FAISS_query.py:60-69 | a passage is visited exactly when it is in one of the lists, and the visited contents are those of both lists |
| Merge.InterleaveMerge | BM25_FAISS_query.py:57-69 | the seen-set loop over the alternation computes exactly the first-seen de-duplication of the alternated lists |
| Merge.KeepNew | utils.py:42-44 | one step of the seen-set loop extends the de-duplication of the visited prefix by one element and keeps the seen set equal to its contents |
| Merge.DedupeSpec | utils.py:37-44 | the kept passages have distinct contents, come from the input, cover every input content and number as many as the distinct contents |
| Merge.DedupeFirstSeen | utils.py:41-44 | a passage whose content has not appeared before it is kept |
| Merge.DedupeAppend | utils.py:41-44 | de-duplicating a longer list extends the shorter list's result, and only with passages of new content from the added part |
| Merge.DedupeSnoc | utils.py:41-44 | one more passage is appended exactly when its content is new |
| Merge.DedupeGrows | utils.py:41-44 | visiting one more passage never removes a kept one |
| Merge.DedupeShrinks | utils.py:41-44 | de-duplication never lengthens a list and leaves it unchanged when nothing is dropped |
| Merge.DedupeDistinct | utils.py:41-44 | a list with distinct contents is unchanged |
| Merge.DistinctCount | utils.py:41-44 | a list with distinct contents has as many contents as elements |
| Merge.HybridSpec | BM25_FAISS_query.py:47-71 | the hybrid result has at most 5 passages with distinct contents, all taken from the two top-5 lists, and exactly min(5, number of distinct contents among them) of them |
| Merge.HybridDisjoint | BM25_FAISS_query.py:47-71 | when the top-5 lists share no content, the result is the first 5 of their alternation |
| Merge.HybridFirstSeen | BM25_FAISS_query.py:60-69 | a passage visited before any other with its content is kept by the merge |
| Merge.ContextEmpty | query.py:37 | no passages give the empty context |
| Merge.ContextSplits | smart_ans.py:107 | for newline-free passages, splitting the context on newlines gives back their contents |
| Query.HybridSearch | query.py:72-93 | the copy of the hybrid search returns exactly the hybrid merge of the two retrievers' hits |
| Query.GetContext | query.py:35-37 | the context is the newline join of the hybrid search's passages |
| Bm25FaissQuery.HybridSearch | BM25_FAISS_query.py:47-71 | returns exactly the hybrid merge of the two retrievers' hits |
| Bm25FaissQuery.QueryVariations | BM25_FAISS_query.py:80-87 | there are always three variations |
| Bm25FaissQuery.QueryWords | BM25_FAISS_query.py:74-78 | computes the words of the lower-cased, stripped query that are not stop words |
| Bm25FaissQuery.DropStopWords | BM25_FAISS_query.py:78 | computes the words that are not stop words, in order |
| Bm25FaissQuery.DropStopWordsSpec | BM25_FAISS_query.py:76-78 | a word survives exactly when it was present and is not a stop word, and the list does not grow |
| Bm25FaissQuery.DropStopWordsAppend | BM25_FAISS_query.py:78 | the filter works word by word: filtering two lists one after the other gives the filtered first list followed by the filtered second, so order and repeats are kept |
| Bm25FaissQuery.Last | BM25_FAISS_query.py:84 | a `[-k:]` slice is the suffix of length min(k, length) |
| Bm25FaissQuery.QueryWordsAreWords | BM25_FAISS_query.py:74-78 | the query words are non-empty, whitespace-free and none is a stop word |
| Bm25FaissQuery.JoinedVariations | BM25_FAISS_query.py:82-84 | splitting each joined variation gives back its words |
| Bm25FaissQuery.QueryVariationsSpec | BM25_FAISS_query.py:73-87 | each variation is single-spaced (no leading, trailing or doubled space, no other whitespace) and splits back into all the stop-word-free words, the first three and the last three, which fixes each string exactly |
| Bm25FaissQuery.SpacedVariations | BM25_FAISS_query.py:82-84 | a list of words, its first three and its last three, each joined with single spaces |
| Bm25FaissQuery.SpacedFirst | BM25_FAISS_query.py:83 | the first three words joined with spaces have single spaces only between words |
| Bm25FaissQuery.SpacedLast | BM25_FAISS_query.py:84 | the last three words joined with spaces have single spaces only between words |
| Bm25FaissQuery.ByContent | BM25_FAISS_query.py:103 | computes the dictionary comprehension: each content keyed in order of first appearance, mapped to the last passage with it |
| Bm25FaissQuery.UniqueResults | BM25_FAISS_query.py:103 | computes the values of that dictionary, in key order |
| Bm25FaissQuery.LastWithSpec | BM25_FAISS_query.py:103 | the last passage with a content is found exactly when the content occurs, and no later passage has it |
| Bm25FaissQuery.ByContentGet | BM25_FAISS_query.py:103 | the content-keyed dictionary has distinct keys and maps each content to its last passage |
| Bm25FaissQuery.ByContentKeys | BM25_FAISS_query.py:103 | its keys are the contents in first-seen order |
| Bm25FaissQuery.UniqueResultsSpec | BM25_FAISS_query.py:103 | the unique results number the distinct contents, in first-seen order, each being the last passage with its content |
| Bm25FaissQuery.DisjointExample | BM25_FAISS_query.py:47-71 | hits A B C and D E F merge to A D B E C |
| Bm25FaissQuery.OverlapExample | BM25_FAISS_query.py:47-71 | hits A B and B C merge to A B C |
| Utils.Retrieved | utils.py:32-46 | computes `hybrid_retriever`: the lexical top 3 followed by the dense top 3, de-duplicated, cut to 3 |
| Utils.HybridRetriever | utils.py:32-46 | the seen-set loop returns exactly the first three distinct passages of the lexical top 3 followed by the dense top 3 |
| Utils.KeepFirstSeen | utils.py:38-44 | the loop with `seen_content` keeps exactly the first document of each distinct text, in order (`Dedupe` of the concatenated rankings) |
| Utils.RetrievedSpec | utils.py:32-46 | at most three passages, with distinct contents, all from the two top-3 lists |
| Utils.LexicalFirst | utils.py:41-46 | the de-duplicated lexical hits come first; every later passage is a dense hit whose content no lexical hit has |
| Utils.LexicalSuffices | utils.py:32-46 | three distinct lexical hits are the whole answer |
| Utils.RetrievedEmpty | smart_ans.py:103-105 | nothing is retrieved exactly when both retrievers return nothing |

## Left out

- Language model, prompts and `LLMChain`. The model is a function parameter and
  each prompt is a datatype carrying its fields. The prompt wording, the
  CTransformers settings and `qa_chain` (query.py:39-45) are not part of this model.
- BM25 and FAISS ranking, embeddings, PDF loading and index building
  (`load_pdf_data`, `read_vectors_db`, `initialize_retrievers`, `load_llm`). Each
  retriever is a function from the query to its ranked passages.
- The clock. `datetime.now` in the Asia/Ho_Chi_Minh zone is a `Clock` parameter.
  A missing time models the `current_time is None` branch. Years are limited to
  four digits (1000-9999), so that `dd/mm/yyyy` has a fixed width.
- Text.Lower: lower-casing covers only the scripts the chatbot's tables use. These
  are ASCII capitals, the Latin-1 capitals, the Latin Extended-A pairs up to U+012F
  (which hold Ă, Đ and Ĩ), Ũ, Ơ, Ư and the Vietnamese block U+1EA0-U+1EF9, which
  together are every Vietnamese capital. Every other character is left unchanged,
  although Python lowers it. This includes the rest of Latin Extended-A (such as Ł,
  Œ, Š, Ÿ and Ž), U+1E00-U+1E9F, Greek and Cyrillic. Every
  character keeps its length, and Python's lower-casing of the few characters that
  expand (such as U+0130) is not modelled. `isspace()` is the explicit set of
  characters Python accepts.
- Regular expressions. Each pattern in the tables is a group of literal
  alternatives. It is modelled as that list of literals, and `re.search` as "some
  literal occurs in the text". No other regex syntax is modelled.
- SmartAns.ScoreIsSum: the weights are integers in tenths, not floats. Float
  rounding in sums such as 1.1 + 1.1 + 1.1 is not modelled, and neither are
  comparisons that rounding would flip at exact ties.
- Confidence in prompts is the score in tenths, not Python's float rendering.
- Passage metadata is a `map<string, string>` that is carried along but never
  inspected.
- Command-line drivers are not part of this model:
  - `enhanced_test_search`'s input loop and `print_results` (BM25_FAISS_query.py:37-45 and 89-104);
  - query.py's `main`;
  - `chatbot_rag.py`;
  - `text_processing.py`;
  - `test_chunk.py`.
  The pure steps of `enhanced_test_search` are modelled: the query variations and
  the de-duplication of line 103.
- `get_all_patterns` (pattern_manager.py:107-109) only returns the two pattern
  fields, so it has no model of its own.
- Routing lemmas are stated over any pattern and answer tables that satisfy their
  requirements. For the built-in tables, `DefaultTablesValid` and
  `DefaultResponsesCanned` discharge those requirements.
- The built-in answers list "thanks" once. The source's dictionary literal
  repeats the key with an identical list, so Python keeps a single entry in the
  first position.
- `smart_ans.py` creates a module-level `PatternManager` (line 9) that is never
  read. `smart_response` builds its own, as the model does.
