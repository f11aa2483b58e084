/**
 * The search script over the lexical (BM25) and vector (FAISS) rankings:
 * `hybrid_search`, the three query variations searched for, and the removal of
 * repeated texts among the documents found for them.
 */
module Bm25FaissQuery {
  import opened Wrappers
  import opened Text
  import opened Dict
  import opened Merge

  /**
   * `hybrid_search(query, bm25_retriever, vector_store)`; the two rankings for
   * `query` are what `lexical` and `dense` give.
   */
  method HybridSearch(query: string, lexical: string -> seq<Doc>, dense: string -> seq<Doc>)
    returns (docs: seq<Doc>)
    ensures docs == Hybrid(lexical(query), dense(query))
  {
    var bm25Docs := Take(lexical(query), SearchCap);
    var faissDocs := Take(dense(query), SearchCap);
    var kept := InterleaveMerge(bm25Docs, faissDocs);
    docs := Take(kept, SearchCap);
  }

  // ---------------------------------------------------------------------------
  // preprocess_query

  /** The Vietnamese stop words left out of the searched variations. */
  const StopWords: set<string> := {"là", "và", "các", "của", "có", "những", "để", "trong", "cho"}

  /** The words of `ws` that are not stop words, in order. */
  function DropStopWords(ws: seq<string>): seq<string>
  {
    if ws == [] then []
    else (if ws[0] in StopWords then [] else [ws[0]]) + DropStopWords(ws[1..])
  }

  /** `xs[-k:]`. */
  function Last<T>(xs: seq<T>, k: nat): (r: seq<T>)
    ensures |r| == if |xs| <= k then |xs| else k
    ensures r == xs[|xs| - |r|..]
  {
    if |xs| <= k then xs else xs[|xs| - k..]
  }

  /** The words of the lower-cased, stripped query that are not stop words. */
  function QueryWords(query: string): seq<string>
  {
    DropStopWords(Words(Strip(Lower(query), Whitespace)))
  }

  /**
   * `preprocess_query`: the query without stop words, its first three such words and
   * its last three, each joined by single spaces.
   */
  function QueryVariations(query: string): (vs: seq<string>)
    ensures |vs| == 3
  {
    var ws := QueryWords(query);
    [Join(ws, " "), Join(Take(ws, 3), " "), Join(Last(ws, 3), " ")]
  }

  /** A word is kept exactly when it is not a stop word, and the list never grows. */
  lemma {:induction false} DropStopWordsSpec(ws: seq<string>)
    ensures forall w :: w in DropStopWords(ws) <==> w in ws && w !in StopWords
    ensures |DropStopWords(ws)| <= |ws|
  {
    if ws != [] {
      DropStopWordsSpec(ws[1..]);
      assert ws == [ws[0]] + ws[1..];
    }
  }

  /**
   * The filter works word by word and keeps order and repeats: the words kept from
   * two lists one after the other are those kept from each, in turn.
   */
  lemma {:induction false} DropStopWordsAppend(xs: seq<string>, ys: seq<string>)
    ensures DropStopWords(xs + ys) == DropStopWords(xs) + DropStopWords(ys)
  {
    if xs == [] {
      assert xs + ys == ys;
    } else {
      var keep := if xs[0] in StopWords then [] else [xs[0]];
      DropStopWordsAppend(xs[1..], ys);
      assert (xs + ys)[0] == xs[0] && (xs + ys)[1..] == xs[1..] + ys;
      calc {
        DropStopWords(xs + ys);
        keep + DropStopWords(xs[1..] + ys);
        keep + (DropStopWords(xs[1..]) + DropStopWords(ys));
        (keep + DropStopWords(xs[1..])) + DropStopWords(ys);
      }
    }
  }

  /** The query's words are words, and none of them is a stop word. */
  lemma QueryWordsAreWords(query: string)
    ensures forall k :: 0 <= k < |QueryWords(query)| ==> IsWord(QueryWords(query)[k])
    ensures forall w :: w in QueryWords(query) ==> w !in StopWords
  {
    var all := Words(Strip(Lower(query), Whitespace));
    var ws := QueryWords(query);
    WordsAreWords(Strip(Lower(query), Whitespace));
    DropStopWordsSpec(all);
    forall k | 0 <= k < |ws|
      ensures IsWord(ws[k])
    {
      assert ws[k] in all;
    }
  }

  /** A run of consecutive words splits back out of its joining. */
  lemma SliceRoundTrip(ws: seq<string>, i: int, j: int)
    requires forall k :: 0 <= k < |ws| ==> IsWord(ws[k])
    requires 0 <= i <= j <= |ws|
    ensures Words(Join(ws[i..j], " ")) == ws[i..j]
  {
    var run := ws[i..j];
    forall k | 0 <= k < |run|
      ensures IsWord(run[k])
    {
      assert run[k] == ws[i + k];
    }
    JoinWordsRoundTrip(run);
  }

  /** A list of words, its first three and its last three each split back out of their joining. */
  lemma JoinedVariations(ws: seq<string>)
    requires forall k :: 0 <= k < |ws| ==> IsWord(ws[k])
    ensures Words(Join(ws, " ")) == ws
    ensures Words(Join(Take(ws, 3), " ")) == Take(ws, 3)
    ensures Words(Join(Last(ws, 3), " ")) == Last(ws, 3)
  {
    var first := Take(ws, 3);
    var last := Last(ws, 3);
    assert ws[0..|ws|] == ws;
    assert first == ws[0..|first|];
    assert last == ws[|ws| - |last|..|ws|];
    SliceRoundTrip(ws, 0, |ws|);
    SliceRoundTrip(ws, 0, |first|);
    SliceRoundTrip(ws, |ws| - |last|, |ws|);
  }

  /** A run of consecutive words is joined with single spaces. */
  lemma SliceSpaced(ws: seq<string>, i: int, j: int)
    requires forall k :: 0 <= k < |ws| ==> IsWord(ws[k])
    requires 0 <= i <= j <= |ws|
    ensures SingleSpaced(Join(ws[i..j], " "))
  {
    var run := ws[i..j];
    forall k | 0 <= k < |run|
      ensures IsWord(run[k])
    {
      assert run[k] == ws[i + k];
    }
    JoinSingleSpaced(run);
  }

  /** A list of words, its first three and its last three are each joined with single spaces. */
  lemma SpacedVariations(ws: seq<string>)
    requires forall k :: 0 <= k < |ws| ==> IsWord(ws[k])
    ensures SingleSpaced(Join(ws, " "))
    ensures SingleSpaced(Join(Take(ws, 3), " "))
    ensures SingleSpaced(Join(Last(ws, 3), " "))
  {
    JoinSingleSpaced(ws);
    SpacedFirst(ws);
    SpacedLast(ws);
  }

  /** The first three words are joined with single spaces. */
  lemma SpacedFirst(ws: seq<string>)
    requires forall k :: 0 <= k < |ws| ==> IsWord(ws[k])
    ensures SingleSpaced(Join(Take(ws, 3), " "))
  {
    var first := Take(ws, 3);
    assert first == ws[0..|first|];
    SliceSpaced(ws, 0, |first|);
  }

  /** The last three words are joined with single spaces. */
  lemma SpacedLast(ws: seq<string>)
    requires forall k :: 0 <= k < |ws| ==> IsWord(ws[k])
    ensures SingleSpaced(Join(Last(ws, 3), " "))
  {
    var last := Last(ws, 3);
    assert last == ws[|ws| - |last|..|ws|];
    SliceSpaced(ws, |ws| - |last|, |ws|);
  }

  /**
   * Each variation is single-spaced and splits back into its words: all the query's
   * words but the stop words, the first up to three of them, and the last up to three
   * of them.
   */
  lemma QueryVariationsSpec(query: string)
    ensures Words(QueryVariations(query)[0]) == QueryWords(query)
    ensures forall w :: w in QueryWords(query) ==> w !in StopWords
    ensures Words(QueryVariations(query)[1]) == Take(QueryWords(query), 3)
    ensures Words(QueryVariations(query)[2]) == Last(QueryWords(query), 3)
    ensures SingleSpaced(QueryVariations(query)[0]) && SingleSpaced(QueryVariations(query)[1])
    ensures SingleSpaced(QueryVariations(query)[2])
  {
    QueryWordsAreWords(query);
    JoinedVariations(QueryWords(query));
    SpacedVariations(QueryWords(query));
  }

  // ---------------------------------------------------------------------------
  // The removal of repeated texts among the results of the variations

  /** `{doc.page_content: doc for doc in ds}`: one entry per text, in order of first appearance. */
  function ByContent(ds: seq<Doc>): seq<(string, Doc)>
  {
    if ds == [] then []
    else Put(ByContent(ds[..|ds| - 1]), ds[|ds| - 1].content, ds[|ds| - 1])
  }

  /** `list({...}.values())`. */
  function UniqueResults(ds: seq<Doc>): seq<Doc>
  {
    Values(ByContent(ds))
  }

  /** The last document of `ds` with text `k`, if any. */
  function LastWith(ds: seq<Doc>, k: string): Option<Doc>
  {
    if ds == [] then None
    else if ds[|ds| - 1].content == k then Some(ds[|ds| - 1])
    else LastWith(ds[..|ds| - 1], k)
  }

  /** The last document with a text is a document of the input with that text and no later one. */
  lemma {:induction false} LastWithSpec(ds: seq<Doc>, k: string)
    ensures LastWith(ds, k).None? <==> k !in ContentSet(ds)
    ensures LastWith(ds, k).Some? ==>
      exists j :: (0 <= j < |ds| && ds[j] == LastWith(ds, k).value &&
        ds[j].content == k && forall j' :: j < j' < |ds| ==> ds[j'].content != k)
    decreases |ds|
  {
    if ds != [] {
      var init := ds[..|ds| - 1];
      LastWithSpec(init, k);
      assert ds == init + [ds[|ds| - 1]];
      ContentSetAppend(init, ds[|ds| - 1]);
      if ds[|ds| - 1].content != k && LastWith(init, k).Some? {
        var j :| 0 <= j < |init| && init[j] == LastWith(init, k).value &&
          init[j].content == k && forall j' :: j < j' < |init| ==> init[j'].content != k;
        assert ds[j] == init[j];
      }
    }
  }

  /** Each text maps to the last document with it. */
  lemma {:induction false} ByContentGet(ds: seq<Doc>, k: string)
    ensures DistinctKeys(ByContent(ds))
    ensures Get(ByContent(ds), k) == LastWith(ds, k)
    decreases |ds|
  {
    if ds != [] {
      var init := ds[..|ds| - 1];
      var d := ds[|ds| - 1];
      ByContentGet(init, k);
      PutKeys(ByContent(init), d.content, d);
      PutGet(ByContent(init), d.content, d, k);
    }
  }

  /** The texts come in the order of their first appearance, each once. */
  lemma {:induction false} ByContentKeys(ds: seq<Doc>)
    ensures Keys(ByContent(ds)) == Contents(Dedupe(ds))
    decreases |ds|
  {
    if ds != [] {
      var init := ds[..|ds| - 1];
      var d := ds[|ds| - 1];
      var kept := Dedupe(init);
      assert ds == init + [d];
      ByContentKeys(init);
      ByContentGet(init, d.content);
      PutKeys(ByContent(init), d.content, d);
      DedupeSnoc(init, d);
      ContentSetContents(kept, d.content);
      ContentsAppend(kept, d);
    }
  }

  /**
   * The unique results: one document per distinct text, in order of the text's first
   * appearance, each the last document found with that text.
   */
  lemma UniqueResultsSpec(ds: seq<Doc>)
    ensures |UniqueResults(ds)| == |Dedupe(ds)|
    ensures forall i :: 0 <= i < |UniqueResults(ds)| ==>
      Some(UniqueResults(ds)[i]) == LastWith(ds, Dedupe(ds)[i].content)
  {
    var r := ByContent(ds);
    ByContentKeys(ds);
    forall i | 0 <= i < |r|
      ensures Some(r[i].1) == LastWith(ds, Dedupe(ds)[i].content)
    {
      ByContentGet(ds, r[i].0);
      GetSpec(r, r[i].0);
      assert r[i].0 == Keys(r)[i];
    }
  }

  // ---------------------------------------------------------------------------
  // The merge order on small rankings

  /** Rankings `[A, B, C]` and `[D, E, F]` with six texts merge to `[A, D, B, E, C]`. */
  lemma DisjointExample()
    ensures var a, b, c := Doc("A", map[]), Doc("B", map[]), Doc("C", map[]);
      var d, e, f := Doc("D", map[]), Doc("E", map[]), Doc("F", map[]);
      Hybrid([a, b, c], [d, e, f]) == [a, d, b, e, c]
  {
    var a, b, c := Doc("A", map[]), Doc("B", map[]), Doc("C", map[]);
    var d, e, f := Doc("D", map[]), Doc("E", map[]), Doc("F", map[]);
    assert Take([a, b, c], SearchCap) == [a, b, c] && Take([d, e, f], SearchCap) == [d, e, f];
    assert DistinctContents([a, b, c] + [d, e, f]) by {
      assert [a, b, c] + [d, e, f] == [a, b, c, d, e, f];
    }
    HybridDisjoint([a, b, c], [d, e, f]);
    assert [a, d, b, e, c, f][..5] == [a, d, b, e, c];
    assert [a, b, c][1..] == [b, c] && [b, c][1..] == [c] && [c][1..] == [];
    assert [d, e, f][1..] == [e, f] && [e, f][1..] == [f] && [f][1..] == [];
    assert Interleave([c], [f]) == [c, f];
    assert Interleave([b, c], [e, f]) == [b, e, c, f];
    assert Interleave([a, b, c], [d, e, f]) == [a, d, b, e, c, f];
  }

  /** Rankings `[A, B]` and `[B, C]` merge to `[A, B, C]`: the shared text is kept once, where first seen. */
  lemma OverlapExample()
    ensures var a, b, c := Doc("A", map[]), Doc("B", map[]), Doc("C", map[]);
      Hybrid([a, b], [b, c]) == [a, b, c]
  {
    var a, b, c := Doc("A", map[]), Doc("B", map[]), Doc("C", map[]);
    var visit := Interleave([a, b], [b, c]);
    assert [a, b][1..] == [b] && [b, c][1..] == [c];
    assert Interleave([b], [c]) == [b, c];
    assert visit == [a, b, b, c];
    assert [a, b, b, c][..3] == [a, b, b] && [a, b, b][..2] == [a, b] && [a, b][..1] == [a];
    assert [a][..0] == [];
    assert Dedupe([a]) == [a];
    assert ContentSet([a]) == {"A"};
    assert Dedupe([a, b]) == [a, b];
    assert ContentSet([a, b]) == {"A", "B"};
    assert Dedupe([a, b, b]) == [a, b];
    assert Dedupe(visit) == [a, b, c];
  }
}
