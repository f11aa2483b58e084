/**
 * `hybrid_retriever`, the retrieval the router uses: the first three documents of
 * the lexical (BM25) ranking followed by the first three of the vector (FAISS)
 * ranking, documents whose text was already seen dropped, cut to three.
 */
module Utils {
  import opened Merge

  /** How many documents `hybrid_retriever` takes from each ranking, and returns. */
  const RetrieveCap: nat := 3

  /** What `hybrid_retriever` returns for the two rankings. */
  function Retrieved(b: seq<Doc>, f: seq<Doc>): seq<Doc>
  {
    Take(Dedupe(Take(b, RetrieveCap) + Take(f, RetrieveCap)), RetrieveCap)
  }

  /**
   * `hybrid_retriever(query, bm25_retriever, vector_store)`; the two rankings for
   * `query` are what `lexical` and `dense` give.
   */
  method HybridRetriever(query: string, lexical: string -> seq<Doc>, dense: string -> seq<Doc>)
    returns (docs: seq<Doc>)
    ensures docs == Retrieved(lexical(query), dense(query))
  {
    var bm25Docs := Take(lexical(query), RetrieveCap);
    var faissDocs := Take(dense(query), RetrieveCap);
    var kept := KeepFirstSeen(bm25Docs + faissDocs);
    docs := Take(kept, RetrieveCap);
  }

  /**
   * The loop of `hybrid_retriever` over the concatenated rankings: a document is
   * appended when its text is not yet in `seen_content`, which then records it.
   */
  method KeepFirstSeen(all: seq<Doc>) returns (kept: seq<Doc>)
    ensures kept == Dedupe(all)
  {
    var seen: set<string> := {};
    kept := [];
    for i := 0 to |all|
      invariant kept == Dedupe(all[..i])
      invariant seen == ContentSet(kept)
    {
      assert all[..i + 1] == all[..i] + [all[i]];
      seen, kept := KeepNew(seen, kept, all[i], all[..i]);
    }
    assert all[..|all|] == all;
  }

  /** At most three documents, no two with the same text, each from the first three of a ranking. */
  lemma RetrievedSpec(b: seq<Doc>, f: seq<Doc>)
    ensures |Retrieved(b, f)| <= RetrieveCap
    ensures DistinctContents(Retrieved(b, f))
    ensures forall d :: d in Retrieved(b, f) ==> d in Take(b, RetrieveCap) + Take(f, RetrieveCap)
  {
    DedupeSpec(Take(b, RetrieveCap) + Take(f, RetrieveCap));
  }

  /**
   * The lexical documents come first: the result starts with the lexical documents
   * of new text, and whatever follows is a vector document whose text no lexical
   * document has.
   */
  lemma LexicalFirst(b: seq<Doc>, f: seq<Doc>)
    ensures Dedupe(Take(b, RetrieveCap)) <= Retrieved(b, f)
    ensures forall k :: |Dedupe(Take(b, RetrieveCap))| <= k < |Retrieved(b, f)| ==>
      Retrieved(b, f)[k] in Take(f, RetrieveCap) &&
      Retrieved(b, f)[k].content !in ContentSet(Take(b, RetrieveCap))
  {
    var b3, f3 := Take(b, RetrieveCap), Take(f, RetrieveCap);
    DedupeAppend(b3, f3);
    DedupeShrinks(b3);
  }

  /** Three lexical documents with distinct texts are the whole answer. */
  lemma LexicalSuffices(b: seq<Doc>, f: seq<Doc>)
    requires |b| >= RetrieveCap && DistinctContents(Take(b, RetrieveCap))
    ensures Retrieved(b, f) == Take(b, RetrieveCap)
  {
    LexicalFirst(b, f);
    DedupeDistinct(Take(b, RetrieveCap));
  }

  /** Nothing is returned exactly when neither ranking gives anything. */
  lemma RetrievedEmpty(b: seq<Doc>, f: seq<Doc>)
    ensures Retrieved(b, f) == [] <==> b == [] && f == []
  {
    var all := Take(b, RetrieveCap) + Take(f, RetrieveCap);
    DedupeSpec(all);
    if all != [] {
      assert all[0] in all;
    }
  }
}
