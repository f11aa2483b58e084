/**
 * The result merging of the retrieval layer: retrieved documents, the first-seen
 * removal of documents whose text was already kept (a `seen_content` set beside a
 * `final_docs` list), the alternating visit order of two ranked lists, and the
 * newline-joined context handed to the language model.
 */
module Merge {
  import opened Text

  /** A retrieved chunk: its text (`page_content`) and its metadata. */
  datatype Doc = Doc(content: string, metadata: map<string, string>)

  /** The texts of `ds`, in order. */
  function Contents(ds: seq<Doc>): (cs: seq<string>)
    ensures |cs| == |ds| && forall i :: 0 <= i < |ds| ==> cs[i] == ds[i].content
  {
    seq(|ds|, i requires 0 <= i < |ds| => ds[i].content)
  }

  /** The set of texts of `ds`. */
  function ContentSet(ds: seq<Doc>): set<string>
  {
    set d | d in ds :: d.content
  }

  /** No two documents of `ds` have the same text. */
  predicate DistinctContents(ds: seq<Doc>)
  {
    forall i, j :: 0 <= i < j < |ds| ==> ds[i].content != ds[j].content
  }

  /** `xs[:k]`. */
  function Take<T>(xs: seq<T>, k: nat): (r: seq<T>)
    ensures |r| == if |xs| <= k then |xs| else k
    ensures r <= xs
  {
    if |xs| <= k then xs else xs[..k]
  }

  /** `xs[i:]`. */
  function Drop<T>(xs: seq<T>, i: nat): (r: seq<T>)
    ensures |r| == if i <= |xs| then |xs| - i else 0
  {
    if i <= |xs| then xs[i..] else []
  }

  /**
   * The documents of `ds` whose text has not appeared earlier in `ds`, in order:
   * what the loop over `ds` that skips texts already in `seen_content` keeps.
   */
  function Dedupe(ds: seq<Doc>): seq<Doc>
  {
    if ds == [] then []
    else
      var kept := Dedupe(ds[..|ds| - 1]);
      var d := ds[|ds| - 1];
      if d.content in ContentSet(kept) then kept else kept + [d]
  }

  /**
   * The order in which the merge loop visits two ranked lists: the first of each,
   * then the second of each, and so on, the longer list's tail last.
   */
  function Interleave(b: seq<Doc>, f: seq<Doc>): (r: seq<Doc>)
    ensures |r| == |b| + |f|
  {
    if b == [] then f
    else if f == [] then b
    else [b[0], f[0]] + Interleave(b[1..], f[1..])
  }

  /** The text handed to the model: the contents joined by newlines. */
  function Context(ds: seq<Doc>): string
  {
    Join(Contents(ds), "\n")
  }

  // ---------------------------------------------------------------------------
  // The first-seen removal

  lemma ContentSetAppend(ds: seq<Doc>, d: Doc)
    ensures ContentSet(ds + [d]) == ContentSet(ds) + {d.content}
  {
    assert forall x :: x in ds + [d] <==> x in ds || x == d;
  }

  /** The set of texts holds exactly the texts of the list. */
  lemma ContentSetContents(ds: seq<Doc>, x: string)
    ensures x in ContentSet(ds) <==> x in Contents(ds)
  {
    if x in ContentSet(ds) {
      var d :| d in ds && d.content == x;
      var j :| 0 <= j < |ds| && ds[j] == d;
      assert Contents(ds)[j] == x;
    }
  }

  lemma ContentsAppend(ds: seq<Doc>, d: Doc)
    ensures Contents(ds + [d]) == Contents(ds) + [d.content]
  {
  }

  /**
   * The kept documents have distinct texts, are taken from the input, and cover
   * every text of the input, so there are as many of them as distinct texts.
   */
  lemma DedupeSpec(ds: seq<Doc>)
    ensures DistinctContents(Dedupe(ds))
    ensures forall d :: d in Dedupe(ds) ==> d in ds
    ensures ContentSet(Dedupe(ds)) == ContentSet(ds)
    ensures |Dedupe(ds)| == |ContentSet(ds)|
  {
    DedupeKeeps(ds);
    DistinctCount(Dedupe(ds));
  }

  /** The kept documents have distinct texts, come from the input and cover its texts. */
  lemma {:induction false} DedupeKeeps(ds: seq<Doc>)
    ensures DistinctContents(Dedupe(ds))
    ensures forall d :: d in Dedupe(ds) ==> d in ds
    ensures ContentSet(Dedupe(ds)) == ContentSet(ds)
    decreases |ds|
  {
    if ds != [] {
      var init := ds[..|ds| - 1];
      var d := ds[|ds| - 1];
      var kept := Dedupe(init);
      DedupeKeeps(init);
      assert ds == init + [d];
      ContentSetAppend(init, d);
      if d.content !in ContentSet(kept) {
        ContentSetAppend(kept, d);
        forall i | 0 <= i < |kept|
          ensures kept[i].content != d.content
        {
          assert kept[i] in kept;
        }
      }
    }
  }

  /** Documents with distinct texts have as many texts as documents. */
  lemma {:induction false} DistinctCount(ds: seq<Doc>)
    requires DistinctContents(ds)
    ensures |ContentSet(ds)| == |ds|
    decreases |ds|
  {
    if ds != [] {
      var init := ds[..|ds| - 1];
      var d := ds[|ds| - 1];
      assert ds == init + [d];
      DistinctCount(init);
      ContentSetAppend(init, d);
      forall x | x in init
        ensures x.content != d.content
      {
        var j :| 0 <= j < |init| && init[j] == x;
        assert ds[j] == x;
      }
    }
  }

  /**
   * A document that is the first of the input with its text is kept (the converse,
   * that every kept document is such a first one, follows from `DedupeSpec`).
   */
  lemma {:induction false} DedupeFirstSeen(ds: seq<Doc>, i: int)
    requires 0 <= i < |ds|
    requires forall j :: 0 <= j < i ==> ds[j].content != ds[i].content
    ensures ds[i] in Dedupe(ds)
    decreases |ds|
  {
    var init := ds[..|ds| - 1];
    if i < |ds| - 1 {
      DedupeFirstSeen(init, i);
      DedupeGrows(init, ds[|ds| - 1]);
    } else {
      DedupeSpec(init);
      assert ds[i].content !in ContentSet(init);
    }
  }

  /** The kept documents of an input are kept, in the same places, when more input follows. */
  lemma DedupeGrows(ds: seq<Doc>, d: Doc)
    ensures Dedupe(ds) <= Dedupe(ds + [d])
  {
    assert (ds + [d])[..|ds|] == ds;
  }

  /**
   * Removal works left to right: the result for `xs + ys` starts with the result
   * for `xs`, and what follows comes from `ys` with texts that `xs` lacks.
   */
  lemma {:induction false} DedupeAppend(xs: seq<Doc>, ys: seq<Doc>)
    ensures Dedupe(xs) <= Dedupe(xs + ys)
    ensures forall k :: |Dedupe(xs)| <= k < |Dedupe(xs + ys)| ==>
      Dedupe(xs + ys)[k] in ys && Dedupe(xs + ys)[k].content !in ContentSet(xs)
    decreases |ys|
  {
    if ys == [] {
      assert xs + ys == xs;
    } else {
      var init := ys[..|ys| - 1];
      var y := ys[|ys| - 1];
      DedupeAppend(xs, init);
      assert xs + ys == (xs + init) + [y];
      assert (xs + ys)[..|xs + ys| - 1] == xs + init;
      DedupeGrows(xs + init, y);
      DedupeSpec(xs + init);
      forall d | d in xs
        ensures d in xs + init
      {
      }
      forall x | x in init
        ensures x in ys
      {
      }
    }
  }

  /** Removal only drops documents, so it keeps all of them only when none repeats a text. */
  lemma {:induction false} DedupeShrinks(ds: seq<Doc>)
    ensures |Dedupe(ds)| <= |ds|
    ensures |Dedupe(ds)| == |ds| ==> Dedupe(ds) == ds
    decreases |ds|
  {
    if ds != [] {
      var init := ds[..|ds| - 1];
      DedupeShrinks(init);
      assert init + [ds[|ds| - 1]] == ds;
    }
  }

  /** Keeping one more document: it is appended exactly when its text is new. */
  lemma DedupeSnoc(ds: seq<Doc>, d: Doc)
    ensures Dedupe(ds + [d]) ==
      if d.content in ContentSet(Dedupe(ds)) then Dedupe(ds) else Dedupe(ds) + [d]
    ensures ContentSet(Dedupe(ds + [d])) == ContentSet(Dedupe(ds)) + {d.content}
  {
    assert (ds + [d])[..|ds|] == ds;
    ContentSetAppend(Dedupe(ds), d);
  }

  /** An input whose texts are already distinct is kept whole. */
  lemma {:induction false} DedupeDistinct(ds: seq<Doc>)
    requires DistinctContents(ds)
    ensures Dedupe(ds) == ds
    decreases |ds|
  {
    if ds != [] {
      var init := ds[..|ds| - 1];
      DedupeDistinct(init);
      assert ds[|ds| - 1].content !in ContentSet(init);
      assert init + [ds[|ds| - 1]] == ds;
    }
  }

  // ---------------------------------------------------------------------------
  // The alternating visit order

  /** The visit order holds every document of both lists, as many times as they do. */
  lemma {:induction false} InterleavePermutes(b: seq<Doc>, f: seq<Doc>)
    ensures multiset(Interleave(b, f)) == multiset(b) + multiset(f)
  {
    if b != [] && f != [] {
      InterleavePermutes(b[1..], f[1..]);
      SplitFirst(b);
      SplitFirst(f);
      SplitPair(b[0], f[0], Interleave(b[1..], f[1..]));
    }
  }

  lemma SplitFirst<T>(xs: seq<T>)
    requires xs != []
    ensures multiset(xs) == multiset{xs[0]} + multiset(xs[1..])
  {
    assert xs == [xs[0]] + xs[1..];
  }

  lemma SplitPair<T>(x: T, y: T, rest: seq<T>)
    ensures multiset([x, y] + rest) == multiset{x} + multiset{y} + multiset(rest)
  {
  }

  /** While both lists last, the `k`-th of each sit side by side, the first list's first. */
  lemma {:induction false} InterleaveAlternates(b: seq<Doc>, f: seq<Doc>, k: int)
    requires 0 <= k < |b| && k < |f|
    ensures |Interleave(b, f)| > 2 * k + 1
    ensures Interleave(b, f)[2 * k] == b[k] && Interleave(b, f)[2 * k + 1] == f[k]
  {
    if k > 0 {
      InterleaveAlternates(b[1..], f[1..], k - 1);
    }
  }

  /** One round of the merge loop: the `i`-th of each list, as far as they reach. */
  lemma {:induction false} InterleaveStep(b: seq<Doc>, f: seq<Doc>, i: nat)
    requires i < |b| || i < |f|
    ensures i < |b| && i < |f| ==>
      Interleave(Drop(b, i), Drop(f, i)) == [b[i], f[i]] + Interleave(Drop(b, i + 1), Drop(f, i + 1))
    ensures i < |b| && |f| <= i ==>
      Interleave(Drop(b, i), Drop(f, i)) == [b[i]] + Interleave(Drop(b, i + 1), Drop(f, i + 1))
    ensures |b| <= i && i < |f| ==>
      Interleave(Drop(b, i), Drop(f, i)) == [f[i]] + Interleave(Drop(b, i + 1), Drop(f, i + 1))
  {
    if i < |b| && i < |f| {
      assert Drop(b, i)[1..] == Drop(b, i + 1);
      assert Drop(f, i)[1..] == Drop(f, i + 1);
    } else if i < |b| {
      assert Drop(f, i) == [] && Drop(f, i + 1) == [];
      assert Drop(b, i) == [b[i]] + Drop(b, i + 1);
    } else {
      assert Drop(b, i) == [] && Drop(b, i + 1) == [];
      assert Drop(f, i) == [f[i]] + Drop(f, i + 1);
    }
  }

  /** Two lists with no text in common between or within them interleave without repeated texts. */
  lemma InterleaveDistinct(b: seq<Doc>, f: seq<Doc>)
    requires DistinctContents(b + f)
    ensures DistinctContents(Interleave(b, f))
  {
    var s := Interleave(b, f);
    InterleavePermutes(b, f);
    assert forall x :: x in s <==> x in multiset(b + f);
    assert ContentSet(s) == ContentSet(b + f);
    DedupeSpec(s);
    DedupeSpec(b + f);
    DedupeDistinct(b + f);
    DedupeShrinks(s);
  }

  // ---------------------------------------------------------------------------
  // The merge loop

  /**
   * The loop of `hybrid_search`: for each rank `i`, the `i`-th document of `b` and
   * then the `i`-th of `f` are appended unless their text was seen before.
   */
  method InterleaveMerge(b: seq<Doc>, f: seq<Doc>) returns (kept: seq<Doc>)
    ensures kept == Dedupe(Interleave(b, f))
  {
    var seen: set<string> := {};
    kept := [];
    ghost var visited: seq<Doc> := [];
    var n := if |b| >= |f| then |b| else |f|;
    for i := 0 to n
      invariant Interleave(b, f) == visited + Interleave(Drop(b, i), Drop(f, i))
      invariant kept == Dedupe(visited)
      invariant seen == ContentSet(kept)
    {
      InterleaveVisit(b, f, i, visited);
      seen, kept, visited := VisitRow(b, f, i, seen, kept, visited);
    }
    assert Drop(b, n) == [] && Drop(f, n) == [];
    assert visited + [] == visited;
  }

  /** One step of the merge loop: the documents at position `i` of each list, in that order. */
  lemma InterleaveVisit(b: seq<Doc>, f: seq<Doc>, i: nat, before: seq<Doc>)
    requires i < |b| || i < |f|
    requires Interleave(b, f) == before + Interleave(Drop(b, i), Drop(f, i))
    ensures var fromB := if i < |b| then [b[i]] else [];
      var fromF := if i < |f| then [f[i]] else [];
      Interleave(b, f) == ((before + fromB) + fromF) + Interleave(Drop(b, i + 1), Drop(f, i + 1))
  {
    InterleaveStep(b, f, i);
    var rest := Interleave(Drop(b, i + 1), Drop(f, i + 1));
    if i < |b| && i < |f| {
      Regroup(before, [b[i], f[i]], rest);
      Regroup(before, [b[i]], [f[i]]);
      Pair(b[i], f[i]);
    } else if i < |b| {
      Regroup(before, [b[i]], rest);
      assert before + [b[i]] + [] == before + [b[i]];
    } else {
      Regroup(before, [f[i]], rest);
      assert before + [] == before;
    }
  }

  /** One pass of the merge loop: the document at position `i` of each list, in that order. */
  method VisitRow(b: seq<Doc>, f: seq<Doc>, i: nat, seen: set<string>, kept: seq<Doc>,
                  ghost visited: seq<Doc>)
    returns (seen': set<string>, kept': seq<Doc>, ghost visited': seq<Doc>)
    requires kept == Dedupe(visited) && seen == ContentSet(kept)
    ensures visited' ==
      (visited + (if i < |b| then [b[i]] else [])) + (if i < |f| then [f[i]] else [])
    ensures kept' == Dedupe(visited') && seen' == ContentSet(kept')
  {
    seen', kept', visited' := seen, kept, visited;
    if i < |b| {
      seen', kept' := KeepNew(seen', kept', b[i], visited');
      visited' := visited' + [b[i]];
    }
    assert visited' == visited + (if i < |b| then [b[i]] else []);
    if i < |f| {
      seen', kept' := KeepNew(seen', kept', f[i], visited');
      visited' := visited' + [f[i]];
    }
  }

  /**
   * The body of the merge loops: a document whose text was not seen yet is kept
   * and its text marked as seen.
   */
  method KeepNew(seen: set<string>, kept: seq<Doc>, d: Doc, ghost visited: seq<Doc>)
    returns (seen': set<string>, kept': seq<Doc>)
    requires kept == Dedupe(visited) && seen == ContentSet(kept)
    ensures kept' == Dedupe(visited + [d]) && seen' == ContentSet(kept')
  {
    DedupeSnoc(visited, d);
    seen', kept' := seen, kept;
    if d.content !in seen {
      seen' := seen + {d.content};
      kept' := kept + [d];
    }
  }

  lemma Pair<T>(x: T, y: T)
    ensures [x] + [y] == [x, y]
  {
  }

  lemma Regroup<T>(xs: seq<T>, ys: seq<T>, zs: seq<T>)
    ensures xs + (ys + zs) == (xs + ys) + zs
  {
  }

  // ---------------------------------------------------------------------------
  // hybrid_search

  /** How many documents `hybrid_search` takes from each ranking, and returns. */
  const SearchCap: nat := 5

  /**
   * What `hybrid_search` returns for the two rankings: the first five of each,
   * visited alternately, first-seen texts kept, cut to five.
   */
  function Hybrid(b: seq<Doc>, f: seq<Doc>): seq<Doc>
  {
    Take(Dedupe(Interleave(Take(b, SearchCap), Take(f, SearchCap))), SearchCap)
  }

  /**
   * At most five documents, no two with the same text, each from the first five of
   * one ranking; there are as many as the distinct texts there, up to five.
   */
  lemma HybridSpec(b: seq<Doc>, f: seq<Doc>)
    ensures |Hybrid(b, f)| <= SearchCap
    ensures DistinctContents(Hybrid(b, f))
    ensures forall d :: d in Hybrid(b, f) ==> d in Take(b, SearchCap) || d in Take(f, SearchCap)
    ensures |Hybrid(b, f)| ==
      if |ContentSet(Take(b, SearchCap) + Take(f, SearchCap))| < SearchCap
      then |ContentSet(Take(b, SearchCap) + Take(f, SearchCap))| else SearchCap
  {
    var b5, f5 := Take(b, SearchCap), Take(f, SearchCap);
    var visit := Interleave(b5, f5);
    InterleaveMembers(b5, f5);
    DedupeSpec(visit);
    var kept := Dedupe(visit);
    forall d | d in Hybrid(b, f)
      ensures d in kept
    {
      var j :| 0 <= j < |Hybrid(b, f)| && Hybrid(b, f)[j] == d;
      assert kept[j] == d;
    }
  }

  /** The merge visits exactly the documents of the two lists, and so exactly their texts. */
  lemma InterleaveMembers(b: seq<Doc>, f: seq<Doc>)
    ensures forall d :: d in Interleave(b, f) <==> d in b || d in f
    ensures ContentSet(Interleave(b, f)) == ContentSet(b + f)
  {
    InterleavePermutes(b, f);
    assert forall d :: d in Interleave(b, f) <==> d in multiset(b) + multiset(f);
    assert forall d :: d in b + f <==> d in b || d in f;
  }

  /**
   * Rankings that share no text, and repeat none, come back alternating:
   * `b0, f0, b1, f1, ...`, cut to five.
   */
  lemma HybridDisjoint(b: seq<Doc>, f: seq<Doc>)
    requires DistinctContents(Take(b, SearchCap) + Take(f, SearchCap))
    ensures Hybrid(b, f) == Take(Interleave(Take(b, SearchCap), Take(f, SearchCap)), SearchCap)
  {
    InterleaveDistinct(Take(b, SearchCap), Take(f, SearchCap));
    DedupeDistinct(Interleave(Take(b, SearchCap), Take(f, SearchCap)));
  }

  /**
   * A text found in both rankings, or twice in one, is returned once, as the first
   * document with it in the visit order, when it is kept among the first five.
   */
  lemma HybridFirstSeen(b: seq<Doc>, f: seq<Doc>, i: int)
    requires 0 <= i < |Interleave(Take(b, SearchCap), Take(f, SearchCap))|
    requires var visit := Interleave(Take(b, SearchCap), Take(f, SearchCap));
      forall j :: 0 <= j < i ==> visit[j].content != visit[i].content
    ensures Interleave(Take(b, SearchCap), Take(f, SearchCap))[i]
      in Dedupe(Interleave(Take(b, SearchCap), Take(f, SearchCap)))
  {
    DedupeFirstSeen(Interleave(Take(b, SearchCap), Take(f, SearchCap)), i);
  }

  // ---------------------------------------------------------------------------
  // The context

  /** Nothing retrieved gives an empty context. */
  lemma ContextEmpty()
    ensures Context([]) == ""
  {
  }

  /**
   * The context splits back at its newlines into the retrieved texts, when there is
   * at least one and none of them holds a newline itself.
   */
  lemma ContextSplits(ds: seq<Doc>)
    requires ds != []
    requires forall i :: 0 <= i < |ds| ==> '\n' !in ds[i].content
    ensures SplitOn(Context(ds), '\n') == Contents(ds)
  {
    SplitJoinRoundTrip(Contents(ds), '\n');
  }
}
