/**
 * The selection steps of `RAGService.query` (rag_service.py): retrieved
 * chunks are deduplicated on their first 200 characters (the first
 * occurrence wins), ranked by score (lower is better), kept only within
 * twice the best score, and cut to the first `k`.
 */
module RagRanking {
  import opened Wrappers
  import opened Text

  /** A metadata value: Python `str` or `int` (the page number). */
  datatype MetaValue = MStr(s: string) | MInt(n: int)

  /** A LangChain `Document`: its text and its metadata dictionary. */
  datatype Chunk = Chunk(content: string, metadata: map<string, MetaValue>)

  /** One `(doc, score)` pair of a similarity search. */
  datatype Hit = Hit(chunk: Chunk, score: real)

  /** `doc.page_content[:200]`, the text the service hashes to spot duplicates. */
  function Key(h: Hit): (r: string)
    ensures |r| <= 200 && |r| <= |h.chunk.content| && r == h.chunk.content[..|r|]
    ensures |r| == 200 || r == h.chunk.content
  {
    var c := h.chunk.content;
    if |c| <= 200 then c else c[..200]
  }

  /** The keys of a list of hits. */
  function KeysOf(hs: seq<Hit>): (r: set<string>)
    ensures forall i | 0 <= i < |hs| :: Key(hs[i]) in r
  {
    if hs == [] then {} else KeysOf(hs[..|hs| - 1]) + {Key(hs[|hs| - 1])}
  }

  /** Appending a hit adds its key. */
  lemma KeysOfAppend(hs: seq<Hit>, h: Hit)
    ensures KeysOf(hs + [h]) == KeysOf(hs) + {Key(h)}
  {
    assert (hs + [h])[..|hs|] == hs;
  }

  /** Every key of the set belongs to some hit. */
  lemma {:induction false} KeyWitness(hs: seq<Hit>, k: string) returns (i: nat)
    requires k in KeysOf(hs)
    ensures i < |hs| && Key(hs[i]) == k
    decreases |hs|
  {
    if Key(hs[|hs| - 1]) == k {
      i := |hs| - 1;
    } else {
      i := KeyWitness(hs[..|hs| - 1], k);
    }
  }

  /** A key no hit has is not among the keys. */
  lemma {:induction false} NotInKeys(hs: seq<Hit>, k: string)
    requires forall j | 0 <= j < |hs| :: Key(hs[j]) != k
    ensures k !in KeysOf(hs)
    decreases |hs|
  {
    if hs != [] {
      NotInKeys(hs[..|hs| - 1], k);
    }
  }

  predicate UniqueKeys(hs: seq<Hit>) {
    forall i, j | 0 <= i < j < |hs| :: Key(hs[i]) != Key(hs[j])
  }

  /**
   * The deduplicated list: each hit in order, unless a hit with the same
   * key was kept before it.
   */
  function Dedup(hs: seq<Hit>): (r: seq<Hit>)
    ensures |r| <= |hs|
  {
    if hs == [] then []
    else
      var d := Dedup(hs[..|hs| - 1]);
      var h := hs[|hs| - 1];
      if Key(h) in KeysOf(d) then d else d + [h]
  }

  /** No two kept hits share a key, and every kept hit was retrieved. */
  lemma {:induction false} DedupUnique(hs: seq<Hit>)
    ensures UniqueKeys(Dedup(hs))
    ensures multiset(Dedup(hs)) <= multiset(hs)
    decreases |hs|
  {
    if hs != [] {
      var front := hs[..|hs| - 1];
      DedupUnique(front);
      var d := Dedup(front);
      var h := hs[|hs| - 1];
      assert hs == front + [h];
      if Key(h) !in KeysOf(d) {
        assert forall i | 0 <= i < |d| :: Key(d[i]) != Key(h);
      }
    }
  }

  /** Deduplication drops no key: every retrieved key is represented. */
  lemma {:induction false} DedupKeys(hs: seq<Hit>)
    ensures KeysOf(Dedup(hs)) == KeysOf(hs)
    decreases |hs|
  {
    if hs != [] {
      var d := Dedup(hs[..|hs| - 1]);
      DedupKeys(hs[..|hs| - 1]);
      var h := hs[|hs| - 1];
      if Key(h) !in KeysOf(d) {
        KeysOfAppend(d, h);
      }
    }
  }

  /** A hit whose key occurs at no earlier position is kept. */
  lemma {:induction false} DedupFirstWins(hs: seq<Hit>, i: nat)
    requires i < |hs| && forall j | 0 <= j < i :: Key(hs[j]) != Key(hs[i])
    ensures hs[i] in Dedup(hs)
    decreases |hs|
  {
    var front := hs[..|hs| - 1];
    if i == |hs| - 1 {
      DedupKeys(front);
      NotInKeys(front, Key(hs[i]));
    } else {
      DedupFirstWins(front, i);
      assert front[i] == hs[i];
    }
  }

  /**
   * A later hit with the key of an earlier first occurrence is dropped,
   * unless it is that very hit again.
   */
  lemma DedupLaterDropped(hs: seq<Hit>, j: nat, i: nat)
    requires j < i < |hs| && Key(hs[j]) == Key(hs[i]) && hs[j] != hs[i]
    requires forall m | 0 <= m < j :: Key(hs[m]) != Key(hs[j])
    ensures hs[i] !in Dedup(hs)
  {
    DedupFirstWins(hs, j);
    DedupUnique(hs);
  }

  /** The hits of every search, in query order; a failed search contributes nothing. */
  function Retrieved(queries: seq<string>, n: int, search: (string, int) -> Option<seq<Hit>>): (r: seq<Hit>)
    ensures queries == [] ==> r == []
  {
    if queries == [] then []
    else Retrieved(queries[..|queries| - 1], n, search) + search(queries[|queries| - 1], n).GetOr([])
  }

  /** One more hit: appended when its key is new. */
  lemma DedupStep(before: seq<Hit>, h: Hit)
    ensures Dedup(before + [h]) == if Key(h) in KeysOf(Dedup(before)) then Dedup(before) else Dedup(before) + [h]
    ensures KeysOf(Dedup(before + [h])) == KeysOf(Dedup(before)) + {Key(h)}
  {
    assert (before + [h])[..|before|] == before;
    var d := Dedup(before);
    KeysOfAppend(d, h);
  }

  lemma AppendNext<T>(a: seq<T>, b: seq<T>, i: nat)
    requires i < |b|
    ensures a + b[..i + 1] == (a + b[..i]) + [b[i]]
  {
    assert b[..i + 1] == b[..i] + [b[i]];
  }

  /** One more query: its hits follow those of the earlier queries. */
  lemma RetrievedStep(queries: seq<string>, q: nat, n: int, search: (string, int) -> Option<seq<Hit>>)
    requires q < |queries|
    ensures Retrieved(queries[..q + 1], n, search) == Retrieved(queries[..q], n, search) + search(queries[q], n).GetOr([])
  {
    assert queries[..q + 1][..q] == queries[..q];
  }

  /**
   * The inner loop of the search loop: the hits of one search are appended
   * in order, each unless its key was seen before.
   */
  method AppendUnseen(candidates: seq<Hit>, seen: set<string>, ghost before: seq<Hit>, hits: seq<Hit>)
    returns (candidates': seq<Hit>, seen': set<string>)
    requires candidates == Dedup(before) && seen == KeysOf(candidates)
    ensures candidates' == Dedup(before + hits) && seen' == KeysOf(candidates')
  {
    candidates', seen' := candidates, seen;
    assert before + hits[..0] == before;
    for h := 0 to |hits|
      invariant candidates' == Dedup(before + hits[..h])
      invariant seen' == KeysOf(candidates')
    {
      DedupStep(before + hits[..h], hits[h]);
      AppendNext(before, hits, h);
      var key := Key(hits[h]);
      if key !in seen' {
        seen' := seen' + {key};
        candidates' := candidates' + [hits[h]];
      }
    }
    assert hits[..|hits|] == hits;
  }

  /**
   * The search loop of `query`: every query is searched for `3 * k` hits
   * and a hit is appended unless its key was seen before, across all
   * queries. A search that fails contributes nothing.
   */
  method CollectCandidates(queries: seq<string>, k: int, search: (string, int) -> Option<seq<Hit>>)
    returns (candidates: seq<Hit>)
    ensures candidates == Dedup(Retrieved(queries, 3 * k, search))
  {
    var initialK := 3 * k;
    candidates := [];
    var seen: set<string> := {};
    for q := 0 to |queries|
      invariant candidates == Dedup(Retrieved(queries[..q], initialK, search))
      invariant seen == KeysOf(candidates)
    {
      var found := search(queries[q], initialK);
      ghost var before := Retrieved(queries[..q], initialK, search);
      RetrievedStep(queries, q, initialK, search);
      assert Retrieved(queries[..q + 1], initialK, search) == before + found.GetOr([]);
      if found.Some? {
        candidates, seen := AppendUnseen(candidates, seen, before, found.value);
      } else {
        assert before + found.GetOr([]) == before;
      }
      assert candidates == Dedup(Retrieved(queries[..q + 1], initialK, search));
    }
    assert queries[..|queries|] == queries;
  }

  predicate SortedByScore(hs: seq<Hit>) {
    forall i, j | 0 <= i < j < |hs| :: hs[i].score <= hs[j].score
  }

  /** Puts `h` into a ranked list, ahead of the hits with an equal or higher score. */
  function Insert(h: Hit, hs: seq<Hit>): (r: seq<Hit>)
    requires SortedByScore(hs)
    ensures |r| == |hs| + 1
    ensures forall x | x in r :: x == h || x in hs
    ensures SortedByScore(r)
    decreases |hs|, 1
  {
    if hs == [] || h.score <= hs[0].score then
      assert forall x | x in hs :: h.score <= x.score by {
        forall x | x in hs ensures h.score <= x.score {
          var i :| 0 <= i < |hs| && hs[i] == x;
          assert hs[0].score <= hs[i].score;
        }
      }
      [h] + hs
    else
      InsertTail(h, hs);
      [hs[0]] + Insert(h, hs[1..])
  }

  /** The step of `Insert` that passes over the head: the head stays ahead of the rest. */
  lemma InsertTail(h: Hit, hs: seq<Hit>)
    requires SortedByScore(hs) && hs != [] && hs[0].score < h.score
    ensures SortedByScore(hs[1..])
    ensures SortedByScore([hs[0]] + Insert(h, hs[1..]))
    decreases |hs|, 0
  {
    var rest := Insert(h, hs[1..]);
    forall x | x in rest ensures hs[0].score <= x.score {
      if x != h {
        var i :| 0 <= i < |hs[1..]| && hs[1..][i] == x;
        assert hs[0].score <= hs[i + 1].score;
      }
    }
  }

  /** `Insert` adds `h` and keeps every hit already there. */
  lemma {:induction false} InsertPermutes(h: Hit, hs: seq<Hit>)
    requires SortedByScore(hs)
    ensures multiset(Insert(h, hs)) == multiset(hs) + multiset{h}
    decreases |hs|
  {
    if hs != [] && hs[0].score < h.score {
      InsertPermutes(h, hs[1..]);
      assert hs == [hs[0]] + hs[1..];
    }
  }

  /** `list.sort(key=lambda x: x[1])`: ascending score, ties kept in their order. */
  function SortByScore(hs: seq<Hit>): (r: seq<Hit>)
    ensures SortedByScore(r)
  {
    if hs == [] then [] else Insert(hs[0], SortByScore(hs[1..]))
  }

  /** Ranking is a permutation of the candidates. */
  lemma {:induction false} SortPermutes(hs: seq<Hit>)
    ensures multiset(SortByScore(hs)) == multiset(hs)
    decreases |hs|
  {
    if hs != [] {
      SortPermutes(hs[1..]);
      InsertPermutes(hs[0], SortByScore(hs[1..]));
      assert hs == [hs[0]] + hs[1..];
    }
  }

  /** `[(d, s) for d, s in hs if s <= threshold]`. */
  function WithinThreshold(hs: seq<Hit>, threshold: real): (r: seq<Hit>)
    ensures |r| <= |hs|
    ensures forall x :: x in r <==> x in hs && x.score <= threshold
  {
    if hs == [] then []
    else
      assert hs == [hs[0]] + hs[1..];
      (if hs[0].score <= threshold then [hs[0]] else []) + WithinThreshold(hs[1..], threshold)
  }

  /** On a ranked list the filter keeps a prefix, so its result is ranked too. */
  lemma {:induction false} ThresholdKeepsPrefix(hs: seq<Hit>, threshold: real) returns (n: nat)
    requires SortedByScore(hs)
    ensures n <= |hs| && WithinThreshold(hs, threshold) == hs[..n]
    ensures SortedByScore(WithinThreshold(hs, threshold))
    decreases |hs|
  {
    if hs == [] {
      n := 0;
    } else if hs[0].score <= threshold {
      var m := ThresholdKeepsPrefix(hs[1..], threshold);
      n := m + 1;
      assert [hs[0]] + hs[1..][..m] == hs[..n];
    } else {
      n := 0;
      NoneWithin(hs, threshold);
    }
  }

  /** When every score is above the threshold nothing is kept. */
  lemma {:induction false} NoneWithin(hs: seq<Hit>, threshold: real)
    requires forall i | 0 <= i < |hs| :: hs[i].score > threshold
    ensures WithinThreshold(hs, threshold) == []
    decreases |hs|
  {
    if hs != [] {
      NoneWithin(hs[1..], threshold);
    }
  }

  /** The filter keeps a ranked list ranked. */
  lemma ThresholdSorted(hs: seq<Hit>, threshold: real)
    requires SortedByScore(hs)
    ensures SortedByScore(WithinThreshold(hs, threshold))
  {
    var n := ThresholdKeepsPrefix(hs, threshold);
  }

  /** `best_score * 2.0`: the cut-off relative to the best score. */
  function Threshold(best: real): (r: real)
    ensures best >= 0.0 ==> r >= best
    ensures best < 0.0 ==> r < best
  {
    best * 2.0
  }

  /**
   * The best hit survives the `2 * best` cut exactly when its score is not
   * negative; with a negative best score every hit is cut.
   */
  lemma BestSurvives(hs: seq<Hit>)
    requires hs != [] && SortedByScore(hs)
    ensures var r := WithinThreshold(hs, Threshold(hs[0].score));
      (r != [] <==> hs[0].score >= 0.0) && (r != [] ==> r[0] == hs[0])
  {
    var n := ThresholdKeepsPrefix(hs, Threshold(hs[0].score));
    if hs[0].score < 0.0 {
      NoneWithin(hs, Threshold(hs[0].score));
    } else {
      assert hs[0] in WithinThreshold(hs, Threshold(hs[0].score));
    }
  }

  /** Python's `s[:k]`: the first `k` elements, or all but the last `-k` when `k` is negative. */
  function Take<T>(s: seq<T>, k: int): (r: seq<T>)
    ensures |r| <= |s| && r == s[..|r|]
    ensures 0 <= k ==> |r| == if k < |s| then k else |s|
    ensures k < 0 ==> |r| == if |s| + k > 0 then |s| + k else 0
  {
    if 0 <= k then (if k < |s| then s[..k] else s)
    else if |s| + k > 0 then s[..|s| + k] else []
  }

  /** The hits `query` answers from: ranked, within twice the best score, at most `k`. */
  function Select(candidates: seq<Hit>, k: int): (r: seq<Hit>)
    requires candidates != []
    ensures |r| <= |Filtered(candidates)| && r == Filtered(candidates)[..|r|]
    ensures 0 <= k ==> |r| <= k
  {
    Take(Filtered(candidates), k)
  }

  /** The lowest score among the candidates. */
  predicate IsBest(candidates: seq<Hit>, score: real) {
    (exists i | 0 <= i < |candidates| :: candidates[i].score == score)
    && forall i | 0 <= i < |candidates| :: score <= candidates[i].score
  }

  /** The first ranked hit carries the best score. */
  lemma RankedFirstIsBest(candidates: seq<Hit>)
    requires candidates != []
    ensures IsBest(candidates, SortByScore(candidates)[0].score)
  {
    var ranked := SortByScore(candidates);
    SortPermutes(candidates);
    assert ranked[0] in multiset(candidates);
    var i :| 0 <= i < |candidates| && candidates[i] == ranked[0];
    forall j | 0 <= j < |candidates| ensures ranked[0].score <= candidates[j].score {
      assert candidates[j] in multiset(ranked);
      var m :| 0 <= m < |ranked| && ranked[m] == candidates[j];
    }
  }

  /** Ranking only reorders: the ranked list holds exactly the candidates. */
  lemma RankedMembers(candidates: seq<Hit>)
    ensures forall x :: x in SortByScore(candidates) <==> x in candidates
  {
    var ranked := SortByScore(candidates);
    SortPermutes(candidates);
    forall x ensures x in ranked <==> x in candidates {
      assert x in ranked <==> x in multiset(ranked);
      assert x in candidates <==> x in multiset(candidates);
    }
  }

  /** The hits kept by the `2 * best` cut on the ranked candidates. */
  function Filtered(candidates: seq<Hit>): (r: seq<Hit>)
    requires candidates != []
    ensures |r| <= |candidates|
    ensures forall x | x in r :: x in candidates
  {
    RankedMembers(candidates);
    SortPermutes(candidates);
    var ranked := SortByScore(candidates);
    assert |ranked| == |multiset(ranked)| == |multiset(candidates)| == |candidates|;
    WithinThreshold(ranked, Threshold(ranked[0].score))
  }

  /**
   * The cut keeps the ranking, keeps only candidates within twice the best
   * score, and keeps the best-ranked hit first when its score is not negative.
   */
  lemma FilteredProperties(candidates: seq<Hit>)
    requires candidates != []
    ensures var r := Filtered(candidates); var ranked := SortByScore(candidates);
      && SortedByScore(r)
      && (forall x | x in r :: x in candidates && x.score <= Threshold(ranked[0].score))
      && (ranked[0].score >= 0.0 ==> r != [] && r[0] == ranked[0])
  {
    var ranked := SortByScore(candidates);
    ThresholdSorted(ranked, Threshold(ranked[0].score));
    BestSurvives(ranked);
    RankedMembers(candidates);
  }

  /**
   * What the answer is built from: at most `k` hits, every one a candidate
   * within twice the best score, in ascending score order; with a
   * non-negative best score and `k > 0`, the best-ranked hit is among them.
   */
  lemma SelectProperties(candidates: seq<Hit>, k: int)
    requires candidates != []
    ensures var top := Select(candidates, k); var best := SortByScore(candidates)[0].score;
      && IsBest(candidates, best)
      && top == Filtered(candidates)[..|top|]
      && (0 <= k ==> |top| <= k)
      && SortedByScore(top)
      && (forall x | x in top :: x in candidates && x.score <= Threshold(best))
      && (best >= 0.0 && k > 0 ==> |top| > 0 && top[0] == SortByScore(candidates)[0])
  {
    RankedFirstIsBest(candidates);
    FilteredProperties(candidates);
    var ranked := SortByScore(candidates);
    var f := Filtered(candidates);
    var top := Select(candidates, k);
    assert top == f[..|top|];
    PrefixSorted(f, |top|);
    forall x | x in top ensures x in candidates && x.score <= Threshold(ranked[0].score) {
      assert x in f;
    }
    if ranked[0].score >= 0.0 && k > 0 {
      assert |top| > 0 && top[0] == f[0];
    }
  }

  /** A prefix of a ranked list is ranked. */
  lemma PrefixSorted(hs: seq<Hit>, n: nat)
    requires SortedByScore(hs) && n <= |hs|
    ensures SortedByScore(hs[..n])
  {
    forall i, j | 0 <= i < j < n ensures hs[..n][i].score <= hs[..n][j].score {
      assert hs[..n][i] == hs[i] && hs[..n][j] == hs[j];
    }
  }
}
