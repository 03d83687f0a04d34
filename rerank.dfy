/**
 * The second retrieval stage: send the candidate pool to the rerank service and fuse its
 * answer back into records, or fall back to coarse-score order when no answer comes.
 */
module Rerank {
  import opened Wrappers
  import opened Records

  /**
   * The rerank service: for a query, the documents and `top_n`, (document index, relevance)
   * pairs. A transport error, a non-200 status or an unreadable body all yield [].
   */
  type RerankService = (string, seq<Value>, int) -> seq<Hit>

  /** `QwenReranker.rerank`: no documents gives [] without calling the service. */
  function RerankCall(service: RerankService, query: string, docs: seq<Value>, topN: int): (ranked: seq<Hit>)
    ensures docs == [] ==> ranked == []
    ensures docs != [] ==> ranked == service(query, docs, topN)
  {
    if docs == [] then [] else service(query, docs, topN)
  }

  /** The service keeps its promise to answer at most `top_n` pairs. */
  ghost predicate HonoursTopN(service: RerankService) {
    forall q, d, n :: |service(q, d, n)| <= if n < 0 then 0 else n
  }

  /** Python's `s[:k]`: the first k items, or for negative k all but the last -k. */
  function PyPrefix<T>(s: seq<T>, k: int): (p: seq<T>)
    ensures p <= s
    ensures k >= 0 ==> |p| == if k < |s| then k else |s|
    ensures k < 0 ==> |p| == if |s| + k > 0 then |s| + k else 0
  {
    if k >= 0 then (if k < |s| then s[..k] else s)
    else if |s| + k > 0 then s[..|s| + k]
    else []
  }

  /** `[c.get(text_field, "") for c in candidates]`: the documents sent for reranking. */
  function Docs(candidates: seq<Record>, textField: string): (docs: seq<Value>)
    ensures |docs| == |candidates|
    ensures forall i :: 0 <= i < |docs| ==>
      (textField in candidates[i] ==> docs[i] == candidates[i][textField])
      && (textField !in candidates[i] ==> docs[i] == Str(""))
  {
    seq(|candidates|, i requires 0 <= i < |candidates| => Get(candidates[i], textField, Str("")))
  }

  // ---------------------------------------------------------------------------------------
  // The fallback order: `candidates.sort(key=lambda x: x.get("score", 0), reverse=True)`.
  // Python's sort is stable, also with reverse=True; it is given here as an insertion sort.

  /** Scores descend along `s`. */
  predicate SortedDesc(s: seq<Record>) {
    forall i, j :: 0 <= i < j < |s| ==> ScoreOf(s[i]) >= ScoreOf(s[j])
  }

  /** Insert `x` before the first record whose score is not above its own. */
  function InsertByScore(x: Record, s: seq<Record>): (r: seq<Record>)
    ensures |r| == |s| + 1
    ensures multiset(r) == multiset(s) + multiset{x}
  {
    if s == [] then [x]
    else if ScoreOf(x) >= ScoreOf(s[0]) then [x] + s
    else
      assert s == [s[0]] + s[1..];
      [s[0]] + InsertByScore(x, s[1..])
  }

  /** The records of `s` in descending score order, equal scores keeping their order. */
  function SortByScore(s: seq<Record>): (r: seq<Record>)
    ensures |r| == |s|
    ensures multiset(r) == multiset(s)
  {
    if s == [] then []
    else
      assert s == [s[0]] + s[1..];
      InsertByScore(s[0], SortByScore(s[1..]))
  }

  /** The records of `s` whose score is `v`, in order. */
  function WithScoreValue(s: seq<Record>, v: real): seq<Record> {
    if s == [] then []
    else (if ScoreOf(s[0]) == v then [s[0]] else []) + WithScoreValue(s[1..], v)
  }

  lemma {:induction false} InsertSorted(x: Record, s: seq<Record>)
    requires SortedDesc(s)
    ensures SortedDesc(InsertByScore(x, s))
    ensures InsertByScore(x, s) != [] && (s != [] ==>
      InsertByScore(x, s)[0] == x || InsertByScore(x, s)[0] == s[0])
  {
    if s == [] {
    } else if ScoreOf(x) < ScoreOf(s[0]) {
      var t := InsertByScore(x, s[1..]);
      assert InsertByScore(x, s) == [s[0]] + t;
      DropFirstSorted(s);
      InsertSorted(x, s[1..]);
      PrependSorted(s[0], t);
    } else {
      assert InsertByScore(x, s) == [x] + s;
      PrependSorted(x, s);
    }
  }

  /** A record put in front of a descending list whose head it does not score below keeps it descending. */
  lemma PrependSorted(h: Record, t: seq<Record>)
    requires SortedDesc(t) && (t != [] ==> ScoreOf(h) >= ScoreOf(t[0]))
    ensures SortedDesc([h] + t)
  {
    var u := [h] + t;
    forall i, j | 0 <= i < j < |u| ensures ScoreOf(u[i]) >= ScoreOf(u[j]) {
      assert u[j] == t[j - 1];
      if i > 0 {
        assert u[i] == t[i - 1];
      } else if j > 1 {
        assert ScoreOf(t[0]) >= ScoreOf(t[j - 1]);
      }
    }
  }

  /** A descending list stays descending without its first record. */
  lemma DropFirstSorted(s: seq<Record>)
    requires s != [] && SortedDesc(s)
    ensures SortedDesc(s[1..])
  {
    var rest := s[1..];
    forall i, j | 0 <= i < j < |rest| ensures ScoreOf(rest[i]) >= ScoreOf(rest[j]) {
      assert rest[i] == s[i + 1] && rest[j] == s[j + 1];
    }
  }

  /** The fallback order is sorted by descending score. */
  lemma {:induction false} SortSorted(s: seq<Record>)
    ensures SortedDesc(SortByScore(s))
  {
    if s != [] {
      SortSorted(s[1..]);
      InsertSorted(s[0], SortByScore(s[1..]));
    }
  }

  /** Selecting the records of one score distributes over concatenation. */
  lemma {:induction false} WithScoreValueAppend(a: seq<Record>, b: seq<Record>, v: real)
    ensures WithScoreValue(a + b, v) == WithScoreValue(a, v) + WithScoreValue(b, v)
  {
    if a != [] {
      WithScoreValueAppend(a[1..], b, v);
      assert (a + b)[1..] == a[1..] + b;
    } else {
      assert a + b == b;
    }
  }

  /**
   * Inserting `x` puts it after exactly the records that score above it, so among the records
   * of any one score it comes first and the others keep their order.
   */
  lemma {:induction false} InsertStable(x: Record, s: seq<Record>, v: real)
    ensures WithScoreValue(InsertByScore(x, s), v)
      == (if ScoreOf(x) == v then [x] else []) + WithScoreValue(s, v)
  {
    if s == [] || ScoreOf(x) >= ScoreOf(s[0]) {
      assert InsertByScore(x, s) == [x] + s;
      WithScoreValueOne(x, v);
      WithScoreValueAppend([x], s, v);
    } else {
      InsertStable(x, s[1..], v);
      assert InsertByScore(x, s) == [s[0]] + InsertByScore(x, s[1..]);
      assert s == [s[0]] + s[1..];
      PassHigher(x, s[0], InsertByScore(x, s[1..]), s[1..], v);
    }
  }

  /**
   * A record `y` scoring above `x` may stand in front of it: if `t` selects like `x` followed
   * by `rest`, then `[y] + t` selects like `x` followed by `[y] + rest`.
   */
  lemma PassHigher(x: Record, y: Record, t: seq<Record>, rest: seq<Record>, v: real)
    requires ScoreOf(x) < ScoreOf(y)
    requires WithScoreValue(t, v) == (if ScoreOf(x) == v then [x] else []) + WithScoreValue(rest, v)
    ensures WithScoreValue([y] + t, v)
      == (if ScoreOf(x) == v then [x] else []) + WithScoreValue([y] + rest, v)
  {
    var mine := if ScoreOf(x) == v then [x] else [];
    var head := WithScoreValue([y], v);
    var w := WithScoreValue(rest, v);
    WithScoreValueAppend([y], t, v);
    WithScoreValueAppend([y], rest, v);
    WithScoreValueOne(y, v);
    if ScoreOf(x) == v {
      assert head == [];
      assert head + (mine + w) == mine + w == mine + (head + w);
    } else {
      assert head + (mine + w) == head + w == mine + (head + w);
    }
  }

  lemma WithScoreValueOne(r: Record, v: real)
    ensures WithScoreValue([r], v) == if ScoreOf(r) == v then [r] else []
  {
    assert [r][1..] == [];
    assert [r][0] == r;
  }

  /** The fallback order is stable: records of equal score keep their relative order. */
  lemma {:induction false} SortStable(s: seq<Record>, v: real)
    ensures WithScoreValue(SortByScore(s), v) == WithScoreValue(s, v)
  {
    if s != [] {
      SortStable(s[1..], v);
      SortSorted(s[1..]);
      InsertStable(s[0], SortByScore(s[1..]), v);
    }
  }

  /**
   * A pool already in descending score order, as the vector index returns it, is left as it
   * is: the fallback reproduces the coarse order.
   */
  lemma {:induction false} SortKeepsSorted(s: seq<Record>)
    requires SortedDesc(s)
    ensures SortByScore(s) == s
  {
    if s != [] {
      DropFirstSorted(s);
      SortKeepsSorted(s[1..]);
      assert SortByScore(s) == InsertByScore(s[0], s[1..]);
      if |s| > 1 {
        assert ScoreOf(s[0]) >= ScoreOf(s[1..][0]);
      }
      assert [s[0]] + s[1..] == s;
    }
  }

  // ---------------------------------------------------------------------------------------
  // Fusion.

  /** What `candidates[idx]` raises for an index below `-len(candidates)`. */
  const IndexError := Raised("IndexError")

  /**
   * The fusion loop as the source writes it: a pair is dropped only when `idx >= len`. A
   * negative index is a Python index from the end: -1 picks the last candidate, and one below
   * `-len` raises IndexError.
   */
  function FuseAsWritten(candidates: seq<Record>, ranked: seq<Hit>): (r: Result<seq<Record>, Error>)
    ensures r.Success? ==> |r.value| <= |ranked|
    ensures r.Failure? ==> r.error == IndexError
  {
    if ranked == [] then Success([])
    else
      var last := |ranked| - 1;
      var h := ranked[last];
      match FuseAsWritten(candidates, ranked[..last])
      case Failure(e) => Failure(e)
      case Success(out) =>
        if h.pos >= |candidates| then Success(out)
        else if h.pos >= 0 then Success(out + [WithScore(candidates[h.pos], "_rerank_score", h.score)])
        else if h.pos >= -|candidates| then
          Success(out + [WithScore(candidates[|candidates| + h.pos], "_rerank_score", h.score)])
        else Failure(IndexError)
  }

  /** The pairs with Python's negative indexing resolved against `n` candidates: -1 is the last. */
  function Wrapped(ranked: seq<Hit>, n: nat): (w: seq<Hit>)
    ensures |w| == |ranked|
    ensures forall k :: 0 <= k < |w| ==> w[k].score == ranked[k].score
    ensures forall k :: 0 <= k < |w| ==> w[k].pos == if ranked[k].pos < 0 then n + ranked[k].pos else ranked[k].pos
  {
    seq(|ranked|, k requires 0 <= k < |ranked| =>
      if ranked[k].pos < 0 then Hit(n + ranked[k].pos, ranked[k].score) else ranked[k])
  }

  /** Some pair's index lies below `-n`, where indexing `n` candidates raises. */
  predicate Raises(ranked: seq<Hit>, n: nat) {
    exists k :: 0 <= k < |ranked| && ranked[k].pos + n < 0
  }

  /**
   * The fusion loop as written raises exactly when some index lies below `-len`, and otherwise
   * keeps, in the service's order, every pair whose index, read from the end when negative,
   * addresses a candidate.
   */
  lemma {:induction false} FuseAsWrittenWraps(candidates: seq<Record>, ranked: seq<Hit>)
    ensures FuseAsWritten(candidates, ranked).Failure? <==> Raises(ranked, |candidates|)
    ensures FuseAsWritten(candidates, ranked).Success? ==>
      FuseAsWritten(candidates, ranked).value == Gather(candidates, Wrapped(ranked, |candidates|), "_rerank_score")
  {
    var n := |candidates|;
    if ranked != [] {
      var last := |ranked| - 1;
      var init := ranked[..last];
      var h := ranked[last];
      FuseAsWrittenWraps(candidates, init);
      RaisesLast(ranked, n);
      assert Wrapped(ranked, n)[..last] == Wrapped(init, n);
      var w := Wrapped(ranked, n)[last];
      assert Gather(candidates, Wrapped(ranked, n), "_rerank_score") ==
        Gather(candidates, Wrapped(init, n), "_rerank_score")
        + (if InRange(w, n) then [WithScore(candidates[w.pos], "_rerank_score", w.score)] else []);
    }
  }

  /** An answer raises when its front raises or its last index lies below `-n`. */
  lemma RaisesLast(ranked: seq<Hit>, n: nat)
    requires ranked != []
    ensures Raises(ranked, n) <==> Raises(ranked[..|ranked| - 1], n) || ranked[|ranked| - 1].pos + n < 0
  {
    var last := |ranked| - 1;
    var init := ranked[..last];
    if Raises(init, n) {
      var k :| 0 <= k < |init| && init[k].pos + n < 0;
      assert ranked[k] == init[k];
    }
    if !Raises(init, n) {
      forall i | 0 <= i < last ensures ranked[i].pos + n >= 0 {
        assert ranked[i] == init[i];
      }
    }
  }

  /** On every answer whose indices are not negative, the source's loop does what Gather does. */
  lemma {:induction false} FuseAsWrittenAgrees(candidates: seq<Record>, ranked: seq<Hit>)
    requires forall k :: 0 <= k < |ranked| ==> ranked[k].pos >= 0
    ensures FuseAsWritten(candidates, ranked) == Success(Gather(candidates, ranked, "_rerank_score"))
  {
    FuseAsWrittenWraps(candidates, ranked);
    assert Wrapped(ranked, |candidates|) == ranked;
  }

  /**
   * A negative index from the service is not dropped: -1 fuses in the last candidate, where
   * the corrected loop drops it; and -3 on two candidates raises IndexError.
   */
  lemma NegativeIndexWraps(a: Record, b: Record)
    ensures FuseAsWritten([a, b], [Hit(-1, 0.5)]) == Success([WithScore(b, "_rerank_score", 0.5)])
    ensures Gather([a, b], [Hit(-1, 0.5)], "_rerank_score") == []
    ensures FuseAsWritten([a, b], [Hit(-3, 0.5)]) == Failure(IndexError)
  {
    assert [Hit(-1, 0.5)][..0] == [];
    assert [Hit(-3, 0.5)][..0] == [];
    assert FuseAsWritten([a, b], []) == Success([]);
    assert Gather([a, b], [], "_rerank_score") == [];
    assert [a, b][2 + -1] == b;
    assert [] + [WithScore(b, "_rerank_score", 0.5)] == [WithScore(b, "_rerank_score", 0.5)];
  }

  // ---------------------------------------------------------------------------------------
  // The whole stage.

  /** The rerank answer for a pool, when a reranker is configured. */
  function Ranked(service: RerankService, query: string, candidates: seq<Record>, textField: string, topK: int): seq<Hit> {
    RerankCall(service, query, Docs(candidates, textField), topK)
  }

  /** Whether the stage ends in the fallback branch, which sorts the pool in place. */
  predicate FallsBack(query: string, candidates: seq<Record>, textField: string, topK: int, reranker: Option<RerankService>) {
    candidates != [] && reranker.Some? && Ranked(reranker.value, query, candidates, textField, topK) == []
  }

  /** What `_apply_rerank` returns for a pool, or the IndexError its fusion loop raises. */
  function Reranked(query: string, candidates: seq<Record>, textField: string, topK: int, reranker: Option<RerankService>): (r: Result<seq<Record>, Error>)
    ensures r.Failure? ==> r.error == IndexError
    ensures r.Failure? ==> candidates != [] && reranker.Some?
  {
    if candidates == [] then Success([])
    else if reranker.None? then Success(PyPrefix(candidates, topK))
    else
      var ranked := Ranked(reranker.value, query, candidates, textField, topK);
      if ranked == [] then Success(PyPrefix(SortByScore(candidates), topK))
      else FuseAsWritten(candidates, ranked)
  }

  /**
   * The length promise `len(result) <= top_k`, for a non-negative `top_k`. The fusion branch
   * does not truncate, so there it holds only when the service answered at most `top_n`
   * pairs.
   */
  lemma RerankedBound(query: string, candidates: seq<Record>, textField: string, topK: int, reranker: Option<RerankService>)
    requires topK >= 0
    requires reranker.Some? ==> |Ranked(reranker.value, query, candidates, textField, topK)| <= topK
    ensures Reranked(query, candidates, textField, topK, reranker).Success? ==>
      |Reranked(query, candidates, textField, topK, reranker).value| <= topK
  {
  }

  /** A prefix of the sorted pool is sorted and holds only pool records. */
  lemma SortedPrefix(candidates: seq<Record>, topK: int)
    ensures SortedDesc(PyPrefix(SortByScore(candidates), topK))
    ensures forall x :: x in PyPrefix(SortByScore(candidates), topK) ==> x in candidates
  {
    var sorted := SortByScore(candidates);
    SortSorted(candidates);
    forall x | x in PyPrefix(sorted, topK) ensures x in candidates {
      assert x in multiset(sorted);
    }
  }

  /** Stability survives the cut: per score, a prefix of the pool's records of that score. */
  lemma SortedPrefixStable(candidates: seq<Record>, topK: int, v: real)
    ensures WithScoreValue(PyPrefix(SortByScore(candidates), topK), v) <= WithScoreValue(candidates, v)
  {
    var sorted := SortByScore(candidates);
    var r := PyPrefix(sorted, topK);
    SortStable(candidates, v);
    assert sorted == r + sorted[|r|..];
    WithScoreValueAppend(r, sorted[|r|..], v);
  }

  /**
   * The fallback: when the service gives no answer the result is the pool in descending
   * score order, equal scores in pool order, cut to `top_k`; a pool that is already in
   * descending order, as a search returns it, comes back as its own prefix.
   */
  lemma FallbackOrder(query: string, candidates: seq<Record>, textField: string, topK: int, reranker: Option<RerankService>)
    requires FallsBack(query, candidates, textField, topK, reranker)
    ensures Reranked(query, candidates, textField, topK, reranker).Success?
    ensures var r := Reranked(query, candidates, textField, topK, reranker).value;
      && SortedDesc(r)
      && r <= SortByScore(candidates)
      && (topK >= 0 ==> |r| == (if topK < |candidates| then topK else |candidates|))
      && (forall x :: x in r ==> x in candidates)
      && (forall v :: WithScoreValue(r, v) <= WithScoreValue(candidates, v))
      && (SortedDesc(candidates) ==> r == PyPrefix(candidates, topK))
  {
    assert Reranked(query, candidates, textField, topK, reranker) == Success(PyPrefix(SortByScore(candidates), topK));
    SortedPrefix(candidates, topK);
    forall v ensures WithScoreValue(PyPrefix(SortByScore(candidates), topK), v) <= WithScoreValue(candidates, v) {
      SortedPrefixStable(candidates, topK, v);
    }
    if SortedDesc(candidates) {
      SortKeepsSorted(candidates);
    }
  }

  /**
   * Fusion: when the service answers, the stage raises IndexError exactly when some index lies
   * below `-len(candidates)`. Otherwise the result follows the service's order exactly: output
   * `j` comes from the j-th pair whose index, read from the end when negative, addresses the
   * pool, and is that candidate with the pair's score as "_rerank_score"; pairs with an index
   * at or past the end are dropped.
   */
  lemma FusionOrder(query: string, candidates: seq<Record>, textField: string, topK: int, reranker: Option<RerankService>)
    requires candidates != [] && reranker.Some?
    requires Ranked(reranker.value, query, candidates, textField, topK) != []
    ensures var ranked := Ranked(reranker.value, query, candidates, textField, topK);
      var r := Reranked(query, candidates, textField, topK, reranker);
      && (r.Failure? <==> Raises(ranked, |candidates|))
      && (r.Failure? ==> r.error == IndexError)
      && (r.Success? ==>
        var w := Wrapped(ranked, |candidates|);
        var ks := Kept(w, |candidates|);
        && |r.value| == |ks| <= |ranked|
        && forall j :: 0 <= j < |ks| ==>
             0 <= w[ks[j]].pos < |candidates|
             && r.value[j] == WithScore(candidates[w[ks[j]].pos], "_rerank_score", ranked[ks[j]].score))
  {
    var ranked := Ranked(reranker.value, query, candidates, textField, topK);
    FuseAsWrittenWraps(candidates, ranked);
    GatherAt(candidates, Wrapped(ranked, |candidates|), "_rerank_score");
  }

  /**
   * A pool of five candidates and the answer [(3, 0.9), (0, 0.5)] for `top_k` = 2 give
   * candidate 3 with rerank score 0.9, then candidate 0 with rerank score 0.5.
   */
  lemma FusionExample(query: string, candidates: seq<Record>, textField: string, service: RerankService)
    requires |candidates| == 5
    requires Ranked(service, query, candidates, textField, 2) == [Hit(3, 0.9), Hit(0, 0.5)]
    ensures Reranked(query, candidates, textField, 2, Some(service)) ==
      Success([WithScore(candidates[3], "_rerank_score", 0.9), WithScore(candidates[0], "_rerank_score", 0.5)])
  {
    var ranked := [Hit(3, 0.9), Hit(0, 0.5)];
    assert Reranked(query, candidates, textField, 2, Some(service)) == FuseAsWritten(candidates, ranked);
    FuseAsWrittenAgrees(candidates, ranked);
    GatherAllInRange(candidates, ranked, "_rerank_score");
    var g := Gather(candidates, ranked, "_rerank_score");
    assert g == [g[0], g[1]];
  }

  /** Every record the stage returns keeps the numeric "score" its candidate had. */
  lemma RerankedScoresNumeric(query: string, candidates: seq<Record>, textField: string, topK: int, reranker: Option<RerankService>)
    requires forall i :: 0 <= i < |candidates| ==> HasNumericScore(candidates[i])
    ensures var r := Reranked(query, candidates, textField, topK, reranker);
      r.Success? ==> forall j :: 0 <= j < |r.value| ==> HasNumericScore(r.value[j])
  {
    if candidates != [] && reranker.Some? {
      var ranked := Ranked(reranker.value, query, candidates, textField, topK);
      if ranked == [] {
        var sorted := SortByScore(candidates);
        forall j | 0 <= j < |sorted| ensures HasNumericScore(sorted[j]) {
          assert sorted[j] in multiset(candidates);
        }
      } else {
        FuseAsWrittenWraps(candidates, ranked);
        GatherScoresNumeric(candidates, Wrapped(ranked, |candidates|), "_rerank_score");
      }
    }
  }

  /**
   * `_apply_rerank`: rerank the pool `candidates`, asking for `topK` results. The fallback
   * branch sorts the caller's list in place before taking its prefix; the other branches
   * leave it as it was.
   */
  method ApplyRerank(query: string, candidates: array<Record>, textField: string, topK: int, reranker: Option<RerankService>)
    returns (out: Result<seq<Record>, Error>)
    modifies candidates
    ensures out == Reranked(query, old(candidates[..]), textField, topK, reranker)
    ensures candidates[..] ==
      if FallsBack(query, old(candidates[..]), textField, topK, reranker)
      then SortByScore(old(candidates[..])) else old(candidates[..])
  {
    if candidates.Length == 0 {
      return Success([]);
    }
    if reranker.None? {
      return Success(PyPrefix(candidates[..], topK));
    }
    var docs := Docs(candidates[..], textField);
    var ranked := RerankCall(reranker.value, query, docs, topK);

    if ranked == [] {
      SortInPlace(candidates);
      return Success(PyPrefix(candidates[..], topK));
    }
    out := Fuse(candidates, ranked);
  }

  /**
   * `list.sort(key=lambda x: x.get("score", 0), reverse=True)` on the pool: the list's items
   * are replaced, slot by slot, by their stable descending order.
   */
  method SortInPlace(candidates: array<Record>)
    modifies candidates
    ensures candidates[..] == SortByScore(old(candidates[..]))
  {
    var sorted := SortByScore(candidates[..]);
    for i := 0 to candidates.Length
      invariant candidates[..i] == sorted[..i]
      invariant candidates[i..] == old(candidates[..])[i..]
    {
      candidates[i] := sorted[i];
    }
  }

  /**
   * The fusion loop of `_apply_rerank`: for each (index, score) pair in the service's order,
   * a copy of `candidates[idx]` with "_rerank_score" set, unless `idx >= len(candidates)`.
   * A negative index counts from the end; one below `-len` raises IndexError.
   */
  method Fuse(candidates: array<Record>, ranked: seq<Hit>) returns (r: Result<seq<Record>, Error>)
    ensures r == FuseAsWritten(candidates[..], ranked)
  {
    var finalResults := [];
    for j := 0 to |ranked|
      invariant FuseAsWritten(candidates[..], ranked[..j]) == Success(finalResults)
    {
      assert ranked[..j + 1][..j] == ranked[..j];
      var h := ranked[j];
      if h.pos < candidates.Length {
        if h.pos < -candidates.Length {
          FuseAsWrittenWraps(candidates[..], ranked);
          assert ranked[j].pos + candidates.Length < 0;
          return Failure(IndexError);
        }
        var item := candidates[if h.pos >= 0 then h.pos else candidates.Length + h.pos];
        item := item["_rerank_score" := Num(h.score)];
        finalResults := finalResults + [item];
      }
    }
    assert ranked[..|ranked|] == ranked;
    return Success(finalResults);
  }

  /**
   * The fusion loop as evidently intended: only pairs whose index lies in
   * `[0, len(candidates))` are fused, the same test the index search applies.
   */
  method FuseInRange(candidates: array<Record>, ranked: seq<Hit>) returns (finalResults: seq<Record>)
    ensures finalResults == Gather(candidates[..], ranked, "_rerank_score")
    ensures |finalResults| <= |ranked|
  {
    finalResults := [];
    for j := 0 to |ranked|
      invariant finalResults == Gather(candidates[..], ranked[..j], "_rerank_score")
    {
      assert ranked[..j + 1][..j] == ranked[..j];
      var h := ranked[j];
      if 0 <= h.pos && h.pos < candidates.Length {
        var item := candidates[h.pos];
        item := item["_rerank_score" := Num(h.score)];
        finalResults := finalResults + [item];
      }
    }
    assert ranked[..|ranked|] == ranked;
  }
}
