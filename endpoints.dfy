/**
 * The three search endpoints: check that the services they need are loaded, pick the index
 * for the requested scope, embed the query, overfetch a candidate pool from the index,
 * rerank it and format the items of the response.
 */
module Endpoints {
  import opened Wrappers
  import opened Records
  import Embedder
  import VectorIndex
  import Rerank
  import Format

  /** What the service holds once started: the loaded clients and indexes, never changed afterwards. */
  datatype Services = Services(
    embedder: Option<Embedder.EmbedService>,
    reranker: Option<Rerank.RerankService>,
    matchIndexes: map<int, VectorIndex.BaseIndex>,
    replyIndexes: map<int, VectorIndex.BaseIndex>,
    imageIndex: Option<VectorIndex.BaseIndex>)

  /** The body of a match or reply search request. */
  datatype SearchRequest = SearchRequest(query: string, topK: int, scope: int)

  /** The body of a scene search request. */
  datatype SceneSearchRequest = SceneSearchRequest(query: string, topK: int)

  /** Candidate pool size per requested result for line searches. */
  const TextOverfetch := 5

  /** Candidate pool size per requested result for scene searches. */
  const SceneOverfetch := 2

  /** What a formatter raising becomes: an exception escaping the handler. */
  const FormatError := Raised("AttributeError or TypeError")

  /**
   * `indexes.get(scope, indexes.get(1))`: the index of the requested scope when it is loaded,
   * else the index of scope 1, else none.
   */
  function ResolveScope<T>(indexes: map<int, T>, scope: int): (idx: Option<T>)
    ensures idx.Some? <==> scope in indexes || 1 in indexes
    ensures idx.Some? ==> idx.value == indexes[if scope in indexes then scope else 1]
  {
    if scope in indexes then Some(indexes[scope])
    else if 1 in indexes then Some(indexes[1])
    else None
  }

  /** `encode_queries([query])`: one batch, which completes alone. */
  method EncodeQuery(embed: Embedder.EmbedService, query: string) returns (r: Embedder.EmbedOutcome)
    ensures r == Embedder.EmbedInOrder(Embedder.Plan([query]), embed)
    ensures r == embed([query])
  {
    var plan := Embedder.Plan([query]);
    assert |plan| == 1 && plan[0] == (0, [query]) by {
      assert [query][0..Embedder.Min(Embedder.BatchSize, 1)] == [query];
    }
    assert plan[..0] == [];
    var calls;
    r, calls := Embedder.EmbedBatched([query], embed, [0]);
    match embed([query]) {
      case Success(rows) => assert [] + rows == rows;
      case Failure(_) =>
    }
  }

  /** The pool a search list becomes: a Python list the rerank stage may sort in place. */
  method ToPool(candidates: seq<Record>) returns (pool: array<Record>)
    ensures fresh(pool) && pool[..] == candidates
  {
    pool := new Record[|candidates|](i requires 0 <= i < |candidates| => candidates[i]);
  }

  /** The records a line search ranks for a query vector: overfetch, then rerank. */
  function LineResults(app: Services, idx: VectorIndex.BaseIndex, req: SearchRequest, q: seq<Embedder.Vector>, textField: string): Result<seq<Record>, Error>
    reads idx
  {
    var pool := Gather(idx.meta, idx.engine(q, req.topK * TextOverfetch), "score");
    Rerank.Reranked(req.query, pool, textField, req.topK, app.reranker)
  }

  /**
   * `search_match`: a missing embedder is an error 500, a scope with no index (and no scope
   * 1 to fall back to) an empty result; otherwise the items for the reranked pool of
   * `top_k * 5` coarse candidates, one per record, in order.
   */
  method SearchMatch(app: Services, req: SearchRequest) returns (resp: Result<seq<Format.SubtitleResult>, Error>)
    ensures app.embedder.None? ==> resp == Failure(HttpError(500, "Embedder not initialized"))
    ensures app.embedder.Some? && ResolveScope(app.matchIndexes, req.scope).None? ==> resp == Success([])
    ensures app.embedder.Some? && ResolveScope(app.matchIndexes, req.scope).Some? ==>
      var q := Embedder.EmbedInOrder(Embedder.Plan([req.query]), app.embedder.value);
      (q.Failure? ==> resp == Failure(EmbedFailed(q.error)))
      && (q.Success? ==>
        var rr := LineResults(app, ResolveScope(app.matchIndexes, req.scope).value, req, q.value, "text");
        (rr.Failure? ==> resp == Failure(Rerank.IndexError))
        && (rr.Success? ==>
          var results := rr.value;
          (resp.Success? <==> forall i :: 0 <= i < |results| ==> Format.FormatSubtitle(results[i]).Some?)
          && (resp.Success? ==>
                |resp.value| == |results| && forall i :: 0 <= i < |results| ==> Format.FormatSubtitle(results[i]) == Some(resp.value[i]))
          && (resp.Failure? ==> resp.error == FormatError)))
    ensures resp.Success? && req.topK >= 0 && (app.reranker.Some? ==> Rerank.HonoursTopN(app.reranker.value)) ==>
      |resp.value| <= req.topK
  {
    if app.embedder.None? {
      return Failure(HttpError(500, "Embedder not initialized"));
    }
    var found := ResolveScope(app.matchIndexes, req.scope);
    if found.None? {
      return Success([]);
    }
    var idx := found.value;
    var q := EncodeQuery(app.embedder.value, req.query);
    if q.Failure? {
      return Failure(EmbedFailed(q.error));
    }
    var candidates := idx.Search(q.value, req.topK * TextOverfetch);
    var pool := ToPool(candidates);
    var results := Rerank.ApplyRerank(req.query, pool, "text", req.topK, app.reranker);
    if results.Failure? {
      return Failure(results.error);
    }
    var formatted := Format.FormatSubtitleResults(results.value);
    if formatted.None? {
      return Failure(FormatError);
    }
    if req.topK >= 0 && (app.reranker.Some? ==> Rerank.HonoursTopN(app.reranker.value)) {
      BoundFromHonestReranker(req.query, candidates, "text", req.topK, app.reranker);
    }
    return Success(formatted.value);
  }

  /**
   * `search_reply`: as `search_match`, over the reply indexes, reranking on the question
   * text and formatting reply items.
   */
  method SearchReply(app: Services, req: SearchRequest) returns (resp: Result<seq<Format.ReplyResult>, Error>)
    ensures app.embedder.None? ==> resp == Failure(HttpError(500, "Embedder not initialized"))
    ensures app.embedder.Some? && ResolveScope(app.replyIndexes, req.scope).None? ==> resp == Success([])
    ensures app.embedder.Some? && ResolveScope(app.replyIndexes, req.scope).Some? ==>
      var q := Embedder.EmbedInOrder(Embedder.Plan([req.query]), app.embedder.value);
      (q.Failure? ==> resp == Failure(EmbedFailed(q.error)))
      && (q.Success? ==>
        var rr := LineResults(app, ResolveScope(app.replyIndexes, req.scope).value, req, q.value, "question_text");
        (rr.Failure? ==> resp == Failure(Rerank.IndexError))
        && (rr.Success? ==>
          var results := rr.value;
          (resp.Success? <==> forall i :: 0 <= i < |results| ==> Format.FormatReply(results[i]).Some?)
          && (resp.Success? ==>
                |resp.value| == |results| && forall i :: 0 <= i < |results| ==> Format.FormatReply(results[i]) == Some(resp.value[i]))
          && (resp.Failure? ==> resp.error == FormatError)))
    ensures resp.Success? && req.topK >= 0 && (app.reranker.Some? ==> Rerank.HonoursTopN(app.reranker.value)) ==>
      |resp.value| <= req.topK
  {
    if app.embedder.None? {
      return Failure(HttpError(500, "Embedder not initialized"));
    }
    var found := ResolveScope(app.replyIndexes, req.scope);
    if found.None? {
      return Success([]);
    }
    var idx := found.value;
    var q := EncodeQuery(app.embedder.value, req.query);
    if q.Failure? {
      return Failure(EmbedFailed(q.error));
    }
    var candidates := idx.Search(q.value, req.topK * TextOverfetch);
    var pool := ToPool(candidates);
    var results := Rerank.ApplyRerank(req.query, pool, "question_text", req.topK, app.reranker);
    if results.Failure? {
      return Failure(results.error);
    }
    var formatted := Format.FormatReplyResults(results.value);
    if formatted.None? {
      return Failure(FormatError);
    }
    if req.topK >= 0 && (app.reranker.Some? ==> Rerank.HonoursTopN(app.reranker.value)) {
      BoundFromHonestReranker(req.query, candidates, "question_text", req.topK, app.reranker);
    }
    return Success(formatted.value);
  }

  /**
   * `scene_search`: a missing image index is an error 500 (checked before the embedder);
   * otherwise the items for the reranked pool of `top_k * 2` coarse candidates.
   */
  method SceneSearch(app: Services, req: SceneSearchRequest) returns (resp: Result<seq<Format.SceneResult>, Error>)
    ensures app.imageIndex.None? ==> resp == Failure(HttpError(500, "Image index not loaded"))
    ensures app.imageIndex.Some? && app.embedder.None? ==> resp == Failure(HttpError(500, "Embedder not initialized"))
    ensures app.imageIndex.Some? && app.embedder.Some? ==>
      var idx := app.imageIndex.value;
      var q := Embedder.EmbedInOrder(Embedder.Plan([req.query]), app.embedder.value);
      (q.Failure? ==> resp == Failure(EmbedFailed(q.error)))
      && (q.Success? ==>
        var pool := Gather(idx.meta, idx.engine(q.value, req.topK * SceneOverfetch), "score");
        var rr := Rerank.Reranked(req.query, pool, "text", req.topK, app.reranker);
        (rr.Failure? ==> resp == Failure(Rerank.IndexError))
        && (rr.Success? ==>
          var results := rr.value;
          (resp.Success? <==> forall i :: 0 <= i < |results| ==> Format.FormatScene(results[i]).Some?)
          && (resp.Success? ==>
                |resp.value| == |results| && forall i :: 0 <= i < |results| ==> Format.FormatScene(results[i]) == Some(resp.value[i]))
          && (resp.Failure? ==> resp.error == FormatError)))
    ensures resp.Success? && req.topK >= 0 && (app.reranker.Some? ==> Rerank.HonoursTopN(app.reranker.value)) ==>
      |resp.value| <= req.topK
  {
    if app.imageIndex.None? {
      return Failure(HttpError(500, "Image index not loaded"));
    }
    if app.embedder.None? {
      return Failure(HttpError(500, "Embedder not initialized"));
    }
    var idx := app.imageIndex.value;
    var q := EncodeQuery(app.embedder.value, req.query);
    if q.Failure? {
      return Failure(EmbedFailed(q.error));
    }
    var candidates := idx.Search(q.value, req.topK * SceneOverfetch);
    var pool := ToPool(candidates);
    var results := Rerank.ApplyRerank(req.query, pool, "text", req.topK, app.reranker);
    if results.Failure? {
      return Failure(results.error);
    }
    var formatted := Format.FormatSceneResults(results.value);
    if formatted.None? {
      return Failure(FormatError);
    }
    if req.topK >= 0 && (app.reranker.Some? ==> Rerank.HonoursTopN(app.reranker.value)) {
      BoundFromHonestReranker(req.query, candidates, "text", req.topK, app.reranker);
    }
    return Success(formatted.value);
  }

  /** With an honest reranker, a non-negative `top_k` bounds what the rerank stage returns. */
  lemma BoundFromHonestReranker(query: string, candidates: seq<Record>, textField: string, topK: int, reranker: Option<Rerank.RerankService>)
    requires topK >= 0 && (reranker.Some? ==> Rerank.HonoursTopN(reranker.value))
    ensures Rerank.Reranked(query, candidates, textField, topK, reranker).Success? ==>
      |Rerank.Reranked(query, candidates, textField, topK, reranker).value| <= topK
  {
    if reranker.Some? {
      var docs := Rerank.Docs(candidates, textField);
      if docs != [] {
        assert |reranker.value(query, docs, topK)| <= topK;
      }
    }
    Rerank.RerankedBound(query, candidates, textField, topK, reranker);
  }
}
