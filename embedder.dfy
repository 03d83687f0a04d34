/**
 * The query embedder: texts are cut into batches of ten, each batch is one call to the
 * embedding service, the calls run on a worker pool and complete in any order, and the
 * per-batch answers are put back by batch position so the caller sees them in input order.
 */
module Embedder {
  import opened Wrappers

  type Vector = seq<real>

  /** What one call to the embedding service yields: its rows, or the error it raised. */
  type EmbedOutcome = Result<seq<Vector>, string>

  /** The embedding service, as seen by one blocking call for one batch. */
  type EmbedService = seq<string> -> EmbedOutcome

  /** Texts per call to the service. */
  const BatchSize: nat := 10

  function Min(a: int, b: int): int { if a <= b then a else b }

  /** How many batches `range(0, n, BatchSize)` yields. */
  function BatchCount(n: nat): (c: nat)
    ensures c * BatchSize >= n
    ensures n > 0 ==> (c - 1) * BatchSize < n
    ensures n == 0 <==> c == 0
  {
    (n + BatchSize - 1) / BatchSize
  }

  /** The batch plan: for each batch its start offset in `texts` and its slice of texts. */
  function Plan(texts: seq<string>): (plan: seq<(nat, seq<string>)>)
    ensures |plan| == BatchCount(|texts|)
    ensures forall k :: 0 <= k < |plan| ==> plan[k].0 == k * BatchSize
    ensures forall k :: 0 <= k < |plan| ==> 0 < |plan[k].1| <= BatchSize
    ensures forall k :: 0 <= k < |plan| - 1 ==> |plan[k].1| == BatchSize
  {
    seq(BatchCount(|texts|), k requires 0 <= k < BatchCount(|texts|) =>
      (k * BatchSize, texts[k * BatchSize .. Min(k * BatchSize + BatchSize, |texts|)]))
  }

  /** The slices of a plan, without their offsets. */
  function Chunks(plan: seq<(nat, seq<string>)>): (cs: seq<seq<string>>)
    ensures |cs| == |plan| && forall k :: 0 <= k < |plan| ==> cs[k] == plan[k].1
  {
    seq(|plan|, k requires 0 <= k < |plan| => plan[k].1)
  }

  /** One call for one batch; an empty batch yields no rows without calling the service. */
  function EmbedRaw(embed: EmbedService, texts: seq<string>): (r: EmbedOutcome)
    ensures texts == [] ==> r == Success([])
  {
    if texts == [] then Success([]) else embed(texts)
  }

  /** The rows one batch contributes when its call succeeds. */
  function BatchRows(embed: EmbedService, texts: seq<string>): seq<Vector> {
    match EmbedRaw(embed, texts)
    case Success(rows) => rows
    case Failure(_) => []
  }

  /** The rows of every batch of a plan, in batch order. */
  function AllRows(embed: EmbedService, plan: seq<(nat, seq<string>)>): (rs: seq<seq<Vector>>)
    ensures |rs| == |plan| && forall k :: 0 <= k < |plan| ==> rs[k] == BatchRows(embed, plan[k].1)
  {
    seq(|plan|, k requires 0 <= k < |plan| => BatchRows(embed, plan[k].1))
  }

  /**
   * The reference semantics: embed the batches one after another in batch order, stopping
   * at the first failure.
   */
  function EmbedInOrder(plan: seq<(nat, seq<string>)>, embed: EmbedService): EmbedOutcome {
    if plan == [] then Success([])
    else
      var last := |plan| - 1;
      match EmbedInOrder(plan[..last], embed)
      case Failure(e) => Failure(e)
      case Success(rows) =>
        match EmbedRaw(embed, plan[last].1)
        case Failure(e) => Failure(e)
        case Success(more) => Success(rows + more)
  }

  /** The concatenation of a sequence of sequences, in order. */
  function Flatten<T>(ss: seq<seq<T>>): seq<T> {
    if ss == [] then [] else Flatten(ss[..|ss| - 1]) + ss[|ss| - 1]
  }

  /** The order in which the futures of `n` batches complete: every batch exactly once. */
  predicate IsCompletionOrder(order: seq<nat>, n: nat) {
    && |order| == n
    && (forall j :: 0 <= j < n ==> order[j] < n)
    && (forall k :: 0 <= k < n ==> k in order)
  }

  /**
   * Embed `texts`, one service call per batch, with the batches completing in the order
   * `completion`. Each answer goes to slot `start / BatchSize` of a preallocated list; the
   * first failure met in completion order is re-raised and no rows are returned. `calls` is
   * the number of service calls issued: all batches are submitted before any is awaited.
   */
  method EmbedBatched(texts: seq<string>, embed: EmbedService, completion: seq<nat>)
    returns (r: EmbedOutcome, calls: nat)
    requires IsCompletionOrder(completion, BatchCount(|texts|))
    ensures calls == BatchCount(|texts|)
    ensures texts == [] ==> calls == 0 && r == Success([])
    ensures r.Success? <==> EmbedInOrder(Plan(texts), embed).Success?
    ensures r.Success? ==> r == EmbedInOrder(Plan(texts), embed)
    ensures r.Failure? ==>
      exists k :: 0 <= k < |Plan(texts)| && EmbedRaw(embed, Plan(texts)[k].1) == Failure(r.error)
  {
    if texts == [] {
      return Success([]), 0;
    }
    var batches := Plan(texts);
    var results := new Option<seq<Vector>>[|batches|](_ => None);
    calls := |batches|;
    for j := 0 to |completion|
      invariant forall k :: 0 <= k < |batches| ==> (results[k].Some? <==> k in completion[..j])
      invariant forall k :: 0 <= k < |batches| && results[k].Some? ==>
        EmbedRaw(embed, batches[k].1) == Success(results[k].value)
    {
      var k := completion[j];
      var (start, chunk) := batches[k];
      var arr := EmbedRaw(embed, chunk);
      if arr.Failure? {
        InOrderSucceeds(batches, embed);
        return Failure(arr.error), calls;
      }
      assert start / BatchSize == k;
      results[start / BatchSize] := Some(arr.value);
      assert completion[..j + 1] == completion[..j] + [k];
    }
    assert completion[..|completion|] == completion;
    var rows := Stack(batches, results[..], embed);
    r := Success(rows);
  }

  /**
   * `np.vstack` over the filled slots, in slot order: when slot k holds the rows of batch k
   * for every batch, the result is what sequential embedding gives.
   */
  method Stack(plan: seq<(nat, seq<string>)>, slots: seq<Option<seq<Vector>>>, embed: EmbedService)
    returns (rows: seq<Vector>)
    requires |slots| == |plan|
    requires forall k :: 0 <= k < |plan| ==>
      slots[k].Some? && EmbedRaw(embed, plan[k].1) == Success(slots[k].value)
    ensures EmbedInOrder(plan, embed) == Success(rows)
  {
    rows := [];
    for k := 0 to |slots|
      invariant EmbedInOrder(plan[..k], embed) == Success(rows)
    {
      assert plan[..k + 1][..k] == plan[..k];
      if slots[k].Some? {
        rows := rows + slots[k].value;
      }
    }
    assert plan[..|slots|] == plan;
  }

  /**
   * Sequential embedding succeeds exactly when every batch's call does, and then yields the
   * batches' rows concatenated in batch order.
   */
  lemma {:induction false} InOrderSucceeds(plan: seq<(nat, seq<string>)>, embed: EmbedService)
    ensures EmbedInOrder(plan, embed).Success? <==>
      forall k :: 0 <= k < |plan| ==> EmbedRaw(embed, plan[k].1).Success?
    ensures EmbedInOrder(plan, embed).Success? ==>
      EmbedInOrder(plan, embed).value == Flatten(AllRows(embed, plan))
  {
    if plan != [] {
      var last := |plan| - 1;
      InOrderSucceeds(plan[..last], embed);
      assert AllRows(embed, plan)[..last] == AllRows(embed, plan[..last]);
    }
  }

  /** Length of a concatenation whose parts, all but the last, hold exactly `BatchSize` items. */
  lemma {:induction false} FlattenLength<T>(ss: seq<seq<T>>)
    requires ss != []
    requires forall k :: 0 <= k < |ss| - 1 ==> |ss[k]| == BatchSize
    ensures |Flatten(ss)| == (|ss| - 1) * BatchSize + |ss[|ss| - 1]|
  {
    var last := |ss| - 1;
    if last > 0 {
      FlattenLength(ss[..last]);
    }
  }

  /** Dividing by the batch size: `i` lies in part `m` exactly when `m * BatchSize <= i < (m + 1) * BatchSize`. */
  lemma DivBatch(i: nat, m: nat)
    requires m * BatchSize <= i < m * BatchSize + BatchSize
    ensures i / BatchSize == m && i % BatchSize == i - m * BatchSize
  {
  }

  /** In such a concatenation, item `i` is item `i % BatchSize` of part `i / BatchSize`. */
  lemma {:induction false} FlattenAt<T>(ss: seq<seq<T>>, i: nat)
    requires forall k :: 0 <= k < |ss| - 1 ==> |ss[k]| == BatchSize
    requires ss != [] ==> |ss[|ss| - 1]| <= BatchSize
    requires i < |Flatten(ss)|
    ensures i / BatchSize < |ss| && i % BatchSize < |ss[i / BatchSize]|
    ensures Flatten(ss)[i] == ss[i / BatchSize][i % BatchSize]
  {
    var last := |ss| - 1;
    var init := ss[..last];
    if last > 0 {
      FlattenLength(init);
    } else {
      assert Flatten(init) == [];
    }
    if i < |Flatten(init)| {
      FlattenAt(init, i);
    } else {
      DivBatch(i, last);
    }
  }

  /** The batches partition the input: concatenated in order they give back `texts`. */
  lemma PlanCovers(texts: seq<string>)
    ensures Flatten(Chunks(Plan(texts))) == texts
  {
    var plan := Plan(texts);
    var chunks := Chunks(plan);
    if texts != [] {
      var n := |texts|;
      var last := |plan| - 1;
      assert |chunks[last]| == n - last * BatchSize by {
        assert plan[last].1 == texts[last * BatchSize .. Min(last * BatchSize + BatchSize, n)];
      }
      FlattenLength(chunks);
      forall i | 0 <= i < n ensures Flatten(chunks)[i] == texts[i] {
        FlattenAt(chunks, i);
        ChunkAt(texts, i);
      }
    }
  }

  /** Text `i` is item `i % BatchSize` of batch `i / BatchSize`. */
  lemma ChunkAt(texts: seq<string>, i: nat)
    requires i < |texts|
    ensures i / BatchSize < |Plan(texts)| && i % BatchSize < |Plan(texts)[i / BatchSize].1|
    ensures Plan(texts)[i / BatchSize].1[i % BatchSize] == texts[i]
  {
    var m, j := i / BatchSize, i % BatchSize;
    assert i == m * BatchSize + j;
    assert Plan(texts)[m].1 == texts[m * BatchSize .. Min(m * BatchSize + BatchSize, |texts|)];
  }

  /** The service answers one row per text of a batch. */
  predicate OneRowPerText(embed: EmbedService, plan: seq<(nat, seq<string>)>) {
    forall k :: 0 <= k < |plan| ==> |BatchRows(embed, plan[k].1)| == |plan[k].1|
  }

  /**
   * Order preservation: when the service answers one row per text, a successful embedding
   * has one row per input text, and row `i` is the row the service gave for text `i`, which
   * was text `i % BatchSize` of batch `i / BatchSize`.
   */
  lemma EmbedRowsAligned(texts: seq<string>, embed: EmbedService)
    requires OneRowPerText(embed, Plan(texts))
    requires EmbedInOrder(Plan(texts), embed).Success?
    ensures |EmbedInOrder(Plan(texts), embed).value| == |texts|
    ensures forall i :: 0 <= i < |texts| ==>
      i / BatchSize < |Plan(texts)| && i % BatchSize < |Plan(texts)[i / BatchSize].1|
      && Plan(texts)[i / BatchSize].1[i % BatchSize] == texts[i]
      && EmbedInOrder(Plan(texts), embed).value[i]
         == BatchRows(embed, Plan(texts)[i / BatchSize].1)[i % BatchSize]
  {
    var plan := Plan(texts);
    var chunks := Chunks(plan);
    var rows := AllRows(embed, plan);
    assert EmbedInOrder(plan, embed).value == Flatten(rows) by {
      InOrderSucceeds(plan, embed);
    }
    assert Flatten(chunks) == texts by {
      PlanCovers(texts);
    }
    if texts != [] {
      assert forall k :: 0 <= k < |plan| ==> |rows[k]| == |chunks[k]|;
      assert forall k :: 0 <= k < |rows| - 1 ==> |rows[k]| == BatchSize;
      assert |rows[|rows| - 1]| <= BatchSize;
      assert |Flatten(rows)| == |texts| by {
        FlattenLength(chunks);
        FlattenLength(rows);
      }
      forall i | 0 <= i < |texts|
        ensures i / BatchSize < |plan| && i % BatchSize < |plan[i / BatchSize].1|
        ensures plan[i / BatchSize].1[i % BatchSize] == texts[i]
        ensures Flatten(rows)[i] == BatchRows(embed, plan[i / BatchSize].1)[i % BatchSize]
      {
        FlattenAt(chunks, i);
        FlattenAt(rows, i);
      }
    }
  }
}
