/**
 * Metadata records as `json.loads` produces them, and the one filtering step that both the
 * vector index search and the rerank fusion perform: turn an engine's list of
 * (position, score) hits into copies of the addressed records with a score field set.
 */
module Records {

  /** A JSON value. */
  datatype Value =
    | Null
    | Bool(b: bool)
    | Num(x: real)
    | Str(s: string)
    | Arr(items: seq<Value>)
    | Obj(fields: map<string, Value>)

  /** How a request fails: an HTTP error the handler raises, or an exception that escapes it. */
  datatype Error =
    | HttpError(status: int, detail: string)
    | EmbedFailed(message: string)
    | Raised(exception: string)

  /** A metadata record: one JSON object (a Python dict). */
  type Record = map<string, Value>

  /** `r.get(key, default)` */
  function Get(r: Record, key: string, default: Value): (v: Value)
    ensures key in r ==> v == r[key]
    ensures key !in r ==> v == default
  {
    if key in r then r[key] else default
  }

  /** Python truthiness of a JSON value (`if v:` / `v or w`). */
  predicate Truthy(v: Value) {
    match v
    case Null => false
    case Bool(b) => b
    case Num(x) => x != 0.0
    case Str(s) => s != ""
    case Arr(a) => a != []
    case Obj(m) => m != map[]
  }

  /**
   * The number `r.get("score", 0)` stands for: a missing score is 0, a boolean is 0 or 1.
   * A score of any other JSON type is read as 0 (see HasNumericScore).
   */
  function ScoreOf(r: Record): real {
    match Get(r, "score", Num(0.0))
    case Num(x) => x
    case Bool(b) => if b then 1.0 else 0.0
    case _ => 0.0
  }

  /** The record carries a numeric score, as every record a search produces does. */
  predicate HasNumericScore(r: Record) {
    "score" in r && r["score"].Num?
  }

  /** One entry of an engine's answer: a position into a list of records and a score. */
  datatype Hit = Hit(pos: int, score: real)

  /** A hit whose position addresses one of `n` records. */
  predicate InRange(h: Hit, n: nat) {
    0 <= h.pos < n
  }

  /** A copy of `r` with `field` set to the number `score`. */
  function WithScore(r: Record, field: string, score: real): (c: Record)
    ensures field in c && c[field] == Num(score)
    ensures c.Keys == r.Keys + {field}
    ensures forall k :: k in r && k != field ==> c[k] == r[k]
  {
    r[field := Num(score)]
  }

  /** The positions, in answer order, of the hits that address one of `n` records. */
  function Kept(hits: seq<Hit>, n: nat): (ks: seq<nat>)
    ensures |ks| <= |hits|
    ensures forall j :: 0 <= j < |ks| ==> ks[j] < |hits| && InRange(hits[ks[j]], n)
  {
    if hits == [] then []
    else
      var last := |hits| - 1;
      Kept(hits[..last], n) + (if InRange(hits[last], n) then [last] else [])
  }

  /**
   * For every hit in order whose position addresses a record of `src`, a copy of that record
   * with `field` set to the hit's score; hits outside `[0, |src|)` are dropped.
   */
  function Gather(src: seq<Record>, hits: seq<Hit>, field: string): (out: seq<Record>)
    ensures |out| <= |hits|
  {
    if hits == [] then []
    else
      var last := |hits| - 1;
      var h := hits[last];
      Gather(src, hits[..last], field)
        + (if InRange(h, |src|) then [WithScore(src[h.pos], field, h.score)] else [])
  }

  /** Kept lists exactly the in-range hits, each once, in increasing answer order. */
  lemma {:induction false} KeptExact(hits: seq<Hit>, n: nat)
    ensures forall k :: k in Kept(hits, n) <==> 0 <= k < |hits| && InRange(hits[k], n)
    ensures forall i, j :: 0 <= i < j < |Kept(hits, n)| ==> Kept(hits, n)[i] < Kept(hits, n)[j]
  {
    if hits != [] {
      var last := |hits| - 1;
      KeptExact(hits[..last], n);
      assert forall k :: 0 <= k < last ==> hits[..last][k] == hits[k];
    }
  }

  /**
   * The j-th gathered record comes from the j-th kept hit: it is the record that hit
   * addresses, with the hit's score attached.
   */
  lemma {:induction false} GatherAt(src: seq<Record>, hits: seq<Hit>, field: string)
    ensures |Gather(src, hits, field)| == |Kept(hits, |src|)|
    ensures forall j :: 0 <= j < |Kept(hits, |src|)| ==>
      var h := hits[Kept(hits, |src|)[j]];
      Gather(src, hits, field)[j] == WithScore(src[h.pos], field, h.score)
  {
    if hits != [] {
      var last := |hits| - 1;
      var init := hits[..last];
      var h := hits[last];
      GatherAt(src, init, field);
      var out := Gather(src, hits, field);
      var ks := Kept(hits, |src|);
      var extra := if InRange(h, |src|) then [WithScore(src[h.pos], field, h.score)] else [];
      assert out == Gather(src, init, field) + extra;
      assert ks == Kept(init, |src|) + (if InRange(h, |src|) then [last] else []);
      forall j | 0 <= j < |ks|
        ensures out[j] == WithScore(src[hits[ks[j]].pos], field, hits[ks[j]].score)
      {
        if j < |Kept(init, |src|)| {
          assert init[Kept(init, |src|)[j]] == hits[ks[j]];
        }
      }
    }
  }

  /** When every hit is in range nothing is dropped: the output lines up with the hits. */
  lemma {:induction false} GatherAllInRange(src: seq<Record>, hits: seq<Hit>, field: string)
    requires forall k :: 0 <= k < |hits| ==> 0 <= hits[k].pos < |src|
    ensures |Gather(src, hits, field)| == |hits|
    ensures forall k :: 0 <= k < |hits| ==>
      Gather(src, hits, field)[k] == WithScore(src[hits[k].pos], field, hits[k].score)
  {
    if hits != [] {
      var last := |hits| - 1;
      var init := hits[..last];
      var h := hits[last];
      GatherAllInRange(src, init, field);
      var out := Gather(src, hits, field);
      assert out == Gather(src, init, field) + [WithScore(src[h.pos], field, h.score)];
      forall k | 0 <= k < |hits| ensures out[k] == WithScore(src[hits[k].pos], field, hits[k].score) {
        if k < last {
          assert init[k] == hits[k];
        }
      }
    }
  }

  /** Gathering over two answers one after the other is gathering over their concatenation. */
  lemma {:induction false} GatherAppend(src: seq<Record>, a: seq<Hit>, b: seq<Hit>, field: string)
    ensures Gather(src, a + b, field) == Gather(src, a, field) + Gather(src, b, field)
    decreases |b|
  {
    if b == [] {
      assert a + b == a;
    } else {
      var last := |b| - 1;
      assert (a + b)[..|a + b| - 1] == a + b[..last];
      GatherAppend(src, a, b[..last], field);
    }
  }

  /** Setting the "score" field, or any field when sources already carry a numeric score, leaves every output with a numeric score. */
  lemma {:induction false} GatherScoresNumeric(src: seq<Record>, hits: seq<Hit>, field: string)
    requires field == "score" || forall i :: 0 <= i < |src| ==> HasNumericScore(src[i])
    ensures forall j :: 0 <= j < |Gather(src, hits, field)| ==> HasNumericScore(Gather(src, hits, field)[j])
  {
    if hits != [] {
      GatherScoresNumeric(src, hits[..|hits| - 1], field);
    }
  }
}
