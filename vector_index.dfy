/**
 * A loaded vector index: the FAISS structure (taken here as an opaque engine) paired with
 * the metadata records read from its line-delimited JSON file, where record `i` describes
 * vector `i`.
 */
module VectorIndex {
  import opened Wrappers
  import opened Records
  import Embedder

  /**
   * The loaded FAISS index: for a query matrix and a count k, the first row of its answer
   * as (position, score) pairs; position -1 marks "no vector at this rank".
   */
  type Engine = (seq<Embedder.Vector>, int) -> seq<Hit>

  /** `json.loads` on one line: the record it denotes, or None when it raises. */
  type Parser = string -> Option<Record>

  /** The characters Python's `str.strip()` removes (`str.isspace`). */
  predicate IsSpace(c: char) {
    || ('\U{9}' <= c <= '\U{D}') || ('\U{1C}' <= c <= '\U{20}')
    || c == '\U{85}' || c == '\U{A0}' || c == '\U{1680}'
    || ('\U{2000}' <= c <= '\U{200A}') || c == '\U{2028}' || c == '\U{2029}'
    || c == '\U{202F}' || c == '\U{205F}' || c == '\U{3000}'
  }

  /** `not line.strip()`: the line holds only whitespace. */
  predicate IsBlank(line: string) {
    forall i :: 0 <= i < |line| ==> IsSpace(line[i])
  }

  /** A line that loading keeps: not blank, and it parses. */
  predicate IsLoaded(line: string, parse: Parser) {
    !IsBlank(line) && parse(line).Some?
  }

  /** The metadata a file of `lines` yields: each kept line's record, in file order. */
  function LoadMeta(lines: seq<string>, parse: Parser): (meta: seq<Record>)
    ensures |meta| <= |lines|
  {
    if lines == [] then []
    else
      var last := |lines| - 1;
      LoadMeta(lines[..last], parse)
        + (if IsLoaded(lines[last], parse) then [parse(lines[last]).value] else [])
  }

  /** Loading two stretches of a file one after the other is loading them together. */
  lemma {:induction false} LoadMetaAppend(a: seq<string>, b: seq<string>, parse: Parser)
    ensures LoadMeta(a + b, parse) == LoadMeta(a, parse) + LoadMeta(b, parse)
    decreases |b|
  {
    if b == [] {
      assert a + b == a;
    } else {
      var last := |b| - 1;
      assert (a + b)[..|a + b| - 1] == a + b[..last];
      LoadMetaAppend(a, b[..last], parse);
    }
  }

  /** A blank or unparsable line is skipped silently: it contributes no record. */
  lemma SkipsBadLine(a: seq<string>, line: string, b: seq<string>, parse: Parser)
    requires !IsLoaded(line, parse)
    ensures LoadMeta(a + [line] + b, parse) == LoadMeta(a + b, parse)
  {
    LoadMetaAppend(a + [line], b, parse);
    LoadMetaAppend(a, [line], parse);
    LoadMetaAppend(a, b, parse);
    assert [line][..0] == [];
  }

  /** A good line contributes its record, between those of the lines around it. */
  lemma KeepsGoodLine(a: seq<string>, line: string, b: seq<string>, parse: Parser)
    requires IsLoaded(line, parse)
    ensures LoadMeta(a + [line] + b, parse)
      == LoadMeta(a, parse) + [parse(line).value] + LoadMeta(b, parse)
  {
    LoadMetaAppend(a + [line], b, parse);
    LoadMetaAppend(a, [line], parse);
    assert [line][..0] == [];
  }

  /** Positional alignment: when every line is good, record `i` is the parse of line `i`. */
  lemma {:induction false} LoadMetaAllGood(lines: seq<string>, parse: Parser)
    requires forall i :: 0 <= i < |lines| ==> !IsBlank(lines[i]) && parse(lines[i]).Some?
    ensures |LoadMeta(lines, parse)| == |lines|
    ensures forall i :: 0 <= i < |lines| ==> LoadMeta(lines, parse)[i] == parse(lines[i]).value
  {
    if lines != [] {
      var last := |lines| - 1;
      var init := lines[..last];
      LoadMetaAllGood(init, parse);
      assert IsLoaded(lines[last], parse);
      var meta := LoadMeta(lines, parse);
      assert meta == LoadMeta(init, parse) + [parse(lines[last]).value];
      forall i | 0 <= i < |lines| ensures meta[i] == parse(lines[i]).value {
        if i < last {
          assert init[i] == lines[i];
        }
      }
    }
  }

  /** Every loaded record is the parse of some good line of the file. */
  lemma {:induction false} LoadMetaSound(lines: seq<string>, parse: Parser)
    ensures forall r :: r in LoadMeta(lines, parse) ==>
      exists i :: 0 <= i < |lines| && IsLoaded(lines[i], parse) && parse(lines[i]).value == r
  {
    if lines != [] {
      var last := |lines| - 1;
      LoadMetaSound(lines[..last], parse);
      forall r | r in LoadMeta(lines, parse)
        ensures exists i :: 0 <= i < |lines| && IsLoaded(lines[i], parse) && parse(lines[i]).value == r
      {
        if r in LoadMeta(lines[..last], parse) {
          var i :| 0 <= i < last && IsLoaded(lines[..last][i], parse) && parse(lines[..last][i]).value == r;
          assert lines[i] == lines[..last][i];
        }
      }
    }
  }

  /**
   * Three metadata lines of which the middle one does not parse: loading keeps two records,
   * so the record of line 2 sits at position 1. A hit at position 2 is then dropped, and a
   * hit at position 1 is given the record of line 2.
   */
  lemma MalformedLineShifts(l0: string, l1: string, l2: string, parse: Parser, hits: seq<Hit>)
    requires IsLoaded(l0, parse) && !IsLoaded(l1, parse) && IsLoaded(l2, parse)
    requires hits == [Hit(2, 0.75), Hit(1, 0.5)]
    ensures LoadMeta([l0, l1, l2], parse) == [parse(l0).value, parse(l2).value]
    ensures Gather(LoadMeta([l0, l1, l2], parse), hits, "score") ==
      [WithScore(parse(l2).value, "score", 0.5)]
  {
    KeepsGoodLine([], l0, [l1, l2], parse);
    SkipsBadLine([], l1, [l2], parse);
    KeepsGoodLine([], l2, [], parse);
    assert [l0] + [l1, l2] == [l0, l1, l2] && [] + [l0] + [l1, l2] == [l0, l1, l2];
    assert [] + [l1] + [l2] == [l1, l2] && [] + [l2] == [l2] && [] + [l2] + [] == [l2];
    assert LoadMeta([], parse) == [];
    var meta := [parse(l0).value, parse(l2).value];
    assert hits[..1] == [Hit(2, 0.75)] && hits[..1][..0] == [];
  }

  class BaseIndex {
    /** The FAISS structure read from the index file. */
    const engine: Engine
    /** One record per indexed vector, read from the metadata file. */
    var meta: seq<Record>

    /**
     * Load an index: `lines` are the lines of the metadata file; blank lines and lines that
     * do not parse are skipped.
     */
    constructor (engine: Engine, lines: seq<string>, parse: Parser)
      ensures this.engine == engine
      ensures meta == LoadMeta(lines, parse)
    {
      this.engine := engine;
      meta := [];
      new;
      for i := 0 to |lines|
        invariant meta == LoadMeta(lines[..i], parse)
      {
        assert lines[..i + 1][..i] == lines[..i];
        var line := lines[i];
        if !IsBlank(line) {
          var parsed := parse(line);
          if parsed.Some? {
            meta := meta + [parsed.value];
          }
        }
      }
      assert lines[..|lines|] == lines;
    }

    /**
     * Search: ask the engine for `topK` hits and turn each hit whose position lies in
     * `[0, |meta|)` into a copy of that record with "score" set, in engine order. The method
     * has no modifies clause, so `meta` is left as it was.
     */
    method Search(query: seq<Embedder.Vector>, topK: int) returns (results: seq<Record>)
      ensures results == Gather(meta, engine(query, topK), "score")
      ensures |results| <= |engine(query, topK)|
      ensures forall j :: 0 <= j < |results| ==> HasNumericScore(results[j])
    {
      var hits := engine(query, topK);
      results := [];
      for j := 0 to |hits|
        invariant results == Gather(meta, hits[..j], "score")
      {
        assert hits[..j + 1][..j] == hits[..j];
        var h := hits[j];
        if 0 <= h.pos && h.pos < |meta| {
          var item := meta[h.pos];
          item := item["score" := Num(h.score)];
          results := results + [item];
        }
      }
      assert hits[..|hits|] == hits;
      GatherScoresNumeric(meta, hits, "score");
    }
  }
}
