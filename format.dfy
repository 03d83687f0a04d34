/**
 * Turning reranked records into response items: image paths become URLs under /images/,
 * the coarse cosine score is mapped from [-1, 1] to [0, 1], and the rerank score is passed
 * through. A formatter yields None where the Python code raises on an ill-typed field.
 */
module Format {
  import opened Wrappers
  import opened Records

  predicate StartsWith(s: string, prefix: string) {
    |prefix| <= |s| && s[..|prefix|] == prefix
  }

  /** The characters `strip("/\\")` removes. */
  predicate IsSeparator(c: char) {
    c == '/' || c == '\\'
  }

  predicate AllSeparators(s: string) {
    forall i :: 0 <= i < |s| ==> IsSeparator(s[i])
  }

  /** `r` is `s` with the separators before position `i` and after `r` removed. */
  predicate Trimmed(s: string, i: int, r: string) {
    0 <= i <= i + |r| <= |s| && r == s[i..i + |r|]
    && AllSeparators(s[..i]) && AllSeparators(s[i + |r|..])
  }

  /** `s.lstrip("/\\")` */
  function StripLeft(s: string): (r: string)
    ensures |r| <= |s| && r == s[|s| - |r|..] && AllSeparators(s[..|s| - |r|])
    ensures r != [] ==> !IsSeparator(r[0])
  {
    if s != [] && IsSeparator(s[0]) then
      var r := StripLeft(s[1..]);
      assert s[1..][..|s| - 1 - |r|] == s[1..|s| - |r|];
      r
    else
      s
  }

  /** `s.rstrip("/\\")` */
  function StripRight(s: string): (r: string)
    ensures |r| <= |s| && r == s[..|r|] && AllSeparators(s[|r|..])
    ensures r != [] ==> !IsSeparator(r[|r| - 1])
  {
    if s != [] && IsSeparator(s[|s| - 1]) then
      var init := s[..|s| - 1];
      var r := StripRight(init);
      assert r == s[..|r|] by {
        assert init[..|r|] == s[..|r|];
      }
      assert AllSeparators(s[|r|..]) by {
        assert init[|r|..] + [s[|s| - 1]] == s[|r|..];
      }
      r
    else
      s
  }

  /**
   * `s.strip("/\\")`: the slice of `s` left after removing every leading and trailing slash
   * and backslash.
   */
  function Strip(s: string): (r: string)
    ensures exists i :: Trimmed(s, i, r)
    ensures r != [] ==> !IsSeparator(r[0]) && !IsSeparator(r[|r| - 1])
  {
    var left := StripLeft(s);
    var r := StripRight(left);
    TrimBothSides(s, |s| - |left|, left, r);
    r
  }

  /** Separators cut off on the left, then on the right, leave a trimmed slice. */
  lemma TrimBothSides(s: string, i: int, left: string, r: string)
    requires 0 <= i <= |s| && left == s[i..] && AllSeparators(s[..i])
    requires |r| <= |left| && r == left[..|r|] && AllSeparators(left[|r|..])
    ensures Trimmed(s, i, r)
    ensures r != [] ==> r[0] == left[0]
  {
    assert left[|r|..] == s[i + |r|..];
  }

  /**
   * `_resolve_web_path`: the empty path stays empty, a path starting with "http" is already
   * a URL, and any other path is taken as relative to the image root mounted at /images/.
   */
  function ResolveWebPath(path: string): (url: string)
    ensures path == "" ==> url == ""
    ensures StartsWith(path, "http") ==> url == path
    ensures path != "" && !StartsWith(path, "http") ==>
      StartsWith(url, "/images/")
      && (exists i :: Trimmed(path, i, url[8..]))
      && (|url| > 8 ==> !IsSeparator(url[8]) && !IsSeparator(url[|url| - 1]))
  {
    if path == "" then ""
    else if StartsWith(path, "http") then path
    else
      var clean := Strip(path);
      var url := "/images/" + clean;
      assert url[..8] == "/images/";
      assert |url| > 8 ==> url[8] == clean[0] && url[|url| - 1] == clean[|clean| - 1];
      url
  }

  /** Separators around a relative path do not change its URL. */
  lemma SeparatorsIgnored(path: string, pre: string, post: string)
    requires path != "" && !StartsWith(path, "http") && !StartsWith(pre + path + post, "http")
    requires AllSeparators(pre) && AllSeparators(post)
    ensures ResolveWebPath(pre + path + post) == ResolveWebPath(path)
  {
    StripAround(path, pre, post);
  }

  lemma {:induction false} StripLeftAround(s: string, pre: string)
    requires AllSeparators(pre)
    ensures StripLeft(pre + s) == StripLeft(s)
    decreases |pre|
  {
    if pre != [] {
      assert (pre + s)[1..] == pre[1..] + s;
      StripLeftAround(s, pre[1..]);
    } else {
      assert pre + s == s;
    }
  }

  lemma {:induction false} StripRightAround(s: string, post: string)
    requires AllSeparators(post)
    ensures StripRight(s + post) == StripRight(s)
    decreases |post|
  {
    if post != [] {
      var init := post[..|post| - 1];
      assert (s + post)[..|s + post| - 1] == s + init;
      StripRightAround(s, init);
    } else {
      assert s + post == s;
    }
  }

  lemma StripAround(s: string, pre: string, post: string)
    requires AllSeparators(pre) && AllSeparators(post)
    ensures Strip(pre + s + post) == Strip(s)
  {
    assert pre + s + post == pre + (s + post);
    StripLeftAround(s + post, pre);
    var left := StripLeft(s);
    var i :| 0 <= i <= |s| && left == s[i..] && AllSeparators(s[..i]);
    StripLeftSuffix(s, post);
    StripRightAround(left, post);
  }

  /** Stripping on the left is not affected by what follows. */
  lemma {:induction false} StripLeftSuffix(s: string, post: string)
    requires AllSeparators(post)
    ensures StripLeft(s + post) == StripLeft(s) + post || (StripLeft(s) == [] && StripLeft(s + post) == [])
    decreases |s|
  {
    if s == [] {
      assert s + post == post;
      StripLeftAround([], post);
      assert post + [] == post;
    } else if IsSeparator(s[0]) {
      assert (s + post)[1..] == s[1..] + post;
      StripLeftSuffix(s[1..], post);
    } else {
      assert (s + post)[0] == s[0];
    }
  }

  // ---------------------------------------------------------------------------------------
  // Field reads that can raise.

  /**
   * `_resolve_web_path` applied to a field value: a falsy value gives "", a string is
   * resolved, and any other value raises AttributeError (it has no `startswith`), given as None.
   */
  function WebPathOf(v: Value): (url: Option<string>)
    ensures v.Str? ==> url == Some(ResolveWebPath(v.s))
    ensures !Truthy(v) ==> url == Some("")
    ensures url.None? <==> Truthy(v) && !v.Str?
  {
    if !Truthy(v) then Some("")
    else if v.Str? then Some(ResolveWebPath(v.s))
    else None
  }

  /** `(score + 1) / 2`: cosine scores in [-1, 1] become display scores in [0, 1]. */
  function Normalize(score: real): (c: real)
    ensures -1.0 <= score <= 1.0 <==> 0.0 <= c <= 1.0
    ensures score == 2.0 * c - 1.0
    ensures score >= 0.0 <==> c >= 0.5
  {
    (score + 1.0) / 2.0
  }

  /**
   * `(r.get("score", 0) + 1) / 2`: a missing score counts as 0 and a boolean as 0 or 1; a
   * score of any other type raises TypeError, given as None.
   */
  function CoarseScoreOf(r: Record): (c: Option<real>)
    ensures HasNumericScore(r) ==> c == Some(Normalize(r["score"].x))
    ensures "score" !in r ==> c == Some(0.5)
  {
    match Get(r, "score", Num(0.0))
    case Num(x) => Some(Normalize(x))
    case Bool(b) => Some(Normalize(if b then 1.0 else 0.0))
    case _ => None
  }

  // ---------------------------------------------------------------------------------------
  // Response items.

  /** One item of the match search response. */
  datatype SubtitleResult = SubtitleResult(
    text: Value, workName: Value, episodeIndex: Value, episodeTitle: Value, timeS: Value,
    imagePath: string, coarseScore: real, rerankScore: Value)

  /** One item of the reply search response. */
  datatype ReplyResult = ReplyResult(
    questionText: Value, answerText: Value, workName: Value, episodeIndex: Value,
    episodeTitle: Value, answerTimeS: Value, answerImagePath: string, coarseScore: real,
    rerankScore: Value)

  /** One item of the scene search response. */
  datatype SceneResult = SceneResult(image: string, text: Value, score: Value, rawPath: Value)

  /** `r.get("image_path", r.get("image", ""))` */
  function SubtitleImage(r: Record): Value {
    Get(r, "image_path", Get(r, "image", Str("")))
  }

  /** The item `_format_subtitle_results` builds for one record, or None where it raises. */
  function FormatSubtitle(r: Record): (o: Option<SubtitleResult>)
    ensures o.Some? <==> WebPathOf(SubtitleImage(r)).Some? && CoarseScoreOf(r).Some?
  {
    var epNum := if Truthy(Get(r, "episode_number", Null)) then Get(r, "episode_number", Null)
                 else Get(r, "episode_index", Null);
    var path := WebPathOf(SubtitleImage(r));
    var coarse := CoarseScoreOf(r);
    if path.None? || coarse.None? then None
    else Some(SubtitleResult(
      Get(r, "text", Null), Get(r, "work_name", Null), epNum, Get(r, "episode_title", Null),
      Get(r, "time_s", Null), path.value, coarse.value, Get(r, "_rerank_score", Null)))
  }

  /**
   * The episode number of a reply record: its own "episode_number" unless that is None,
   * then the one of its "raw_answer_record"; a raw record that is not an object raises.
   */
  function ReplyEpisode(r: Record): Option<Value> {
    var own := Get(r, "episode_number", Null);
    if own != Null then Some(own)
    else match Get(r, "raw_answer_record", Obj(map[]))
      case Obj(raw) => Some(Get(raw, "episode_number", Null))
      case _ => None
  }

  /** The item `_format_reply_results` builds for one record, or None where it raises. */
  function FormatReply(r: Record): (o: Option<ReplyResult>)
    ensures o.Some? <==>
      ReplyEpisode(r).Some? && WebPathOf(Get(r, "answer_image_path", Str(""))).Some? && CoarseScoreOf(r).Some?
  {
    var epNum := ReplyEpisode(r);
    var path := WebPathOf(Get(r, "answer_image_path", Str("")));
    var coarse := CoarseScoreOf(r);
    if epNum.None? || path.None? || coarse.None? then None
    else Some(ReplyResult(
      Get(r, "question_text", Null), Get(r, "answer_text", Null), Get(r, "work_name", Null),
      epNum.value, Get(r, "episode_title", Null), Get(r, "answer_time_s", Null), path.value,
      coarse.value, Get(r, "_rerank_score", Null)))
  }

  /** The item the scene search builds for one record, or None where it raises. */
  function FormatScene(r: Record): (o: Option<SceneResult>)
    ensures o.Some? <==> WebPathOf(Get(r, "image_path", Str(""))).Some?
  {
    var rawPath := Get(r, "image_path", Str(""));
    var image := WebPathOf(rawPath);
    if image.None? then None
    else Some(SceneResult(image.value, Get(r, "text", Null),
                          Get(r, "_rerank_score", Get(r, "score", Null)), rawPath))
  }

  /**
   * `_format_subtitle_results`: one item per record, in order; None when formatting any
   * record raises.
   */
  method FormatSubtitleResults(items: seq<Record>) returns (out: Option<seq<SubtitleResult>>)
    ensures out.Some? <==> forall i :: 0 <= i < |items| ==> FormatSubtitle(items[i]).Some?
    ensures out.Some? ==>
      |out.value| == |items| && forall i :: 0 <= i < |items| ==> FormatSubtitle(items[i]) == Some(out.value[i])
  {
    var acc: seq<SubtitleResult> := [];
    for i := 0 to |items|
      invariant |acc| == i
      invariant forall k :: 0 <= k < i ==> FormatSubtitle(items[k]) == Some(acc[k])
    {
      var item := FormatSubtitle(items[i]);
      if item.None? {
        return None;
      }
      acc := acc + [item.value];
    }
    return Some(acc);
  }

  /**
   * `_format_reply_results`: one item per record, in order; None when formatting any record
   * raises.
   */
  method FormatReplyResults(items: seq<Record>) returns (out: Option<seq<ReplyResult>>)
    ensures out.Some? <==> forall i :: 0 <= i < |items| ==> FormatReply(items[i]).Some?
    ensures out.Some? ==>
      |out.value| == |items| && forall i :: 0 <= i < |items| ==> FormatReply(items[i]) == Some(out.value[i])
  {
    var acc: seq<ReplyResult> := [];
    for i := 0 to |items|
      invariant |acc| == i
      invariant forall k :: 0 <= k < i ==> FormatReply(items[k]) == Some(acc[k])
    {
      var item := FormatReply(items[i]);
      if item.None? {
        return None;
      }
      acc := acc + [item.value];
    }
    return Some(acc);
  }

  /** The formatting loop of the scene search: one item per record, in order. */
  method FormatSceneResults(items: seq<Record>) returns (out: Option<seq<SceneResult>>)
    ensures out.Some? <==> forall i :: 0 <= i < |items| ==> FormatScene(items[i]).Some?
    ensures out.Some? ==>
      |out.value| == |items| && forall i :: 0 <= i < |items| ==> FormatScene(items[i]) == Some(out.value[i])
  {
    var formatted: seq<SceneResult> := [];
    for i := 0 to |items|
      invariant |formatted| == i
      invariant forall k :: 0 <= k < i ==> FormatScene(items[k]) == Some(formatted[k])
    {
      var item := FormatScene(items[i]);
      if item.None? {
        return None;
      }
      formatted := formatted + [item.value];
    }
    return Some(formatted);
  }

  /** A path field that is absent, falsy or a string never makes formatting raise. */
  predicate PathFieldOk(v: Value) {
    v.Str? || !Truthy(v)
  }

  /**
   * A record as the pipeline produces it (numeric score) whose image path is a string or
   * falsy is formatted, with its coarse score normalised and its rerank score passed through.
   */
  lemma SubtitleFormatted(r: Record)
    requires HasNumericScore(r) && PathFieldOk(SubtitleImage(r))
    ensures FormatSubtitle(r).Some?
    ensures FormatSubtitle(r).value.coarseScore == Normalize(r["score"].x)
    ensures FormatSubtitle(r).value.rerankScore == Get(r, "_rerank_score", Null)
    ensures -1.0 <= r["score"].x <= 1.0 ==> 0.0 <= FormatSubtitle(r).value.coarseScore <= 1.0
  {
  }
}
