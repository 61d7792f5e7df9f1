/** The transcript route of the server: normalising caption segments with
    JavaScript `||` defaults, grouping them greedily into chunks under a
    budget, formatting seconds as "m:ss", and the route's 400/404 guards.

    A JavaScript number field is `Option<real>`, `None` standing for an
    absent (`undefined`) field; a field is falsy when absent or zero (NaN is
    not modelled). A text field is falsy when absent or empty. */
module Transcripts {
  import opened Wrappers
  import opened Strings
  import VideoLinks

  /** A segment as a caption provider returns it. */
  datatype RawSegment = RawSegment(
    start: Option<real>, dur: Option<real>, offset: Option<real>, duration: Option<real>,
    text: Option<string>, content: Option<string>)

  /** A segment after normalisation. */
  datatype Caption = Caption(start: real, dur: real, text: string, offset: Option<real>, duration: Option<real>)

  predicate TruthyNumber(x: Option<real>)
  {
    x.Some? && x.value != 0.0
  }

  predicate TruthyText(x: Option<string>)
  {
    x.Some? && x.value != ""
  }

  /** `a || b || fallback` over numbers. */
  function OrNumber(a: Option<real>, b: Option<real>, fallback: real): (r: real)
    ensures TruthyNumber(a) ==> r == a.value
    ensures !TruthyNumber(a) && TruthyNumber(b) ==> r == b.value
    ensures !TruthyNumber(a) && !TruthyNumber(b) ==> r == fallback
  {
    if TruthyNumber(a) then a.value else if TruthyNumber(b) then b.value else fallback
  }

  /** `a || b || ''` over strings. */
  function OrText(a: Option<string>, b: Option<string>): (r: string)
    ensures r == "" <==> !TruthyText(a) && !TruthyText(b)
    ensures TruthyText(a) ==> r == a.value
    ensures !TruthyText(a) && TruthyText(b) ==> r == b.value
  {
    if TruthyText(a) then a.value else if TruthyText(b) then b.value else ""
  }

  /** The `subtitles.map(...)` normalisation of the route. */
  function Normalize(s: RawSegment): (c: Caption)
    ensures c.dur != 0.0
    ensures c.offset == s.offset && c.duration == s.duration
    ensures TruthyNumber(s.start) ==> c.start == s.start.value
    ensures c.start == 0.0 <==> !TruthyNumber(s.start) && !TruthyNumber(s.offset)
    ensures c.text == "" <==> !TruthyText(s.text) && !TruthyText(s.content)
  {
    Caption(OrNumber(s.start, s.offset, 0.0), OrNumber(s.dur, s.duration, 5.0), OrText(s.text, s.content), s.offset, s.duration)
  }

  /** Normalising a whole list, position by position. */
  function NormalizeAll(ss: seq<RawSegment>): (cs: seq<Caption>)
    ensures |cs| == |ss|
    ensures forall k :: 0 <= k < |ss| ==> cs[k] == Normalize(ss[k])
  {
    seq(|ss|, k requires 0 <= k < |ss| => Normalize(ss[k]))
  }

  /** `x?.length`: absent for an absent field. */
  function OptLength(x: Option<string>): (n: Option<nat>)
    ensures n.Some? <==> x.Some?
    ensures x.Some? ==> n.value == |x.value|
  {
    match x
    case Some(t) => Some(|t|)
    case None => None
  }

  /** `a || b || fallback` over lengths, where 0 and absent are falsy. */
  function OrLength(a: Option<nat>, b: Option<nat>, fallback: nat): (n: nat)
    ensures a.Some? && a.value != 0 ==> n == a.value
    ensures !(a.Some? && a.value != 0) && b.Some? && b.value != 0 ==> n == b.value
    ensures !(a.Some? && a.value != 0) && !(b.Some? && b.value != 0) ==> n == fallback
  {
    if a.Some? && a.value != 0 then a.value else if b.Some? && b.value != 0 then b.value else fallback
  }

  /** `Math.ceil(segment.text?.length || segment.content?.length || 0 / 4)`.
      The division binds to the literal 0, and `Math.ceil` of a length is the
      length itself, so the estimate is the length of the first non-empty
      field, not a quarter of it. */
  function SegmentTokens(text: Option<string>, content: Option<string>): (t: nat)
    ensures TruthyText(text) ==> t == |text.value|
    ensures !TruthyText(text) && TruthyText(content) ==> t == |content.value|
    ensures !TruthyText(text) && !TruthyText(content) ==> t == 0
  {
    OrLength(OptLength(text), OptLength(content), 0 / 4)
  }

  /** The estimate the grouping loop computes for a normalised segment, which
      has a `text` field and no `content` field. */
  function Tokens(c: Caption): (t: nat)
    ensures t == |c.text|
    ensures c.text != "" ==> t > |c.text| / 4
  {
    SegmentTokens(Some(c.text), None)
  }

  /** Estimating a segment before or after normalisation gives the same
      count: the length of its normalised text. */
  lemma TokensOfNormalized(s: RawSegment)
    ensures Tokens(Normalize(s)) == |Normalize(s).text| == SegmentTokens(s.text, s.content)
  {
  }

  /** The summed estimate of a chunk. */
  function TokenSum(chunk: seq<Caption>): nat
  {
    if chunk == [] then 0 else TokenSum(chunk[..|chunk| - 1]) + Tokens(chunk[|chunk| - 1])
  }

  /** All chunks, one after the other. */
  function Flatten(chunks: seq<seq<Caption>>): seq<Caption>
  {
    if chunks == [] then [] else Flatten(chunks[..|chunks| - 1]) + chunks[|chunks| - 1]
  }

  /** The budget `groupTranscriptSegments` is called with. */
  const DefaultMaxTokens: nat := 1500

  /** The shape `groupTranscriptSegments` gives its chunks: none is empty,
      each stays within the budget unless it is a single segment, and each
      was closed only because the first segment of the next would have taken
      it over the budget. */
  predicate Grouped(chunks: seq<seq<Caption>>, maxTokens: nat)
  {
    && (forall k :: 0 <= k < |chunks| ==> chunks[k] != [])
    && (forall k :: 0 <= k < |chunks| ==> |chunks[k]| == 1 || TokenSum(chunks[k]) <= maxTokens)
    && (forall k :: 0 <= k < |chunks| - 1 ==> TokenSum(chunks[k]) + Tokens(chunks[k + 1][0]) > maxTokens)
  }

  /** The state `groupTranscriptSegments` keeps between segments: the closed
      chunks are `Grouped`, the running count is the open chunk's estimate,
      the open chunk is within the budget unless it holds one segment, and
      the last closed chunk could not take the open chunk's first segment. */
  predicate Chunking(chunks: seq<seq<Caption>>, current: seq<Caption>, count: nat, maxTokens: nat)
  {
    && Grouped(chunks, maxTokens)
    && count == TokenSum(current)
    && (|current| <= 1 || count <= maxTokens)
    && (chunks != [] ==> current != [] && TokenSum(chunks[|chunks| - 1]) + Tokens(current[0]) > maxTokens)
  }

  /** `groupTranscriptSegments`: greedy chunking. The chunks put back
      together are the input, and they are `Grouped`. */
  method GroupTranscriptSegments(segments: seq<Caption>, maxTokens: nat) returns (chunks: seq<seq<Caption>>)
    ensures Flatten(chunks) == segments
    ensures segments == [] <==> chunks == []
    ensures Grouped(chunks, maxTokens)
  {
    chunks := [];
    var currentChunk: seq<Caption> := [];
    var currentTokenCount := 0;
    for i := 0 to |segments|
      invariant Flatten(chunks) + currentChunk == segments[..i]
      invariant i > 0 <==> currentChunk != []
      invariant Chunking(chunks, currentChunk, currentTokenCount, maxTokens)
    {
      assert segments[..i + 1] == segments[..i] + [segments[i]];
      chunks, currentChunk, currentTokenCount := AddSegment(chunks, currentChunk, currentTokenCount, segments[i], maxTokens);
    }
    if |currentChunk| > 0 {
      FlattenAppend(chunks, currentChunk);
      GroupedAppend(chunks, currentChunk, maxTokens);
      chunks := chunks + [currentChunk];
    }
    assert segments[..|segments|] == segments;
  }

  /** One turn of the loop: the segment either closes the open chunk and
      starts a new one (when it would take a non-empty chunk over the
      budget) or joins the open chunk. */
  method AddSegment(chunks: seq<seq<Caption>>, current: seq<Caption>, count: nat, segment: Caption, maxTokens: nat)
    returns (chunks': seq<seq<Caption>>, current': seq<Caption>, count': nat)
    requires Chunking(chunks, current, count, maxTokens)
    ensures Chunking(chunks', current', count', maxTokens)
    ensures current' != []
    ensures Flatten(chunks') + current' == Flatten(chunks) + current + [segment]
    ensures count + Tokens(segment) > maxTokens && current != [] ==> chunks' == chunks + [current] && current' == [segment]
    ensures count + Tokens(segment) <= maxTokens || current == [] ==> chunks' == chunks && current' == current + [segment]
  {
    var segmentTokenCount := Tokens(segment);
    if count + segmentTokenCount > maxTokens && |current| > 0 {
      ChunkingClose(chunks, current, count, segment, maxTokens);
      chunks' := chunks + [current];
      current' := [segment];
      count' := segmentTokenCount;
    } else {
      ChunkingExtend(chunks, current, count, segment, maxTokens);
      chunks' := chunks;
      current' := current + [segment];
      count' := count + segmentTokenCount;
    }
  }

  /** Closing the open chunk keeps `Chunking` and the segments' order. */
  lemma ChunkingClose(chunks: seq<seq<Caption>>, current: seq<Caption>, count: nat, segment: Caption, maxTokens: nat)
    requires Chunking(chunks, current, count, maxTokens)
    requires count + Tokens(segment) > maxTokens && current != []
    ensures Chunking(chunks + [current], [segment], Tokens(segment), maxTokens)
    ensures Flatten(chunks + [current]) + [segment] == Flatten(chunks) + current + [segment]
  {
    FlattenAppend(chunks, current);
    GroupedAppend(chunks, current, maxTokens);
    TokenSumAppend([], segment);
    assert (chunks + [current])[|chunks|] == current;
  }

  /** Growing the open chunk, when it is empty or the segment fits, keeps `Chunking`. */
  lemma ChunkingExtend(chunks: seq<seq<Caption>>, current: seq<Caption>, count: nat, segment: Caption, maxTokens: nat)
    requires Chunking(chunks, current, count, maxTokens)
    requires count + Tokens(segment) <= maxTokens || current == []
    ensures Chunking(chunks, current + [segment], count + Tokens(segment), maxTokens)
  {
    TokenSumAppend(current, segment);
    if current != [] {
      assert (current + [segment])[0] == current[0];
    } else {
      assert chunks == [];
    }
  }

  /** Closing one more chunk that fits the shape keeps the chunks `Grouped`. */
  lemma GroupedAppend(chunks: seq<seq<Caption>>, c: seq<Caption>, maxTokens: nat)
    requires Grouped(chunks, maxTokens)
    requires c != [] && (|c| == 1 || TokenSum(c) <= maxTokens)
    requires chunks != [] ==> TokenSum(chunks[|chunks| - 1]) + Tokens(c[0]) > maxTokens
    ensures Grouped(chunks + [c], maxTokens)
  {
    var all := chunks + [c];
    forall k | 0 <= k < |all|
      ensures all[k] != [] && (|all[k]| == 1 || TokenSum(all[k]) <= maxTokens)
    {
      if k < |chunks| { assert all[k] == chunks[k]; } else { assert all[k] == c; }
    }
    forall k | 0 <= k < |all| - 1
      ensures TokenSum(all[k]) + Tokens(all[k + 1][0]) > maxTokens
    {
      assert all[k] == chunks[k];
      if k + 1 < |chunks| { assert all[k + 1] == chunks[k + 1]; } else { assert all[k + 1] == c; }
    }
  }

  lemma FlattenAppend(chunks: seq<seq<Caption>>, c: seq<Caption>)
    ensures Flatten(chunks + [c]) == Flatten(chunks) + c
  {
    assert (chunks + [c])[..|chunks|] == chunks;
  }

  lemma TokenSumAppend(chunk: seq<Caption>, s: Caption)
    ensures TokenSum(chunk + [s]) == TokenSum(chunk) + Tokens(s)
  {
    assert (chunk + [s])[..|chunk|] == chunk;
  }

  /** `Math.floor`. */
  function Floor(x: real): int
  {
    x.Floor
  }

  /** JavaScript's `a % 60`: the remainder keeps the sign of `a`
      (truncating division). */
  function Remainder60(a: real): (r: real)
    ensures a >= 0.0 ==> 0.0 <= r < 60.0 && r == a - 60.0 * Floor(a / 60.0) as real
    ensures a < 0.0 ==> -60.0 < r <= 0.0
  {
    var q := a / 60.0;
    var t := if q >= 0.0 then q.Floor else -((-q).Floor);
    a - 60.0 * t as real
  }

  /** `x.toString().padStart(2, '0')`. */
  function PadStart2(x: string): (r: string)
    ensures |x| >= 2 ==> r == x
    ensures |x| < 2 ==> |r| == 2 && r[2 - |x|..] == x
  {
    if |x| == 0 then "00" else if |x| == 1 then "0" + x else x
  }

  /** `formatTime`: minutes, a colon, and seconds padded to two characters. */
  function FormatTime(seconds: real): (r: string)
    ensures |r| >= 1 && (seconds < 0.0 <==> r[0] == '-')
    ensures seconds >= 0.0 ==> |r| >= 4 && r[|r| - 3] == ':' && AllDigits(r[|r| - 2..])
  {
    var secs := Floor(Remainder60(seconds));
    var text := IntToString(Floor(seconds / 60.0)) + ":" + PadStart2(IntToString(secs));
    if seconds >= 0.0 then PaddedSeconds(secs); text else text
  }

  /** For a non-negative time the text is "m:ss": two seconds digits below
      60, and minutes and seconds that add back up to the whole seconds. */
  lemma FormatTimeReadsBack(seconds: real)
    requires seconds >= 0.0
    ensures var parts := Split(FormatTime(seconds), ':');
            && |parts| == 2 && AllDigits(parts[0]) && AllDigits(parts[1]) && |parts[1]| == 2
            && DigitsValue(parts[1]) < 60
            && DigitsValue(parts[0]) * 60 + DigitsValue(parts[1]) == Floor(seconds)
  {
    var m := Floor(seconds / 60.0);
    var secs := Floor(Remainder60(seconds));
    assert m >= 0 && 0 <= secs < 60;
    assert m * 60 + secs == Floor(seconds);
    var ms, padded := NatToString(m), PadStart2(NatToString(secs));
    NatToStringRoundTrip(m);
    PaddedSeconds(secs);
    assert FormatTime(seconds) == ms + ":" + padded;
    SplitDigitsAtColon(ms, padded);
  }

  /** Seconds below 60, padded, are two digits that read back as the seconds. */
  lemma PaddedSeconds(secs: nat)
    requires secs < 60
    ensures var padded := PadStart2(NatToString(secs));
            AllDigits(padded) && |padded| == 2 && DigitsValue(padded) == secs
  {
    var ss := NatToString(secs);
    var padded := PadStart2(ss);
    NatToStringRoundTrip(secs);
    if |ss| == 1 {
      assert padded == "0" + ss;
      assert padded[..1] == "0";
    }
  }

  /** Two digit strings joined by ':' split back into the two. */
  lemma SplitDigitsAtColon(a: string, b: string)
    requires AllDigits(a) && AllDigits(b)
    ensures Split(a + ":" + b, ':') == [a, b]
  {
    var text := a + ":" + b;
    assert ':' !in a by {
      forall k | 0 <= k < |a| ensures a[k] != ':' { assert IsDigit(a[k]); }
    }
    assert ':' !in b by {
      forall k | 0 <= k < |b| ensures b[k] != ':' { assert IsDigit(b[k]); }
    }
    assert text[..|a|] == a && text[|a|] == ':' && text[|a| + 1..] == b;
    assert IndexOf(text, ':') == |a|;
  }

  /** The route's answer: a client error for a link without an id, not found
      when no subtitles came back, the chunks otherwise (their summaries are
      produced elsewhere), and a server error when the request has no link. */
  datatype RouteResponse =
    | ServerError
    | BadRequest
    | NotFound
    | Analyzed(chunks: seq<seq<Caption>>)

  /** `POST /analyze-youtube`. The caption-provider chain is the parameter
      `fetchSubtitles`, which yields `[]` when every provider fails. A missing
      `youtubeUrl` makes `url.match` throw, which the route's catch turns
      into a 500. */
  method AnalyzeYoutube(youtubeUrl: Option<string>, fetchSubtitles: string -> seq<RawSegment>) returns (res: RouteResponse)
    ensures youtubeUrl.None? <==> res == ServerError
    ensures youtubeUrl.Some? && VideoLinks.ExtractVideoId(youtubeUrl.value).None? <==> res == BadRequest
    ensures res == NotFound <==>
              youtubeUrl.Some? && VideoLinks.ExtractVideoId(youtubeUrl.value).Some?
              && fetchSubtitles(VideoLinks.ExtractVideoId(youtubeUrl.value).value) == []
    ensures res.Analyzed? ==>
              && youtubeUrl.Some? && VideoLinks.ExtractVideoId(youtubeUrl.value).Some?
              && Flatten(res.chunks) == NormalizeAll(fetchSubtitles(VideoLinks.ExtractVideoId(youtubeUrl.value).value))
              && res.chunks != []
              && Grouped(res.chunks, DefaultMaxTokens)
  {
    if youtubeUrl.None? {
      return ServerError;
    }
    var videoId := VideoLinks.ExtractVideoId(youtubeUrl.value);
    if videoId.None? {
      return BadRequest;
    }
    var subtitles := fetchSubtitles(videoId.value);
    if |subtitles| == 0 {
      return NotFound;
    }
    var formatted := NormalizeAll(subtitles);
    var chunks := GroupTranscriptSegments(formatted, DefaultMaxTokens);
    res := Analyzed(chunks);
  }
}
