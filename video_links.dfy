/** Recognising a YouTube video id in a link, shared by the transcript route
    and the study-flow page, which use the same pattern
    `/^.*(youtu.be\/|v\/|u\/\w\/|embed\/|watch\?v=|&v=)([^#&?]*).*\/`.

    The pattern is written out as a scanner. The leading `.*` is greedy and
    does not cross a line terminator, so the marker that counts is the one
    starting furthest right on the first line; the six markers begin with six
    different characters, so at most one of them starts at any position; the
    id is then the longest run of characters other than '#', '&' and '?'
    (which may cross lines), and the final `.*` always succeeds. */
module VideoLinks {
  import opened Wrappers
  import opened Strings

  /** A character of the `\w` class. */
  predicate IsWordChar(c: char)
  {
    ('a' <= c <= 'z') || ('A' <= c <= 'Z') || ('0' <= c <= '9') || c == '_'
  }

  /** `s` has `lit` at position `p`. */
  predicate HasAt(s: string, p: nat, lit: string)
  {
    p + |lit| <= |s| && s[p..p + |lit|] == lit
  }

  /** The length of the marker that starts at `p`, or 0 when none does. */
  function MarkerLength(s: string, p: nat): (n: nat)
    ensures n > 0 ==> p + n <= |s|
    ensures n > 0 ==> n in {2, 3, 4, 6, 8, 9}
  {
    if p + 9 <= |s| && s[p..p + 5] == "youtu" && !IsLineTerminator(s[p + 5]) && s[p + 6..p + 9] == "be/" then 9
    else if HasAt(s, p, "v/") then 2
    else if p + 4 <= |s| && s[p] == 'u' && s[p + 1] == '/' && IsWordChar(s[p + 2]) && s[p + 3] == '/' then 4
    else if HasAt(s, p, "embed/") then 6
    else if HasAt(s, p, "watch?v=") then 8
    else if HasAt(s, p, "&v=") then 3
    else 0
  }

  /** How far the leading `.*` can reach: the first line terminator, or the end. */
  function LineEnd(s: string, from: nat): (e: nat)
    requires from <= |s|
    ensures from <= e <= |s|
    ensures forall k :: from <= k < e ==> !IsLineTerminator(s[k])
    ensures e < |s| ==> IsLineTerminator(s[e])
    decreases |s| - from
  {
    if from == |s| || IsLineTerminator(s[from]) then from else LineEnd(s, from + 1)
  }

  /** The rightmost position at or below `p` where a marker starts. */
  function LastMarker(s: string, p: nat): (r: Option<nat>)
    requires p <= |s|
    ensures r.Some? ==> r.value <= p && MarkerLength(s, r.value) > 0
    decreases p
  {
    if MarkerLength(s, p) > 0 then Some(p)
    else if p == 0 then None
    else LastMarker(s, p - 1)
  }

  /** The end of the `[^#&?]*` run that starts at `i`. */
  function IdEnd(s: string, i: nat): (j: nat)
    requires i <= |s|
    ensures i <= j <= |s|
    ensures j == |s| || s[j] in "#&?"
    ensures forall k :: i <= k < j ==> s[k] !in "#&?"
    decreases |s| - i
  {
    if i < |s| && s[i] !in "#&?" then IdEnd(s, i + 1) else i
  }

  /** `id` is the whole `[^#&?]*` run that starts at `start` in `s`. */
  predicate IsIdRun(s: string, start: nat, id: string)
  {
    && start + |id| <= |s| && s[start..start + |id|] == id
    && (start + |id| == |s| || s[start + |id|] in "#&?")
    && forall k :: 0 <= k < |id| ==> id[k] !in "#&?"
  }

  lemma IdEndIsRun(s: string, start: nat)
    requires start <= |s|
    ensures IsIdRun(s, start, s[start..IdEnd(s, start)])
  {
    var id := s[start..IdEnd(s, start)];
    assert forall k :: 0 <= k < |id| ==> id[k] == s[start + k];
  }

  /** `match[2]`: the captured id candidate, or `None` when the pattern fails:
      the pattern matches exactly when a marker starts on the first line, and
      the candidate is then the whole run of characters other than '#', '&'
      and '?' right after the rightmost such marker. */
  function IdCandidate(url: string): (r: Option<string>)
    ensures r.Some? <==> LastMarker(url, LineEnd(url, 0)).Some?
    ensures r.Some? ==>
              var p := LastMarker(url, LineEnd(url, 0)).value;
              IsIdRun(url, p + MarkerLength(url, p), r.value)
  {
    match LastMarker(url, LineEnd(url, 0))
    case None => None
    case Some(p) =>
      var start := p + MarkerLength(url, p);
      IdEndIsRun(url, start);
      Some(url[start..IdEnd(url, start)])
  }

  /** `extractVideoId` of the transcript route: the candidate when it has
      exactly 11 characters, otherwise nothing. */
  function ExtractVideoId(url: string): (r: Option<string>)
    ensures r.Some? ==> |r.value| == 11 && '#' !in r.value && '&' !in r.value && '?' !in r.value
    ensures r.Some? <==> IdCandidate(url).Some? && |IdCandidate(url).value| == 11
    ensures r.Some? ==> r == IdCandidate(url)
  {
    match IdCandidate(url)
    case Some(id) =>
      if |id| == 11 then
        assert forall k :: 0 <= k < |id| ==> id[k] !in "#&?";
        Some(id)
      else None
    case None => None
  }

  /** The id is read after the marker that starts furthest right on the
      first line: given such a marker `m`, the result is the run after it,
      kept when it has 11 characters. */
  lemma ExtractAfterRightmostMarker(url: string, m: nat)
    requires m <= LineEnd(url, 0) && MarkerLength(url, m) > 0
    requires forall q :: m < q <= LineEnd(url, 0) ==> MarkerLength(url, q) == 0
    ensures var start := m + MarkerLength(url, m);
            var id := url[start..IdEnd(url, start)];
            ExtractVideoId(url) == if |id| == 11 then Some(id) else None
  {
    LastMarkerFinds(url, LineEnd(url, 0), m);
  }

  /** Without a marker on the first line there is no id. */
  lemma NoMarkerNoId(url: string)
    requires forall q :: 0 <= q <= LineEnd(url, 0) ==> MarkerLength(url, q) == 0
    ensures ExtractVideoId(url).None?
  {
    LastMarkerNone(url, LineEnd(url, 0));
  }

  /** With no marker at or below `p`, the search finds none. */
  lemma {:induction false} LastMarkerNone(s: string, p: nat)
    requires p <= |s|
    requires forall q :: 0 <= q <= p ==> MarkerLength(s, q) == 0
    ensures LastMarker(s, p).None?
    decreases p
  {
    if p > 0 {
      LastMarkerNone(s, p - 1);
    }
  }

  /** The search finds the rightmost marker: none starts between it and `p`. */
  lemma {:induction false} LastMarkerRightmost(s: string, p: nat, q: nat)
    requires q <= p <= |s|
    requires LastMarker(s, p).None? || LastMarker(s, p).value < q
    ensures MarkerLength(s, q) == 0
    decreases p
  {
    if q < p {
      LastMarkerRightmost(s, p - 1, q);
    }
  }

  /** Conversely, a marker with none after it (up to `p`) is the one found. */
  lemma {:induction false} LastMarkerFinds(s: string, p: nat, m: nat)
    requires m <= p <= |s| && MarkerLength(s, m) > 0
    requires forall q :: m < q <= p ==> MarkerLength(s, q) == 0
    ensures LastMarker(s, p) == Some(m)
    decreases p
  {
    if p > m {
      LastMarkerFinds(s, p - 1, m);
    }
  }

  /** A marker starts with 'y', 'v', 'u', 'e', 'w' or '&', and "v/" is the
      only one that starts with 'v'. */
  lemma MarkerStart(s: string, q: nat)
    ensures MarkerLength(s, q) > 0 ==> s[q] in "yvuew&"
    ensures MarkerLength(s, q) > 0 && s[q] == 'v' ==> s[q + 1] == '/'
  {
    if q + 2 <= |s| { assert s[q..q + 2][0] == s[q] && s[q..q + 2][1] == s[q + 1]; }
    if q + 3 <= |s| { assert s[q..q + 3][0] == s[q]; }
    if q + 5 <= |s| { assert s[q..q + 5][0] == s[q]; }
    if q + 6 <= |s| { assert s[q..q + 6][0] == s[q]; }
    if q + 8 <= |s| { assert s[q..q + 8][0] == s[q]; }
  }

  /** An id character that can never begin or belong to a marker. */
  predicate IsIdChar(c: char)
  {
    c !in "#&?/" && !IsLineTerminator(c)
  }

  /** No marker starts inside a run of id characters that ends the string:
      every marker holds a '/', a '?' or a '&' after its first character. */
  lemma NoMarkerInId(s: string, from: nat, q: nat)
    requires from <= q <= |s|
    requires forall k :: from <= k < |s| ==> IsIdChar(s[k])
    ensures MarkerLength(s, q) == 0
  {
    if q + 2 <= |s| { assert s[q + 1] != '/' && s[q..q + 2][1] == s[q + 1]; }
    if q + 3 <= |s| { assert s[q] != '&' && s[q..q + 3][0] == s[q]; }
    if q + 6 <= |s| { assert s[q + 5] != '/' && s[q..q + 6][5] == s[q + 5]; }
    if q + 8 <= |s| { assert s[q + 5] != '?' && s[q..q + 8][5] == s[q + 5]; }
    if q + 9 <= |s| { assert s[q + 8] != '/' && s[q + 6..q + 9][2] == s[q + 8]; }
  }

  /** A watch link round-trips: whatever single line comes before
      "watch?v=", an 11-character id of plain characters at the end is
      returned unchanged. */
  lemma WatchLinkRoundTrip(prefix: string, id: string)
    requires forall k :: 0 <= k < |prefix| ==> !IsLineTerminator(prefix[k])
    requires |id| == 11 && forall k :: 0 <= k < |id| ==> IsIdChar(id[k])
    ensures ExtractVideoId(prefix + "watch?v=" + id) == Some(id)
  {
    var url := prefix + "watch?v=" + id;
    var start := |prefix| + 8;
    WatchMarkerAt(prefix, id);
    WatchLinkOneLine(prefix, id);
    NoMarkerAfterWatch(prefix, id);
    LastMarkerFinds(url, |url|, |prefix|);
    WatchIdRunsToEnd(prefix, id);
    assert url[start..|url|] == id;
  }

  /** In a watch link the "watch?v=" marker starts right after the prefix. */
  lemma WatchMarkerAt(prefix: string, id: string)
    ensures MarkerLength(prefix + "watch?v=" + id, |prefix|) == 8
  {
    var url := prefix + "watch?v=" + id;
    var m := |prefix|;
    assert url[m..m + 8] == "watch?v=";
    assert url[m] == 'w';
    assert !HasAt(url, m, "v/") && !HasAt(url, m, "embed/") by { assert url[m..m + 1] == "w"; }
  }

  /** A watch link over a single-line prefix and a plain id is one line. */
  lemma WatchLinkOneLine(prefix: string, id: string)
    requires forall k :: 0 <= k < |prefix| ==> !IsLineTerminator(prefix[k])
    requires forall k :: 0 <= k < |id| ==> IsIdChar(id[k])
    ensures LineEnd(prefix + "watch?v=" + id, 0) == |prefix + "watch?v=" + id|
  {
    var url := prefix + "watch?v=" + id;
    var m, start := |prefix|, |prefix| + 8;
    forall k | 0 <= k < |url| ensures !IsLineTerminator(url[k]) {
      if k < m { assert url[k] == prefix[k]; }
      else if k >= start { assert url[k] == id[k - start]; }
      else { assert url[k] == "watch?v="[k - m]; }
    }
  }

  /** No marker starts after the "watch?v=" of a watch link with a plain id. */
  lemma NoMarkerAfterWatch(prefix: string, id: string)
    requires forall k :: 0 <= k < |id| ==> IsIdChar(id[k])
    ensures forall q :: |prefix| < q <= |prefix + "watch?v=" + id| ==> MarkerLength(prefix + "watch?v=" + id, q) == 0
  {
    var url := prefix + "watch?v=" + id;
    var m, start := |prefix|, |prefix| + 8;
    forall k | start <= k < |url| ensures IsIdChar(url[k]) { assert url[k] == id[k - start]; }
    forall q | m < q <= |url| ensures MarkerLength(url, q) == 0 {
      if q >= start {
        NoMarkerInId(url, start, q);
      } else {
        MarkerStart(url, q);
        assert url[q] == "watch?v="[q - m];
        if q == m + 6 { assert url[q + 1] == '='; }
      }
    }
  }

  /** The id of a watch link with a plain id runs to the end of the link. */
  lemma WatchIdRunsToEnd(prefix: string, id: string)
    requires forall k :: 0 <= k < |id| ==> IsIdChar(id[k])
    ensures IdEnd(prefix + "watch?v=" + id, |prefix| + 8) == |prefix + "watch?v=" + id|
  {
    var url := prefix + "watch?v=" + id;
    var start := |prefix| + 8;
    forall k | start <= k < |url| ensures url[k] !in "#&?" { assert url[k] == id[k - start]; }
    IdEndRun(url, start);
  }

  /** `IdEnd` runs to the end of the string over characters it accepts. */
  lemma {:induction false} IdEndRun(s: string, i: nat)
    requires i <= |s|
    requires forall k :: i <= k < |s| ==> s[k] !in "#&?"
    ensures IdEnd(s, i) == |s|
    decreases |s| - i
  {
    if i < |s| {
      IdEndRun(s, i + 1);
    }
  }
}
