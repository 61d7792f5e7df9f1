/** The smart-journey planner: a journey spreads a playlist's videos over a
    number of days; the page plays one video at a time, keeps notes per
    video, tracks which videos were watched and the percentage watched.

    Videos are objects: the page assigns `watched` and `notes` on them in
    place. The `mockVideos` literal is evaluated anew on every render; the
    three mock journeys loaded on mount share the first render's objects,
    while a journey created from the form gets the objects of the render
    in which the button was clicked. */
module SmartJourney {
  import opened Wrappers
  import opened Strings

  class Video {
    const id: string
    const title: string
    const order: nat
    var watched: bool
    var notes: string

    constructor (id: string, title: string, order: nat, watched: bool, notes: string)
      ensures this.id == id && this.title == title && this.order == order
      ensures this.watched == watched && this.notes == notes
    {
      this.id := id;
      this.title := title;
      this.order := order;
      this.watched := watched;
      this.notes := notes;
    }
  }

  /** The fields a video literal of the page starts with. */
  datatype VideoData = VideoData(id: string, title: string, order: nat, watched: bool, notes: string)

  /** The five entries of the `mockVideos` literal. */
  const MockVideoData: seq<VideoData> := [
    VideoData("dGcsHMXfRto", "Introduction to React Hooks", 1, true,
              "useState and useEffect are the most important hooks to understand"),
    VideoData("1gZAqJA2pEk", "Advanced React Patterns", 2, false, ""),
    VideoData("5LrDIWkK_Bc", "State Management with Context API", 3, false, ""),
    VideoData("rfscVS0vtbw", "JavaScript Crash Course", 4, false, ""),
    VideoData("o3IIobN4xR0", "Building a REST API with Node.js", 5, false, "")]

  /** The video object `v` holds the fields `d`. */
  predicate Holds(v: Video, d: VideoData)
    reads v
  {
    v.id == d.id && v.title == d.title && v.order == d.order && v.watched == d.watched && v.notes == d.notes
  }

  /** The videos hold the fields of the `mockVideos` literal, one for one. */
  predicate HoldMockData(vs: seq<Video>)
    reads vs
  {
    |vs| == |MockVideoData| && forall k :: 0 <= k < |vs| ==> Holds(vs[k], MockVideoData[k])
  }

  /** Evaluating the `mockVideos` literal, as every render of the page does:
      five new, distinct video objects holding the literal's fields. */
  method NewMockVideos() returns (vs: seq<Video>)
    ensures HoldMockData(vs)
    ensures forall k :: 0 <= k < |vs| ==> fresh(vs[k])
    ensures forall k, m :: 0 <= k < m < |vs| ==> vs[k] != vs[m]
  {
    var d := MockVideoData;
    var v1 := new Video(d[0].id, d[0].title, d[0].order, d[0].watched, d[0].notes);
    var v2 := new Video(d[1].id, d[1].title, d[1].order, d[1].watched, d[1].notes);
    var v3 := new Video(d[2].id, d[2].title, d[2].order, d[2].watched, d[2].notes);
    var v4 := new Video(d[3].id, d[3].title, d[3].order, d[3].watched, d[3].notes);
    var v5 := new Video(d[4].id, d[4].title, d[4].order, d[4].watched, d[4].notes);
    vs := [v1, v2, v3, v4, v5];
  }

  datatype Journey = Journey(
    id: string, title: string, playlistUrl: string, totalVideos: nat, totalDays: int,
    videos: seq<Video>, currentVideoIndex: nat, focusScore: nat, streak: nat, progress: nat)

  datatype DayPlan = DayPlan(day: nat, videos: seq<Video>)

  datatype View = ListView | CreateView | DetailView

  function Min(a: int, b: int): int { if a <= b then a else b }

  /** `Math.ceil(a / b)` for a positive `b`. */
  function CeilDiv(a: nat, b: nat): (q: nat)
    requires b > 0
    ensures q * b >= a && (q == 0 || (q - 1) * b < a)
  {
    var q := (a + b - 1) / b;
    DivBounds(a + b - 1, b);
    assert (q - 1) * b == q * b - b by { Distribute(q, b); }
    q
  }

  /** Euclidean division brackets its dividend. */
  lemma DivBounds(a: nat, d: nat)
    requires d > 0
    ensures (a / d) * d <= a < (a / d) * d + d
  {
    assert a == (a / d) * d + a % d;
  }

  lemma Distribute(q: int, b: int)
    ensures (q - 1) * b == q * b - b
  {
  }

  /** Multiplying by a non-negative factor keeps the order. */
  lemma {:induction false} MulMonotone(x: int, y: int, d: nat)
    requires x <= y
    ensures x * d <= y * d
    decreases d
  {
    if d > 0 {
      MulMonotone(x, y, d - 1);
      assert x * d == x * (d - 1) + x;
      assert y * d == y * (d - 1) + y;
    }
  }

  /** `Math.ceil(videos.length / totalDays)`. */
  function VideosPerDay(n: nat, totalDays: int): nat
    requires totalDays > 0
  {
    CeilDiv(n, totalDays)
  }

  /** `s.slice(a, b)` for non-negative bounds: both are clamped to the
      length, and a start past the end gives the empty list. */
  function Slice<T>(s: seq<T>, a: nat, b: nat): (r: seq<T>)
    ensures |r| <= |s|
    ensures a <= b <= |s| ==> r == s[a..b]
  {
    var lo := Min(a, |s|);
    var hi := Min(b, |s|);
    if lo >= hi then [] else s[lo..hi]
  }

  /** The videos of day `day` (counted from 1) of the schedule. */
  function DaySlice(videos: seq<Video>, totalDays: int, day: nat): seq<Video>
    requires totalDays > 0 && day >= 1
  {
    var vpd := VideosPerDay(|videos|, totalDays);
    var startIndex := (day - 1) * vpd;
    Slice(videos, startIndex, Min(startIndex + vpd, |videos|))
  }

  /** The days of a schedule, one after the other. */
  function ConcatDays(plans: seq<DayPlan>): seq<Video>
  {
    if plans == [] then [] else ConcatDays(plans[..|plans| - 1]) + plans[|plans| - 1].videos
  }

  /** `generateDailySchedule`: one entry per day, numbered from 1, each
      holding that day's slice of the videos. */
  method GenerateDailySchedule(videos: seq<Video>, totalDays: int) returns (schedule: seq<DayPlan>)
    ensures |schedule| == if totalDays > 0 then totalDays else 0
    ensures forall k :: 0 <= k < |schedule| ==>
              totalDays > 0 && schedule[k] == DayPlan(k + 1, DaySlice(videos, totalDays, k + 1))
  {
    schedule := [];
    if totalDays <= 0 {
      return;
    }
    var videosPerDay := CeilDiv(|videos|, totalDays);
    var day := 1;
    while day <= totalDays
      invariant 1 <= day <= totalDays + 1
      invariant |schedule| == day - 1
      invariant forall k :: 0 <= k < |schedule| ==> schedule[k] == DayPlan(k + 1, DaySlice(videos, totalDays, k + 1))
    {
      var startIndex := (day - 1) * videosPerDay;
      var endIndex := Min(startIndex + videosPerDay, |videos|);
      var dayVideos := Slice(videos, startIndex, endIndex);
      schedule := schedule + [DayPlan(day, dayVideos)];
      day := day + 1;
    }
  }

  /** The schedule as a value: what `GenerateDailySchedule` produces. */
  function Schedule(videos: seq<Video>, totalDays: int): (plans: seq<DayPlan>)
    requires totalDays > 0
    ensures |plans| == totalDays
  {
    seq(totalDays, k requires 0 <= k < totalDays => DayPlan(k + 1, DaySlice(videos, totalDays, k + 1)))
  }

  /** The first `k` days hold exactly the first `min(k * vpd, n)` videos. */
  lemma {:induction false} SchedulePrefix(videos: seq<Video>, totalDays: int, k: nat)
    requires totalDays > 0 && k <= totalDays
    ensures ConcatDays(Schedule(videos, totalDays)[..k]) == videos[..Min(k * VideosPerDay(|videos|, totalDays), |videos|)]
  {
    var plans := Schedule(videos, totalDays);
    if k == 0 {
      assert plans[..0] == [];
    } else {
      var vpd := VideosPerDay(|videos|, totalDays);
      MulMonotone(0, k - 1, vpd);
      var lo: nat := Min((k - 1) * vpd, |videos|);
      var hi: nat := Min(k * vpd, |videos|);
      SchedulePrefix(videos, totalDays, k - 1);
      DayIsBlock(videos, totalDays, k);
      PrefixStep(videos, plans, k, lo, hi);
    }
  }

  /** One more day extends the covered prefix by that day's block. */
  lemma PrefixStep(videos: seq<Video>, plans: seq<DayPlan>, k: nat, lo: nat, hi: nat)
    requires 1 <= k <= |plans| && lo <= hi <= |videos|
    requires ConcatDays(plans[..k - 1]) == videos[..lo]
    requires plans[k - 1].videos == videos[lo..hi]
    ensures ConcatDays(plans[..k]) == videos[..hi]
  {
    ConcatStep(plans, k);
    assert videos[..lo] + videos[lo..hi] == videos[..hi];
  }

  lemma ConcatStep(plans: seq<DayPlan>, k: nat)
    requires 1 <= k <= |plans|
    ensures ConcatDays(plans[..k]) == ConcatDays(plans[..k - 1]) + plans[k - 1].videos
  {
    assert plans[..k][..k - 1] == plans[..k - 1];
  }

  /** Day `k` holds the `k`-th block of `vpd` videos, cut at the end. */
  lemma DayIsBlock(videos: seq<Video>, totalDays: int, k: nat)
    requires totalDays > 0 && k >= 1
    ensures var vpd := VideosPerDay(|videos|, totalDays);
            && Min((k - 1) * vpd, |videos|) <= Min(k * vpd, |videos|)
            && DaySlice(videos, totalDays, k) == videos[Min((k - 1) * vpd, |videos|)..Min(k * vpd, |videos|)]
  {
    var vpd := VideosPerDay(|videos|, totalDays);
    var start := (k - 1) * vpd;
    assert start + vpd == k * vpd by { Distribute(k, vpd); }
    SliceClamped(videos, start, k * vpd);
  }

  /** A slice with clamped bounds. */
  lemma SliceClamped(videos: seq<Video>, start: nat, end: nat)
    requires start <= end
    ensures Slice(videos, start, Min(end, |videos|)) == videos[Min(start, |videos|)..Min(end, |videos|)]
  {
  }

  /** The days of the schedule put together are the playlist, in order;
      trailing days may be empty. */
  lemma ScheduleCoversVideos(videos: seq<Video>, totalDays: int)
    requires totalDays > 0
    ensures ConcatDays(Schedule(videos, totalDays)) == videos
  {
    var vpd := VideosPerDay(|videos|, totalDays);
    SchedulePrefix(videos, totalDays, totalDays);
    assert Schedule(videos, totalDays)[..totalDays] == Schedule(videos, totalDays);
    assert vpd * totalDays >= |videos|;
    assert totalDays * vpd == vpd * totalDays;
  }

  /** The header's "Day k": `Math.ceil((currentVideoIndex + 1) / videosPerDay)`. */
  function HeaderDay(n: nat, totalDays: int, i: nat): (d: nat)
    requires totalDays > 0 && n > 0
    ensures d >= 1 && (d - 1) * VideosPerDay(n, totalDays) <= i < d * VideosPerDay(n, totalDays)
  {
    CeilDiv(i + 1, VideosPerDay(n, totalDays))
  }

  /** The header names the schedule day that holds the current video. */
  lemma HeaderDayHoldsVideo(videos: seq<Video>, totalDays: int, i: nat)
    requires totalDays > 0 && i < |videos|
    ensures var d := HeaderDay(|videos|, totalDays, i);
            var vpd := VideosPerDay(|videos|, totalDays);
            && 1 <= d <= totalDays
            && (d - 1) * vpd <= i < (d - 1) * vpd + |DaySlice(videos, totalDays, d)|
            && DaySlice(videos, totalDays, d)[i - (d - 1) * vpd] == videos[i]
  {
    var n := |videos|;
    var vpd := VideosPerDay(n, totalDays);
    var d := HeaderDay(n, totalDays, i);
    CeilDivLocates(i, vpd, totalDays, n);
    var start := (d - 1) * vpd;
    SliceWithin(videos, start, start + vpd);
  }

  /** `ceil((i + 1) / vpd)` is the day whose block of `vpd` indices holds
      `i`, and with `vpd * days >= n > i` it is one of the `days` days. */
  lemma CeilDivLocates(i: nat, vpd: nat, days: int, n: nat)
    requires vpd > 0 && days > 0 && vpd * days >= n > i
    ensures var d := CeilDiv(i + 1, vpd);
            1 <= d <= days && (d - 1) * vpd <= i < (d - 1) * vpd + vpd
  {
    var d := CeilDiv(i + 1, vpd);
    assert d * vpd >= i + 1 && (d == 0 || (d - 1) * vpd < i + 1);
    assert d >= 1;
    Distribute(d, vpd);
    if d > days {
      MulMonotone(days, d - 1, vpd);
    }
  }

  /** A day's slice when its start lies inside the playlist. */
  lemma SliceWithin(videos: seq<Video>, start: nat, end: nat)
    requires start < |videos| && start <= end
    ensures Slice(videos, start, Min(end, |videos|)) == videos[start..Min(end, |videos|)]
  {
  }

  /** `toggleDayExpansion`: remove the day if it is listed, append it otherwise. */
  function ToggleDay(days: seq<int>, day: int): (r: seq<int>)
    ensures day in r <==> day !in days
    ensures forall d :: d != day ==> (d in r <==> d in days)
  {
    if day in days then Filter(days, day) else days + [day]
  }

  /** `days.filter(d => d !== day)`. */
  function Filter(days: seq<int>, day: int): (r: seq<int>)
    ensures forall d :: d in r <==> d in days && d != day
  {
    if days == [] then [] else Filter(days[..|days| - 1], day) + (if days[|days| - 1] == day then [] else [days[|days| - 1]])
  }

  /** Toggling the same day twice restores which days are expanded. */
  lemma ToggleDayTwice(days: seq<int>, day: int)
    ensures forall d :: d in ToggleDay(ToggleDay(days, day), day) <==> d in days
  {
  }

  /** The number of watched videos. */
  function WatchedCount(vs: seq<Video>): (c: nat)
    reads set v | v in vs
    ensures c <= |vs|
  {
    if vs == [] then 0
    else WatchedCount(vs[..|vs| - 1]) + (if vs[|vs| - 1].watched then 1 else 0)
  }

  /** The count depends on the videos' flags only. */
  twostate lemma WatchedCountFrame(vs: seq<Video>)
    requires forall k :: 0 <= k < |vs| ==> unchanged(vs[k])
    ensures WatchedCount(vs) == old(WatchedCount(vs))
  {
  }

  /** `Math.round(watched / total * 100)`, in exact arithmetic: the nearest
      whole percentage, halves rounded up. */
  function RoundPercent(watched: nat, total: nat): (p: nat)
    requires total > 0
    ensures watched <= total ==> p <= 100
  {
    var p := (200 * watched + total) / (2 * total);
    RoundPercentNearest(watched, total);
    p
  }

  /** The percentage is the nearest whole number to `100 * watched / total`,
      halves rounded up: `p - 1/2 <= 100 * watched / total < p + 1/2`. */
  lemma RoundPercentNearest(watched: nat, total: nat)
    requires total > 0
    ensures var p := (200 * watched + total) / (2 * total);
            && 2 * total * p <= 200 * watched + total < 2 * total * (p + 1)
            && (watched <= total ==> p <= 100)
  {
    var d := 2 * total;
    var p := (200 * watched + total) / d;
    DivBounds(200 * watched + total, d);
    assert d * (p + 1) == p * d + d;
    if watched <= total && p > 100 {
      MulMonotone(101, p, d);
    }
  }

  /** `journeys.map(j => j.id === id ? updated : j)`. */
  function ReplaceById(journeys: seq<Journey>, id: string, updated: Journey): (r: seq<Journey>)
    ensures |r| == |journeys|
    ensures forall k :: 0 <= k < |r| ==> r[k] == (if journeys[k].id == id then updated else journeys[k])
  {
    seq(|journeys|, k requires 0 <= k < |journeys| => if journeys[k].id == id then updated else journeys[k])
  }

  /** `parseInt(e.target.value) || 7`: `None` stands for NaN. */
  function DaysFromInput(parsed: Option<int>): (d: int)
    ensures d != 0
    ensures parsed.Some? && parsed.value != 0 ==> d == parsed.value
    ensures parsed.None? || parsed.value == 0 ==> d == 7
  {
    if parsed.Some? && parsed.value != 0 then parsed.value else 7
  }

  const PlaylistMissing: string := "Please enter a YouTube playlist URL"
  const TitleMissing: string := "Please enter a journey title"
  const DaysInvalid: string := "Please enter a valid number of days"

  /** The three journeys the page loads on mount; all share the first
      render's five mock videos (the second holds the first three). */
  function MockJourneys(mockVideos: seq<Video>): (js: seq<Journey>)
    requires |mockVideos| == 5
    ensures |js| == 3
    ensures forall k :: 0 <= k < 3 ==> js[k].currentVideoIndex < |js[k].videos|
  {
    var url := "https://www.youtube.com/playlist?list=PL4cUxeGkcC9gZD-Tvwfod2gaISzfRiP9d";
    [ Journey("journey-1", "React Development Masterclass", url, 15, 10, mockVideos, 2, 82, 5, 60),
      Journey("journey-2", "JavaScript Fundamentals", url, 12, 7, mockVideos[..3], 1, 75, 3, 45),
      Journey("journey-3", "Node.js Backend Development", url, 20, 14, mockVideos, 0, 68, 2, 20) ]
  }

  /** Everything on the page except the error message. */
  datatype PageState = PageState(
    journeys: seq<Journey>, journey: Option<Journey>, notes: string, isPlaying: bool,
    playlistUrl: string, journeyTitle: string, totalDays: int, loading: bool, view: View,
    dailySchedule: seq<DayPlan>, expandedDays: seq<int>)

  class JourneyPage {
    var journeys: seq<Journey>
    var journey: Option<Journey>
    var notes: string
    var isPlaying: bool
    var playlistUrl: string
    var journeyTitle: string
    var totalDays: int
    var error: string
    var loading: bool
    var view: View
    var dailySchedule: seq<DayPlan>
    var expandedDays: seq<int>
    /** The objects of the first render's `mockVideos`, which the mount effect uses. */
    const mockVideos: seq<Video>

    /** The selected journey points at one of its videos. */
    ghost predicate Valid()
      reads this
    {
      journey.Some? ==> journey.value.currentVideoIndex < |journey.value.videos|
    }

    ghost function Snapshot(): PageState
      reads this
    {
      PageState(journeys, journey, notes, isPlaying, playlistUrl, journeyTitle, totalDays, loading, view,
                dailySchedule, expandedDays)
    }

    constructor ()
      ensures Valid()
      ensures HoldMockData(mockVideos) && forall k :: 0 <= k < |mockVideos| ==> fresh(mockVideos[k])
      ensures journeys == [] && journey == None && notes == "" && !isPlaying
      ensures playlistUrl == "" && journeyTitle == "" && totalDays == 7 && error == "" && !loading
      ensures view == ListView && dailySchedule == [] && expandedDays == [1]
    {
      var firstRender := NewMockVideos();
      mockVideos := firstRender;
      journeys := [];
      journey := None;
      notes := "";
      isPlaying := false;
      playlistUrl := "";
      journeyTitle := "";
      totalDays := 7;
      error := "";
      loading := false;
      view := ListView;
      dailySchedule := [];
      expandedDays := [1];
    }

    /** The mount effect: load the mock journeys. */
    method LoadMockJourneys()
      requires |mockVideos| == 5
      modifies this
      ensures journeys == MockJourneys(mockVideos)
      ensures Snapshot() == old(Snapshot()).(journeys := journeys) && error == old(error)
    {
      journeys := MockJourneys(mockVideos);
    }

    /** `handleFetchPlaylist`: the URL, the title and the number of days are
        checked in that order, and the first failure only sets its message;
        otherwise one journey is appended, holding the mock videos of the
        current render (new objects, shared with no other journey), the form
        is reset and the list is shown. */
    method HandleFetchPlaylist()
      modifies this
      ensures old(playlistUrl) == "" ==> error == PlaylistMissing && Snapshot() == old(Snapshot())
      ensures old(playlistUrl) != "" && old(journeyTitle) == "" ==> error == TitleMissing && Snapshot() == old(Snapshot())
      ensures old(playlistUrl) != "" && old(journeyTitle) != "" && old(totalDays) <= 0 ==>
                error == DaysInvalid && Snapshot() == old(Snapshot())
      ensures old(playlistUrl) != "" && old(journeyTitle) != "" && old(totalDays) > 0 ==>
                && |journeys| > 0
                && var vs := journeys[|journeys| - 1].videos;
                && journeys == old(journeys) + [Journey(
                     "journey-" + NatToString(|old(journeys)| + 1), old(journeyTitle), old(playlistUrl),
                     |vs|, old(totalDays), vs, 0, 75, 1, 0)]
                && HoldMockData(vs) && (forall k :: 0 <= k < |vs| ==> fresh(vs[k]))
                && Snapshot() == old(Snapshot()).(journeys := journeys, playlistUrl := "", journeyTitle := "",
                                                  totalDays := 7, loading := false, view := ListView)
                && error == ""
    {
      if playlistUrl == "" {
        error := PlaylistMissing;
      } else if journeyTitle == "" {
        error := TitleMissing;
      } else if totalDays <= 0 {
        error := DaysInvalid;
      } else {
        var renderVideos := NewMockVideos();
        AddJourney(renderVideos);
      }
    }

    /** The successful path of `handleFetchPlaylist`: a journey over `videos`
        is appended, numbered after the existing ones, and the form is reset. */
    method AddJourney(videos: seq<Video>)
      modifies this
      ensures journeys == old(journeys) + [Journey(
                "journey-" + NatToString(|old(journeys)| + 1), old(journeyTitle), old(playlistUrl),
                |videos|, old(totalDays), videos, 0, 75, 1, 0)]
      ensures Snapshot() == old(Snapshot()).(journeys := journeys, playlistUrl := "", journeyTitle := "",
                                             totalDays := 7, loading := false, view := ListView)
      ensures error == ""
    {
      var newJourney := Journey(
        "journey-" + NatToString(|journeys| + 1), journeyTitle, playlistUrl,
        |videos|, totalDays, videos, 0, 75, 1, 0);
      journeys, playlistUrl, journeyTitle, totalDays, view, error, loading :=
        journeys + [newJourney], "", "", 7, ListView, "", false;
    }

    /** `viewJourney`: select a journey, load its current video's notes and
        its schedule, and show the detail view. */
    method ViewJourney(j: Journey)
      requires j.currentVideoIndex < |j.videos|
      modifies this
      ensures Valid()
      ensures journey == Some(j) && notes == j.videos[j.currentVideoIndex].notes && view == DetailView
      ensures |dailySchedule| == if j.totalDays > 0 then j.totalDays else 0
      ensures forall k :: 0 <= k < |dailySchedule| ==>
                j.totalDays > 0 && dailySchedule[k] == DayPlan(k + 1, DaySlice(j.videos, j.totalDays, k + 1))
      ensures journeys == old(journeys) && isPlaying == old(isPlaying) && expandedDays == old(expandedDays)
      ensures error == old(error) && playlistUrl == old(playlistUrl) && journeyTitle == old(journeyTitle)
      ensures totalDays == old(totalDays) && loading == old(loading)
    {
      journey := Some(j);
      notes := j.videos[j.currentVideoIndex].notes;
      dailySchedule := GenerateDailySchedule(j.videos, j.totalDays);
      view := DetailView;
    }

    /** `saveNotes`: the note text is written into the current video object,
        and the journey list takes the selected journey in place of the one
        with its id. */
    method SaveNotes()
      requires Valid()
      modifies this, if journey.Some? then {journey.value.videos[journey.value.currentVideoIndex]} else {}
      ensures Valid()
      ensures old(journey).None? ==> Snapshot() == old(Snapshot())
      ensures old(journey).Some? ==>
                var j := old(journey).value;
                && j.videos[j.currentVideoIndex].notes == old(notes)
                && j.videos[j.currentVideoIndex].watched == old(j.videos[j.currentVideoIndex].watched)
                && journeys == ReplaceById(old(journeys), j.id, j)
                && Snapshot() == old(Snapshot()).(journeys := journeys)
      ensures error == old(error)
    {
      if journey.Some? {
        var j := journey.value;
        j.videos[j.currentVideoIndex].notes := notes;
        journeys := ReplaceById(journeys, j.id, j);
      }
    }

    /** `playVideo`: save the notes if they were edited, then move to video
        `index`, load its notes and pause. */
    method PlayVideo(index: nat)
      requires Valid()
      requires journey.Some? ==> index < |journey.value.videos|
      modifies this, if journey.Some? then {journey.value.videos[journey.value.currentVideoIndex]} else {}
      ensures Valid()
      ensures old(journey).None? ==> Snapshot() == old(Snapshot())
      ensures old(journey).Some? ==>
                var j := old(journey).value;
                && journey == Some(j.(currentVideoIndex := index))
                && j.videos[j.currentVideoIndex].notes == old(notes)
                && notes == j.videos[index].notes
                && !isPlaying
                && (old(notes) == old(j.videos[j.currentVideoIndex].notes) ==> journeys == old(journeys))
                && (old(notes) != old(j.videos[j.currentVideoIndex].notes) ==> journeys == ReplaceById(old(journeys), j.id, j))
                && Snapshot() == old(Snapshot()).(journeys := journeys, journey := journey, notes := notes, isPlaying := false)
      ensures error == old(error)
    {
      if journey.Some? {
        var j := journey.value;
        if notes != j.videos[j.currentVideoIndex].notes {
          SaveNotes();
        }
        journey := Some(j.(currentVideoIndex := index));
        notes := j.videos[index].notes;
        isPlaying := false;
      }
    }

    /** `nextVideo`: play the following video, unless the current one is the last. */
    method NextVideo()
      requires Valid()
      modifies this, if journey.Some? then {journey.value.videos[journey.value.currentVideoIndex]} else {}
      ensures Valid()
      ensures old(journey).Some? && old(journey).value.currentVideoIndex < |old(journey).value.videos| - 1 ==>
                var j := old(journey).value;
                var next := j.currentVideoIndex + 1;
                && journey == Some(j.(currentVideoIndex := next))
                && j.videos[j.currentVideoIndex].notes == old(notes)
                && notes == j.videos[next].notes
                && !isPlaying
                && (old(notes) == old(j.videos[j.currentVideoIndex].notes) ==> journeys == old(journeys))
                && (old(notes) != old(j.videos[j.currentVideoIndex].notes) ==> journeys == ReplaceById(old(journeys), j.id, j))
                && Snapshot() == old(Snapshot()).(journeys := journeys, journey := journey, notes := notes, isPlaying := false)
      ensures old(journey).None? || old(journey).value.currentVideoIndex == |old(journey).value.videos| - 1 ==>
                Snapshot() == old(Snapshot())
      ensures error == old(error)
    {
      if journey.Some? && journey.value.currentVideoIndex < |journey.value.videos| - 1 {
        PlayVideo(journey.value.currentVideoIndex + 1);
      }
    }

    /** `prevVideo`: play the preceding video, unless the current one is the first. */
    method PrevVideo()
      requires Valid()
      modifies this, if journey.Some? then {journey.value.videos[journey.value.currentVideoIndex]} else {}
      ensures Valid()
      ensures old(journey).Some? && old(journey).value.currentVideoIndex > 0 ==>
                var j := old(journey).value;
                var prev := j.currentVideoIndex - 1;
                && journey == Some(j.(currentVideoIndex := prev))
                && j.videos[j.currentVideoIndex].notes == old(notes)
                && notes == j.videos[prev].notes
                && !isPlaying
                && (old(notes) == old(j.videos[j.currentVideoIndex].notes) ==> journeys == old(journeys))
                && (old(notes) != old(j.videos[j.currentVideoIndex].notes) ==> journeys == ReplaceById(old(journeys), j.id, j))
                && Snapshot() == old(Snapshot()).(journeys := journeys, journey := journey, notes := notes, isPlaying := false)
      ensures old(journey).None? || old(journey).value.currentVideoIndex == 0 ==> Snapshot() == old(Snapshot())
      ensures error == old(error)
    {
      if journey.Some? && journey.value.currentVideoIndex > 0 {
        PlayVideo(journey.value.currentVideoIndex - 1);
      }
    }

    /** `toggleWatched` as written: the flag is flipped on the video object
        itself, which every journey holding that object sees, while only the
        selected journey's progress is recomputed. */
    method ToggleWatchedInPlace(index: nat)
      requires Valid()
      requires journey.Some? ==> index < |journey.value.videos|
      modifies this, if journey.Some? then {journey.value.videos[index]} else {}
      ensures Valid()
      ensures old(journey).None? ==> Snapshot() == old(Snapshot())
      ensures old(journey).Some? ==>
                var j := old(journey).value;
                && j.videos[index].watched == !old(j.videos[index].watched)
                && j.videos[index].notes == old(j.videos[index].notes)
                && journey == Some(j.(progress := RoundPercent(WatchedCount(j.videos), |j.videos|)))
                && journeys == ReplaceById(old(journeys), j.id, journey.value)
      ensures Snapshot() == old(Snapshot()).(journeys := journeys, journey := journey) && error == old(error)
    {
      if journey.Some? {
        var j := journey.value;
        var v := j.videos[index];
        v.watched := !v.watched;
        var updated := j.(progress := RoundPercent(WatchedCount(j.videos), |j.videos|));
        label Flipped:
        journey := Some(updated);
        journeys := ReplaceById(journeys, j.id, updated);
        WatchedCountFrame@Flipped(j.videos);
      }
    }

    /** `toggleWatched` as evidently intended: the selected journey gets a
        copy of the video with the flag flipped, and its progress is
        recomputed; no video object changes, so every other journey keeps its
        flags and its progress. */
    method ToggleWatched(index: nat)
      requires Valid()
      requires journey.Some? ==> index < |journey.value.videos|
      modifies this
      ensures Valid()
      ensures old(journey).None? ==> Snapshot() == old(Snapshot())
      ensures old(journey).Some? ==>
                var j := old(journey).value;
                && journey.Some?
                && var vs := journey.value.videos;
                && |vs| == |j.videos|
                && fresh(vs[index])
                && vs[index].watched == !j.videos[index].watched
                && vs[index].id == j.videos[index].id && vs[index].notes == j.videos[index].notes
                && (forall k :: 0 <= k < |vs| && k != index ==> vs[k] == j.videos[k])
                && journey == Some(j.(videos := vs, progress := RoundPercent(WatchedCount(vs), |vs|)))
                && journeys == ReplaceById(old(journeys), j.id, journey.value)
      ensures forall k :: 0 <= k < |old(journeys)| && (old(journey).None? || old(journeys)[k].id != old(journey).value.id) ==>
                journeys[k] == old(journeys)[k] && WatchedCount(journeys[k].videos) == old(WatchedCount(journeys[k].videos))
      ensures Snapshot() == old(Snapshot()).(journeys := journeys, journey := journey) && error == old(error)
    {
      if journey.Some? {
        var j := journey.value;
        var v := j.videos[index];
        var copy := new Video(v.id, v.title, v.order, !v.watched, v.notes);
        var vs := j.videos[index := copy];
        var updated := j.(videos := vs, progress := RoundPercent(WatchedCount(vs), |vs|));
        journey := Some(updated);
        journeys := ReplaceById(journeys, j.id, updated);
      }
    }

    /** `resetJourney`: deselect the journey and clear the form, the notes
        and the error. */
    method ResetJourney()
      modifies this
      ensures Valid()
      ensures journey == None && playlistUrl == "" && journeyTitle == "" && totalDays == 7
      ensures notes == "" && error == ""
      ensures journeys == old(journeys) && isPlaying == old(isPlaying) && loading == old(loading)
      ensures view == old(view) && dailySchedule == old(dailySchedule) && expandedDays == old(expandedDays)
    {
      journey := None;
      playlistUrl := "";
      journeyTitle := "";
      totalDays := 7;
      notes := "";
      error := "";
    }

    /** `toggleDayExpansion`. */
    method ToggleDayExpansion(day: int)
      modifies this
      ensures expandedDays == ToggleDay(old(expandedDays), day)
      ensures Snapshot() == old(Snapshot()).(expandedDays := expandedDays) && error == old(error)
    {
      expandedDays := ToggleDay(expandedDays, day);
    }
  }

  /** Two journeys holding the same video objects (as the mock journeys 1
      and 3 do, both built from the first render's `mockVideos`): marking the video watched in journey 1 marks it
      watched in journey 2 as well, whose stored progress still says 0
      although its only video is now watched (100). */
  method SharedVideoToggle() returns (watchedInJourney2: bool, progressOfJourney2: nat, actualPercent: nat)
    ensures watchedInJourney2 && progressOfJourney2 == 0 && actualPercent == 100
  {
    var v := new Video("dGcsHMXfRto", "React Hooks", 1, false, "");
    var page := new JourneyPage();
    var first := Journey("journey-1", "First", "list", 1, 7, [v], 0, 75, 1, 0);
    var second := Journey("journey-2", "Second", "list", 1, 7, [v], 0, 75, 1, 0);
    page.journeys := [first, second];
    page.journey := Some(first);
    page.ToggleWatchedInPlace(0);
    assert page.journeys[1] == second;
    watchedInJourney2 := second.videos[0].watched;
    progressOfJourney2 := second.progress;
    assert [v][..0] == [];
    actualPercent := RoundPercent(WatchedCount(second.videos), |second.videos|);
  }
}
