/** The study-flow page: a YouTube link is checked and its video id kept,
    quick notes are saved to the shared notes list with the source
    'study-flow', and the page's fields are mirrored in local storage,
    restored on mount and wiped by the clear button. Local storage is a
    map from key to string; the shared notes list (stored as JSON under
    'quickNotes') is kept as a list of notes. */
module StudyFlow {
  import opened Wrappers
  import opened Strings
  import opened Sequences
  import VideoLinks
  import Utilities

  const LinkKey := "youtubeLink"
  const AnalyzedKey := "isAnalyzed"
  const VideoIdKey := "videoId"
  const PositionKey := "videoPosition"
  const NotesKey := "studyFlowQuickNotes"
  const TitleKey := "studyFlowNotesTitle"

  /** The six keys the page owns. */
  const PageKeys: set<string> := {LinkKey, AnalyzedKey, VideoIdKey, PositionKey, NotesKey, TitleKey}

  const EmptyLinkError := "Please enter a YouTube link"
  const InvalidLinkError := "Invalid YouTube link"

  /** `extractVideoId`: the 11-character id of the link, or '' when there
      is none. */
  function ExtractId(url: string): (id: string)
    ensures id == "" <==> VideoLinks.ExtractVideoId(url).None?
    ensures id != "" ==> VideoLinks.ExtractVideoId(url) == Some(id)
    ensures id != "" ==> |id| == 11 && '#' !in id && '&' !in id && '?' !in id
  {
    match VideoLinks.ExtractVideoId(url)
    case Some(v) => v
    case None => ""
  }

  /** `localStorage.getItem(key)` where the caller tests it for truthiness:
      a missing key and an empty string both count as absent. */
  function Stored(storage: map<string, string>, key: string): Option<string>
  {
    if key in storage && storage[key] != "" then Some(storage[key]) else None
  }

  /** The video restored on mount: only when the flag was saved as 'true'
      and a non-empty id was saved. */
  function RestoredVideo(storage: map<string, string>): (r: Option<string>)
    ensures r.Some? <==> AnalyzedKey in storage && storage[AnalyzedKey] == "true"
                         && VideoIdKey in storage && storage[VideoIdKey] != ""
    ensures r.Some? ==> r.value == storage[VideoIdKey] && r.value != ""
  {
    if AnalyzedKey in storage && storage[AnalyzedKey] == "true" then Stored(storage, VideoIdKey) else None
  }

  /** The effects that mirror the link, the analysis state and the notes
      into storage: the flag is always written, the other fields only when
      non-empty. */
  function Persisted(storage: map<string, string>, link: string, isAnalyzed: bool, videoId: string,
                     notes: string, title: string): (st: map<string, string>)
    ensures AnalyzedKey in st && st[AnalyzedKey] == (if isAnalyzed then "true" else "false")
    ensures forall key :: key in storage ==> key in st
    ensures forall key :: key in st && key !in storage ==> key in PageKeys
  {
    var st1 := if link != "" then storage[LinkKey := link] else storage;
    var st2 := st1[AnalyzedKey := if isAnalyzed then "true" else "false"];
    var st3 := if videoId != "" then st2[VideoIdKey := videoId] else st2;
    var st4 := if notes != "" then st3[NotesKey := notes] else st3;
    if title != "" then st4[TitleKey := title] else st4
  }

  /** What the page writes it reads back on the next mount: the non-empty
      fields, and the video exactly when it was analysed, provided an
      analysed page always has an id. */
  lemma RestoreAfterPersist(storage: map<string, string>, link: string, isAnalyzed: bool, videoId: string,
                            notes: string, title: string)
    requires isAnalyzed ==> videoId != ""
    ensures var st := Persisted(storage, link, isAnalyzed, videoId, notes, title);
            (link != "" ==> Stored(st, LinkKey) == Some(link))
            && (notes != "" ==> Stored(st, NotesKey) == Some(notes))
            && (title != "" ==> Stored(st, TitleKey) == Some(title))
            && RestoredVideo(st) == (if isAnalyzed then Some(videoId) else None)
  {
  }

  /** After the clear button nothing of the page is left to restore, and
      every other key is kept. */
  lemma ClearForgets(storage: map<string, string>)
    ensures RestoredVideo(storage - PageKeys) == None
    ensures Stored(storage - PageKeys, LinkKey) == None && Stored(storage - PageKeys, NotesKey) == None
    ensures Stored(storage - PageKeys, TitleKey) == None
    ensures forall key :: key in storage && key !in PageKeys ==> key in storage - PageKeys && (storage - PageKeys)[key] == storage[key]
  {
  }

  /** The note saved by `handleSaveNotes`; `now` is `Date.now()` and
      `localeNow` the formatted date and time. */
  function NewNote(now: nat, localeNow: string, quickNotes: string, notesTitle: string,
                   videoId: string, youtubeLink: string): (n: Utilities.SavedNote)
    ensures n.source == Some(Utilities.StudyFlowSource)
    ensures n.content == quickNotes && n.timestamp == localeNow
    ensures notesTitle != "" ==> n.title == notesTitle
    ensures notesTitle == "" ==> n.title == "Study Flow Note " + localeNow
  {
    Utilities.SavedNote(NatToString(now), if notesTitle != "" then notesTitle else "Study Flow Note " + localeNow,
                        quickNotes, localeNow, Some(videoId), Some(youtubeLink), Some(Utilities.StudyFlowSource))
  }

  /** A saved study-flow note adds one to the 'Study Flow' badge and heads
      that tab on the notes page. */
  lemma SavedNoteShows(n: Utilities.SavedNote, notes: seq<Utilities.SavedNote>)
    requires n.source == Some(Utilities.StudyFlowSource)
    ensures Utilities.CountBySource([n] + notes, Utilities.StudyFlowSource)
            == Utilities.CountBySource(notes, Utilities.StudyFlowSource) + 1
    ensures var shown := Utilities.FilteredNotes([n] + notes, Utilities.OnlySource(Utilities.StudyFlowSource), "");
            |shown| > 0 && shown[0] == n
  {
    var bySource := Utilities.FromSource(Utilities.StudyFlowSource);
    CountCons(n, notes, bySource);
    KeepAppend([n], notes, bySource);
    KeepSnoc([], n, bySource);
    assert [] + [n] == [n];
  }

  class Page {
    var youtubeLink: string
    var isAnalyzed: bool
    var videoId: string
    var loading: bool
    var error: string
    var lastPosition: real
    var quickNotes: string
    var notesTitle: string
    var isNotesSaved: bool
    /** Local storage. */
    var storage: map<string, string>
    /** The shared notes list kept under 'quickNotes'. */
    var savedNotes: seq<Utilities.SavedNote>

    /** An analysed page always has a video id. */
    predicate Valid()
      reads this
    {
      isAnalyzed ==> videoId != ""
    }

    constructor (storage': map<string, string>, savedNotes': seq<Utilities.SavedNote>)
      ensures Valid()
      ensures youtubeLink == "" && !isAnalyzed && videoId == "" && !loading && error == ""
      ensures lastPosition == 0.0 && quickNotes == "" && notesTitle == "" && !isNotesSaved
      ensures storage == storage' && savedNotes == savedNotes'
    {
      youtubeLink := "";
      isAnalyzed := false;
      videoId := "";
      loading := false;
      error := "";
      lastPosition := 0.0;
      quickNotes := "";
      notesTitle := "";
      isNotesSaved := false;
      storage := storage';
      savedNotes := savedNotes';
    }

    /** The mount effect: non-empty saved link, notes and title are
        restored, and the analysis state when `RestoredVideo` finds one. */
    method Mount()
      modifies this
      requires Valid()
      ensures Valid()
      ensures youtubeLink == (match Stored(storage, LinkKey) case Some(v) => v case None => old(youtubeLink))
      ensures quickNotes == (match Stored(storage, NotesKey) case Some(v) => v case None => old(quickNotes))
      ensures notesTitle == (match Stored(storage, TitleKey) case Some(v) => v case None => old(notesTitle))
      ensures RestoredVideo(storage).Some? ==> isAnalyzed && videoId == RestoredVideo(storage).value
      ensures RestoredVideo(storage).None? ==> isAnalyzed == old(isAnalyzed) && videoId == old(videoId)
      ensures storage == old(storage) && savedNotes == old(savedNotes) && error == old(error)
      ensures loading == old(loading) && lastPosition == old(lastPosition) && isNotesSaved == old(isNotesSaved)
    {
      var savedLink := Stored(storage, LinkKey);
      var savedNotesText := Stored(storage, NotesKey);
      var savedTitle := Stored(storage, TitleKey);
      var savedVideo := RestoredVideo(storage);
      youtubeLink := if savedLink.Some? then savedLink.value else youtubeLink;
      quickNotes := if savedNotesText.Some? then savedNotesText.value else quickNotes;
      notesTitle := if savedTitle.Some? then savedTitle.value else notesTitle;
      if savedVideo.Some? {
        isAnalyzed := true;
        videoId := savedVideo.value;
      }
    }

    /** The effects that write the fields to storage. */
    method Persist()
      modifies this
      requires Valid()
      ensures Valid()
      ensures storage == Persisted(old(storage), youtubeLink, isAnalyzed, videoId, quickNotes, notesTitle)
      ensures youtubeLink == old(youtubeLink) && isAnalyzed == old(isAnalyzed) && videoId == old(videoId)
      ensures quickNotes == old(quickNotes) && notesTitle == old(notesTitle) && error == old(error)
      ensures loading == old(loading) && lastPosition == old(lastPosition) && isNotesSaved == old(isNotesSaved)
      ensures savedNotes == old(savedNotes)
    {
      if youtubeLink != "" {
        storage := storage[LinkKey := youtubeLink];
      }
      storage := storage[AnalyzedKey := if isAnalyzed then "true" else "false"];
      if videoId != "" {
        storage := storage[VideoIdKey := videoId];
      }
      if quickNotes != "" {
        storage := storage[NotesKey := quickNotes];
      }
      if notesTitle != "" {
        storage := storage[TitleKey := notesTitle];
      }
    }

    /** Typing in the link box: the new link replaces the old one and
        any error message is cleared. */
    method EnterLink(link: string)
      modifies this
      requires Valid()
      ensures Valid()
      ensures youtubeLink == link && error == ""
      ensures isAnalyzed == old(isAnalyzed) && videoId == old(videoId)
      ensures quickNotes == old(quickNotes) && notesTitle == old(notesTitle)
      ensures loading == old(loading) && lastPosition == old(lastPosition) && isNotesSaved == old(isNotesSaved)
      ensures storage == old(storage) && savedNotes == old(savedNotes)
    {
      youtubeLink, error := link, "";
    }

    /** Typing in the notes title and notes boxes. */
    method EnterNotes(title: string, notes: string)
      modifies this
      requires Valid()
      ensures Valid()
      ensures notesTitle == title && quickNotes == notes
      ensures youtubeLink == old(youtubeLink) && isAnalyzed == old(isAnalyzed) && videoId == old(videoId)
      ensures error == old(error) && loading == old(loading) && lastPosition == old(lastPosition)
      ensures isNotesSaved == old(isNotesSaved) && storage == old(storage) && savedNotes == old(savedNotes)
    {
      notesTitle, quickNotes := title, notes;
    }

    /** `handleAnalyze`: a blank link and a link without an id each set
        their error and keep the video; a link with an id makes it the
        analysed video, clears the error and ends with loading off. */
    method Analyze()
      modifies this
      requires Valid()
      ensures Valid()
      ensures IsBlank(old(youtubeLink)) ==>
                error == EmptyLinkError && videoId == old(videoId) && isAnalyzed == old(isAnalyzed)
      ensures !IsBlank(old(youtubeLink)) && ExtractId(old(youtubeLink)) == "" ==>
                error == InvalidLinkError && videoId == old(videoId) && isAnalyzed == old(isAnalyzed)
      ensures !IsBlank(old(youtubeLink)) && ExtractId(old(youtubeLink)) != "" ==>
                error == "" && videoId == ExtractId(old(youtubeLink)) && isAnalyzed && !loading
      ensures IsBlank(old(youtubeLink)) || ExtractId(old(youtubeLink)) == "" ==> loading == old(loading)
      ensures youtubeLink == old(youtubeLink) && quickNotes == old(quickNotes) && notesTitle == old(notesTitle)
      ensures lastPosition == old(lastPosition) && isNotesSaved == old(isNotesSaved)
      ensures storage == old(storage) && savedNotes == old(savedNotes)
    {
      var blank := TrimsToEmpty(youtubeLink);
      if blank {
        error := EmptyLinkError;
        return;
      }
      var id := ExtractId(youtubeLink);
      if id == "" {
        error := InvalidLinkError;
        return;
      }
      loading := true;
      error := "";
      videoId := id;
      isAnalyzed := true;
      loading := false;
    }

    /** `handleClear`: every field the page mirrors is reset and its six
        keys are removed; the shared notes list stays. */
    method Clear()
      modifies this
      requires Valid()
      ensures Valid()
      ensures youtubeLink == "" && !isAnalyzed && videoId == "" && error == ""
      ensures lastPosition == 0.0 && quickNotes == "" && notesTitle == ""
      ensures storage == old(storage) - PageKeys
      ensures loading == old(loading) && isNotesSaved == old(isNotesSaved) && savedNotes == old(savedNotes)
    {
      youtubeLink := "";
      isAnalyzed := false;
      videoId := "";
      error := "";
      lastPosition := 0.0;
      quickNotes := "";
      notesTitle := "";
      storage := storage - PageKeys;
    }

    /** `handleSaveNotes`: blank notes change nothing; otherwise one note is
        put in front of the shared list and the saved badge shows. */
    method SaveNotes(now: nat, localeNow: string)
      modifies this
      requires Valid()
      ensures Valid()
      ensures IsBlank(old(quickNotes)) ==> savedNotes == old(savedNotes) && isNotesSaved == old(isNotesSaved)
      ensures !IsBlank(old(quickNotes)) ==>
                savedNotes == [NewNote(now, localeNow, quickNotes, notesTitle, videoId, youtubeLink)] + old(savedNotes)
                && isNotesSaved
      ensures youtubeLink == old(youtubeLink) && isAnalyzed == old(isAnalyzed) && videoId == old(videoId)
      ensures quickNotes == old(quickNotes) && notesTitle == old(notesTitle) && error == old(error)
      ensures loading == old(loading) && lastPosition == old(lastPosition) && storage == old(storage)
    {
      var blank := TrimsToEmpty(quickNotes);
      if blank {
        return;
      }
      var note := NewNote(now, localeNow, quickNotes, notesTitle, videoId, youtubeLink);
      savedNotes := [note] + savedNotes;
      isNotesSaved := true;
    }

    /** The timer two seconds after saving hides the badge. */
    method SavedFeedbackExpired()
      modifies this
      requires Valid()
      ensures Valid()
      ensures !isNotesSaved
      ensures youtubeLink == old(youtubeLink) && isAnalyzed == old(isAnalyzed) && videoId == old(videoId)
      ensures quickNotes == old(quickNotes) && notesTitle == old(notesTitle) && error == old(error)
      ensures loading == old(loading) && lastPosition == old(lastPosition)
      ensures storage == old(storage) && savedNotes == old(savedNotes)
    {
      isNotesSaved := false;
    }
  }
}
