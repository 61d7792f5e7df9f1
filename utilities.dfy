/** The saved-notes page: a list of notes filtered by source tab and by a
    search text, per-source counts, deletion, source labels and the name
    under which a note is downloaded. Every operation is a filter or a
    mapping over the list that the page hands to its state setter. */
module Utilities {
  import opened Wrappers
  import opened Strings
  import opened Sequences

  datatype Source = StudyFlowSource | SmartStudySource | NotesBuddySource | StudyRoomsSource | ManualSource

  /** A stored note; `source` and `videoLink` are optional. */
  datatype SavedNote = SavedNote(
    id: string, title: string, content: string, timestamp: string,
    videoId: Option<string>, videoLink: Option<string>, source: Option<Source>)

  /** The filter tabs: all notes, or one source. */
  datatype Tab = AllNotes | OnlySource(source: Source)

  predicate MatchesTab(n: SavedNote, tab: Tab)
  {
    tab.AllNotes? || n.source == Some(tab.source)
  }

  /** The title, the content or the video link contains the (already
      lowercased) query, ignoring case. A missing or empty link never matches. */
  predicate MatchesQuery(n: SavedNote, query: string)
  {
    Contains(Lower(n.title), query) || Contains(Lower(n.content), query)
    || (n.videoLink.Some? && n.videoLink.value != "" && Contains(Lower(n.videoLink.value), query))
  }

  /** `note => note.source === source`. */
  function FromSource(source: Source): SavedNote -> bool
  {
    (n: SavedNote) => n.source == Some(source)
  }

  /** The search condition for an already lowercased query. */
  function Matching(query: string): SavedNote -> bool
  {
    (n: SavedNote) => MatchesQuery(n, query)
  }

  /** `filteredNotes`: the tab filter, then, for a non-empty search text, the
      lowercased query filter. */
  function FilteredNotes(savedNotes: seq<SavedNote>, activeTab: Tab, searchQuery: string): (r: seq<SavedNote>)
    ensures activeTab == AllNotes && searchQuery == "" ==> r == savedNotes
  {
    var notes := if activeTab.AllNotes? then savedNotes else Keep(savedNotes, FromSource(activeTab.source));
    if searchQuery != "" then Keep(notes, Matching(Lower(searchQuery))) else notes
  }

  /** A note is listed exactly when it is saved, belongs to the tab and,
      for a non-empty search text, matches it. */
  lemma FilteredMembers(savedNotes: seq<SavedNote>, activeTab: Tab, searchQuery: string)
    ensures forall n :: n in FilteredNotes(savedNotes, activeTab, searchQuery) <==>
              n in savedNotes && MatchesTab(n, activeTab) && (searchQuery == "" || MatchesQuery(n, Lower(searchQuery)))
  {
    var notes := if activeTab.AllNotes? then savedNotes else Keep(savedNotes, FromSource(activeTab.source));
    if activeTab.OnlySource? {
      KeepMembers(savedNotes, FromSource(activeTab.source));
    }
    KeepMembers(notes, Matching(Lower(searchQuery)));
  }

  /** The filtered list keeps the saved order. */
  lemma FilteredIsSubsequence(savedNotes: seq<SavedNote>, activeTab: Tab, searchQuery: string)
    ensures IsSubsequence(FilteredNotes(savedNotes, activeTab, searchQuery), savedNotes)
  {
    var byQuery := Matching(Lower(searchQuery));
    if activeTab.AllNotes? {
      if searchQuery != "" {
        KeepIsSubsequence(savedNotes, byQuery);
      } else {
        SubsequenceReflexive(savedNotes);
      }
    } else {
      var bySource := FromSource(activeTab.source);
      if searchQuery != "" {
        KeepKeep(savedNotes, bySource, byQuery);
        KeepIsSubsequence(savedNotes, Both(bySource, byQuery));
      } else {
        KeepIsSubsequence(savedNotes, bySource);
      }
    }
  }

  /** `handleDeleteNote`: the notes whose id differs, in order. */
  function DeleteNote(savedNotes: seq<SavedNote>, id: string): (r: seq<SavedNote>)
    ensures forall n :: n in r <==> n in savedNotes && n.id != id
  {
    KeepMembers(savedNotes, OtherId(id));
    Keep(savedNotes, OtherId(id))
  }

  /** `note => note.id !== id`. */
  function OtherId(id: string): SavedNote -> bool
  {
    (n: SavedNote) => n.id != id
  }

  /** How many notes carry the id. */
  function CountId(notes: seq<SavedNote>, id: string): nat
  {
    if notes == [] then 0 else CountId(notes[..|notes| - 1], id) + (if notes[|notes| - 1].id == id then 1 else 0)
  }

  /** Deleting removes exactly the notes with that id and keeps the others
      in their order. */
  lemma {:induction false} DeleteRemovesExactly(savedNotes: seq<SavedNote>, id: string)
    ensures |DeleteNote(savedNotes, id)| + CountId(savedNotes, id) == |savedNotes|
    ensures IsSubsequence(DeleteNote(savedNotes, id), savedNotes)
    decreases |savedNotes|
  {
    KeepIsSubsequence(savedNotes, OtherId(id));
    if savedNotes != [] {
      DeleteRemovesExactly(savedNotes[..|savedNotes| - 1], id);
    }
  }

  /** `getSourceInfo(source).label`. */
  function SourceLabel(source: Option<Source>): (text: string)
    ensures source == Some(StudyFlowSource) ==> text == "Study Flow"
    ensures source == Some(SmartStudySource) ==> text == "Smart Study"
    ensures source == Some(NotesBuddySource) ==> text == "Notes Buddy"
    ensures source == Some(StudyRoomsSource) ==> text == "Study Rooms"
    ensures source == None || source == Some(ManualSource) ==> text == "Manual Note"
  {
    match source
    case Some(StudyFlowSource) => "Study Flow"
    case Some(SmartStudySource) => "Smart Study"
    case Some(NotesBuddySource) => "Notes Buddy"
    case Some(StudyRoomsSource) => "Study Rooms"
    case _ => "Manual Note"
  }

  /** The four named sources have four different labels, none of them the
      manual one. */
  lemma SourceLabelsDistinct(a: Option<Source>, b: Option<Source>)
    requires SourceLabel(a) == SourceLabel(b) && SourceLabel(a) != "Manual Note"
    ensures a == b
  {
  }

  /** The count badge of a source tab: `savedNotes.filter(n => n.source === s).length`. */
  function CountBySource(savedNotes: seq<SavedNote>, source: Source): (c: nat)
    ensures c <= |savedNotes|
    ensures c == |FilteredNotes(savedNotes, OnlySource(source), "")|
  {
    CountKeep(savedNotes, FromSource(source));
    Count(savedNotes, FromSource(source))
  }

  /** Notes without a source, which no source badge counts. */
  function CountUnsourced(savedNotes: seq<SavedNote>): (c: nat)
    ensures c <= |savedNotes|
    ensures c == |Keep(savedNotes, Unsourced())|
  {
    CountKeep(savedNotes, Unsourced());
    Count(savedNotes, Unsourced())
  }

  function Unsourced(): SavedNote -> bool
  {
    (n: SavedNote) => n.source.None?
  }

  /** The badges of the five sources and the notes without one add up to
      the "All Notes" badge. */
  lemma {:induction false} CountsPartition(savedNotes: seq<SavedNote>)
    ensures CountBySource(savedNotes, StudyFlowSource) + CountBySource(savedNotes, SmartStudySource)
            + CountBySource(savedNotes, NotesBuddySource) + CountBySource(savedNotes, StudyRoomsSource)
            + CountBySource(savedNotes, ManualSource) + CountUnsourced(savedNotes) == |savedNotes|
    decreases |savedNotes|
  {
    if savedNotes != [] {
      var init := savedNotes[..|savedNotes| - 1];
      var last := savedNotes[|savedNotes| - 1];
      CountsPartition(init);
      forall src: Source
        ensures CountBySource(savedNotes, src) == CountBySource(init, src) + (if last.source == Some(src) then 1 else 0)
      {
        assert FromSource(src)(last) == (last.source == Some(src));
      }
      assert Unsourced()(last) == last.source.None?;
      assert CountUnsourced(savedNotes) == CountUnsourced(init) + (if last.source.None? then 1 else 0);
      assert last.source.None? || last.source.value.StudyFlowSource? || last.source.value.SmartStudySource?
        || last.source.value.NotesBuddySource? || last.source.value.StudyRoomsSource? || last.source.value.ManualSource?;
    }
  }

  /** `title.replace(/\s+/g, '_')`: every maximal whitespace run becomes one '_'. */
  function Underscored(title: string): (r: string)
    ensures forall i :: 0 <= i < |r| ==> !IsSpace(r[i])
    decreases |title|
  {
    if title == [] then []
    else if IsSpace(title[0]) then "_" + Underscored(TrimStart(title[1..]))
    else [title[0]] + Underscored(title[1..])
  }

  /** The name a note is downloaded under. */
  function DownloadFilename(title: string): (name: string)
    ensures forall i :: 0 <= i < |name| ==> !IsSpace(name[i])
    ensures |name| >= 4 && name[|name| - 4..] == ".txt"
  {
    Underscored(title) + ".txt"
  }

  /** A title without whitespace is kept as it is. */
  lemma {:induction false} UnderscoredNoSpace(w: string, rest: string)
    requires forall i :: 0 <= i < |w| ==> !IsSpace(w[i])
    ensures Underscored(w + rest) == w + Underscored(rest)
    decreases |w|
  {
    if w != [] {
      assert (w + rest)[0] == w[0];
      assert (w + rest)[1..] == w[1..] + rest;
      UnderscoredNoSpace(w[1..], rest);
      assert [w[0]] + (w[1..] + Underscored(rest)) == w + Underscored(rest);
    } else {
      assert w + rest == rest;
    }
  }

  /** Leading whitespace of any length is one run. */
  lemma {:induction false} TrimStartAfterBlank(sp: string, w: string)
    requires IsBlank(sp)
    ensures TrimStart(sp + w) == TrimStart(w)
    decreases |sp|
  {
    if sp != [] {
      assert (sp + w)[0] == sp[0] && IsSpace(sp[0]);
      assert (sp + w)[1..] == sp[1..] + w;
      assert IsBlank(sp[1..]) by {
        forall i | 0 <= i < |sp| - 1 ensures IsSpace(sp[1..][i]) { assert sp[1..][i] == sp[i + 1]; }
      }
      TrimStartAfterBlank(sp[1..], w);
    } else {
      assert sp + w == w;
    }
  }

  /** Two words around a whitespace run are joined by exactly one '_'. */
  lemma WordsJoined(w1: string, sp: string, w2: string)
    requires forall i :: 0 <= i < |w1| ==> !IsSpace(w1[i])
    requires forall i :: 0 <= i < |w2| ==> !IsSpace(w2[i])
    requires sp != [] && IsBlank(sp)
    ensures DownloadFilename(w1 + sp + w2) == w1 + "_" + w2 + ".txt"
  {
    assert w1 + sp + w2 == w1 + (sp + w2);
    UnderscoredNoSpace(w1, sp + w2);
    RunBeforeWord(sp, w2);
    assert w1 + ("_" + w2) == w1 + "_" + w2;
  }

  /** A whitespace run followed by a word becomes '_' and the word. */
  lemma RunBeforeWord(sp: string, w: string)
    requires forall i :: 0 <= i < |w| ==> !IsSpace(w[i])
    requires sp != [] && IsBlank(sp)
    ensures Underscored(sp + w) == "_" + w
  {
    assert (sp + w)[0] == sp[0];
    assert (sp + w)[1..] == sp[1..] + w;
    TrimStartAfterBlank(sp[1..], w);
    assert TrimStart(w) == w;
    UnderscoredNoSpace(w, []);
    assert w + [] == w;
  }
}
