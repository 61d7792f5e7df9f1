# FocusLearn core in Dafny

FocusLearn is a study web application: a floating tutor chat ("Parrot")
backed by a rule-based knowledge base, a YouTube transcript route on the
server, a journey planner that spreads a playlist over days, a notes
library, a sidebar with menu search, a mock study-room chat, a "study
flow" page that pairs a video with quick notes, and the top-level router.
This project models the decision logic and the state changes of those
parts and proves what they promise.

Modules, one per source file (plus shared helpers):

- `KnowledgeBase` (knowledge-base.ts): the five domain handlers as
  first-match cascades over substring triggers, the follow-up detector and
  its elaboration text, and the `AIKnowledgeBase` class whose
  `UpdateContext` keeps a window of at most five topics and an
  upgrade-only user level.
- `FloatingParrot` (FloatingParrot.tsx): the response dispatcher
  (image, then the five handlers, then the follow-up rule, then the
  fallback), the fallback cascade with its arithmetic sub-rule, word-by-word
  typing, bold markup and line formatting, and the `ParrotWidget` class that
  sends a message and updates the shared knowledge base.
- `VideoLinks` and `Transcripts` (server/routes/youtube.js): video id
  extraction written out from its regular expression, segment
  normalisation with JavaScript `||` defaults, the greedy token-budget
  chunking loop, `m:ss` formatting and the 400/404 decisions of the route.
- `SmartJourney` (SmartJourneyPage.tsx): the daily schedule loop, the
  header-day formula, the playlist form, video navigation, watched toggling
  with rounded progress, notes saving and expanded days, as a `JourneyPage`
  class over `Video` objects that the source mutates in place.
- `Utilities` (UtilitiesPage.tsx): note filtering, deletion, source labels,
  per-source counts and the download file name.
- `Sidebar` (Sidebar.tsx): the menu search loop, the single-open accordion
  and navigation.
- `StudyRoom` (StudyRoomPage.tsx): the mock login, register, logout and
  send state machine as the `Room` class.
- `StudyFlow` (StudyFlowPage.tsx): link analysis, the stored-state
  restore condition and persistence, clearing, and saving notes as the
  `Page` class.
- `App` (App.tsx): the render precedence and the `Shell` class for the
  authentication, page and sidebar state.
- `Strings`, `Sequences`, `Wrappers`: the JavaScript string operations
  the core uses (`includes` as substring, ASCII `toLowerCase`, `trim`,
  `split`/`join`, number to text) over strings of Unicode scalar values
  rather than UTF-16 code units, order-preserving filtering and counting,
  and `Option`.

Response texts are not transcribed: each handler returns a tag naming the
text it would show, and only the interpolated parts (the echoed question,
the elaboration, the arithmetic problem and its result) are modelled as
data.

## Model

| member | source | states |
|---|---|---|
| KnowledgeBase.MathResponse | src/components/ai/knowledge-base.ts:31-358 | the result is the first article, in the order quadratic, limits, linear algebra, statistics, whose trigger the lowercased question meets, or None when none does |
| KnowledgeBase.PhysicsResponse | src/components/ai/knowledge-base.ts:361-652 | the first matching physics article (Newton's laws, then energy), or None |
| KnowledgeBase.ChemistryResponse | src/components/ai/knowledge-base.ts:969-1280 | the first matching chemistry article (periodic table, then acids and bases), or None |
| KnowledgeBase.BiologyResponse | src/components/ai/knowledge-base.ts:1283-1500 | the first matching biology article, or None |
| KnowledgeBase.ProgrammingResponse | src/components/ai/knowledge-base.ts:655-942 | the first matching programming article, or None |
| KnowledgeBase.FirstMatchUnique | src/components/ai/knowledge-base.ts:31-358 | the first-match description determines the handler's answer uniquely |
| KnowledgeBase.NewtonNeedsLawOrMotion | src/components/ai/knowledge-base.ts:364 | "newton" with "kinetic" but without "law" or "motion" gets the energy text, not Newton's laws |
| KnowledgeBase.GraphGetsAcidsAndBases | src/components/ai/knowledge-base.ts:1105 | any question containing "graph" (hence "ph") and no periodic-table words gets the acids and bases text |
| KnowledgeBase.MeaningGetsStatistics | src/components/ai/knowledge-base.ts:234 | "meaning" contains "mean", so it selects statistics when no earlier math trigger fires |
| KnowledgeBase.Elaboration | src/components/ai/knowledge-base.ts:963-966 | the elaboration quotes the current question |
| KnowledgeBase.ElaborationIgnoresPrevious | src/components/ai/knowledge-base.ts:963-966 | the elaboration does not depend on the previous-message argument |
| KnowledgeBase.ContextualResponse | src/components/ai/knowledge-base.ts:945-961 | non-empty exactly when there is more than one user message and the current one asks what, how or why; then it quotes the current message |
| KnowledgeBase.PushTopic | src/components/ai/knowledge-base.ts:17-20 | the window gains the topic at its end and drops its oldest entry only when it already held five |
| KnowledgeBase.NextLevel | src/components/ai/knowledge-base.ts:22-27 | the level becomes advanced exactly when it was advanced or the message uses a complex connective; otherwise it is unchanged |
| KnowledgeBase.ReplayTopics | src/components/ai/knowledge-base.ts:16-21 | after any run of updates the window holds at most five topics |
| KnowledgeBase.WindowHoldsLastTopics | src/components/ai/knowledge-base.ts:16-21 | after any run of updates the window is exactly the last five (or fewer) topics in order |
| KnowledgeBase.LevelAfterUpdates | src/components/ai/knowledge-base.ts:22-27 | after any run of messages the level is advanced iff it started advanced or some message used a complex connective; it never goes back |
| KnowledgeBase.AIKnowledgeBase.constructor | src/components/ai/knowledge-base.ts:11-14 | the context starts with no topics at the intermediate level |
| KnowledgeBase.AIKnowledgeBase.UpdateContext | src/components/ai/knowledge-base.ts:16-28 | the new window is PushTopic of the old one and the new level NextLevel of the old one |
| FloatingParrot.DigitsEnd | src/components/FloatingParrot.tsx:162 | the end of the run of digits starting at a position |
| FloatingParrot.DigitsRun | src/components/FloatingParrot.tsx:162 | everything up to DigitsEnd is a digit |
| FloatingParrot.NumeralEnd | src/components/FloatingParrot.tsx:162 | the end of a `\d+\.?\d*` numeral; empty exactly when no digit starts there |
| FloatingParrot.NumeralRun | src/components/FloatingParrot.tsx:162 | a non-empty match up to NumeralEnd is a numeral |
| FloatingParrot.ZeroNumeral | src/components/FloatingParrot.tsx:185 | a numeral's value is zero exactly when all its digits are zero, so the divisor test is syntactic |
| FloatingParrot.MatchAt | src/components/FloatingParrot.tsx:162 | a match found at a position starts there and carries one of the five operators |
| FloatingParrot.MatchAtNumerals | src/components/FloatingParrot.tsx:162 | both operands of a match are numerals |
| FloatingParrot.FindProblem | src/components/FloatingParrot.tsx:162 | the search returns a match at or after the start whose operands are numerals |
| FloatingParrot.FindProblemLeftmost | src/components/FloatingParrot.tsx:162 | no match starts before the one returned (or anywhere when none is), as the unanchored regular expression does |
| FloatingParrot.Evaluate | src/components/FloatingParrot.tsx:171-195 | undefined exactly for division by zero; otherwise a quotient, sum or difference that satisfies its defining equation |
| FloatingParrot.FallbackResponse | src/components/FloatingParrot.tsx:133-347 | the greeting is chosen exactly when the lowercased input contains "hello", "hi" or "hey"; a solved problem only under a math keyword, with the leftmost match, its operation and its result; an input past the four social tests that names math and holds a problem is always solved; the default echoes the input |
| FloatingParrot.MathReply | src/components/FloatingParrot.tsx:162-229 | the math branch solves exactly when the input holds an arithmetic problem, the leftmost one; otherwise it gives the derivative, integral or general overview |
| FloatingParrot.OverviewHeading | src/components/FloatingParrot.tsx:346 | the default reply quotes the raw input |
| FloatingParrot.HiInsideWords | src/components/FloatingParrot.tsx:137 | any input containing "this" or "history" gets the greeting |
| FloatingParrot.HistoryBranchNeedsOtherWords | src/components/FloatingParrot.tsx:238 | the history reply is reachable only without "history" and "historical", which the test at line 137 takes first |
| FloatingParrot.FarewellBeatsGratitude | src/components/FloatingParrot.tsx:142-152 | a farewell with thanks and no greeting gets the farewell |
| FloatingParrot.TooHardIsStruggling | src/components/FloatingParrot.tsx:303-316 | "too hard" never reaches the give-up reply |
| FloatingParrot.ExamPreparationNeedsOtherWords | src/components/FloatingParrot.tsx:340-341 | the exam reply is reached only without "exam", "test" and "quiz", which the study-tips test at lines 277-279 takes first, and with "midterm", "final" or "prepare" |
| FloatingParrot.LongQuestionIsNotHomework | src/components/FloatingParrot.tsx:334-335 | an input of 100 or more characters without "homework" or "assignment" never gets the homework reply |
| FloatingParrot.UserTexts | src/components/FloatingParrot.tsx:113-118 | at most one text per message of the history |
| FloatingParrot.UserTextsAppend | src/components/FloatingParrot.tsx:113-118 | the texts of two histories one after the other are the texts of the first followed by those of the second, so the order of the history is kept |
| FloatingParrot.UserTextsMembers | src/components/FloatingParrot.tsx:113-118 | a text is listed exactly when some user message of the history carries it |
| FloatingParrot.Respond | src/components/FloatingParrot.tsx:73-125 | the image reply is given exactly when an image is attached; otherwise the first handler in the fixed order that answers is used and its topic recorded; the follow-up rule runs only when no handler answers; the fallback only when it is empty |
| FloatingParrot.ElaborationFromSecondMessage | src/components/FloatingParrot.tsx:113-121 | since the current message is already in the history passed at line 424, a follow-up question elaborates from the second user message on |
| FloatingParrot.UserTextsCount | src/components/FloatingParrot.tsx:113-118 | a history holding a user message yields at least one user text |
| FloatingParrot.ImageFirst | src/components/FloatingParrot.tsx:78-80 | a non-empty image gets the image reply and records no topic |
| FloatingParrot.TypeMessage | src/components/FloatingParrot.tsx:368-394 | one frame per space-separated word; frame k is the first k+1 words joined by spaces, a prefix of the message, and the last frame is the whole message |
| FloatingParrot.BoldToStrong | src/components/FloatingParrot.tsx:466 | text without `**` is left unchanged |
| FloatingParrot.CloseBold | src/components/FloatingParrot.tsx:466 | the lazy group stops at the first `**` at or after the position, with no line terminator before it; nothing is found exactly when every later `**` has a line terminator before it |
| FloatingParrot.CloseBoldScan | src/components/FloatingParrot.tsx:466 | in `**word**` the closing marker found is the one after the word |
| FloatingParrot.BoldPair | src/components/FloatingParrot.tsx:466 | `**word**` becomes `<strong>word</strong>` |
| FloatingParrot.BoldBulletShowsRawTags | src/components/FloatingParrot.tsx:466-474 | a bold bullet line is rendered as text holding the substituted tags |
| FloatingParrot.BulletKind | src/components/FloatingParrot.tsx:468 | a line starting with a bullet is a bullet line |
| FloatingParrot.KindOf | src/components/FloatingParrot.tsx:468-476 | a line is a bullet exactly when its trimmed form starts with '•' or '✓', numbered exactly when it is not a bullet and its trimmed form starts with digits and a dot |
| FloatingParrot.NumberedAtDigitsEnd | src/components/FloatingParrot.tsx:476 | `/^\d+\./` matches exactly when the dot follows the leading run of digits |
| FloatingParrot.DigitsEndAt | src/components/FloatingParrot.tsx:476 | the run of digits ends at the first non-digit |
| FloatingParrot.FormatLine | src/components/FloatingParrot.tsx:463-488 | as written: the kind is judged after the bold conversion, only plain lines are inserted as HTML, an empty line becomes a break and a line without `**` is shown unchanged |
| FloatingParrot.FormatLineAsMarkup | src/components/FloatingParrot.tsx:463-488 | corrected: the as-written rendering with every line inserted as HTML, so none shows raw markup |
| FloatingParrot.FormatMessageText | src/components/FloatingParrot.tsx:463-488 | as written: one rendered line per '\n'-separated line, each rendered as FormatLine renders it |
| FloatingParrot.BoldBulletReplyShowsRawTags | src/components/FloatingParrot.tsx:463-474 | as written, a reply made of one bold bullet shows the `<strong>` tags as text |
| FloatingParrot.FormatMessageTextAsMarkup | src/components/FloatingParrot.tsx:463-488 | corrected: the same lines as the as-written rendering, each inserted as HTML, none showing raw markup |
| FloatingParrot.ComposeUserText | src/components/FloatingParrot.tsx:402-413 | the sent text is never empty and is the typed text when there is no image |
| FloatingParrot.ParrotWidget.constructor | src/components/FloatingParrot.tsx:20-32 | the widget opens with the welcome message and an empty input |
| FloatingParrot.ParrotWidget.GetAIResponse | src/components/FloatingParrot.tsx:73-125 | the reply is Respond's; the shared context is updated exactly when a handler answered, with its topic |
| FloatingParrot.ParrotWidget.HandleSendMessage | src/components/FloatingParrot.tsx:396-444 | a blank input without an image changes nothing; otherwise the user message and the reply are appended, the input cleared, and the topic pushed and the user level advanced exactly when a handler answered |
| VideoLinks.MarkerLength | server/routes/youtube.js:9 | a recognised marker lies inside the URL and has one of the marker lengths |
| VideoLinks.LineEnd | server/routes/youtube.js:9 | the first line terminator at or after a position, as `.` stops at one |
| VideoLinks.LastMarker | server/routes/youtube.js:9 | the marker found starts at or before the bound |
| VideoLinks.IdEnd | server/routes/youtube.js:9 | the end of the run of characters other than `#`, `&` and `?` |
| VideoLinks.IdCandidate | server/routes/youtube.js:9-10 | the pattern matches exactly when a marker starts on the first line; `match[2]` is then the whole run of characters other than `#`, `&` and `?` right after the rightmost such marker |
| VideoLinks.ExtractVideoId | server/routes/youtube.js:8-12 | an id is returned exactly when the candidate has 11 characters, and it is that candidate, free of `#`, `&` and `?` |
| VideoLinks.ExtractAfterRightmostMarker | server/routes/youtube.js:9-11 | given the marker that starts furthest right on the first line, the result is the run after it when that run has 11 characters, and nothing otherwise |
| VideoLinks.NoMarkerNoId | server/routes/youtube.js:9-11 | a link with no marker on its first line has no id |
| VideoLinks.LastMarkerRightmost | server/routes/youtube.js:9 | no marker starts after the one chosen, as the greedy `.*` requires |
| VideoLinks.LastMarkerFinds | server/routes/youtube.js:9 | the rightmost marker is the one chosen |
| VideoLinks.MarkerStart | server/routes/youtube.js:9 | every marker starts with one of its alternatives' first characters |
| VideoLinks.NoMarkerInId | server/routes/youtube.js:9 | no marker starts inside a run of id characters |
| VideoLinks.WatchLinkRoundTrip | server/routes/youtube.js:8-12 | a watch link ending in an 11-character id gives back that id |
| VideoLinks.IdEndRun | server/routes/youtube.js:9 | a tail free of `#`, `&` and `?` is taken whole |
| Transcripts.OrNumber | server/routes/youtube.js:170-171 | `a \|\| b \|\| fallback` on numbers: the first truthy one |
| Transcripts.OrText | server/routes/youtube.js:172 | `a \|\| b \|\| ''` on text: the first non-empty one, empty when both are |
| Transcripts.Normalize | server/routes/youtube.js:169-175 | start, duration and text fall back field by field; the duration is never zero |
| Transcripts.NormalizeAll | server/routes/youtube.js:169-175 | the normalised list has one caption per segment, in order |
| Transcripts.Tokens | server/routes/youtube.js:22 | for a normalised segment the estimate is its number of characters, above the quarter the expression seems to intend |
| Transcripts.SegmentTokens | server/routes/youtube.js:22 | `text?.length \|\| content?.length \|\| 0 / 4` is the length of the first non-empty field, or 0: the division binds to the literal |
| Transcripts.TokensOfNormalized | server/routes/youtube.js:22 | estimating a segment before or after normalisation gives the same count, the length of its normalised text |
| Transcripts.GroupTranscriptSegments | server/routes/youtube.js:15-41 | the chunks concatenate to the input, are non-empty, none exists for empty input, each stays within the budget unless it is a single segment, and each was closed only when the next segment would overflow it |
| Transcripts.GroupedAppend | server/routes/youtube.js:25-31 | closing a chunk under the greedy rule keeps the chunking well formed |
| Transcripts.FlattenAppend | server/routes/youtube.js:26 | pushing a chunk (here and at line 37) extends the concatenation by it |
| Transcripts.TokenSumAppend | server/routes/youtube.js:31 | adding a segment (counted at line 22) adds its character count, not a quarter of it |
| Transcripts.Remainder60 | server/routes/youtube.js:108 | JavaScript `%` by 60: in [0, 60) for non-negative input |
| Transcripts.PadStart2 | server/routes/youtube.js:109 | padding to two characters keeps the text as its suffix |
| Transcripts.FormatTimeReadsBack | server/routes/youtube.js:106-110 | `m:ss` reads back as minutes and two-digit seconds below 60 that make up the whole seconds |
| Transcripts.FormatTime | server/routes/youtube.js:106-110 | the text starts with '-' exactly for a negative time; for a non-negative time it ends in a colon and two digits |
| Transcripts.AnalyzeYoutube | server/routes/youtube.js:112-198 | no URL is a server error; an URL without an id is a 400 before any fetch; no subtitles is a 404; otherwise the chunks regroup the normalised subtitles |
| SmartJourney.CeilDiv | src/components/pages/SmartJourneyPage.tsx:255 | `Math.ceil(a / b)`: the least quotient whose product covers a |
| SmartJourney.MulMonotone | src/components/pages/SmartJourneyPage.tsx:258-259 | day starts grow with the day number |
| SmartJourney.Slice | src/components/pages/SmartJourneyPage.tsx:260 | JavaScript `slice`, the plain subsequence within bounds |
| SmartJourney.GenerateDailySchedule | src/components/pages/SmartJourneyPage.tsx:253-269 | exactly totalDays entries numbered 1 to totalDays, day k holding its slice of the videos |
| SmartJourney.Schedule | src/components/pages/SmartJourneyPage.tsx:253-269 | the schedule has one plan per day |
| SmartJourney.SchedulePrefix | src/components/pages/SmartJourneyPage.tsx:255-260 | the first k days concatenate to the first min(k·vpd, n) videos |
| SmartJourney.DayIsBlock | src/components/pages/SmartJourneyPage.tsx:258-260 | day d holds videos[(d-1)·vpd .. min(d·vpd, n)) |
| SmartJourney.ScheduleCoversVideos | src/components/pages/SmartJourneyPage.tsx:255-266 | the days concatenate to the whole playlist, in order |
| SmartJourney.HeaderDayHoldsVideo | src/components/pages/SmartJourneyPage.tsx:726 | the header's day for video i is a valid day whose slice holds video i |
| SmartJourney.HeaderDay | src/components/pages/SmartJourneyPage.tsx:726 | the header day is the first day whose block of videos-per-day indices reaches past the current index |
| SmartJourney.CeilDivLocates | src/components/pages/SmartJourneyPage.tsx:726 | ceil((i+1)/vpd) names the block of size vpd holding index i |
| SmartJourney.ToggleDay | src/components/pages/SmartJourneyPage.tsx:387-393 | only the given day's membership flips |
| SmartJourney.Filter | src/components/pages/SmartJourneyPage.tsx:389 | the filter removes exactly that day |
| SmartJourney.ToggleDayTwice | src/components/pages/SmartJourneyPage.tsx:387-393 | toggling a day twice restores the set of expanded days |
| SmartJourney.WatchedCount | src/components/pages/SmartJourneyPage.tsx:315 | the watched count is at most the number of videos |
| SmartJourney.RoundPercent | src/components/pages/SmartJourneyPage.tsx:316 | the progress lies in 0..100 |
| SmartJourney.RoundPercentNearest | src/components/pages/SmartJourneyPage.tsx:316 | the progress is 100·w/n rounded half up, as `Math.round` does |
| SmartJourney.ReplaceById | src/components/pages/SmartJourneyPage.tsx:327-330 | only the journeys with the id are replaced; the others stay |
| SmartJourney.DaysFromInput | src/components/pages/SmartJourneyPage.tsx:540 | `parseInt(...) \|\| 7`: a non-zero number is kept, anything else gives 7 |
| SmartJourney.MockJourneys | src/components/pages/SmartJourneyPage.tsx:136-182 | three journeys whose current video exists |
| SmartJourney.Video.constructor | src/components/pages/SmartJourneyPage.tsx:82-133 | a video holds the given id, title, order, flag and notes |
| SmartJourney.JourneyPage.constructor | src/components/pages/SmartJourneyPage.tsx:64-77 | the page starts on the list view with an empty form, 7 days and day 1 expanded |
| SmartJourney.JourneyPage.LoadMockJourneys | src/components/pages/SmartJourneyPage.tsx:185-187 | the mock journeys are loaded and nothing else changes |
| SmartJourney.JourneyPage.HandleFetchPlaylist | src/components/pages/SmartJourneyPage.tsx:190-244 | the URL, title and day checks fail in that order, each setting only its message; success appends one journey "journey-(n+1)" at video 0 over five new video objects holding the mock videos, resets the form to '', '' and 7 and shows the list; nothing else changes |
| SmartJourney.JourneyPage.AddJourney | src/components/pages/SmartJourneyPage.tsx:212-241 | the new journey is appended with the next number, focus score 75, streak 1 and progress 0, and the form is reset; nothing else changes |
| SmartJourney.NewMockVideos | src/components/pages/SmartJourneyPage.tsx:82-133 | evaluating the mock video literal gives five new, distinct objects holding its fields |
| SmartJourney.JourneyPage.ViewJourney | src/components/pages/SmartJourneyPage.tsx:379-385 | the journey is selected with its current video's notes and its schedule |
| SmartJourney.JourneyPage.SaveNotes | src/components/pages/SmartJourneyPage.tsx:335-354 | the current video gets the notes and only the journey with the id is replaced |
| SmartJourney.JourneyPage.PlayVideo | src/components/pages/SmartJourneyPage.tsx:272-287 | the old video keeps the typed notes, the index moves, the new video's notes are loaded and playback stops; nothing else on the page changes |
| SmartJourney.JourneyPage.NextVideo | src/components/pages/SmartJourneyPage.tsx:295-300 | except at the last video, it moves one forward as PlayVideo does (notes saved to the old video, the next video's notes loaded, playback stopped, nothing else changed); at the last video nothing changes |
| SmartJourney.JourneyPage.PrevVideo | src/components/pages/SmartJourneyPage.tsx:302-307 | except at the first video, it moves one back as PlayVideo does (notes saved to the old video, the previous video's notes loaded, playback stopped, nothing else changed); at the first video nothing changes |
| SmartJourney.JourneyPage.ToggleWatchedInPlace | src/components/pages/SmartJourneyPage.tsx:309-333 | as written: the shared video object's flag flips and only the selected journey's progress is recomputed; no other page field changes |
| SmartJourney.JourneyPage.ToggleWatched | src/components/pages/SmartJourneyPage.tsx:309-333 | corrected: only the selected journey's video flips, its progress is recomputed, every other journey keeps its videos and watched count, and no other page field changes |
| SmartJourney.JourneyPage.ResetJourney | src/components/pages/SmartJourneyPage.tsx:369-377 | deselects the journey and clears the form, the notes and the error |
| SmartJourney.JourneyPage.ToggleDayExpansion | src/components/pages/SmartJourneyPage.tsx:387-393 | the expanded days are toggled at that day and nothing else changes |
| SmartJourney.SharedVideoToggle | src/components/pages/SmartJourneyPage.tsx:309-333 | two journeys sharing a video: toggling it in one leaves the other watched but at stored progress 0 instead of 100 |
| Utilities.FilteredNotes | src/components/pages/UtilitiesPage.tsx:57-72 | the 'all' tab with no query gives the notes unchanged |
| Utilities.FilteredMembers | src/components/pages/UtilitiesPage.tsx:57-72 | a note is shown iff it is saved, matches the tab and, for a non-empty query, its lowercased title, content or link contains the lowercased query |
| Utilities.FilteredIsSubsequence | src/components/pages/UtilitiesPage.tsx:57-72 | the shown notes keep the saved order |
| Utilities.DeleteNote | src/components/pages/UtilitiesPage.tsx:52-54 | exactly the notes with the id are gone |
| Utilities.DeleteRemovesExactly | src/components/pages/UtilitiesPage.tsx:52-54 | as many notes are removed as carry the id, and the rest keep their order |
| Utilities.SourceLabel | src/components/pages/UtilitiesPage.tsx:75-88 | the four sources get their labels; none and manual get "Manual Note" |
| Utilities.SourceLabelsDistinct | src/components/pages/UtilitiesPage.tsx:75-88 | a label other than "Manual Note" identifies its source |
| Utilities.CountBySource | src/components/pages/UtilitiesPage.tsx:142-184 | a source's badge is the number of notes that source's tab lists when the search box is empty |
| Utilities.CountUnsourced | src/components/pages/UtilitiesPage.tsx:128-185 | the number of notes without a source, the part of the total no source badge counts (used by CountsPartition) |
| Utilities.CountsPartition | src/components/pages/UtilitiesPage.tsx:128-185 | the per-source counts and the unsourced count add up to the total |
| Sequences.CountKeep | src/components/pages/UtilitiesPage.tsx:142-184 | counting the notes that pass a test is the length of the filtered list, as `filter(...).length` |
| Utilities.Underscored | src/components/pages/UtilitiesPage.tsx:46 | the munged title holds no whitespace |
| Utilities.DownloadFilename | src/components/pages/UtilitiesPage.tsx:46 | the file name holds no whitespace and ends in ".txt" |
| Utilities.UnderscoredNoSpace | src/components/pages/UtilitiesPage.tsx:46 | a word without whitespace is kept as it is |
| Utilities.TrimStartAfterBlank | src/components/pages/UtilitiesPage.tsx:46 | a whitespace run is consumed whole |
| Utilities.WordsJoined | src/components/pages/UtilitiesPage.tsx:46 | two words separated by any whitespace run become word_word.txt |
| Sidebar.SubEntries | src/components/Sidebar.tsx:95-104 | one entry per sub-item, carrying its parent's label |
| Sidebar.ItemEntries | src/components/Sidebar.tsx:84-104 | an item contributes itself and then its sub-items |
| Sidebar.SearchFinds | src/components/Sidebar.tsx:75-108 | a blank query finds nothing; otherwise an entry is found iff its lowercased label contains the lowercased, untrimmed query |
| Sidebar.SearchResults | src/components/Sidebar.tsx:75-108 | the loop returns exactly the specified search |
| Sidebar.ItemHits | src/components/Sidebar.tsx:84-104 | one item's hits are its matching entries, the item first |
| Sidebar.SubItemHits | src/components/Sidebar.tsx:95-104 | one item's sub-item hits are its matching sub-item entries in order |
| Sidebar.TopHit | src/components/Sidebar.tsx:85-92 | a top-level entry is a hit iff its lowercased label contains the query |
| Sidebar.ItemStep | src/components/Sidebar.tsx:83-105 | the hits of one more item follow those of the earlier items |
| Sidebar.SearchInMenuOrder | src/components/Sidebar.tsx:83-105 | the results keep menu order |
| Sidebar.EntriesShape | src/components/Sidebar.tsx:86-102 | top-level results have parent '' and sub-item results their parent's label |
| Sidebar.ToggleMenu | src/components/Sidebar.tsx:63-65 | the menu is open afterwards iff it was not, and no other menu is |
| Sidebar.Panel.constructor | src/components/Sidebar.tsx:22-23 | no menu open and an empty query |
| Sidebar.Panel.Toggle | src/components/Sidebar.tsx:63-65 | the open menu follows ToggleMenu |
| Sidebar.Panel.HandleNavigate | src/components/Sidebar.tsx:67-72 | the page changes, the query is cleared and the sidebar closes |
| StudyRoom.FindByEmail | src/components/pages/StudyRoomPage.tsx:161 | as at lines 161 and 184: none exactly when no user has the email; otherwise the first user with it |
| StudyRoom.FoundIsOnly | src/components/pages/StudyRoomPage.tsx:161 | with unique emails the owner of the email is found |
| StudyRoom.SetOnline | src/components/pages/StudyRoomPage.tsx:166-168 | the user list keeps its length, here and in the logout at lines 205-207 |
| StudyRoom.SetOnlineOnly | src/components/pages/StudyRoomPage.tsx:166-168 | as here and in the logout at lines 205-207: only the flag of the users with the id changes; unique emails stay unique |
| StudyRoom.AppendKeepsUnique | src/components/pages/StudyRoomPage.tsx:184-197 | registering a new email keeps emails unique |
| StudyRoom.UpdateLastMessage | src/components/pages/StudyRoomPage.tsx:240-244 | the chat list keeps its length |
| StudyRoom.UpdateLastMessageOnly | src/components/pages/StudyRoomPage.tsx:240-244 | only the active chat changes, and only its last message and its timestamp 'now' |
| StudyRoom.LoginPicksOwner | src/components/pages/StudyRoomPage.tsx:161-171 | logging in with a registered email picks its owner and marks them online |
| StudyRoom.Room.constructor | src/components/pages/StudyRoomPage.tsx:34-147 | logged out with the initial chats, users and messages, chat "1" active |
| StudyRoom.Room.EnterCredentials | src/components/pages/StudyRoomPage.tsx:279-341 | the form fields take the typed values and nothing else changes |
| StudyRoom.Room.ToggleRegistering | src/components/pages/StudyRoomPage.tsx:358 | the form switches between login and register |
| StudyRoom.Room.Login | src/components/pages/StudyRoomPage.tsx:151-172 | an empty field or an unknown email changes nothing; otherwise that user becomes current and the list marks them online; the password is not checked |
| StudyRoom.Room.Register | src/components/pages/StudyRoomPage.tsx:174-200 | an empty field or a taken email changes nothing; otherwise one online user "user-(now)" is appended and becomes current |
| StudyRoom.Room.Logout | src/components/pages/StudyRoomPage.tsx:202-214 | only the current user goes offline; authentication, current user and the form are cleared |
| StudyRoom.Room.TypeMessage | src/components/pages/StudyRoomPage.tsx:548 | the draft takes the typed text |
| StudyRoom.Room.SelectChat | src/components/pages/StudyRoomPage.tsx:436 | the chat becomes active |
| StudyRoom.Room.SendMessage | src/components/pages/StudyRoomPage.tsx:224-245 | a blank draft or no user changes nothing; otherwise one own message is appended, the draft cleared and only the active chat's last message updated |
| StudyFlow.ExtractId | src/components/pages/StudyFlowPage.tsx:168-172 | '' exactly when the link has no id; otherwise the id the transcript route's extraction finds, 11 characters free of `#`, `&` and `?` |
| StudyFlow.RestoredVideo | src/components/pages/StudyFlowPage.tsx:58-61 | a video is restored exactly when the stored flag is 'true' and a stored id is non-empty |
| StudyFlow.Persisted | src/components/pages/StudyFlowPage.tsx:65-94 | the flag is always written, nothing stored is lost, and only the page's keys are added |
| StudyFlow.RestoreAfterPersist | src/components/pages/StudyFlowPage.tsx:34-94 | what the page writes, a later mount reads back, the video only when analysed |
| StudyFlow.ClearForgets | src/components/pages/StudyFlowPage.tsx:205-210 | after clearing, nothing of the page is restored and other keys keep their values |
| StudyFlow.NewNote | src/components/pages/StudyFlowPage.tsx:225-233 | a study-flow note holding the notes, with the title or "Study Flow Note" and the date |
| StudyFlow.SavedNoteShows | src/components/pages/StudyFlowPage.tsx:236-243 | the saved note raises the study-flow count by one and shows first under that tab |
| StudyFlow.Page.constructor | src/components/pages/StudyFlowPage.tsx:21-29 | the page starts empty, not analysed and not loading |
| StudyFlow.Page.Mount | src/components/pages/StudyFlowPage.tsx:34-62 | stored link, notes and title are restored when present; the video only under RestoredVideo |
| StudyFlow.Page.Persist | src/components/pages/StudyFlowPage.tsx:65-94 | the storage becomes Persisted of the current fields |
| StudyFlow.Page.EnterLink | src/components/pages/StudyFlowPage.tsx:267-270 | the link takes the typed value and the error is cleared |
| StudyFlow.Page.EnterNotes | src/components/pages/StudyFlowPage.tsx:333-346 | the title and the notes take the typed values |
| StudyFlow.Page.Analyze | src/components/pages/StudyFlowPage.tsx:175-192 | a blank link and a link without an id set their errors and keep the video; otherwise the id is analysed, the error cleared and loading off |
| StudyFlow.Page.Clear | src/components/pages/StudyFlowPage.tsx:195-218 | link, flag, id, error, position, notes and title reset; the six keys leave the storage |
| StudyFlow.Page.SaveNotes | src/components/pages/StudyFlowPage.tsx:221-248 | blank notes change nothing; otherwise one new note is put in front of the unchanged list and the saved feedback shows |
| StudyFlow.Page.SavedFeedbackExpired | src/components/pages/StudyFlowPage.tsx:247 | the saved feedback goes off and nothing else changes |
| App.PageView | src/App.tsx:59-82 | home for "home" and unknown pages, coming-soon exactly for the placeholder pages |
| App.RenderPage | src/App.tsx:41-83 | loading first, then login when not authenticated, then the page |
| App.ChromeIffContent | src/App.tsx:86 | header and sidebar show iff the page itself (not loading, not login) is rendered |
| App.PlaceholderNames | src/App.tsx:66-79 | each placeholder page shows its own name |
| App.Shell.constructor | src/App.tsx:14-17 | starts on "home", loading, logged out, sidebar closed |
| App.Shell.CheckAuthStatus | src/App.tsx:20-30 | loading ends logged out, so the login page shows |
| App.Shell.HandleLoginSuccess | src/App.tsx:32-34 | only authentication is set |
| App.Shell.HandleLogout | src/App.tsx:36-39 | logged out on page "home" |
| App.Shell.Navigate | src/App.tsx:117 | only the page changes |
| App.Shell.ToggleSidebar | src/App.tsx:102 | only the sidebar flag flips |
| App.Shell.CloseSidebar | src/App.tsx:120 | only the sidebar closes |
| Strings.Lower | src/components/Sidebar.tsx:80 | `toLowerCase` keeps the length and lowers each character |
| Strings.TrimEmptyIffBlank | src/components/Sidebar.tsx:76 | `trim()` is empty exactly for blank text |
| Strings.JoinSplit | src/components/FloatingParrot.tsx:369-373 | rejoining the split words gives the message back |
| Strings.NatToStringRoundTrip | src/components/pages/SmartJourneyPage.tsx:219 | the decimal text of a number reads back as that number |

## Left out

- Response texts: each is a tag; only which one is chosen and its interpolations are modelled.
- Floating point: arithmetic operands are exact reals, `^` is kept as a power tag and not evaluated, and number-to-text formatting is not modelled; progress rounding is exact integer arithmetic.
- Strings.Lower: lowercases ASCII letters only, whereas JavaScript `toLowerCase` covers all of Unicode.
- FloatingParrot.TypeMessage: the per-word delay, the message-list update for each frame and speech output are left out; the method returns the frames.
- FloatingParrot.Evaluate: states the quotient, sum and difference by their defining equations and leaves product and power as computed values without a further property.
- FloatingParrot.ParrotWidget.GetAIResponse: the "thinking" delay is left out.
- Speech synthesis, `alert` messages (the study room's empty-field, unknown-email and taken-email alerts), the emoji-stripping regular expression, FileReader image loading, scrolling, focus, animations and JSX rendering are left out: they are browser effects without decision logic.
- Timers: the typing and thinking delays, the simulated delays in the app shell and the playlist form, and the saved-feedback timeout (modelled as the separate StudyFlow.Page.SavedFeedbackExpired step).
- Clocks and locale: `Date.now()` ids and locale time texts are parameters; the two `new Date()` calls when saving study-flow notes are one parameter; `daysRemaining`, start and end dates and date formatting are left out.
- The caption-provider fallback chain, the OpenAI chunk summaries and the Express plumbing of the transcript route are left out: they are network calls. AnalyzeYoutube takes the fetched subtitles as a function parameter and models a thrown error only as a missing URL.
- Transcripts.Remainder60: for negative seconds only the sign and bound of the remainder are stated, as the formatter is only proved for seconds ≥ 0.
- Persistence: localStorage is a `map` from key to text; JSON encoding of the saved notes list is left out and the list is the `savedNotes` sequence. Only the study-flow page's persistence effects are modelled; the notes library's load and save of that list are not.
- StudyFlow.Page.Mount: the saved video position (`parseFloat`) is not restored, and the video player and its 1-second position polling are left out.
- StudyFlow.Page.Clear: the stored list of saved notes is kept, as in the source; the player reset is left out.
- VideoLinks.ExtractVideoId: the 11-character test counts Unicode scalar values, whereas JavaScript `length` (server/routes/youtube.js:11) counts UTF-16 code units; ids outside the Basic Multilingual Plane are judged differently.
- StudyFlow.ExtractId: the same difference for its `length === 11` test (StudyFlowPage.tsx:171).
- FloatingParrot.LongQuestionIsNotHomework: the `length < 100` test of `AsksHomework` (FloatingParrot.tsx:335) counts Unicode scalar values, not UTF-16 code units, so an input with characters outside the Basic Multilingual Plane may be judged short where JavaScript judges it long.
- Transcripts.Tokens: the estimate counts Unicode scalar values, whereas JavaScript `length` (server/routes/youtube.js:22) counts UTF-16 code units.
- SmartJourney: thumbnails, durations, focus mode, mute and the player controls are left out; the playlist URL is not parsed, as the source loads the mock videos for every URL.
- The download itself (Blob, object URL, link click) is left out; only the file name is modelled.
- The login page, home page, stats card and coming-soon page are left out: they hold no logic beyond presentation and a two-field emptiness check with a simulated delay.
- Debug and test scripts around the scraping libraries are left out.
- The sidebar's menu entries carry `name` where the source says `label`, since `label` is a keyword in Dafny.

## Findings

| source | as written | input that shows it | evidently intended | confidence | as-written member | corrected member |
|---|---|---|---|---|---|---|
| src/components/pages/SmartJourneyPage.tsx:309-333 | `toggleWatched` copies the video array but then assigns `watched` on the video object itself, which the mock journeys 1-3, sharing the first render's `mockVideos`, also hold | two journeys holding the same video; toggle it in the first | only the selected journey's video changes, and every journey's progress matches its watched videos | not executed | SmartJourney.SharedVideoToggle | SmartJourney.JourneyPage.ToggleWatched |
| src/components/FloatingParrot.tsx:463-488 | `**` is turned into `<strong>` tags first, but bullet and numbered lines are then rendered as plain text, so the tags show literally | a reply line `• **Algebra**` | bold text in bullet and numbered lines is rendered as bold | not executed | FloatingParrot.BoldBulletShowsRawTags | FloatingParrot.FormatLineAsMarkup |
