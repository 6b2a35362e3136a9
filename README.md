# Reader — a verified model of the reading app's logic

This project models the deterministic core of the "Advanced Knowledge Library" reading app,
a React/TypeScript single-page application, in Dafny:

- **The chapter store** (`useChapters`). Database rows are normalised into chapters and partial
  updates become patches. The in-memory chapter list is kept in step after a fetch, an add, an
  update or a delete.
- **The admin editor.** The form is validated and turned into a chapter. Tags travel between a
  comma-separated text and a list.
- **The paced ("immersive") reader.** It has a word cursor, timer ticks, skips, progress output
  and the focus score computed from distractions.
- **The scroll reader.** Scroll progress, words read, and the markup classifier that turns
  `## heading`, `**subheading**` and `**bold**` into blocks.
- **The top-level view state.** Panel flags, selection, bookmarks, the theme cycle and the
  keyboard shortcuts with their Escape priority chain.
- **List logic.** The chapter search, the smart-bookmark list (delete, update, filter, sort,
  connections) and the reading-session analytics (time windows, totals, averages, time
  formatting).
- **The rule engines.** The reading coach's advice and goals, the biometric optimiser's
  suggestions and status colours, and the visualisation's keyword, sentence, concept, category,
  connection and colour helpers.

Remote calls, clocks and random numbers are parameters: a method receives the outcome of its
database call (`Result`/`Outcome`), the current time and any random pick as arguments. State that
React keeps in `useState` is a `class` with one field per state variable. Every handler is a
method whose `ensures` gives the whole new state, usually through a function on the old state
about which the lemmas prove the interesting properties. The pure parts (normalisation, patches,
classifiers, filters, rules) are functions and lemmas.

Modules, one per source file, plus three shared helpers:

| module | file | models |
|---|---|---|
| `Wrappers` | wrappers.dfy | `Option`, `Result`, `Outcome` |
| `Seqs` | seqs.dfy | filter, subsequence, `slice(-n)`, `slice(0, n)`, stable descending sort, `new Set` order |
| `Text` | text.dfy | JavaScript `trim`, ASCII `toLowerCase`, `includes`, `split`, `split(/\s+/)`, `join`, number-to-text |
| `Chapters` | chapters.dfy | src/hooks/useChapters.ts |
| `Admin` | admin.dfy | src/components/AdminPanel.tsx |
| `ImmersiveReader` | immersive_reader.dfy | src/components/ImmersiveReader.tsx |
| `Reader` | reader.dfy | src/components/Reader.tsx |
| `App` | app.dfy | src/App.tsx |
| `ChapterList` | chapter_list.dfy | src/components/ChapterList.tsx |
| `SmartBookmarks` | smart_bookmarks.dfy | src/components/SmartBookmarks.tsx |
| `ReadingAnalytics` | reading_analytics.dfy | src/components/ReadingAnalytics.tsx |
| `ReadingCoach` | reading_coach.dfy | src/components/AIReadingCoach.tsx |
| `Biometric` | biometric.dfy | src/components/BiometricOptimizer.tsx |
| `Visualization` | visualization.dfy | src/components/ImmersiveVisualization.tsx |

Four behaviours of the code that the model keeps as written:

- Normalisation copies the stored title and author and puts no default in place of an empty
  one (src/hooks/useChapters.ts:21-25).
- `updateChapter(id, {subtitle: undefined})` leaves the subtitle out of the patch
  (src/hooks/useChapters.ts:84).
- The scroll reader's word total is the length of `content.split(/\s+/)`, which counts the
  empty pieces before a leading or after a trailing space (src/components/Reader.tsx:41).
- Scroll progress is capped at 100 but has no lower bound (src/components/Reader.tsx:38).

## Model

| member | source | states |
|---|---|---|
| `Text.Trim` | src/components/AdminPanel.tsx:63 | `trim()`: the result has no leading or trailing white space, a trimmed text is its own trim, and the result is empty exactly when the text is all white space |
| `Text.TrimSlice` | src/components/AdminPanel.tsx:63 | `trim()` keeps one slice of the text: everything before it and everything after it is white space |
| `Text.ToLower` | src/components/ChapterList.tsx:24-26 | `toLowerCase()` keeps the length, leaves no upper-case letter and changes only upper-case letters |
| `Text.JoinSplit` | src/components/Reader.tsx:53 | joining the pieces of `split(sep)` with `sep` gives back the text |
| `Text.SplitPiecesFree` | src/components/Reader.tsx:53 | no piece of `split(sep)` contains the (non-empty) separator |
| `Text.SplitLeftmost` | src/components/Reader.tsx:53 | `split(sep)` cuts at the leftmost occurrence: no occurrence starts inside the first piece, `sep` follows it when there are more pieces, and with one piece it is the whole text |
| `Text.SplitWsJoin` | src/components/ImmersiveReader.tsx:36 | splitting on white-space runs undoes a join with single spaces of non-empty, space-free words |
| `Seqs.Filter` | src/components/ChapterList.tsx:23 | `filter` keeps exactly the elements satisfying the predicate, each as often as before at most |
| `Seqs.SliceLast` | src/components/BiometricOptimizer.tsx:56 | `slice(-n)` is the suffix of length `min(n, length)` |
| `Seqs.Take` | src/components/ReadingAnalytics.tsx:161 | `slice(0, n)` is the prefix of length `min(n, length)` |
| `Seqs.SortDesc` | src/components/SmartBookmarks.tsx:98-114 | a sort by a descending comparator: the result is ordered by non-increasing key and is a permutation of the input |
| `Seqs.SortDescStable` | src/components/SmartBookmarks.tsx:97-113 | the sort is stable: for every key value, the elements with that key appear in the sorted sequence in their input order |
| `Seqs.SortDescTies` | src/components/SmartBookmarks.tsx:97-113 | with all keys equal the sort is the identity |
| `Seqs.Map` | src/components/SmartBookmarks.tsx:80 | `map(f)` has one element per input element, the image of that element |
| `Seqs.Distinct` | src/components/ChapterList.tsx:20 | `Array.from(new Set(xs))` holds every element of `xs`, nothing else, and no duplicates |
| `Seqs.DistinctOrder` | src/components/ChapterList.tsx:20 | the set keeps first-occurrence order |
| `Chapters.NonEmpty` | src/hooks/useChapters.ts:23 | `subtitle \|\| undefined`: a subtitle survives exactly when it is present and non-empty |
| `Chapters.Normalize` | src/hooks/useChapters.ts:20-30 | a row keeps id, title, author, content, category and difficulty; `estimated_read_time` becomes `estimatedReadTime`; null tags become `[]`; a null or empty subtitle becomes absent; nothing is defaulted |
| `Chapters.NormalizeAll` | src/hooks/useChapters.ts:20-30 | one chapter per row, in the rows' order and count |
| `Chapters.ToInsert` | src/hooks/useChapters.ts:44-53 | the insert record copies every field of the draft and sends an empty subtitle as null |
| `Chapters.InsertRoundTrip` | src/hooks/useChapters.ts:44-69 | reading back the stored insert gives the draft with its new id, when the subtitle is not `""` |
| `Chapters.InsertEmptySubtitle` | src/hooks/useChapters.ts:46-62 | an empty subtitle is stored as null and reads back absent |
| `Chapters.BuildPatch` | src/hooks/useChapters.ts:82-91 | each field is in the patch exactly when the supplied value is truthy; the subtitle whenever it is defined, an empty one as null |
| `Chapters.EmptyUpdateKeepsRow` | src/hooks/useChapters.ts:82-91 | an update with no fields leaves the row unchanged |
| `Chapters.PatchKeepsFalsyFields` | src/hooks/useChapters.ts:83-90 | missing or falsy values leave their column alone; an empty subtitle clears it, a non-empty one sets it; the id never changes |
| `Chapters.PatchIdempotent` | src/hooks/useChapters.ts:82-91 | applying the same patch twice equals applying it once |
| `Chapters.ReplaceById` | src/hooks/useChapters.ts:110-112 | the mapped list has the same length |
| `Chapters.ReplaceByIdFrame` | src/hooks/useChapters.ts:110-112 | entries with another id are unchanged, every entry with the id becomes the updated chapter, and with no match the list is unchanged |
| `Chapters.ReplaceByIdKeepsIds` | src/hooks/useChapters.ts:110-112 | the sequence of ids is unchanged, so unique ids stay unique |
| `Chapters.RemoveByIdSpec` | src/hooks/useChapters.ts:129 | no entry keeps the id; every other entry stays, in order; nothing is added; with no match the list is unchanged |
| `Chapters.RemoveByIdKeepsUnique` | src/hooks/useChapters.ts:129 | deleting keeps ids unique |
| `Chapters.ChapterStore.constructor` | src/hooks/useChapters.ts:6-8 | an empty list, loading, no error |
| `Chapters.ChapterStore.Fetch` | src/hooks/useChapters.ts:10-38 | success replaces the list by the normalised rows and keeps an earlier error; failure keeps the list and records the message or "An error occurred"; loading ends in both cases |
| `Chapters.ChapterStore.Add` | src/hooks/useChapters.ts:40-76 | sends the insert record; success puts the normalised row in front of the unchanged list and returns it; failure returns the message or "Failed to add chapter" and keeps the list |
| `Chapters.ChapterStore.Update` | src/hooks/useChapters.ts:78-118 | sends the patch; success replaces the entries with that id by the normalised row; failure returns the message or "Failed to update chapter" and keeps the list |
| `Chapters.ChapterStore.Delete` | src/hooks/useChapters.ts:120-133 | success removes the entries with that id; failure returns the message or "Failed to delete chapter" and keeps the list |
| `Admin.TrimOr` | src/components/AdminPanel.tsx:73-75 | the trimmed text, or the fallback when it trims to empty |
| `Admin.TrimAll` | src/components/AdminPanel.tsx:76 | `map(tag => tag.trim())`, element by element |
| `Admin.ParseTagsWellFormed` | src/components/AdminPanel.tsx:76 | every derived tag is non-empty, trimmed and comma-free, and the tags are the trimmed pieces in input order |
| `Admin.TagsRoundTrip` | src/components/AdminPanel.tsx:49-76 | tags that are non-empty, trimmed and comma-free come back unchanged from joining with ", " and parsing |
| `Admin.JoinTagsPieces` | src/components/AdminPanel.tsx:49-76 | splitting the joined text on "," gives the first tag, then each later tag after a space |
| `Admin.TrimPaddedPieces` | src/components/AdminPanel.tsx:76 | trimming those pieces gives the tags back |
| `Admin.FormOf` | src/components/AdminPanel.tsx:43-52 | editing copies title, author, content, category, difficulty and reading time into the form; the subtitle, or `""` when absent; the tags joined by ", " |
| `Admin.DeriveDraft` | src/components/AdminPanel.tsx:70-79 | trimmed title and content; the trimmed subtitle, or none when empty; author "Anonymous" and category "General" when they trim to empty; parsed tags; difficulty and reading time copied |
| `Admin.EditSaveRoundTrip` | src/components/AdminPanel.tsx:41-79 | editing a tidy chapter and saving the form untouched passes validation and derives that chapter's own fields |
| `Admin.SubtitleNotClearedAsWritten` | src/components/AdminPanel.tsx:72-82 | as written, emptying the subtitle of an edited chapter leaves the old subtitle stored |
| `Admin.UpdatesFromForm` | src/components/AdminPanel.tsx:70-82 | the update always carries the trimmed subtitle |
| `Admin.SaveUpdateReadsBack` | src/components/AdminPanel.tsx:70-85 | updating a row from a valid form (non-zero reading time) reads back exactly the derived chapter with the row's id |
| `Admin.SaveAddReadsBack` | src/components/AdminPanel.tsx:70-84 | adding from the form reads back exactly the derived chapter with the new id |
| `Admin.RequestReadsBack` | src/components/AdminPanel.tsx:68-85 | the request a valid form (non-zero reading time) produces reads back, applied to a row or inserted under a new id, as exactly the derived chapter with that id |
| `Admin.AdminPanel.constructor` | src/components/AdminPanel.tsx:35-39 | empty form, not editing, not creating, not saving |
| `Admin.AdminPanel.Edit` | src/components/AdminPanel.tsx:41-54 | the form holds the chapter, which is being edited; creating is off |
| `Admin.AdminPanel.Create` | src/components/AdminPanel.tsx:56-60 | empty form, nothing edited, creating on |
| `Admin.AdminPanel.Cancel` | src/components/AdminPanel.tsx:109-113 | empty form, nothing edited, creating off |
| `Admin.AdminPanel.Save` | src/components/AdminPanel.tsx:62-95 | without a title or content: the alert "Title and content are required", no request and no other change; otherwise the request sent is the one the form produces (`RequestFor`), the new state is as for `Submit`, and the store's loading flag and error are unchanged |
| `Admin.AdminPanel.Submit` | src/components/AdminPanel.tsx:68-94 | the request sent is the store's encoding of the call; updates the edited chapter or adds a new one; success resets the editor; failure keeps the form and alerts the store's message; saving is off afterwards |
| `Admin.AdminPanel.Send` | src/components/AdminPanel.tsx:80-85 | the edited chapter is updated by id, otherwise a chapter is added; the request is the store's encoding of that call, and the list and result follow the store |
| `Admin.AdminPanel.Settle` | src/components/AdminPanel.tsx:87-93 | success closes the editor and empties the form; failure alerts the message and keeps the form; saving ends either way |
| `Admin.AdminPanel.SendUpdate` | src/components/AdminPanel.tsx:81-82 | `updateChapter(id, updates)` sends the patch built from the updates for that id; success replaces the chapter in the store's list by the normalised row; a failure leaves the list alone and carries the store's message or "Failed to update chapter" |
| `Admin.AdminPanel.SendAdd` | src/components/AdminPanel.tsx:83-85 | `addChapter(draft)` sends the insert record of the draft; success puts the normalised row first in the store's list; a failure leaves the list alone and carries the store's message or "Failed to add chapter" |
| `Admin.AdminPanel.Delete` | src/components/AdminPanel.tsx:97-107 | without confirmation nothing changes; confirmed success removes the chapter; failure alerts the message and keeps the list |
| `ImmersiveReader.WordsAreClean` | src/components/ImmersiveReader.tsx:36 | no word is empty or contains white space |
| `ImmersiveReader.WordsOfJoin` | src/components/ImmersiveReader.tsx:36 | clean words joined by spaces tokenise back to themselves |
| `ImmersiveReader.FocusScore` | src/components/ImmersiveReader.tsx:78-89 | the score lies in [50, 100] and is 100 without distractions |
| `ImmersiveReader.FocusScoreAntitone` | src/components/ImmersiveReader.tsx:81-85 | more distractions never raise the score |
| `ImmersiveReader.FocusScoreFirstMinute` | src/components/ImmersiveReader.tsx:79-85 | within the first minute each of up to five distractions costs 10 points |
| `ImmersiveReader.FocusScoreIgnoresCountAsWritten` | src/components/ImmersiveReader.tsx:39-81 | as written the handlers read the count captured at mount, so six distractions in a minute still score 100 where the formula gives 50 |
| `ImmersiveReader.TickPeriodBounds` | src/components/ImmersiveReader.tsx:93 | 300 words per minute tick every 200 ms; the slider's 100–500 keeps the period in [120, 600] ms; a faster speed never ticks slower |
| `ImmersiveReader.Progress` | src/components/ImmersiveReader.tsx:116-120 | progress lies in [0, 100) and is 0 exactly at the first word |
| `ImmersiveReader.ProgressMonotone` | src/components/ImmersiveReader.tsx:117 | progress grows with the cursor |
| `ImmersiveReader.PacedReader.constructor` | src/components/ImmersiveReader.tsx:22-36 | the chapter's words, cursor 0, paused, 250 words per minute, no distractions, score 100 |
| `ImmersiveReader.PacedReader.Tick` | src/components/ImmersiveReader.tsx:95-101 | below the last word the cursor advances by one; at it the cursor stays and playing stops; the cursor stays in range |
| `ImmersiveReader.PacedReader.SkipForward` | src/components/ImmersiveReader.tsx:129-131 | the cursor becomes `min(c + 10, len - 1)`, which is -1 with no words |
| `ImmersiveReader.PacedReader.SkipBackward` | src/components/ImmersiveReader.tsx:133-135 | the cursor becomes `max(c - 10, 0)` |
| `ImmersiveReader.PacedReader.TogglePlay` | src/components/ImmersiveReader.tsx:122-127 | playing flips; starting to play marks the reader active |
| `ImmersiveReader.PacedReader.SetSpeed` | src/components/ImmersiveReader.tsx:224-230 | the speed becomes the slider value, nothing else changes |
| `ImmersiveReader.PacedReader.Report` | src/components/ImmersiveReader.tsx:116-120 | emits `cursor / len * 100`, below 100, and the cursor as words read |
| `ImmersiveReader.PacedReader.Distracted` | src/components/ImmersiveReader.tsx:39-89 | one more distraction, and the score recomputed from the new count |
| `ImmersiveReader.PacedReader.VisibilityChanged` | src/components/ImmersiveReader.tsx:40-47 | hiding the page counts a distraction; showing it marks the reader active |
| `ImmersiveReader.PacedReader.Activity` | src/components/ImmersiveReader.tsx:49-55 | mouse or key activity marks the reader active, nothing else |
| `ImmersiveReader.PacedReader.InactivityCheck` | src/components/ImmersiveReader.tsx:62-68 | more than 10 s without activity counts a distraction, otherwise nothing changes |
| `Reader.ScrollProgress` | src/components/Reader.tsx:35-36 | with no scrollable height the progress is 0 |
| `Reader.EmittedProgress` | src/components/Reader.tsx:38 | `min(progress, 100)`: at most 100, at most the progress, and the progress itself up to 100 |
| `Reader.TotalWords` | src/components/Reader.tsx:41 | there is always at least one piece |
| `Reader.TotalWordsCounts` | src/components/Reader.tsx:41 | n words joined by spaces count n, a leading space adds an empty piece, and `""` counts 1 |
| `Reader.WordsReadBounds` | src/components/Reader.tsx:35-42 | for a scroll position inside the page, progress is in [0, 100] and words read in [0, total]; 50 % of 4 words is 2 |
| `Reader.NoLowerClamp` | src/components/Reader.tsx:36-38 | an overscrolled (negative) position emits negative progress |
| `Reader.RemoveStarsKeepsText` | src/components/Reader.tsx:65 | removing every `**` keeps all other characters in order |
| `Reader.RemoveStarsHead` | src/components/Reader.tsx:65 | a first character other than `*` stays first |
| `Reader.RemoveStarsNoPair` | src/components/Reader.tsx:65 | no `**` is left |
| `Reader.FindClose` | src/components/Reader.tsx:72 | when the lazy `(.*?)` closes, it closes at a `**` with no line break and no earlier `**` before it |
| `Reader.FindCloseMissing` | src/components/Reader.tsx:72 | when nothing closes, every later `**` has a line break before it |
| `Reader.FindCloseAt` | src/components/Reader.tsx:72 | a `**` with no line break and no `**` before it on the way is the one found; single asterisks do not stop the search |
| `Reader.BoldPlain` | src/components/Reader.tsx:71-74 | text without `*` is unchanged |
| `Reader.BoldWraps` | src/components/Reader.tsx:71-74 | `**x**` followed by more text becomes a strong element around x, then the rest formatted |
| `Reader.BoldStopsAtLineBreak` | src/components/Reader.tsx:72 | a pair split by a line break is left alone |
| `Reader.BoldPlainPrefix` | src/components/Reader.tsx:72 | a single `*` opens nothing |
| `Reader.Classify` | src/components/Reader.tsx:54-68 | a heading exactly when the piece starts with "## ", with that prefix removed; a subheading exactly when it is not a heading and starts and ends with `**`, with the asterisk pairs removed; otherwise a paragraph with `**bold**` markup |
| `Reader.SubheadingText` | src/components/Reader.tsx:62-65 | a subheading's text has no `**` and keeps every other character |
| `Reader.Pieces` | src/components/Reader.tsx:53 | splitting on blank lines gives at least one piece, and no piece holds a blank line |
| `Reader.FormatContent` | src/components/Reader.tsx:52-84 | one block per piece, in order, each classified |
| `Reader.FormatContentCoversText` | src/components/Reader.tsx:53 | the pieces joined by blank lines are the content, and none of them holds a blank line |
| `App.ChaptersShown` | src/App.tsx:56 | the stored chapters when there are any, otherwise the bundled ones |
| `App.NextTheme` | src/App.tsx:225-227 | the next theme is never the current one |
| `App.RoundNearest` | src/App.tsx:116 | `Math.round` is within one half, with halves rounding up |
| `App.FindById` | src/App.tsx:144 | `find` returns the first chapter with the id, and nothing exactly when no chapter has it |
| `App.AfterSelectionChange` | src/App.tsx:88-94 | a new selection resets progress, words read and the session start; otherwise nothing changes |
| `App.AdminAccessOp` | src/App.tsx:135-141 | a signed-in user opens the admin panel, anyone else the sign-in panel |
| `App.ImmersiveToggleStaleAsWritten` | src/App.tsx:208-251 | as written a second M press turns immersive mode on again instead of off |
| `App.ImmersiveToggleTwice` | src/App.tsx:152-154 | M flips immersive mode, and two presses restore the state |
| `App.BookmarkKeyStaleAsWritten` | src/App.tsx:186-251 | as written the B key records the progress captured when the listener was registered |
| `App.BookmarkKeyRecordsProgress` | src/App.tsx:186-191 | the B key bookmarks exactly as the bookmark button does |
| `App.BookmarkAppends` | src/App.tsx:110-120 | with no selection nothing changes; otherwise one bookmark is appended with the current progress, the selected id and the time, and nothing else changes |
| `App.ThemeCycle` | src/App.tsx:222-230 | T moves to the next theme and changes nothing else; three presses restore the state |
| `App.ShortcutsIgnored` | src/App.tsx:166-229 | keys typed in a form field, and modified keys other than Escape, change nothing |
| `App.ShortcutGuards` | src/App.tsx:179-213 | A needs a signed-in user; B, V and M need a selected chapter |
| `App.EscapeClosesOne` | src/App.tsx:232-246 | Escape closes exactly one open panel, the first of visualisation, analytics, bookmarks, admin, settings; with none open it goes back to the library |
| `App.EscapeOrder` | src/App.tsx:232-246 | Escape closes the visualisation if open, else analytics, else the bookmarks, else the editor, else the settings, and changes nothing else |
| `App.EscapesDrain` | src/App.tsx:232-246 | one more Escape than there are open panels closes them all and clears the selection |
| `App.SelectResets` | src/App.tsx:88-100 | selecting closes admin and immersive mode; a different chapter restarts progress, words read and the session |
| `App.NavigateSelects` | src/App.tsx:88-150 | an unknown chapter id changes nothing; otherwise that chapter is selected and the bookmarks panel closes, and the position survives only when the chapter was already selected |
| `App.BackClears` | src/App.tsx:102-108 | no selection, zero progress and words read, immersive mode and visualisation off |
| `App.CurrentReadingData` | src/App.tsx:156-162 | comprehension is 65 below focus 70 and 85 otherwise; in the first minute speed is the rounded word count |
| `App.App.constructor` | src/App.tsx:18-53 | saved or default settings, all panels closed, nothing selected, saved bookmarks, score 100 |
| `App.App.SelectionChanged` | src/App.tsx:88-94 | the reset effect after the selection changes |
| `App.App.SelectChapter` | src/App.tsx:96-100 | the state becomes `SelectOp` of the old state |
| `App.App.BackToLibrary` | src/App.tsx:102-108 | the state becomes `BackOp` of the old state |
| `App.App.AddBookmark` | src/App.tsx:110-120 | the state becomes `BookmarkOp` of the old state |
| `App.App.AdminAccess` | src/App.tsx:135-141 | the state becomes `AdminAccessOp` of the old state |
| `App.App.NavigateToBookmark` | src/App.tsx:143-150 | the state becomes `NavigateOp` over the chapters shown |
| `App.App.ToggleImmersive` | src/App.tsx:152-154 | immersive mode flips |
| `App.App.Report` | src/App.tsx:282-285 | the reader's progress, words read and focus score are stored |
| `App.App.KeyDown` | src/App.tsx:166-247 | the state becomes `KeyOp` of the old state |
| `ChapterList.CategoryChoices` | src/components/ChapterList.tsx:20 | the choices start with "All" |
| `ChapterList.CategoryChoicesSpec` | src/components/ChapterList.tsx:20 | after "All", every chapter's category once, nothing else, in first-occurrence order |
| `ChapterList.VisibleSpec` | src/components/ChapterList.tsx:23-32 | the shown chapters are an order-preserving subsequence; a chapter is shown exactly when it matches; a filter other than "All" admits only its exact value |
| `ChapterList.ContainsEmpty` | src/components/ChapterList.tsx:24-26 | the empty search term is contained in every text |
| `ChapterList.AllShownByDefault` | src/components/ChapterList.tsx:23-32 | an empty search with both filters "All" shows every chapter |
| `ChapterList.SearchIgnoresCase` | src/components/ChapterList.tsx:24-26 | a term and its lower-case form match the same chapters |
| `SmartBookmarks.MergeSpec` | src/components/SmartBookmarks.tsx:124-127 | the spread takes each of the fifteen fields from the update when present and from the bookmark otherwise |
| `SmartBookmarks.MergeIdempotent` | src/components/SmartBookmarks.tsx:124-127 | an empty update changes nothing and merging the same update twice is merging it once |
| `SmartBookmarks.UpdateById` | src/components/SmartBookmarks.tsx:124-127 | the length is kept |
| `SmartBookmarks.UpdateByIdSpec` | src/components/SmartBookmarks.tsx:124-129 | entries with other ids are unchanged, those with the id are merged, and an empty update changes nothing |
| `SmartBookmarks.DeleteByIdSpec` | src/components/SmartBookmarks.tsx:119-122 | no entry keeps the id, every other entry stays, in order |
| `SmartBookmarks.FindConnectionsSpec` | src/components/SmartBookmarks.tsx:67-81 | each connection is the id of a related bookmark other than the bookmark itself, and connections are in stored order |
| `SmartBookmarks.FindConnectionsComplete` | src/components/SmartBookmarks.tsx:69-78 | every other bookmark with more than two common long context words, a shared tag or the same category is a connection |
| `SmartBookmarks.ListedSpec` | src/components/SmartBookmarks.tsx:83-114 | the list is a permutation of the matching bookmarks: each listed one matches every filter, and every matching one is listed |
| `SmartBookmarks.ListedOrder` | src/components/SmartBookmarks.tsx:97-113 | sorted by date, importance, connections or comprehension, the key does not increase along the list; the chapter order keeps the matching bookmarks in stored order |
| `SmartBookmarks.CategoryChoices` | src/components/SmartBookmarks.tsx:116 | the choices start with "All" |
| `SmartBookmarks.CategoryChoicesSpec` | src/components/SmartBookmarks.tsx:116 | after "All", every category once |
| `SmartBookmarks.Whole` | src/components/SmartBookmarks.tsx:131-137 | passing a whole bookmark as the update makes the entry that bookmark |
| `SmartBookmarks.BookmarkStore.constructor` | src/components/SmartBookmarks.tsx:33-47 | the saved bookmarks |
| `SmartBookmarks.BookmarkStore.Delete` | src/components/SmartBookmarks.tsx:119-122 | the list becomes `DeleteById` of the old list |
| `SmartBookmarks.BookmarkStore.Update` | src/components/SmartBookmarks.tsx:124-129 | the list becomes `UpdateById` of the old list |
| `SmartBookmarks.BookmarkStore.Enhance` | src/components/SmartBookmarks.tsx:131-137 | the bookmark is replaced by itself with the insight and the connections found in the old list |
| `ReadingAnalytics.RangeMs` | src/components/ReadingAnalytics.tsx:35-39 | every window is positive |
| `ReadingAnalytics.RangeValues` | src/components/ReadingAnalytics.tsx:36-38 | a week, 30 days and 365 days in milliseconds |
| `ReadingAnalytics.KeptSpec` | src/components/ReadingAnalytics.tsx:41-43 | a session is kept exactly when `now - start` is within the window; kept sessions stay in order |
| `ReadingAnalytics.RangesNest` | src/components/ReadingAnalytics.tsx:33-44 | the week's sessions are among the month's, and those among the year's |
| `ReadingAnalytics.TotalsAppend` | src/components/ReadingAnalytics.tsx:48-54 | total time and total words add up over concatenated lists |
| `ReadingAnalytics.TotalTimeNonNegative` | src/components/ReadingAnalytics.tsx:48-50 | sessions that end after they start give a non-negative total |
| `ReadingAnalytics.Average` | src/components/ReadingAnalytics.tsx:56-62 | no kept session gives 0 |
| `ReadingAnalytics.SumBounds` | src/components/ReadingAnalytics.tsx:57-61 | a sum of n values in [lo, hi] lies in [n·lo, n·hi] |
| `ReadingAnalytics.AverageBounds` | src/components/ReadingAnalytics.tsx:56-62 | the average of values in [lo, hi] lies in [lo, hi] |
| `ReadingAnalytics.Recent` | src/components/ReadingAnalytics.tsx:161 | at most the first ten kept sessions, in order, and all of them when there are ten or fewer |
| `ReadingAnalytics.JsRem` | src/components/ReadingAnalytics.tsx:66 | JavaScript `%`: the Euclidean remainder for a non-negative dividend, and within (−b, b) |
| `ReadingAnalytics.TimePartsSpec` | src/components/ReadingAnalytics.tsx:64-68 | for a non-negative duration, hours ≥ 0, minutes in [0, 59], and `h·3600000 + m·60000 ≤ ms < h·3600000 + (m+1)·60000` |
| `ReadingAnalytics.TimePartsNegative` | src/components/ReadingAnalytics.tsx:64-68 | for a negative duration the hours are rounded down, `h·3600000 ≤ ms < (h+1)·3600000`, while the minutes lie in [−60, 0] and are 0 only for whole hours |
| `ReadingAnalytics.FormatTimeNegative` | src/components/ReadingAnalytics.tsx:65-66 | minus one minute formats as −1 h −1 m; 90 minutes as 1 h 30 m |
| `ReadingAnalytics.ScoreColorOf` | src/components/ReadingAnalytics.tsx:70-74 | green exactly from 80, yellow exactly in [60, 80), red exactly below 60 |
| `ReadingCoach.Rules` | src/components/AIReadingCoach.tsx:54-109 | at most four rule messages per analysis |
| `ReadingCoach.Advice` | src/components/AIReadingCoach.tsx:51-115 | one to five messages, the last being the personalised insight |
| `ReadingCoach.AdviceRules` | src/components/AIReadingCoach.tsx:55-109 | at most one speed message: a tip exactly below 200, a warning exactly above 400; focus below 60, comprehension above 85 and more than 45 minutes each add their message exactly then |
| `ReadingCoach.GoalProgress` | src/components/AIReadingCoach.tsx:196-199 | never above 100; 100 once the target is reached; non-negative for a positive target and value |
| `ReadingCoach.GoalProgressHalf` | src/components/AIReadingCoach.tsx:198 | half of a positive target is 50 % |
| `ReadingCoach.CurrentValue` | src/components/AIReadingCoach.tsx:186-194 | retention is always 75 and speed is the reading speed |
| `ReadingCoach.GoalFrom` | src/components/AIReadingCoach.tsx:160-167 | the goal keeps the draft's type and target, takes the current value, and without a description reads "Improve <type> to <target>" |
| `ReadingCoach.Coach.constructor` | src/components/AIReadingCoach.tsx:40-43 | no goals, no messages, an empty draft, the goal creator closed |
| `ReadingCoach.Coach.Analyze` | src/components/AIReadingCoach.tsx:51-118 | the messages become the last ten earlier ones followed by the new advice, at most 15 in all |
| `ReadingCoach.Coach.EditDraft` | src/components/AIReadingCoach.tsx:286-307 | the goal draft is replaced, nothing else changes |
| `ReadingCoach.Coach.CreateGoal` | src/components/AIReadingCoach.tsx:157-184 | a draft without type, non-zero target or deadline changes nothing; otherwise exactly one goal and one message referring to it are appended, the draft is cleared and the creator closed |
| `ReadingCoach.Coach.Progress` | src/components/AIReadingCoach.tsx:196-199 | a goal's progress is at most 100 |
| `Biometric.Rules` | src/components/BiometricOptimizer.tsx:73-110 | at most four suggestions per sample |
| `Biometric.RulesFire` | src/components/BiometricOptimizer.tsx:76-110 | each suggestion appears exactly when its threshold is crossed: eye strain > 70, heart rate > 90, focus < 50, cognitive load > 80 |
| `Biometric.UniqueSpec` | src/components/BiometricOptimizer.tsx:113-117 | no kept suggestion has the type and message of an existing one, and every other new suggestion is kept |
| `Biometric.NextSuggestions` | src/components/BiometricOptimizer.tsx:119-122 | with no unique suggestion the list is unchanged; otherwise it is the last five existing ones plus the unique ones |
| `Biometric.RemoveAt` | src/components/BiometricOptimizer.tsx:170-172 | an index in range removes exactly that entry; any other index removes nothing |
| `Biometric.Shown` | src/components/BiometricOptimizer.tsx:288 | the last `min(3, length)` suggestions |
| `Biometric.DismissWrongAsWritten` | src/components/BiometricOptimizer.tsx:288-302 | as written, with two suggestions shown the second button removes the first and the first button removes nothing |
| `Biometric.DismissShownRemovesIt` | src/components/BiometricOptimizer.tsx:288-302 | the k-th shown button removes exactly the k-th shown suggestion |
| `Biometric.StatusColorOf` | src/components/BiometricOptimizer.tsx:138-159 | the red and yellow bands of each metric, exactly as the thresholds say |
| `Biometric.Optimizer.constructor` | src/components/BiometricOptimizer.tsx:30-34 | no history, no current sample, no suggestions |
| `Biometric.Optimizer.Tick` | src/components/BiometricOptimizer.tsx:46-122 | the sample becomes current, the history is its last 50 entries plus the sample (at most 51), the unique suggestions are reported and the list is updated as `NextSuggestions` says |
| `Biometric.Optimizer.Dismiss` | src/components/BiometricOptimizer.tsx:170-172 | the list becomes `RemoveAt` of the old list |
| `Biometric.Optimizer.DismissShownAt` | src/components/BiometricOptimizer.tsx:288-302 | the k-th shown suggestion is dismissed |
| `Visualization.SplitRuns` | src/components/ImmersiveVisualization.tsx:47 | splitting on separator runs yields at least one piece |
| `Visualization.SplitRunsFlatten` | src/components/ImmersiveVisualization.tsx:47 | the pieces together are the text without its separators |
| `Visualization.SplitRunsPieces` | src/components/ImmersiveVisualization.tsx:47 | no piece holds a separator, and every piece character comes from the text |
| `Visualization.SentencesSpec` | src/components/ImmersiveVisualization.tsx:47 | exactly the pieces whose trimmed length exceeds 10 are kept, none holding `.`, `!` or `?` |
| `Visualization.CandidatesAreWords` | src/components/ImmersiveVisualization.tsx:96 | each candidate is at least four word characters with no upper-case letter |
| `Visualization.Tally` | src/components/ImmersiveVisualization.tsx:97-101 | one frequency entry per distinct word |
| `Visualization.FrequencyMapCounts` | src/components/ImmersiveVisualization.tsx:97-101 | the dictionary holds exactly the words seen, each with its number of occurrences |
| `Visualization.FrequencyMapSnoc` | src/components/ImmersiveVisualization.tsx:100 | one more word raises its count by one, starting from 0 |
| `Visualization.CountWords` | src/components/ImmersiveVisualization.tsx:97-101 | the counting loop yields each distinct word, in first-seen order, with its number of occurrences |
| `Visualization.ExtractKeywords` | src/components/ImmersiveVisualization.tsx:95-107 | the method returns `Keywords` of the text |
| `Visualization.SortedEntries` | src/components/ImmersiveVisualization.tsx:97-104 | each sorted entry is a word of the text with its exact count, with no duplicates |
| `Visualization.TopWordsDistinct` | src/components/ImmersiveVisualization.tsx:103-106 | `min(20, distinct words)` keywords, all distinct, all from the text |
| `Visualization.TopWordsOrdered` | src/components/ImmersiveVisualization.tsx:103-104 | keyword counts do not increase |
| `Visualization.TopWordBeats` | src/components/ImmersiveVisualization.tsx:103-105 | a word left out occurs no more often than any keyword |
| `Visualization.FirstMentionedSpec` | src/components/ImmersiveVisualization.tsx:135-140 | the first category whose keyword occurs, or general exactly when none occurs |
| `Visualization.CategorizeSpec` | src/components/ImmersiveVisualization.tsx:124-141 | categories are tried in the order concept, action, emotion, time, place, person on the lower-cased text; general exactly when none matches |
| `Visualization.Importance` | src/components/ImmersiveVisualization.tsx:111-112 | importance lies in (0, 1] |
| `Visualization.ImportanceThresholds` | src/components/ImmersiveVisualization.tsx:111-121 | importance exceeds 0.2 exactly from five space-separated pieces and is 1 exactly from twenty |
| `Visualization.ConceptText` | src/components/ImmersiveVisualization.tsx:116 | at most 100 characters of the trimmed sentence, plus "..." exactly when the sentence is longer than 100 |
| `Visualization.ConceptsOrdered` | src/components/ImmersiveVisualization.tsx:109-122 | each concept is built from its own sentence and index, has importance above 0.2, and indices increase |
| `Visualization.ConceptsComplete` | src/components/ImmersiveVisualization.tsx:109-122 | every sentence with importance above 0.2 gives a concept |
| `Visualization.FindConnections` | src/components/ImmersiveVisualization.tsx:143-161 | the loop returns `Connections` of the concept |
| `Visualization.ConnectionsSpec` | src/components/ImmersiveVisualization.tsx:143-161 | at most three positions, increasing, each a linked concept with another index, never the concept itself |
| `Visualization.ConnectionsFirst` | src/components/ImmersiveVisualization.tsx:147-160 | the first three linked concepts are all kept |
| `Visualization.NodeSize` | src/components/ImmersiveVisualization.tsx:57 | at least 20, at most 50 for importance up to 1, and importance·50 from 0.4 |
| `Visualization.SemanticColorsDistinct` | src/components/ImmersiveVisualization.tsx:165-174 | the semantic colours of two categories agree exactly when the categories do |
| `Visualization.CategoryHue` | src/components/ImmersiveVisualization.tsx:178 | the hue is the character-code sum modulo 360, in [0, 360) |
| `Visualization.ImportanceHue` | src/components/ImmersiveVisualization.tsx:175-176 | with importances in [0, 1] the hue lies in [0, 120] |
| `Visualization.NodeColor` | src/components/ImmersiveVisualization.tsx:163-180 | the semantic scheme gives the category's fixed colour; the category scheme gives a hue in [0, 360) |
| `Visualization.BuildNodes` | src/components/ImmersiveVisualization.tsx:44-65 | empty content builds nothing, any other content builds a node list |
| `Visualization.NodeSpec` | src/components/ImmersiveVisualization.tsx:51-63 | node i has id i, size in [20, 50], importance in (0.2, 1], at most three connections to other existing nodes |

## Left out

- Supabase calls, including src/lib/supabase.ts: each call's outcome is a parameter of the method that makes it.
- localStorage and JSON: saved settings, bookmarks and sessions are initial state; writes are not modelled.
- Timers, event listeners and `Date.now()`: every tick, event and clock reading is an explicit method call or parameter. React effects run synchronously after the state change that triggers them.
- `Math.random`: the coach's insight, the bookmark insight, biometric samples and node coordinates are parameters or are left out.
- Canvas drawing, 3D projection, particles, calibration animation and all JSX/CSS: rendering only.
- SettingsPanel.tsx and ProgressBar.tsx: rendering plus one-field record updates.
- src/data/sampleContent.ts: the bundled chapters are an opaque fallback list.
- IEEE floating point: arithmetic is on `real` and `int`, so NaN and rounding error do not arise. The paced reader's progress needs a non-empty word list; the source would produce NaN there.
- Text.ToLower: maps ASCII letters only; the source's Unicode `toLowerCase` is not modelled.
- Text lengths: a Dafny string counts Unicode scalar values, where JavaScript's `length` and `substring` count UTF-16 code units. The two differ only for characters outside the Basic Multilingual Plane (an emoji, say), which count once here and twice in the source. This affects `s.trim().length > 10` (src/components/ImmersiveVisualization.tsx:47), `substring(0, 100)` and `length > 100` (src/components/ImmersiveVisualization.tsx:116), where the source can also cut a surrogate pair in half, and `word.length > 4` (src/components/ImmersiveVisualization.tsx:152, src/components/SmartBookmarks.tsx:74).
- Visualization.SentencesSpec: "trimmed length exceeds 10" counts Unicode scalar values; the source counts UTF-16 code units, so a sentence with characters outside the Basic Multilingual Plane can be kept by the source and dropped by the model.
- Visualization.ConceptText: the 100-character cut and the "..." test count Unicode scalar values; the source counts UTF-16 code units and may cut a surrogate pair in half.
- App.Theme: only the three theme names exist. A saved theme with any other value cannot be represented; for it the source's `indexOf` gives -1 and T selects "light" (src/App.tsx:225-227).
- SmartBookmarks.Listed: the "chapter" order (`localeCompare`) keeps the filtered order, since locale collation is not modelled.
- Visualization.Tally: keys are kept in insertion order, but JavaScript lists integer-like keys first. Only words written as canonical integers, such as 2024, are affected.
- Visualization.Tally: the counting object is a plain `{}`, so in the source the word "constructor" starts from the inherited function and its count becomes a string, whose comparisons in the sort give NaN; and "__proto__" never becomes an own key. The model counts both like any other word.
- Visualization.ExtractKeywords: inherits the Tally differences. In the source "__proto__" is never a keyword and "constructor" sorts unpredictably; the model ranks both by their counts.
- App.AfterSelectionChange: compares the selected chapter by value; React compares the `selectedChapter` object by reference, so selecting an equal but distinct chapter object (one re-fetched from the store, say) resets progress in the source and not in the model.
- App.SelectResets: keeps progress when an equal chapter is selected again, for the reason given for App.AfterSelectionChange.
- App.NavigateSelects: keeps the position only when an equal chapter was selected, for the reason given for App.AfterSelectionChange.
- App.App.SelectionChanged: the reset effect fires on a change of value, for the reason given for App.AfterSelectionChange.
- Visualization.BuildNodes: node ids are positions rather than the text "node-" + position.
- Biometric.Optimizer.Tick: uniqueness is checked against the current suggestions. Once the history is full, the source's interval callback is no longer re-created and compares against a stale list.
- Admin.AdminPanel.Submit: the "Failed to save chapter" fallback is not modelled. The store always rethrows an Error, so that alert cannot occur.
- Admin.AdminPanel.Save: an edited chapter's update always carries the trimmed subtitle, the corrected form of finding F1.
- ImmersiveReader.PacedReader.Distracted: recomputes the score from the current count, the corrected form of finding F2.
- App.App.KeyDown: M and B use the current state, the corrected forms of findings F4 and F5.
- Biometric.Optimizer.DismissShownAt: offsets by the number of suggestions shown, the corrected form of finding F3.
- Updates whose fields are explicitly `undefined` are not distinguished from absent fields; spreading them in SmartBookmarks would write `undefined`.

## Findings

| source | as written | input that shows it | evidently intended | confidence | as-written member | corrected member |
|---|---|---|---|---|---|---|
| src/components/AdminPanel.tsx:72,82; src/hooks/useChapters.ts:84 | an empty subtitle becomes `undefined`, so the update omits it and the old subtitle stays | edit a chapter with subtitle "Old subtitle", clear the field, save | clearing the field removes the subtitle | not executed | `Admin.SubtitleNotClearedAsWritten` | `Admin.SaveUpdateReadsBack` |
| src/components/ImmersiveReader.tsx:39-43,62-66,76,78-81 | the mount-time handlers call an `updateFocusScore` that reads `distractionCount` as 0 | six distractions in the first minute | the score drops to 50 | not executed | `ImmersiveReader.FocusScoreIgnoresCountAsWritten` | `ImmersiveReader.FocusScoreAntitone` |
| src/components/BiometricOptimizer.tsx:288,302 | the dismiss button passes `length - 3 + index` even when fewer than three are shown | two suggestions [a, b]; press the second button | the pressed suggestion is removed | not executed | `Biometric.DismissWrongAsWritten` | `Biometric.DismissShownRemovesIt` |
| src/App.tsx:152-154,208-213,251 | the key listener keeps the `immersiveMode` of its registration, which is not a dependency | a chapter selected, immersive off; press M twice | the second press turns immersive mode off | not executed | `App.ImmersiveToggleStaleAsWritten` | `App.ImmersiveToggleTwice` |
| src/App.tsx:110-114,186-191,251 | the key listener keeps the `readingProgress` of its registration, which is not a dependency | select a chapter (progress 0), scroll to 80 %, press B | the bookmark records 80 % | not executed | `App.BookmarkKeyStaleAsWritten` | `App.BookmarkKeyRecordsProgress` |
