/** The top-level view state of `src/App.tsx`: panel flags, the selected chapter with its
    reading progress, the bookmark list, reading settings and the keyboard shortcuts. Each
    handler is a method on `App`, specified by a function on the snapshot `AppState`. */
module App {
  import opened Wrappers
  import opened Text
  import opened Chapters

  datatype Theme = Light | Dark | Sepia

  datatype Settings = Settings(fontSize: int, lineHeight: real, fontFamily: string, theme: Theme, showProgress: bool)

  const DefaultSettings := Settings(18, 1.6, "Georgia, serif", Light, true)

  /** The bookmark the reader saves: a position in percent, a time and a note. */
  datatype Bookmark = Bookmark(position: real, timestamp: int, note: string, chapterId: string)

  /** The open/closed flags of the six overlay panels. */
  datatype Panels = Panels(settings: bool, admin: bool, auth: bool, analytics: bool, bookmarks: bool, visualization: bool)

  const AllClosed := Panels(false, false, false, false, false, false)

  /** Everything the handlers change. */
  datatype AppState = AppState(
    settings: Settings,
    panels: Panels,
    progress: real,
    wordsRead: int,
    selected: Option<Chapter>,
    bookmarks: seq<Bookmark>,
    biometric: bool,
    immersive: bool,
    focusScore: real,
    sessionStart: int)

  /** A key press: the key name, the modifier keys, and whether focus is in an input,
      textarea or select element. */
  datatype KeyPress = KeyPress(key: string, ctrl: bool, meta: bool, inFormField: bool)

  /** The chapters offered: the stored ones, or the bundled list while there are none. */
  function ChaptersShown(stored: seq<Chapter>, fallback: seq<Chapter>): (shown: seq<Chapter>)
    ensures |stored| > 0 ==> shown == stored
    ensures stored == [] ==> shown == fallback
  {
    if |stored| > 0 then stored else fallback
  }

  /** The theme shortcut's cycle light, dark, sepia. */
  function NextTheme(t: Theme): (n: Theme)
    ensures n != t
  {
    match t
    case Light => Dark
    case Dark => Sepia
    case Sepia => Light
  }

  /** `Math.round`: halves round up. */
  function Round(x: real): int
  {
    (x + 0.5).Floor
  }

  lemma {:induction false} RoundNearest(x: real)
    ensures x - 0.5 < Round(x) as real <= x + 0.5
    ensures Round(2.5) == 3 && Round(-2.5) == -2
  {
  }

  function BookmarkNote(title: string, progress: real): string
  {
    title + " - " + IntToDecimal(Round(progress)) + "% completed"
  }

  /** The first chapter with the given id, as `chapters.find` returns it. */
  function FindById(cs: seq<Chapter>, id: string): (r: Option<Chapter>)
    ensures r.None? <==> forall i :: 0 <= i < |cs| ==> cs[i].id != id
    ensures r.Some? ==> r.value in cs && r.value.id == id
    ensures r.Some? ==> exists k :: 0 <= k < |cs| && cs[k] == r.value && forall i :: 0 <= i < k ==> cs[i].id != id
  {
    if cs == [] then None
    else if cs[0].id == id then Some(cs[0])
    else
      var r := FindById(cs[1..], id);
      if r.Some? then
        var k :| 0 <= k < |cs[1..]| && cs[1..][k] == r.value && forall i :: 0 <= i < k ==> cs[1..][i].id != id;
        assert cs[k + 1] == r.value;
        r
      else r
  }

  /** The reset effect that follows a change of selection: a newly selected chapter starts at
      0 with a new session. */
  function AfterSelectionChange(before: AppState, after: AppState, now: int): (r: AppState)
    ensures after.selected.Some? && after.selected != before.selected ==>
      r == after.(progress := 0.0, wordsRead := 0, sessionStart := now)
    ensures after.selected.None? || after.selected == before.selected ==> r == after
  {
    if after.selected.Some? && after.selected != before.selected
    then after.(progress := 0.0, wordsRead := 0, sessionStart := now)
    else after
  }

  /** `handleChapterSelect` and the reset effect. */
  function SelectOp(s: AppState, c: Chapter, now: int): AppState
  {
    AfterSelectionChange(s, s.(selected := Some(c), panels := s.panels.(admin := false), immersive := false), now)
  }

  /** `handleBackToLibrary`. */
  function BackOp(s: AppState): AppState
  {
    s.(selected := None, progress := 0.0, wordsRead := 0, immersive := false,
       panels := s.panels.(visualization := false))
  }

  /** `handleBookmark` with the progress value it reads. */
  function BookmarkAt(s: AppState, progress: real, now: int): AppState
  {
    if s.selected.None? then s
    else s.(bookmarks := s.bookmarks + [Bookmark(progress, now, BookmarkNote(s.selected.value.title, progress), s.selected.value.id)])
  }

  function BookmarkOp(s: AppState, now: int): AppState
  {
    BookmarkAt(s, s.progress, now)
  }

  /** `handleAdminAccess`: the editor for a signed-in user, the sign-in dialog otherwise. */
  function AdminAccessOp(s: AppState, signedIn: bool): (r: AppState)
    ensures signedIn ==> r == s.(panels := s.panels.(admin := true))
    ensures !signedIn ==> r == s.(panels := s.panels.(auth := true))
  {
    if signedIn then s.(panels := s.panels.(admin := true)) else s.(panels := s.panels.(auth := true))
  }

  /** `handleNavigateToBookmark` and the reset effect that follows it. */
  function NavigateOp(s: AppState, chapters: seq<Chapter>, chapterId: string, position: real, now: int): AppState
  {
    match FindById(chapters, chapterId)
    case None => s
    case Some(c) =>
      AfterSelectionChange(s, s.(selected := Some(c), progress := position, panels := s.panels.(bookmarks := false)), now)
  }

  /** `toggleImmersiveMode` with the immersive flag it reads. */
  function ToggleImmersiveFrom(s: AppState, seen: bool): AppState
  {
    s.(immersive := !seen)
  }

  predicate KeyIs(e: KeyPress, lower: string, upper: string)
  {
    e.key == lower || e.key == upper
  }

  /** Escape closes the first open panel in the order visualization, analytics, bookmarks,
      admin, settings; with none open it returns to the library. */
  function EscapeOp(s: AppState): AppState
  {
    var p := s.panels;
    if p.visualization then s.(panels := p.(visualization := false))
    else if p.analytics then s.(panels := p.(analytics := false))
    else if p.bookmarks then s.(panels := p.(bookmarks := false))
    else if p.admin then s.(panels := p.(admin := false))
    else if p.settings then s.(panels := p.(settings := false))
    else if s.selected.Some? then BackOp(s)
    else s
  }

  /** The keydown handler, given the immersive flag and the progress its closure reads. */
  function KeyDispatch(s: AppState, e: KeyPress, signedIn: bool, now: int, seenImmersive: bool, seenProgress: real): AppState
  {
    var plain := !e.ctrl && !e.meta;
    var p := s.panels;
    if e.inFormField then s
    else if KeyIs(e, "s", "S") then (if plain then s.(panels := p.(settings := !p.settings)) else s)
    else if KeyIs(e, "a", "A") then (if plain && signedIn then s.(panels := p.(admin := !p.admin)) else s)
    else if KeyIs(e, "b", "B") then (if plain && s.selected.Some? then BookmarkAt(s, seenProgress, now) else s)
    else if KeyIs(e, "v", "V") then (if plain && s.selected.Some? then s.(panels := p.(visualization := !p.visualization)) else s)
    else if KeyIs(e, "n", "N") then (if plain then s.(panels := p.(analytics := !p.analytics)) else s)
    else if KeyIs(e, "m", "M") then (if plain && s.selected.Some? then ToggleImmersiveFrom(s, seenImmersive) else s)
    else if KeyIs(e, "o", "O") then (if plain then s.(biometric := !s.biometric) else s)
    else if KeyIs(e, "t", "T") then (if plain then s.(settings := s.settings.(theme := NextTheme(s.settings.theme))) else s)
    else if e.key == "Escape" then EscapeOp(s)
    else s
  }

  /** The keydown handler reading the current immersive flag and progress. */
  function KeyOp(s: AppState, e: KeyPress, signedIn: bool, now: int): AppState
  {
    KeyDispatch(s, e, signedIn, now, s.immersive, s.progress)
  }

  /** The keydown handler as the source binds it: the listener is re-registered only when the
      theme, the selection, a panel flag or the user changes, so it reads `immersiveMode` and
      `readingProgress` as they were at that moment. */
  function KeyOpAsWritten(s: AppState, e: KeyPress, signedIn: bool, now: int, bound: AppState): AppState
  {
    KeyDispatch(s, e, signedIn, now, bound.immersive, bound.progress)
  }

  const PressM := KeyPress("m", false, false, false)
  const PressB := KeyPress("b", false, false, false)
  const PressT := KeyPress("t", false, false, false)
  const PressEscape := KeyPress("Escape", false, false, false)

  /** As written, pressing M twice with nothing else changing leaves immersive mode on, where
      two presses of a toggle should restore it. */
  lemma {:induction false} ImmersiveToggleStaleAsWritten(s: AppState, signedIn: bool, now: int)
    requires s.selected.Some? && !s.immersive
    ensures var once := KeyOpAsWritten(s, PressM, signedIn, now, s);
      && once.immersive
      && KeyOpAsWritten(once, PressM, signedIn, now, s).immersive
  {
  }

  /** With the current flag read, the M key toggles: two presses restore the state. */
  lemma {:induction false} ImmersiveToggleTwice(s: AppState, signedIn: bool, now: int)
    requires s.selected.Some?
    ensures KeyOp(s, PressM, signedIn, now).immersive == !s.immersive
    ensures KeyOp(KeyOp(s, PressM, signedIn, now), PressM, signedIn, now) == s
  {
  }

  /** As written, a B press after reading on records the progress from when the handler was
      bound, not the progress reached. */
  lemma {:induction false} BookmarkKeyStaleAsWritten(s: AppState, bound: AppState, signedIn: bool, now: int)
    requires s.selected.Some? && bound.progress == 0.0 && s.progress == 80.0
    ensures KeyOpAsWritten(s, PressB, signedIn, now, bound).bookmarks[|s.bookmarks|].position == 0.0
  {
  }

  /** The B key bookmarks the current position, like the bookmark button. */
  lemma {:induction false} BookmarkKeyRecordsProgress(s: AppState, signedIn: bool, now: int)
    ensures KeyOp(s, PressB, signedIn, now) == BookmarkOp(s, now)
  {
  }

  /** Bookmarking without a selection changes nothing; otherwise exactly one bookmark for the
      selected chapter at the current progress is appended and the earlier ones are kept. */
  lemma {:induction false} BookmarkAppends(s: AppState, now: int)
    ensures s.selected.None? ==> BookmarkOp(s, now) == s
    ensures s.selected.Some? ==>
      var r := BookmarkOp(s, now);
      && |r.bookmarks| == |s.bookmarks| + 1
      && r.bookmarks[..|s.bookmarks|] == s.bookmarks
      && r.bookmarks[|s.bookmarks|].position == s.progress
      && r.bookmarks[|s.bookmarks|].chapterId == s.selected.value.id
      && r.bookmarks[|s.bookmarks|].timestamp == now
      && r == s.(bookmarks := r.bookmarks)
  {
  }

  /** Three theme presses restore the state, each press changing only the theme. */
  lemma {:induction false} ThemeCycle(s: AppState, signedIn: bool, now: int)
    ensures KeyOp(s, PressT, signedIn, now) == s.(settings := s.settings.(theme := NextTheme(s.settings.theme)))
    ensures KeyOp(KeyOp(KeyOp(s, PressT, signedIn, now), PressT, signedIn, now), PressT, signedIn, now) == s
  {
  }

  /** Keys typed into a form field, and letter shortcuts with Ctrl or Meta held, do nothing. */
  lemma {:induction false} ShortcutsIgnored(s: AppState, e: KeyPress, signedIn: bool, now: int)
    requires e.inFormField || ((e.ctrl || e.meta) && e.key != "Escape")
    ensures KeyOp(s, e, signedIn, now) == s
  {
  }

  /** The admin shortcut needs a signed-in user; bookmark, visualization and immersive need a
      selected chapter. */
  lemma {:induction false} ShortcutGuards(s: AppState, e: KeyPress, signedIn: bool, now: int)
    ensures KeyIs(e, "a", "A") && !signedIn ==> KeyOp(s, e, signedIn, now) == s
    ensures (KeyIs(e, "b", "B") || KeyIs(e, "v", "V") || KeyIs(e, "m", "M")) && s.selected.None? ==>
      KeyOp(s, e, signedIn, now) == s
  {
  }

  function OpenCount(p: Panels): nat
  {
    (if p.visualization then 1 else 0) + (if p.analytics then 1 else 0) + (if p.bookmarks then 1 else 0)
    + (if p.admin then 1 else 0) + (if p.settings then 1 else 0)
  }

  /** Escape closes exactly one panel while any of the five is open, touching nothing else;
      with all closed it returns to the library, and then does nothing. */
  lemma {:induction false} EscapeClosesOne(s: AppState, signedIn: bool, now: int)
    ensures OpenCount(s.panels) > 0 ==>
      var r := KeyOp(s, PressEscape, signedIn, now);
      && OpenCount(r.panels) == OpenCount(s.panels) - 1
      && r == s.(panels := r.panels)
      && r.panels.auth == s.panels.auth
    ensures OpenCount(s.panels) == 0 ==> KeyOp(s, PressEscape, signedIn, now) == (if s.selected.Some? then BackOp(s) else s)
  {
  }

  /** Which panel Escape closes: the visualization first, then analytics, the bookmarks, the
      editor and the settings, each only when every panel before it is closed. */
  lemma {:induction false} EscapeOrder(s: AppState, signedIn: bool, now: int)
    ensures s.panels.visualization ==>
      KeyOp(s, PressEscape, signedIn, now) == s.(panels := s.panels.(visualization := false))
    ensures !s.panels.visualization && s.panels.analytics ==>
      KeyOp(s, PressEscape, signedIn, now) == s.(panels := s.panels.(analytics := false))
    ensures !s.panels.visualization && !s.panels.analytics && s.panels.bookmarks ==>
      KeyOp(s, PressEscape, signedIn, now) == s.(panels := s.panels.(bookmarks := false))
    ensures !s.panels.visualization && !s.panels.analytics && !s.panels.bookmarks && s.panels.admin ==>
      KeyOp(s, PressEscape, signedIn, now) == s.(panels := s.panels.(admin := false))
    ensures (!s.panels.visualization && !s.panels.analytics && !s.panels.bookmarks && !s.panels.admin
             && s.panels.settings) ==>
      KeyOp(s, PressEscape, signedIn, now) == s.(panels := s.panels.(settings := false))
  {
  }

  function Escapes(s: AppState, n: nat, signedIn: bool, now: int): AppState
    decreases n
  {
    if n == 0 then s else Escapes(KeyOp(s, PressEscape, signedIn, now), n - 1, signedIn, now)
  }

  /** One Escape per open panel, and one more, close everything and leave the chapter. */
  lemma {:induction false} EscapesDrain(s: AppState, signedIn: bool, now: int)
    ensures var r := Escapes(s, OpenCount(s.panels) + 1, signedIn, now);
      OpenCount(r.panels) == 0 && r.selected.None?
    decreases OpenCount(s.panels)
  {
    EscapeClosesOne(s, signedIn, now);
    if OpenCount(s.panels) > 0 {
      EscapesDrain(KeyOp(s, PressEscape, signedIn, now), signedIn, now);
    }
  }

  /** Selecting a chapter closes the editor and immersive mode; a different chapter starts at
      progress 0. */
  lemma {:induction false} SelectResets(s: AppState, c: Chapter, now: int)
    ensures var r := SelectOp(s, c, now);
      && r.selected == Some(c) && !r.panels.admin && !r.immersive
      && (s.selected != Some(c) ==> r.progress == 0.0 && r.wordsRead == 0 && r.sessionStart == now)
      && (s.selected == Some(c) ==> r.progress == s.progress && r.wordsRead == s.wordsRead)
      && r.bookmarks == s.bookmarks && r.settings == s.settings
  {
  }

  /** Navigating to a bookmark of a chapter not in the list changes nothing; otherwise the
      first chapter with that id is selected and the bookmark panel closed. The position is
      kept only when the chapter was already selected, since the reset effect runs after it. */
  lemma {:induction false} NavigateSelects(s: AppState, chapters: seq<Chapter>, chapterId: string, position: real, now: int)
    ensures (forall i :: 0 <= i < |chapters| ==> chapters[i].id != chapterId) ==>
      NavigateOp(s, chapters, chapterId, position, now) == s
    ensures FindById(chapters, chapterId).Some? ==>
      var r := NavigateOp(s, chapters, chapterId, position, now);
      && r.selected == FindById(chapters, chapterId)
      && r.selected.value.id == chapterId
      && !r.panels.bookmarks
      && r.progress == (if s.selected == r.selected then position else 0.0)
      && r.bookmarks == s.bookmarks
  {
  }

  /** Back to the library clears the selection, progress and words read, immersive mode and
      the visualization. */
  lemma {:induction false} BackClears(s: AppState)
    ensures var r := BackOp(s);
      r.selected.None? && r.progress == 0.0 && r.wordsRead == 0 && !r.immersive && !r.panels.visualization
      && r.bookmarks == s.bookmarks && r.settings == s.settings
  {
  }

  datatype ReadingData = ReadingData(speed: int, comprehension: int, focusScore: real, sessionTime: int, wordsRead: int)

  /** `getCurrentReadingData` at time `now`. */
  function CurrentReadingData(s: AppState, now: int): (d: ReadingData)
    ensures d.comprehension == (if s.focusScore < 70.0 then 65 else 85)
    ensures d.sessionTime == now - s.sessionStart && d.wordsRead == s.wordsRead && d.focusScore == s.focusScore
    ensures s.wordsRead >= 0 ==> d.speed >= 0
    ensures now - s.sessionStart <= 60000 ==> d.speed == Round(s.wordsRead as real)
  {
    var minutes := (now - s.sessionStart) as real / 60000.0;
    var per := if minutes >= 1.0 then minutes else 1.0;
    var comprehension := 85 - (if s.focusScore < 70.0 then 20 else 0);
    ReadingData(Round(s.wordsRead as real / per), if comprehension >= 60 then comprehension else 60,
                s.focusScore, now - s.sessionStart, s.wordsRead)
  }

  /** The application shell. */
  class App {
    const fallback: seq<Chapter>
    const store: ChapterStore
    const signedIn: bool
    var settings: Settings
    var panels: Panels
    var progress: real
    var wordsRead: int
    var selected: Option<Chapter>
    var bookmarks: seq<Bookmark>
    var biometric: bool
    var immersive: bool
    var focusScore: real
    var sessionStart: int

    function State(): AppState
      reads this
    {
      AppState(settings, panels, progress, wordsRead, selected, bookmarks, biometric, immersive, focusScore, sessionStart)
    }

    function Chapters(): (shown: seq<Chapter>)
      reads this, store
    {
      ChaptersShown(store.chapters, fallback)
    }

    /** The shell at time `now`, with the settings and bookmarks read back from storage. */
    constructor (store: ChapterStore, fallback: seq<Chapter>, signedIn: bool,
                 saved: Option<Settings>, savedBookmarks: seq<Bookmark>, now: int)
      ensures this.store == store && this.fallback == fallback && this.signedIn == signedIn
      ensures State() == AppState(saved.GetOr(DefaultSettings), AllClosed, 0.0, 0, None, savedBookmarks,
                                  false, false, 100.0, now)
    {
      this.store := store;
      this.fallback := fallback;
      this.signedIn := signedIn;
      settings := saved.GetOr(DefaultSettings);
      panels := AllClosed;
      progress := 0.0;
      wordsRead := 0;
      selected := None;
      bookmarks := savedBookmarks;
      biometric := false;
      immersive := false;
      focusScore := 100.0;
      sessionStart := now;
    }

    /** The reset effect, run after the selection changed from `before`. */
    method SelectionChanged(before: Option<Chapter>, now: int)
      modifies this
      ensures State() == AfterSelectionChange(old(State()).(selected := before), old(State()), now)
    {
      if selected.Some? && selected != before {
        progress := 0.0;
        wordsRead := 0;
        sessionStart := now;
      }
    }

    method SelectChapter(c: Chapter, now: int)
      modifies this
      ensures State() == SelectOp(old(State()), c, now)
    {
      var before := selected;
      selected := Some(c);
      panels := panels.(admin := false);
      immersive := false;
      SelectionChanged(before, now);
    }

    method BackToLibrary()
      modifies this
      ensures State() == BackOp(old(State()))
    {
      selected := None;
      progress := 0.0;
      wordsRead := 0;
      immersive := false;
      panels := panels.(visualization := false);
    }

    method AddBookmark(now: int)
      modifies this
      ensures State() == BookmarkOp(old(State()), now)
    {
      if selected.Some? {
        var c := selected.value;
        bookmarks := bookmarks + [Bookmark(progress, now, BookmarkNote(c.title, progress), c.id)];
      }
    }

    method AdminAccess()
      modifies this
      ensures State() == AdminAccessOp(old(State()), signedIn)
    {
      if signedIn {
        panels := panels.(admin := true);
      } else {
        panels := panels.(auth := true);
      }
    }

    method NavigateToBookmark(chapterId: string, position: real, now: int)
      modifies this
      ensures State() == NavigateOp(old(State()), old(Chapters()), chapterId, position, now)
    {
      var found := FindById(Chapters(), chapterId);
      if found.Some? {
        var before := selected;
        selected := found;
        progress := position;
        panels := panels.(bookmarks := false);
        SelectionChanged(before, now);
      }
    }

    method ToggleImmersive()
      modifies this
      ensures State() == ToggleImmersiveFrom(old(State()), old(immersive))
    {
      immersive := !immersive;
    }

    /** The progress, words-read and focus-score reports of the reading views. */
    method Report(percent: real, words: int, score: real)
      modifies this
      ensures State() == old(State()).(progress := percent, wordsRead := words, focusScore := score)
    {
      progress := percent;
      wordsRead := words;
      focusScore := score;
    }

    method KeyDown(e: KeyPress, now: int)
      modifies this
      ensures State() == KeyOp(old(State()), e, signedIn, now)
    {
      var plain := !e.ctrl && !e.meta;
      if e.inFormField {
        return;
      }
      if KeyIs(e, "s", "S") {
        if plain { panels := panels.(settings := !panels.settings); }
      } else if KeyIs(e, "a", "A") {
        if plain && signedIn { panels := panels.(admin := !panels.admin); }
      } else if KeyIs(e, "b", "B") {
        if plain && selected.Some? { AddBookmark(now); }
      } else if KeyIs(e, "v", "V") {
        if plain && selected.Some? { panels := panels.(visualization := !panels.visualization); }
      } else if KeyIs(e, "n", "N") {
        if plain { panels := panels.(analytics := !panels.analytics); }
      } else if KeyIs(e, "m", "M") {
        if plain && selected.Some? { ToggleImmersive(); }
      } else if KeyIs(e, "o", "O") {
        if plain { biometric := !biometric; }
      } else if KeyIs(e, "t", "T") {
        if plain { settings := settings.(theme := NextTheme(settings.theme)); }
      } else if e.key == "Escape" {
        if panels.visualization {
          panels := panels.(visualization := false);
        } else if panels.analytics {
          panels := panels.(analytics := false);
        } else if panels.bookmarks {
          panels := panels.(bookmarks := false);
        } else if panels.admin {
          panels := panels.(admin := false);
        } else if panels.settings {
          panels := panels.(settings := false);
        } else if selected.Some? {
          BackToLibrary();
        }
      }
    }
  }
}
