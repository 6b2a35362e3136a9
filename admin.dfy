/** The chapter editor of `src/components/AdminPanel.tsx`: the edit form, the rules that
    turn it into a chapter, and the save, edit, create, cancel and delete handlers over the
    chapter store. */
module Admin {
  import opened Wrappers
  import opened Seqs
  import opened Text
  import opened Chapters

  /** The form: every text field is a plain string, tags are one comma-separated string. */
  datatype ChapterForm = ChapterForm(
    title: string,
    subtitle: string,
    author: string,
    content: string,
    category: string,
    tags: string,
    difficulty: Difficulty,
    estimatedReadTime: int)

  const EmptyForm := ChapterForm("", "", "", "", "", "", Beginner, 5)

  /** The two required fields are present once trimmed. */
  predicate CanSave(f: ChapterForm)
  {
    Trim(f.title) != "" && Trim(f.content) != ""
  }

  /** `s.trim() || fallback`. */
  function TrimOr(s: string, fallback: string): (r: string)
    ensures Trim(s) != "" ==> r == Trim(s)
    ensures Trim(s) == "" ==> r == fallback
  {
    var t := Trim(s);
    if t == "" then fallback else t
  }

  function TrimAll(parts: seq<string>): (r: seq<string>)
    ensures |r| == |parts|
    ensures forall i :: 0 <= i < |parts| ==> r[i] == Trim(parts[i])
  {
    seq(|parts|, i requires 0 <= i < |parts| => Trim(parts[i]))
  }

  /** A tag as the editor stores it: non-empty, trimmed, without a comma. */
  predicate WellFormedTag(t: string)
  {
    t != "" && IsTrimmed(t) && ',' !in t
  }

  /** `tags.split(',').map(tag => tag.trim()).filter(tag => tag)`. */
  function ParseTags(s: string): seq<string>
  {
    Filter(TrimAll(Split(s, ",")), (t: string) => t != "")
  }

  /** `tags.join(', ')`. */
  function JoinTags(tags: seq<string>): string
  {
    Join(tags, ", ")
  }

  /** Every parsed tag is well formed, and the tags keep the order of the comma-separated
      pieces they come from. */
  lemma {:induction false} ParseTagsWellFormed(s: string)
    ensures forall i :: 0 <= i < |ParseTags(s)| ==> WellFormedTag(ParseTags(s)[i])
    ensures IsSubsequence(ParseTags(s), TrimAll(Split(s, ",")))
  {
    var pieces := Split(s, ",");
    var trimmed := TrimAll(pieces);
    SplitPiecesExclude(s, ',');
    forall i | 0 <= i < |trimmed|
      ensures ',' !in trimmed[i]
    {
      TrimChars(pieces[i]);
    }
    FilterIsSubsequence(trimmed, (t: string) => t != "");
  }

  /** Editing then saving keeps the tags: joining well-formed tags with ", " and parsing the
      result gives the same list. */
  lemma {:induction false} TagsRoundTrip(tags: seq<string>)
    requires forall i :: 0 <= i < |tags| ==> WellFormedTag(tags[i])
    ensures ParseTags(JoinTags(tags)) == tags
  {
    if tags == [] {
      assert Split("", ",") == [""];
      assert TrimAll([""]) == [""];
    } else {
      JoinTagsPieces(tags);
      TrimPaddedPieces(tags);
      FilterKeepsAll(tags, (t: string) => t != "");
    }
  }

  lemma {:induction false} JoinTagsPieces(tags: seq<string>)
    requires |tags| > 0
    requires forall i :: 0 <= i < |tags| ==> WellFormedTag(tags[i])
    ensures Split(JoinTags(tags), ",") == PaddedParts(tags, " ")
  {
    SplitJoinPadded(tags, ',', " ");
    assert [','] + " " == ", ";
  }

  lemma {:induction false} TrimPaddedPieces(tags: seq<string>)
    requires |tags| > 0
    requires forall i :: 0 <= i < |tags| ==> WellFormedTag(tags[i])
    ensures TrimAll(PaddedParts(tags, " ")) == tags
  {
    var pieces := PaddedParts(tags, " ");
    var trimmed := TrimAll(pieces);
    assert |trimmed| == |tags|;
    forall i | 0 <= i < |tags|
      ensures trimmed[i] == tags[i]
    {
      if i > 0 {
        TrimAfterSpace(tags[i]);
      }
    }
  }

  lemma {:induction false} TrimAfterSpace(t: string)
    requires t != [] && IsTrimmed(t)
    ensures Trim(" " + t) == t
  {
    assert IsSpace(" "[0]);
    TrimPadded(" ", t);
  }

  /** The form `handleEdit` fills from a chapter. */
  function FormOf(c: Chapter): (f: ChapterForm)
    ensures f.title == c.title && f.author == c.author && f.content == c.content
    ensures f.category == c.category
    ensures f.difficulty == c.difficulty && f.estimatedReadTime == c.estimatedReadTime
    ensures c.subtitle.Some? ==> f.subtitle == c.subtitle.value
    ensures c.subtitle == None ==> f.subtitle == ""
    ensures f.tags == JoinTags(c.tags)
  {
    ChapterForm(c.title, c.subtitle.GetOr(""), c.author, c.content, c.category,
                JoinTags(c.tags), c.difficulty, c.estimatedReadTime)
  }

  /** The chapter data `handleSave` derives from the form. */
  function DeriveDraft(f: ChapterForm): (d: Draft)
    ensures d.title == Trim(f.title) && d.content == Trim(f.content)
    ensures d.subtitle == None <==> Trim(f.subtitle) == ""
    ensures d.subtitle.Some? ==> d.subtitle.value == Trim(f.subtitle)
    ensures d.author == TrimOr(f.author, "Anonymous") && d.category == TrimOr(f.category, "General")
    ensures d.tags == ParseTags(f.tags)
    ensures d.difficulty == f.difficulty && d.estimatedReadTime == f.estimatedReadTime
  {
    Draft(Trim(f.title), NonEmpty(Some(Trim(f.subtitle))), TrimOr(f.author, "Anonymous"),
          Trim(f.content), TrimOr(f.category, "General"), ParseTags(f.tags), f.difficulty,
          f.estimatedReadTime)
  }

  /** A chapter the editor could have produced: all text trimmed, the defaults filled in. */
  predicate Tidy(c: Chapter)
  {
    && c.title != "" && IsTrimmed(c.title)
    && c.content != "" && IsTrimmed(c.content)
    && c.author != "" && IsTrimmed(c.author)
    && c.category != "" && IsTrimmed(c.category)
    && (c.subtitle.Some? ==> c.subtitle.value != "" && IsTrimmed(c.subtitle.value))
    && forall i :: 0 <= i < |c.tags| ==> WellFormedTag(c.tags[i])
  }

  function DraftOf(c: Chapter): Draft
  {
    Draft(c.title, c.subtitle, c.author, c.content, c.category, c.tags, c.difficulty, c.estimatedReadTime)
  }

  /** Opening a tidy chapter in the editor and saving it unchanged sends the chapter back
      as it was. */
  lemma {:induction false} EditSaveRoundTrip(c: Chapter)
    requires Tidy(c)
    ensures CanSave(FormOf(c))
    ensures DeriveDraft(FormOf(c)) == DraftOf(c)
  {
    TagsRoundTrip(c.tags);
  }

  /** The update request as the source builds it: the derived chapter data, whose subtitle is
      `undefined` when the field is empty. */
  function UpdatesAsWritten(f: ChapterForm): Updates
  {
    var d := DeriveDraft(f);
    Updates(Some(d.title), d.subtitle, Some(d.author), Some(d.content), Some(d.category),
            Some(d.tags), Some(d.difficulty), Some(d.estimatedReadTime))
  }

  /** With the as-written update an emptied subtitle field never reaches the store: the stored
      subtitle survives the save. */
  lemma {:induction false} SubtitleNotClearedAsWritten(row: Row, f: ChapterForm)
    requires row.subtitle == Some("Old subtitle") && f.subtitle == ""
    ensures ApplyPatch(row, BuildPatch(UpdatesAsWritten(f))).subtitle == Some("Old subtitle")
    ensures DeriveDraft(f).subtitle == None
  {
  }

  /** The update request the editor sends: the derived chapter data, with the trimmed subtitle
      passed on even when empty, so that the store clears it. */
  function UpdatesFromForm(f: ChapterForm): (u: Updates)
    ensures u.subtitle == Some(Trim(f.subtitle))
  {
    var d := DeriveDraft(f);
    Updates(Some(d.title), Some(Trim(f.subtitle)), Some(d.author), Some(d.content), Some(d.category),
            Some(d.tags), Some(d.difficulty), Some(d.estimatedReadTime))
  }

  /** Saving a valid form over a stored row makes the row read back as exactly the chapter
      derived from the form, subtitle included. A zero read time is falsy and is not sent. */
  lemma {:induction false} SaveUpdateReadsBack(row: Row, f: ChapterForm)
    requires CanSave(f) && f.estimatedReadTime != 0
    ensures Normalize(ApplyPatch(row, BuildPatch(UpdatesFromForm(f)))) == WithId(DeriveDraft(f), row.id)
  {
  }

  /** Saving a new valid form inserts a row that reads back as the derived chapter. */
  lemma {:induction false} SaveAddReadsBack(id: string, f: ChapterForm)
    ensures Normalize(StoredRow(id, ToInsert(DeriveDraft(f)))) == WithId(DeriveDraft(f), id)
  {
    InsertRoundTrip(DeriveDraft(f), id);
  }

  /** The store call `handleSave` makes: `updateChapter(id, updates)` for the chapter being
      edited, `addChapter(draft)` otherwise. */
  datatype Call =
    | UpdateCall(id: string, updates: Updates)
    | AddCall(draft: Draft)

  /** The call a valid form produces: the updates from `UpdatesFromForm` for the edited
      chapter's id, or the derived draft. */
  function CallFor(f: ChapterForm, editing: Option<Chapter>): Call
  {
    match editing
    case Some(c) => UpdateCall(c.id, UpdatesFromForm(f))
    case None => AddCall(DeriveDraft(f))
  }

  /** What reaches the database: the patch for an id, or the record to insert. */
  datatype Request =
    | UpdateRequest(id: string, patch: Patch)
    | InsertRequest(record: InsertRecord)

  /** The request the store builds for a call. */
  function Wire(call: Call): Request
  {
    match call
    case UpdateCall(id, u) => UpdateRequest(id, BuildPatch(u))
    case AddCall(d) => InsertRequest(ToInsert(d))
  }

  /** The request that saving a valid form sends to the database. */
  function RequestFor(f: ChapterForm, editing: Option<Chapter>): Request
  {
    Wire(CallFor(f, editing))
  }

  /** Whatever the store does with the request of a valid form, the row it holds afterwards reads
      back as the chapter derived from the form: the patched row keeps its id, and the inserted
      row gets the id the store assigns. */
  lemma {:induction false} RequestReadsBack(f: ChapterForm, editing: Option<Chapter>, row: Row, id: string)
    requires CanSave(f) && f.estimatedReadTime != 0
    ensures RequestFor(f, editing).UpdateRequest? ==>
      Normalize(ApplyPatch(row, RequestFor(f, editing).patch)) == WithId(DeriveDraft(f), row.id)
    ensures RequestFor(f, editing).InsertRequest? ==>
      Normalize(StoredRow(id, RequestFor(f, editing).record)) == WithId(DeriveDraft(f), id)
  {
    match editing
    case Some(c) =>
      assert RequestFor(f, editing) == UpdateRequest(c.id, BuildPatch(UpdatesFromForm(f)));
      SaveUpdateReadsBack(row, f);
    case None =>
      assert RequestFor(f, editing) == InsertRequest(ToInsert(DeriveDraft(f)));
      SaveAddReadsBack(id, f);
  }

  /** The editor's state. */
  class AdminPanel {
    const store: ChapterStore
    var form: ChapterForm
    var editing: Option<Chapter>
    var creating: bool
    var saving: bool

    constructor (store: ChapterStore)
      ensures this.store == store
      ensures form == EmptyForm && editing == None && !creating && !saving
    {
      this.store := store;
      form := EmptyForm;
      editing := None;
      creating := false;
      saving := false;
    }

    /** `handleEdit`: load a chapter into the form and leave creation mode. */
    method Edit(c: Chapter)
      modifies this
      ensures form == FormOf(c) && editing == Some(c) && !creating && saving == old(saving)
    {
      editing := Some(c);
      form := FormOf(c);
      creating := false;
    }

    /** `handleCreate`: an empty form for a new chapter. */
    method Create()
      modifies this
      ensures form == EmptyForm && editing == None && creating && saving == old(saving)
    {
      editing := None;
      form := EmptyForm;
      creating := true;
    }

    /** `handleCancel`: drop the form and leave both modes. */
    method Cancel()
      modifies this
      ensures form == EmptyForm && editing == None && !creating && saving == old(saving)
    {
      editing := None;
      creating := false;
      form := EmptyForm;
    }

    /** `handleSave`, with `outcome` the store's answer. An invalid form only raises the alert
        and sends nothing; a valid one is submitted, and the request sent is the one the form
        produces. */
    method Save(outcome: Result<Row, Thrown>) returns (request: Option<Request>, alert: Option<string>)
      modifies this, store
      ensures !CanSave(old(form)) ==>
        && request == None && alert == Some("Title and content are required")
        && form == old(form) && editing == old(editing) && creating == old(creating)
        && saving == old(saving) && store.chapters == old(store.chapters)
        && store.loading == old(store.loading) && store.error == old(store.error)
      ensures CanSave(old(form)) ==>
        && request == Some(RequestFor(old(form), old(editing)))
        && SavedAs(old(form), old(editing), old(creating), old(store.chapters), outcome, alert)
        && store.loading == old(store.loading) && store.error == old(store.error)
    {
      if !CanSave(form) {
        return None, Some("Title and content are required");
      }
      var sent;
      sent, alert := Submit(CallFor(form, editing), outcome);
      request := Some(sent);
    }

    /** The state after a valid form was submitted: `saving` is off again; the chapter being
        edited is updated, or a new one added; success resets the editor, failure keeps the
        form and alerts the store's message. */
    ghost predicate SavedAs(form0: ChapterForm, editing0: Option<Chapter>, creating0: bool,
                            chapters0: seq<Chapter>, outcome: Result<Row, Thrown>, alert: Option<string>)
      reads this, store
    {
      && !saving
      && store.chapters == (if outcome.Failure? then chapters0
                            else if editing0.Some? then ReplaceById(chapters0, editing0.value.id, Normalize(outcome.value))
                            else [Normalize(outcome.value)] + chapters0)
      && (outcome.Success? ==> alert == None && form == EmptyForm && editing == None && !creating)
      && (outcome.Failure? ==>
            && alert == Some(ErrorMessage(outcome.error,
                 if editing0.Some? then "Failed to update chapter" else "Failed to add chapter"))
            && form == form0 && editing == editing0 && creating == creating0)
    }

    /** The `try` block of `handleSave`: `saving` is on while `call` goes to the store, then the
        editor is reset or the alert raised, and `saving` is off again. */
    method Submit(call: Call, outcome: Result<Row, Thrown>) returns (request: Request, alert: Option<string>)
      requires call.UpdateCall? <==> editing.Some?
      requires call.UpdateCall? ==> call.id == editing.value.id
      modifies this, store
      ensures request == Wire(call)
      ensures SavedAs(old(form), old(editing), old(creating), old(store.chapters), outcome, alert)
      ensures store.loading == old(store.loading) && store.error == old(store.error)
    {
      var form0, editing0, creating0, chapters0 := form, editing, creating, store.chapters;
      saving := true;
      var result: Result<Chapter, string>;
      request, result := Send(call, outcome);
      alert := Settle(result, form0, editing0, creating0, chapters0, outcome);
    }

    /** The store call of `handleSave`; with the stored row in `outcome` the store's list takes
        it in. */
    method Send(call: Call, outcome: Result<Row, Thrown>) returns (request: Request, result: Result<Chapter, string>)
      modifies store
      ensures request == Wire(call)
      ensures outcome.Success? ==>
        && result == Success(Normalize(outcome.value))
        && store.chapters == (if call.UpdateCall? then ReplaceById(old(store.chapters), call.id, result.value)
                              else [result.value] + old(store.chapters))
      ensures outcome.Failure? ==>
        && result == Failure(ErrorMessage(outcome.error,
             if call.UpdateCall? then "Failed to update chapter" else "Failed to add chapter"))
        && store.chapters == old(store.chapters)
      ensures store.loading == old(store.loading) && store.error == old(store.error)
    {
      match call
      case UpdateCall(id, updates) =>
        request, result := SendUpdate(id, updates, outcome);
      case AddCall(draft) =>
        request, result := SendAdd(draft, outcome);
    }

    /** After the store answered: success closes the editor, failure alerts its message and
        keeps the form; either way `saving` ends. */
    method Settle(result: Result<Chapter, string>, form0: ChapterForm, editing0: Option<Chapter>,
                  creating0: bool, chapters0: seq<Chapter>, outcome: Result<Row, Thrown>)
      returns (alert: Option<string>)
      requires form == form0 && editing == editing0 && creating == creating0
      requires outcome.Success? ==>
        && result == Success(Normalize(outcome.value))
        && store.chapters == (if editing0.Some? then ReplaceById(chapters0, editing0.value.id, result.value)
                              else [result.value] + chapters0)
      requires outcome.Failure? ==>
        && result == Failure(ErrorMessage(outcome.error,
             if editing0.Some? then "Failed to update chapter" else "Failed to add chapter"))
        && store.chapters == chapters0
      modifies this
      ensures SavedAs(form0, editing0, creating0, chapters0, outcome, alert)
    {
      if result.Success? {
        editing := None;
        creating := false;
        form := EmptyForm;
        alert := None;
      } else {
        alert := Some(result.error);
      }
      saving := false;
    }

    /** `updateChapter(id, updates)`: the patch built from `updates` goes to the database for
        that id. */
    method SendUpdate(id: string, updates: Updates, outcome: Result<Row, Thrown>)
      returns (request: Request, result: Result<Chapter, string>)
      modifies store
      ensures request == UpdateRequest(id, BuildPatch(updates))
      ensures outcome.Success? ==>
        && result == Success(Normalize(outcome.value))
        && store.chapters == ReplaceById(old(store.chapters), id, result.value)
      ensures outcome.Failure? ==>
        result == Failure(ErrorMessage(outcome.error, "Failed to update chapter")) && store.chapters == old(store.chapters)
      ensures store.loading == old(store.loading) && store.error == old(store.error)
    {
      var patch, r := store.Update(id, updates, outcome);
      request, result := UpdateRequest(id, patch), r;
    }

    /** `addChapter(draft)`: the insert record of the draft goes to the database. */
    method SendAdd(draft: Draft, outcome: Result<Row, Thrown>) returns (request: Request, result: Result<Chapter, string>)
      modifies store
      ensures request == InsertRequest(ToInsert(draft))
      ensures outcome.Success? ==>
        && result == Success(Normalize(outcome.value))
        && store.chapters == [result.value] + old(store.chapters)
      ensures outcome.Failure? ==>
        result == Failure(ErrorMessage(outcome.error, "Failed to add chapter")) && store.chapters == old(store.chapters)
      ensures store.loading == old(store.loading) && store.error == old(store.error)
    {
      var record, r := store.Add(draft, outcome);
      request, result := InsertRequest(record), r;
    }

    /** `handleDelete`: nothing happens unless the user confirms; a failed delete alerts the
        store's message and keeps the list. */
    method Delete(c: Chapter, confirmed: bool, outcome: Outcome<Thrown>) returns (alert: Option<string>)
      modifies store
      ensures !confirmed ==> alert == None && store.chapters == old(store.chapters)
      ensures confirmed && outcome.Pass? ==> alert == None && store.chapters == RemoveById(old(store.chapters), c.id)
      ensures confirmed && outcome.Fail? ==>
        alert == Some(ErrorMessage(outcome.error, "Failed to delete chapter")) && store.chapters == old(store.chapters)
      ensures store.loading == old(store.loading) && store.error == old(store.error)
    {
      alert := None;
      if confirmed {
        var r := store.Delete(c.id, outcome);
        if r.Fail? {
          alert := Some(r.error);
        }
      }
    }
  }
}
