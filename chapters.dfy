/** The chapter repository of `src/hooks/useChapters.ts`: the in-memory chapter list,
    its loading flag and error message, kept in step with a remote `chapters` table.
    Every remote call is replaced by its outcome, passed in as an argument. */
module Chapters {
  import opened Wrappers
  import opened Seqs

  datatype Difficulty = Beginner | Intermediate | Advanced

  /** A chapter as the user interface sees it. */
  datatype Chapter = Chapter(
    id: string,
    title: string,
    subtitle: Option<string>,
    author: string,
    content: string,
    category: string,
    tags: seq<string>,
    difficulty: Difficulty,
    estimatedReadTime: int)

  /** A chapter before the store has given it an id (`Omit<Chapter, 'id'>`). */
  datatype Draft = Draft(
    title: string,
    subtitle: Option<string>,
    author: string,
    content: string,
    category: string,
    tags: seq<string>,
    difficulty: Difficulty,
    estimatedReadTime: int)

  /** A row of the remote table. `subtitle` and `tags` may be null; the read time keeps
      its column name. */
  datatype Row = Row(
    id: string,
    title: string,
    subtitle: Option<string>,
    author: string,
    content: string,
    category: string,
    tags: Option<seq<string>>,
    difficulty: Difficulty,
    estimated_read_time: int)

  /** The body of the insert request; a `None` subtitle is sent as null. */
  datatype InsertRecord = InsertRecord(
    title: string,
    subtitle: Option<string>,
    author: string,
    content: string,
    category: string,
    tags: seq<string>,
    difficulty: Difficulty,
    estimated_read_time: int)

  /** A partial update as callers supply it (`Partial<Omit<Chapter, 'id'>>`): `None` is an
      absent (undefined) field. */
  datatype Updates = Updates(
    title: Option<string>,
    subtitle: Option<string>,
    author: Option<string>,
    content: Option<string>,
    category: Option<string>,
    tags: Option<seq<string>>,
    difficulty: Option<Difficulty>,
    estimatedReadTime: Option<int>)

  /** The body of the update request: a `None` field is left out of the request;
      `subtitle == Some(None)` sends an explicit null. */
  datatype Patch = Patch(
    title: Option<string>,
    subtitle: Option<Option<string>>,
    author: Option<string>,
    content: Option<string>,
    category: Option<string>,
    tags: Option<seq<string>>,
    difficulty: Option<Difficulty>,
    estimated_read_time: Option<int>)

  /** A thrown JavaScript value: an `Error` object with its message, or anything else. */
  datatype Thrown = ErrorObject(message: string) | OtherValue

  /** `err instanceof Error ? err.message : fallback`. */
  function ErrorMessage(err: Thrown, fallback: string): string
  {
    match err
    case ErrorObject(m) => m
    case OtherValue => fallback
  }

  /** JavaScript `s || undefined` on an optional string: the empty string counts as absent. */
  function NonEmpty(s: Option<string>): (r: Option<string>)
    ensures r.Some? <==> s.Some? && s.value != ""
    ensures r.Some? ==> r == s
  {
    if s.Some? && s.value != "" then s else None
  }

  /** The row-to-chapter translation used after every fetch, insert and update. */
  function Normalize(row: Row): (c: Chapter)
    ensures c.id == row.id && c.title == row.title && c.author == row.author
    ensures c.content == row.content && c.category == row.category
    ensures c.difficulty == row.difficulty && c.estimatedReadTime == row.estimated_read_time
    ensures c.subtitle == NonEmpty(row.subtitle)
    ensures row.tags == None ==> c.tags == []
    ensures row.tags.Some? ==> c.tags == row.tags.value
  {
    Chapter(row.id, row.title, NonEmpty(row.subtitle), row.author, row.content, row.category,
            row.tags.GetOr([]), row.difficulty, row.estimated_read_time)
  }

  function NormalizeAll(rows: seq<Row>): (cs: seq<Chapter>)
    ensures |cs| == |rows|
    ensures forall i :: 0 <= i < |rows| ==> cs[i] == Normalize(rows[i])
  {
    seq(|rows|, i requires 0 <= i < |rows| => Normalize(rows[i]))
  }

  /** The insert request built from a draft. */
  function ToInsert(d: Draft): (rec: InsertRecord)
    ensures rec.subtitle == NonEmpty(d.subtitle)
    ensures rec.title == d.title && rec.author == d.author && rec.content == d.content
    ensures rec.category == d.category && rec.tags == d.tags && rec.difficulty == d.difficulty
    ensures rec.estimated_read_time == d.estimatedReadTime
  {
    InsertRecord(d.title, NonEmpty(d.subtitle), d.author, d.content, d.category, d.tags,
                 d.difficulty, d.estimatedReadTime)
  }

  /** The row a column-for-column store keeps for an inserted record under the id it assigns. */
  function StoredRow(id: string, rec: InsertRecord): Row
  {
    Row(id, rec.title, rec.subtitle, rec.author, rec.content, rec.category, Some(rec.tags),
        rec.difficulty, rec.estimated_read_time)
  }

  function WithId(d: Draft, id: string): Chapter
  {
    Chapter(id, d.title, d.subtitle, d.author, d.content, d.category, d.tags, d.difficulty,
            d.estimatedReadTime)
  }

  /** Round trip through the store: a draft whose subtitle is absent or non-empty comes back
      from insert-then-normalise as the same chapter with the assigned id. */
  lemma {:induction false} InsertRoundTrip(d: Draft, id: string)
    requires d.subtitle != Some("")
    ensures Normalize(StoredRow(id, ToInsert(d))) == WithId(d, id)
  {
  }

  /** An empty subtitle is stored as null and read back as absent. */
  lemma {:induction false} InsertEmptySubtitle(d: Draft, id: string)
    requires d.subtitle == Some("")
    ensures Normalize(StoredRow(id, ToInsert(d))) == WithId(d, id).(subtitle := None)
  {
  }

  /** The update request: `title`, `author`, `content`, `category`, `tags`, `difficulty`
      and the read time only when truthy (a non-empty string, any array, a non-zero number);
      `subtitle` whenever it is given, with the empty string sent as null. */
  function BuildPatch(u: Updates): (p: Patch)
    ensures p.title.Some? <==> u.title.Some? && u.title.value != ""
    ensures p.author.Some? <==> u.author.Some? && u.author.value != ""
    ensures p.content.Some? <==> u.content.Some? && u.content.value != ""
    ensures p.category.Some? <==> u.category.Some? && u.category.value != ""
    ensures p.tags == u.tags && p.difficulty == u.difficulty
    ensures p.estimated_read_time.Some? <==> u.estimatedReadTime.Some? && u.estimatedReadTime.value != 0
    ensures p.subtitle.Some? <==> u.subtitle.Some?
    ensures p.subtitle == Some(None) <==> u.subtitle == Some("")
  {
    Patch(
      NonEmpty(u.title),
      if u.subtitle.Some? then Some(NonEmpty(u.subtitle)) else None,
      NonEmpty(u.author),
      NonEmpty(u.content),
      NonEmpty(u.category),
      u.tags,
      u.difficulty,
      if u.estimatedReadTime.Some? && u.estimatedReadTime.value != 0 then u.estimatedReadTime else None)
  }

  /** The store's column-wise update: every field present in the patch overwrites its column. */
  function ApplyPatch(row: Row, p: Patch): Row
  {
    Row(row.id,
        p.title.GetOr(row.title),
        p.subtitle.GetOr(row.subtitle),
        p.author.GetOr(row.author),
        p.content.GetOr(row.content),
        p.category.GetOr(row.category),
        if p.tags.Some? then p.tags else row.tags,
        p.difficulty.GetOr(row.difficulty),
        p.estimated_read_time.GetOr(row.estimated_read_time))
  }

  const NoUpdates := Updates(None, None, None, None, None, None, None, None)

  /** Omission is not clearing: an update that supplies nothing leaves the stored row as it was. */
  lemma {:induction false} EmptyUpdateKeepsRow(row: Row)
    ensures ApplyPatch(row, BuildPatch(NoUpdates)) == row
  {
  }

  /** A falsy title, author, content, category or read time leaves that column as stored;
      an empty subtitle clears it, an absent one keeps it. */
  lemma {:induction false} PatchKeepsFalsyFields(row: Row, u: Updates)
    ensures var r := ApplyPatch(row, BuildPatch(u));
      && r.id == row.id
      && (u.title.None? || u.title == Some("") ==> r.title == row.title)
      && (u.author.None? || u.author == Some("") ==> r.author == row.author)
      && (u.content.None? || u.content == Some("") ==> r.content == row.content)
      && (u.category.None? || u.category == Some("") ==> r.category == row.category)
      && (u.estimatedReadTime.None? || u.estimatedReadTime == Some(0) ==> r.estimated_read_time == row.estimated_read_time)
      && (u.subtitle.None? ==> r.subtitle == row.subtitle)
      && (u.subtitle == Some("") ==> r.subtitle == None)
      && (u.subtitle.Some? && u.subtitle.value != "" ==> r.subtitle == u.subtitle)
  {
  }

  /** Applying the same update twice gives the same row as applying it once. */
  lemma {:induction false} PatchIdempotent(row: Row, u: Updates)
    ensures ApplyPatch(ApplyPatch(row, BuildPatch(u)), BuildPatch(u)) == ApplyPatch(row, BuildPatch(u))
  {
  }

  function Ids(cs: seq<Chapter>): (ids: seq<string>)
    ensures |ids| == |cs|
  {
    seq(|cs|, i requires 0 <= i < |cs| => cs[i].id)
  }

  predicate UniqueIds(cs: seq<Chapter>)
  {
    forall i, j :: 0 <= i < j < |cs| ==> cs[i].id != cs[j].id
  }

  /** `prev.map(chapter => chapter.id === id ? updated : chapter)`. */
  function ReplaceById(cs: seq<Chapter>, id: string, updated: Chapter): (r: seq<Chapter>)
    ensures |r| == |cs|
  {
    seq(|cs|, i requires 0 <= i < |cs| => if cs[i].id == id then updated else cs[i])
  }

  /** Replacement touches exactly the entries with that id: the others stay where they were,
      and with no matching id the list is unchanged. */
  lemma {:induction false} ReplaceByIdFrame(cs: seq<Chapter>, id: string, updated: Chapter)
    ensures forall i :: 0 <= i < |cs| && cs[i].id != id ==> ReplaceById(cs, id, updated)[i] == cs[i]
    ensures forall i :: 0 <= i < |cs| && cs[i].id == id ==> ReplaceById(cs, id, updated)[i] == updated
    ensures (forall i :: 0 <= i < |cs| ==> cs[i].id != id) ==> ReplaceById(cs, id, updated) == cs
  {
  }

  /** When the returned row carries the requested id, the list of ids is unchanged, so
      distinct ids stay distinct. */
  lemma {:induction false} ReplaceByIdKeepsIds(cs: seq<Chapter>, id: string, updated: Chapter)
    requires updated.id == id
    ensures Ids(ReplaceById(cs, id, updated)) == Ids(cs)
    ensures UniqueIds(cs) ==> UniqueIds(ReplaceById(cs, id, updated))
  {
    assert forall i :: 0 <= i < |cs| ==> ReplaceById(cs, id, updated)[i].id == cs[i].id;
  }

  /** `prev.filter(chapter => chapter.id !== id)`. */
  function RemoveById(cs: seq<Chapter>, id: string): (r: seq<Chapter>)
  {
    Filter(cs, KeepsOther(id))
  }

  /** The test `c.id !== id`. */
  function KeepsOther(id: string): Chapter -> bool
  {
    (c: Chapter) => c.id != id
  }

  /** Deletion removes exactly the entries with that id and keeps the rest in order. */
  lemma {:induction false} RemoveByIdSpec(cs: seq<Chapter>, id: string)
    ensures forall i :: 0 <= i < |RemoveById(cs, id)| ==> RemoveById(cs, id)[i].id != id
    ensures forall c :: c in cs && c.id != id ==> c in RemoveById(cs, id)
    ensures forall c :: c in RemoveById(cs, id) ==> c in cs
    ensures IsSubsequence(RemoveById(cs, id), cs)
    ensures (forall i :: 0 <= i < |cs| ==> cs[i].id != id) ==> RemoveById(cs, id) == cs
  {
    var p := KeepsOther(id);
    FilterIsSubsequence(cs, p);
    FilterKeepsAll(cs, p);
  }

  /** Distinct ids stay distinct after a deletion. */
  lemma {:induction false} RemoveByIdKeepsUnique(cs: seq<Chapter>, id: string)
    requires UniqueIds(cs)
    ensures UniqueIds(RemoveById(cs, id))
  {
    if cs != [] {
      var tail := cs[1..];
      UniqueIdsTail(cs);
      RemoveByIdKeepsUnique(tail, id);
      RemoveByIdUniqueStep(cs[0], tail, id);
      assert cs == [cs[0]] + tail;
    }
  }

  /** Removing the first chapter of a list with distinct ids leaves distinct ids none of
      which is the first chapter's. */
  lemma {:induction false} UniqueIdsTail(cs: seq<Chapter>)
    requires cs != [] && UniqueIds(cs)
    ensures UniqueIds(cs[1..])
    ensures forall k :: 0 <= k < |cs| - 1 ==> cs[1..][k].id != cs[0].id
  {
    var tail := cs[1..];
    forall i, j | 0 <= i < j < |tail| ensures tail[i].id != tail[j].id {
      assert tail[i] == cs[i + 1] && tail[j] == cs[j + 1];
    }
    forall k | 0 <= k < |tail| ensures tail[k].id != cs[0].id {
      assert tail[k] == cs[k + 1];
    }
  }

  /** Putting back a chapter with a fresh id keeps the removal free of duplicate ids. */
  lemma {:induction false} RemoveByIdUniqueStep(c: Chapter, tail: seq<Chapter>, id: string)
    requires forall k :: 0 <= k < |tail| ==> tail[k].id != c.id
    requires UniqueIds(RemoveById(tail, id))
    ensures UniqueIds(RemoveById([c] + tail, id))
  {
    FilterCons(c, tail, KeepsOther(id));
    if c.id != id {
      var rest := RemoveById(tail, id);
      FilterMembers(tail, KeepsOther(id));
      forall k | 0 <= k < |rest| ensures rest[k].id != c.id {
        assert rest[k] in tail;
      }
      UniqueIdsCons(c, rest);
    }
  }

  /** A chapter whose id none of a list with distinct ids has can go in front of it. */
  lemma {:induction false} UniqueIdsCons(c: Chapter, cs: seq<Chapter>)
    requires UniqueIds(cs) && forall k :: 0 <= k < |cs| ==> cs[k].id != c.id
    ensures UniqueIds([c] + cs)
  {
    var r := [c] + cs;
    forall i, j | 0 <= i < j < |r| ensures r[i].id != r[j].id {
      assert r[j] == cs[j - 1];
      if i > 0 {
        assert r[i] == cs[i - 1];
      }
    }
  }

  /** The chapter list of the hook, with its loading flag and last error message. */
  class ChapterStore {
    var chapters: seq<Chapter>
    var loading: bool
    var error: Option<string>

    /** A new hook: no chapters, loading, no error. */
    constructor ()
      ensures chapters == [] && loading && error == None
    {
      chapters := [];
      loading := true;
      error := None;
    }

    /** `fetchChapters`, with `outcome` the store's answer to the ordered select: the list
        becomes the normalised rows in the order given; a failure keeps the list and records
        the message. A success does not clear an earlier error. */
    method Fetch(outcome: Result<seq<Row>, Thrown>)
      modifies this
      ensures !loading
      ensures outcome.Success? ==> chapters == NormalizeAll(outcome.value) && error == old(error)
      ensures outcome.Failure? ==>
        chapters == old(chapters) && error == Some(ErrorMessage(outcome.error, "An error occurred"))
    {
      loading := true;
      if outcome.Success? {
        chapters := NormalizeAll(outcome.value);
      } else {
        error := Some(ErrorMessage(outcome.error, "An error occurred"));
      }
      loading := false;
    }

    /** `addChapter`: sends the insert built from `draft`; with the inserted row in `outcome`
        the new chapter goes in front of the list and is returned, otherwise the error is
        rethrown and the list is kept. */
    method Add(draft: Draft, outcome: Result<Row, Thrown>) returns (sent: InsertRecord, result: Result<Chapter, string>)
      modifies this
      ensures sent == ToInsert(draft)
      ensures loading == old(loading) && error == old(error)
      ensures outcome.Success? ==>
        result == Success(Normalize(outcome.value)) && chapters == [result.value] + old(chapters)
      ensures outcome.Failure? ==>
        result == Failure(ErrorMessage(outcome.error, "Failed to add chapter")) && chapters == old(chapters)
    {
      sent := ToInsert(draft);
      match outcome
      case Success(row) =>
        var added := Normalize(row);
        chapters := [added] + chapters;
        result := Success(added);
      case Failure(err) =>
        result := Failure(ErrorMessage(err, "Failed to add chapter"));
    }

    /** `updateChapter`: sends the patch built from `updates`; with the updated row in
        `outcome` every entry with that id is replaced by it, otherwise the error is rethrown
        and the list is kept. */
    method Update(id: string, updates: Updates, outcome: Result<Row, Thrown>)
      returns (sent: Patch, result: Result<Chapter, string>)
      modifies this
      ensures sent == BuildPatch(updates)
      ensures loading == old(loading) && error == old(error)
      ensures outcome.Success? ==>
        result == Success(Normalize(outcome.value))
        && chapters == ReplaceById(old(chapters), id, result.value)
      ensures outcome.Failure? ==>
        result == Failure(ErrorMessage(outcome.error, "Failed to update chapter")) && chapters == old(chapters)
    {
      sent := BuildPatch(updates);
      match outcome
      case Success(row) =>
        var updated := Normalize(row);
        chapters := ReplaceById(chapters, id, updated);
        result := Success(updated);
      case Failure(err) =>
        result := Failure(ErrorMessage(err, "Failed to update chapter"));
    }

    /** `deleteChapter`: when the store acknowledges, the entries with that id leave the list;
        otherwise the error is rethrown and the list is kept. */
    method Delete(id: string, outcome: Outcome<Thrown>) returns (result: Outcome<string>)
      modifies this
      ensures loading == old(loading) && error == old(error)
      ensures outcome.Pass? ==> result == Pass && chapters == RemoveById(old(chapters), id)
      ensures outcome.Fail? ==>
        result == Fail(ErrorMessage(outcome.error, "Failed to delete chapter")) && chapters == old(chapters)
    {
      match outcome
      case Pass =>
        chapters := RemoveById(chapters, id);
        result := Pass;
      case Fail(err) =>
        result := Fail(ErrorMessage(err, "Failed to delete chapter"));
    }
  }
}
