/** The annotated bookmark collection of `src/components/SmartBookmarks.tsx`: deleting and
    updating bookmarks, the related-bookmark search, and the filtered and sorted listing. */
module SmartBookmarks {
  import opened Wrappers
  import opened Seqs
  import opened Text

  datatype Importance = Low | Medium | High
  datatype Emotion = Curious | Confused | Excited | Thoughtful | Neutral

  datatype SmartBookmark = SmartBookmark(
    id: string,
    chapterId: string,
    chapterTitle: string,
    position: real,
    timestamp: int,
    note: string,
    tags: seq<string>,
    context: string,
    importance: Importance,
    category: string,
    aiInsight: Option<string>,
    connections: seq<string>,
    emotionalState: Emotion,
    readingSpeed: real,
    comprehensionScore: real)

  /** `Partial<SmartBookmark>`: `None` is a field the update does not mention. */
  datatype BookmarkUpdate = BookmarkUpdate(
    id: Option<string>,
    chapterId: Option<string>,
    chapterTitle: Option<string>,
    position: Option<real>,
    timestamp: Option<int>,
    note: Option<string>,
    tags: Option<seq<string>>,
    context: Option<string>,
    importance: Option<Importance>,
    category: Option<string>,
    aiInsight: Option<string>,
    connections: Option<seq<string>>,
    emotionalState: Option<Emotion>,
    readingSpeed: Option<real>,
    comprehensionScore: Option<real>)

  /** `{ ...b, ...updates }`. */
  function Merge(b: SmartBookmark, u: BookmarkUpdate): SmartBookmark
  {
    SmartBookmark(
      u.id.GetOr(b.id), u.chapterId.GetOr(b.chapterId), u.chapterTitle.GetOr(b.chapterTitle),
      u.position.GetOr(b.position), u.timestamp.GetOr(b.timestamp), u.note.GetOr(b.note),
      u.tags.GetOr(b.tags), u.context.GetOr(b.context), u.importance.GetOr(b.importance),
      u.category.GetOr(b.category), if u.aiInsight.Some? then u.aiInsight else b.aiInsight,
      u.connections.GetOr(b.connections), u.emotionalState.GetOr(b.emotionalState),
      u.readingSpeed.GetOr(b.readingSpeed), u.comprehensionScore.GetOr(b.comprehensionScore))
  }

  const NoChange := BookmarkUpdate(None, None, None, None, None, None, None, None, None, None, None, None, None, None, None)

  /** A merge overwrites exactly the fields the update mentions and keeps every other one. */
  lemma {:induction false} MergeSpec(b: SmartBookmark, u: BookmarkUpdate)
    ensures (u.id.Some? ==> Merge(b, u).id == u.id.value) && (u.id.None? ==> Merge(b, u).id == b.id)
    ensures (u.chapterId.Some? ==> Merge(b, u).chapterId == u.chapterId.value) && (u.chapterId.None? ==> Merge(b, u).chapterId == b.chapterId)
    ensures (u.chapterTitle.Some? ==> Merge(b, u).chapterTitle == u.chapterTitle.value) && (u.chapterTitle.None? ==> Merge(b, u).chapterTitle == b.chapterTitle)
    ensures (u.position.Some? ==> Merge(b, u).position == u.position.value) && (u.position.None? ==> Merge(b, u).position == b.position)
    ensures (u.timestamp.Some? ==> Merge(b, u).timestamp == u.timestamp.value) && (u.timestamp.None? ==> Merge(b, u).timestamp == b.timestamp)
    ensures (u.note.Some? ==> Merge(b, u).note == u.note.value) && (u.note.None? ==> Merge(b, u).note == b.note)
    ensures (u.tags.Some? ==> Merge(b, u).tags == u.tags.value) && (u.tags.None? ==> Merge(b, u).tags == b.tags)
    ensures (u.context.Some? ==> Merge(b, u).context == u.context.value) && (u.context.None? ==> Merge(b, u).context == b.context)
    ensures (u.importance.Some? ==> Merge(b, u).importance == u.importance.value) && (u.importance.None? ==> Merge(b, u).importance == b.importance)
    ensures (u.category.Some? ==> Merge(b, u).category == u.category.value) && (u.category.None? ==> Merge(b, u).category == b.category)
    ensures Merge(b, u).aiInsight == (if u.aiInsight.Some? then u.aiInsight else b.aiInsight)
    ensures (u.connections.Some? ==> Merge(b, u).connections == u.connections.value) && (u.connections.None? ==> Merge(b, u).connections == b.connections)
    ensures (u.emotionalState.Some? ==> Merge(b, u).emotionalState == u.emotionalState.value) && (u.emotionalState.None? ==> Merge(b, u).emotionalState == b.emotionalState)
    ensures (u.readingSpeed.Some? ==> Merge(b, u).readingSpeed == u.readingSpeed.value) && (u.readingSpeed.None? ==> Merge(b, u).readingSpeed == b.readingSpeed)
    ensures (u.comprehensionScore.Some? ==> Merge(b, u).comprehensionScore == u.comprehensionScore.value) && (u.comprehensionScore.None? ==> Merge(b, u).comprehensionScore == b.comprehensionScore)
  {
  }

  /** An empty update changes nothing and a repeated one changes nothing more. */
  lemma {:induction false} MergeIdempotent(b: SmartBookmark, u: BookmarkUpdate)
    ensures Merge(b, NoChange) == b
    ensures Merge(Merge(b, u), u) == Merge(b, u)
  {
  }

  /** `bookmarks.map(b => b.id === id ? { ...b, ...updates } : b)`. */
  function UpdateById(bs: seq<SmartBookmark>, id: string, u: BookmarkUpdate): (r: seq<SmartBookmark>)
    ensures |r| == |bs|
  {
    seq(|bs|, i requires 0 <= i < |bs| => if bs[i].id == id then Merge(bs[i], u) else bs[i])
  }

  /** An update keeps length and order, leaves other ids alone and merges into the matching
      entries. */
  lemma {:induction false} UpdateByIdSpec(bs: seq<SmartBookmark>, id: string, u: BookmarkUpdate)
    ensures forall i :: 0 <= i < |bs| && bs[i].id != id ==> UpdateById(bs, id, u)[i] == bs[i]
    ensures forall i :: 0 <= i < |bs| && bs[i].id == id ==> UpdateById(bs, id, u)[i] == Merge(bs[i], u)
    ensures UpdateById(bs, id, NoChange) == bs
  {
    forall i | 0 <= i < |bs|
      ensures UpdateById(bs, id, NoChange)[i] == bs[i]
    {
      MergeIdempotent(bs[i], NoChange);
    }
  }

  /** `bookmarks.filter(b => b.id !== id)`. */
  function DeleteById(bs: seq<SmartBookmark>, id: string): seq<SmartBookmark>
  {
    Filter(bs, Other(id))
  }

  /** The test `b.id !== id`. */
  function Other(id: string): SmartBookmark -> bool
  {
    (b: SmartBookmark) => b.id != id
  }

  /** Deletion removes exactly the bookmarks with that id and keeps the rest in order. */
  lemma {:induction false} DeleteByIdSpec(bs: seq<SmartBookmark>, id: string)
    ensures forall i :: 0 <= i < |DeleteById(bs, id)| ==> DeleteById(bs, id)[i].id != id
    ensures forall i :: 0 <= i < |bs| && bs[i].id != id ==> bs[i] in DeleteById(bs, id)
    ensures IsSubsequence(DeleteById(bs, id), bs)
  {
    FilterIsSubsequence(bs, Other(id));
    FilterMembers(bs, Other(id));
  }

  /** `context.toLowerCase().split(' ')`. */
  function ContextWords(context: string): seq<string>
  {
    Split(ToLower(context), " ")
  }

  /** The words of the first context longer than four characters that also occur in the
      second, counted with repetition. */
  function CommonWords(mine: string, theirs: string): seq<string>
  {
    var other := ContextWords(theirs);
    Filter(ContextWords(mine), (w: string) => w in other && |w| > 4)
  }

  predicate SharesTag(a: SmartBookmark, b: SmartBookmark)
  {
    exists i :: 0 <= i < |a.tags| && a.tags[i] in b.tags
  }

  /** The relatedness test of `findConnections`. */
  predicate Related(b: SmartBookmark, other: SmartBookmark)
  {
    |CommonWords(b.context, other.context)| > 2 || SharesTag(b, other) || b.category == other.category
  }

  /** The bookmarks `findConnections` picks, before taking their ids. */
  function Connected(bs: seq<SmartBookmark>, b: SmartBookmark): seq<SmartBookmark>
  {
    Filter(Filter(bs, Other(b.id)), RelatedTo(b))
  }

  function RelatedTo(b: SmartBookmark): SmartBookmark -> bool
  {
    (o: SmartBookmark) => Related(b, o)
  }

  /** `findConnections`: the ids of the other related bookmarks, in stored order. */
  function FindConnections(bs: seq<SmartBookmark>, b: SmartBookmark): seq<string>
  {
    Map(Connected(bs, b), IdOf)
  }

  function IdOf(b: SmartBookmark): string
  {
    b.id
  }

  /** The connections never name the bookmark itself, are all related to it, and come from
      the stored bookmarks in stored order. */
  lemma {:induction false} FindConnectionsSpec(bs: seq<SmartBookmark>, b: SmartBookmark)
    ensures |FindConnections(bs, b)| == |Connected(bs, b)|
    ensures forall i :: 0 <= i < |FindConnections(bs, b)| ==>
      FindConnections(bs, b)[i] == Connected(bs, b)[i].id != b.id && Related(b, Connected(bs, b)[i])
    ensures IsSubsequence(Connected(bs, b), bs)
  {
    var others := Filter(bs, Other(b.id));
    var c := Connected(bs, b);
    FilterIsSubsequence(bs, Other(b.id));
    FilterIsSubsequence(others, RelatedTo(b));
    SubsequenceTrans(c, others, bs);
    FilterMembers(bs, Other(b.id));
    FilterMembers(others, RelatedTo(b));
    forall i | 0 <= i < |c|
      ensures c[i].id != b.id && Related(b, c[i])
    {
      assert c[i] in others;
      assert Other(b.id)(c[i]);
      assert RelatedTo(b)(c[i]);
    }
  }

  /** Every other related bookmark, by common words, a shared tag or the category, is among
      the connections; with `FindConnectionsSpec`, the connections are exactly the related
      other bookmarks. */
  lemma {:induction false} FindConnectionsComplete(bs: seq<SmartBookmark>, b: SmartBookmark, i: int)
    requires 0 <= i < |bs| && bs[i].id != b.id
    requires Related(b, bs[i])
    ensures bs[i].id in FindConnections(bs, b)
  {
    var others := Filter(bs, Other(b.id));
    var c := Connected(bs, b);
    FilterMembers(bs, Other(b.id));
    assert bs[i] in others;
    FilterMembers(others, RelatedTo(b));
    assert RelatedTo(b)(bs[i]);
    assert bs[i] in c;
    var j :| 0 <= j < |c| && c[j] == bs[i];
    assert FindConnections(bs, b)[j] == bs[i].id;
  }

  function ImportanceName(i: Importance): string
  {
    match i
    case Low => "low"
    case Medium => "medium"
    case High => "high"
  }

  function EmotionName(e: Emotion): string
  {
    match e
    case Curious => "curious"
    case Confused => "confused"
    case Excited => "excited"
    case Thoughtful => "thoughtful"
    case Neutral => "neutral"
  }

  predicate Mentions(text: string, term: string)
  {
    Contains(ToLower(text), ToLower(term))
  }

  predicate MatchesSearch(b: SmartBookmark, term: string)
  {
    || Mentions(b.chapterTitle, term) || Mentions(b.note, term) || Mentions(b.context, term)
    || (exists i :: 0 <= i < |b.tags| && Mentions(b.tags[i], term))
    || (b.aiInsight.Some? && Mentions(b.aiInsight.value, term))
  }

  /** The search box and the three filters, 'All' meaning no filter. */
  datatype Criteria = Criteria(term: string, category: string, importance: string, emotion: string)

  predicate Matches(b: SmartBookmark, c: Criteria)
  {
    && MatchesSearch(b, c.term)
    && (c.category == "All" || b.category == c.category)
    && (c.importance == "All" || ImportanceName(b.importance) == c.importance)
    && (c.emotion == "All" || EmotionName(b.emotionalState) == c.emotion)
  }

  datatype SortBy = ByDate | ByImportance | ByChapter | ByConnections | ByComprehension

  function ImportanceRank(i: Importance): int
  {
    match i
    case High => 3
    case Medium => 2
    case Low => 1
  }

  /** The descending sort key of each order; the chapter order keeps the filtered order. */
  function SortKey(order: SortBy): SmartBookmark -> real
  {
    match order
    case ByDate => (b: SmartBookmark) => b.timestamp as real
    case ByImportance => (b: SmartBookmark) => ImportanceRank(b.importance) as real
    case ByChapter => (b: SmartBookmark) => 0.0
    case ByConnections => (b: SmartBookmark) => |b.connections| as real
    case ByComprehension => (b: SmartBookmark) => b.comprehensionScore
  }

  /** The test the listing's `filter` applies. */
  function Matching(c: Criteria): SmartBookmark -> bool
  {
    (b: SmartBookmark) => Matches(b, c)
  }

  /** `filteredBookmarks`: the matching bookmarks in a stable descending sort. */
  function Listed(bs: seq<SmartBookmark>, c: Criteria, order: SortBy): seq<SmartBookmark>
  {
    SortDesc(Filter(bs, Matching(c)), SortKey(order))
  }

  /** The listing holds every matching bookmark once and nothing else. */
  lemma {:induction false} ListedSpec(bs: seq<SmartBookmark>, c: Criteria, order: SortBy)
    ensures var r := Listed(bs, c, order);
      && multiset(r) == multiset(Filter(bs, Matching(c)))
      && multiset(r) <= multiset(bs)
      && (forall i :: 0 <= i < |r| ==> Matches(r[i], c))
      && (forall i :: 0 <= i < |bs| && Matches(bs[i], c) ==> bs[i] in r)
  {
    var f := Filter(bs, Matching(c));
    var r := Listed(bs, c, order);
    assert multiset(r) == multiset(f);
    FilterMembers(bs, Matching(c));
    forall i | 0 <= i < |r|
      ensures Matches(r[i], c)
    {
      assert r[i] in multiset(f);
      assert Matching(c)(r[i]);
    }
    forall i | 0 <= i < |bs| && Matches(bs[i], c)
      ensures bs[i] in r
    {
      assert Matching(c)(bs[i]);
      assert bs[i] in multiset(r);
    }
  }

  /** The listing follows the order chosen: newest first, high before medium before low,
      most connected first, best understood first; the chapter order leaves the matching
      bookmarks in stored order. */
  lemma {:induction false} ListedOrder(bs: seq<SmartBookmark>, c: Criteria, order: SortBy)
    ensures var r := Listed(bs, c, order);
      && (order == ByDate ==> forall i, j :: 0 <= i < j < |r| ==> r[i].timestamp >= r[j].timestamp)
      && (order == ByImportance ==> forall i, j :: 0 <= i < j < |r| ==> ImportanceRank(r[i].importance) >= ImportanceRank(r[j].importance))
      && (order == ByConnections ==> forall i, j :: 0 <= i < j < |r| ==> |r[i].connections| >= |r[j].connections|)
      && (order == ByComprehension ==> forall i, j :: 0 <= i < j < |r| ==> r[i].comprehensionScore >= r[j].comprehensionScore)
      && (order == ByChapter ==> r == Filter(bs, Matching(c)))
  {
    var r := Listed(bs, c, order);
    assert SortedDesc(r, SortKey(order));
    if order == ByChapter {
      var f := Filter(bs, Matching(c));
      assert forall i :: 0 <= i < |f| ==> SortKey(order)(f[i]) == 0.0;
      SortDescTies(f, SortKey(order), 0.0);
    }
  }

  /** `['All', ...new Set(bookmarks.map(b => b.category))]`. */
  function CategoryChoices(bs: seq<SmartBookmark>): (r: seq<string>)
    ensures |r| >= 1 && r[0] == "All"
  {
    ["All"] + Distinct(seq(|bs|, i requires 0 <= i < |bs| => bs[i].category))
  }

  /** After 'All', each stored category is offered once. */
  lemma {:induction false} CategoryChoicesSpec(bs: seq<SmartBookmark>)
    ensures forall i :: 0 <= i < |bs| ==> bs[i].category in CategoryChoices(bs)[1..]
    ensures NoDuplicates(CategoryChoices(bs)[1..])
  {
    var cats := seq(|bs|, i requires 0 <= i < |bs| => bs[i].category);
    assert CategoryChoices(bs)[1..] == Distinct(cats);
    assert forall i :: 0 <= i < |bs| ==> cats[i] == bs[i].category;
  }

  /** The stored bookmarks. */
  class BookmarkStore {
    var bookmarks: seq<SmartBookmark>

    constructor (saved: seq<SmartBookmark>)
      ensures bookmarks == saved
    {
      bookmarks := saved;
    }

    method Delete(id: string)
      modifies this
      ensures bookmarks == DeleteById(old(bookmarks), id)
    {
      bookmarks := DeleteById(bookmarks, id);
    }

    method Update(id: string, u: BookmarkUpdate)
      modifies this
      ensures bookmarks == UpdateById(old(bookmarks), id, u)
    {
      bookmarks := UpdateById(bookmarks, id, u);
    }

    /** `enhanceBookmark` with the generated insight passed in: the bookmark, with that insight
        and its current connections, is merged into every entry with its id. */
    method Enhance(b: SmartBookmark, insight: string)
      modifies this
      ensures bookmarks == UpdateById(old(bookmarks), b.id, Whole(b.(aiInsight := Some(insight), connections := FindConnections(old(bookmarks), b))))
    {
      var enhanced := b.(aiInsight := Some(insight), connections := FindConnections(bookmarks, b));
      Update(b.id, Whole(enhanced));
    }
  }

  /** An update that mentions every field (the insight only when there is one). */
  function Whole(b: SmartBookmark): (u: BookmarkUpdate)
    ensures b.aiInsight.Some? ==> forall x :: Merge(x, u) == b
  {
    BookmarkUpdate(Some(b.id), Some(b.chapterId), Some(b.chapterTitle), Some(b.position), Some(b.timestamp),
                   Some(b.note), Some(b.tags), Some(b.context), Some(b.importance), Some(b.category),
                   b.aiInsight, Some(b.connections), Some(b.emotionalState), Some(b.readingSpeed),
                   Some(b.comprehensionScore))
  }
}
