/** The library view of `src/components/ChapterList.tsx`: the category choices offered and the
    chapters that pass the search box and the category and difficulty filters. */
module ChapterList {
  import opened Seqs
  import opened Text
  import opened Chapters

  function Categories(cs: seq<Chapter>): (cats: seq<string>)
    ensures |cats| == |cs|
    ensures forall i :: 0 <= i < |cs| ==> cats[i] == cs[i].category
  {
    seq(|cs|, i requires 0 <= i < |cs| => cs[i].category)
  }

  /** `['All', ...new Set(chapters.map(c => c.category))]`. */
  function CategoryChoices(cs: seq<Chapter>): (r: seq<string>)
    ensures |r| >= 1 && r[0] == "All"
  {
    ["All"] + Distinct(Categories(cs))
  }

  /** After 'All', every chapter's category is offered exactly once, in order of first
      appearance. */
  lemma {:induction false} CategoryChoicesSpec(cs: seq<Chapter>)
    ensures var r := CategoryChoices(cs);
      && (forall i :: 0 <= i < |cs| ==> cs[i].category in r[1..])
      && (forall i :: 1 <= i < |r| ==> exists k :: 0 <= k < |cs| && cs[k].category == r[i])
      && NoDuplicates(r[1..])
      && forall i, j :: 1 <= i < j < |r| ==>
           FirstIndex(Categories(cs), r[i]) < FirstIndex(Categories(cs), r[j])
  {
    var cats := Categories(cs);
    var d := Distinct(cats);
    var r := CategoryChoices(cs);
    assert r[1..] == d;
    forall i | 0 <= i < |cs|
      ensures cs[i].category in r[1..]
    {
      assert cats[i] == cs[i].category;
    }
    forall i | 1 <= i < |r|
      ensures exists k :: 0 <= k < |cs| && cs[k].category == r[i]
    {
      assert r[i] == d[i - 1] && d[i - 1] in cats;
      var k :| 0 <= k < |cats| && cats[k] == r[i];
      assert cs[k].category == cats[k];
    }
    DistinctOrder(cats);
    forall i, j | 1 <= i < j < |r|
      ensures FirstIndex(cats, r[i]) < FirstIndex(cats, r[j])
    {
      assert r[i] == d[i - 1] && r[j] == d[j - 1];
    }
  }

  function DifficultyName(d: Difficulty): string
  {
    match d
    case Beginner => "Beginner"
    case Intermediate => "Intermediate"
    case Advanced => "Advanced"
  }

  /** A case-insensitive substring test. */
  predicate Mentions(text: string, term: string)
  {
    Contains(ToLower(text), ToLower(term))
  }

  predicate MatchesSearch(c: Chapter, term: string)
  {
    Mentions(c.title, term) || Mentions(c.author, term)
    || exists i :: 0 <= i < |c.tags| && Mentions(c.tags[i], term)
  }

  predicate Matches(c: Chapter, term: string, category: string, difficulty: string)
  {
    && MatchesSearch(c, term)
    && (category == "All" || c.category == category)
    && (difficulty == "All" || DifficultyName(c.difficulty) == difficulty)
  }

  /** `filteredChapters`. */
  function Visible(cs: seq<Chapter>, term: string, category: string, difficulty: string): seq<Chapter>
  {
    Filter(cs, (c: Chapter) => Matches(c, term, category, difficulty))
  }

  /** The list shown keeps the chapters' order, and a chapter is shown exactly when it passes
      the search and both filters. */
  lemma {:induction false} VisibleSpec(cs: seq<Chapter>, term: string, category: string, difficulty: string)
    ensures IsSubsequence(Visible(cs, term, category, difficulty), cs)
    ensures forall i :: 0 <= i < |cs| ==>
      (cs[i] in Visible(cs, term, category, difficulty) <==> Matches(cs[i], term, category, difficulty))
    ensures forall i :: 0 <= i < |Visible(cs, term, category, difficulty)| ==>
      var c := Visible(cs, term, category, difficulty)[i];
      && (category != "All" ==> c.category == category)
      && (difficulty != "All" ==> DifficultyName(c.difficulty) == difficulty)
  {
    FilterIsSubsequence(cs, (c: Chapter) => Matches(c, term, category, difficulty));
  }

  lemma {:induction false} ContainsEmpty(s: string)
    ensures Contains(s, "")
  {
  }

  /** With an empty search and both filters on 'All', every chapter is shown. */
  lemma {:induction false} AllShownByDefault(cs: seq<Chapter>)
    ensures Visible(cs, "", "All", "All") == cs
  {
    forall i | 0 <= i < |cs|
      ensures Matches(cs[i], "", "All", "All")
    {
      ContainsEmpty(ToLower(cs[i].title));
    }
    FilterKeepsAll(cs, (c: Chapter) => Matches(c, "", "All", "All"));
  }

  /** The search ignores the case of the term. */
  lemma {:induction false} SearchIgnoresCase(c: Chapter, term: string)
    ensures MatchesSearch(c, term) <==> MatchesSearch(c, ToLower(term))
  {
    ToLowerIdempotent(term);
  }
}
