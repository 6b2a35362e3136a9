/** The content analysis of `src/components/ImmersiveVisualization.tsx`: sentences, keyword
    frequencies, concepts with their importance and category, the links between concepts,
    and the size and colour of the nodes drawn for them. */
module Visualization {
  import opened Wrappers
  import opened Seqs
  import opened Text

  // ---------------------------------------------------------------------------
  // Splitting on runs of separator characters (`split(/[.!?]+/)`, `match(/\w+/g)`)
  // ---------------------------------------------------------------------------

  /** `s` without its leading separator characters. */
  function DropRun(s: string, isSep: char -> bool): (r: string)
    ensures |r| <= |s|
    ensures r == [] || !isSep(r[0])
    ensures s != [] && isSep(s[0]) ==> |r| < |s|
  {
    if s != [] && isSep(s[0]) then DropRun(s[1..], isSep) else s
  }

  /** What `DropRun` removes is a prefix of separators. */
  lemma {:induction false} DropRunSuffix(s: string, isSep: char -> bool)
    ensures s == s[..|s| - |DropRun(s, isSep)|] + DropRun(s, isSep)
    ensures forall i :: 0 <= i < |s| - |DropRun(s, isSep)| ==> isSep(s[i])
  {
    if s != [] && isSep(s[0]) {
      DropRunSuffix(s[1..], isSep);
      var r := DropRun(s, isSep);
      assert s == [s[0]] + s[1..];
      assert s[1..] == s[1..][..|s| - 1 - |r|] + r;
      assert s[..|s| - |r|] == [s[0]] + s[1..][..|s| - 1 - |r|];
      forall i | 0 < i < |s| - |r| ensures isSep(s[i]) {
        assert s[i] == s[1..][i - 1];
      }
    }
  }

  /** The pieces between maximal runs of separator characters, with an empty first or last
      piece when `s` starts or ends with a separator. */
  function SplitRuns(s: string, isSep: char -> bool): (r: seq<string>)
    ensures |r| >= 1
    decreases |s|
  {
    if s == [] then [""]
    else if isSep(s[0]) then [""] + SplitRuns(DropRun(s, isSep), isSep)
    else
      var r := SplitRuns(s[1..], isSep);
      [[s[0]] + r[0]] + r[1..]
  }

  function Flatten(parts: seq<string>): string
  {
    if parts == [] then "" else parts[0] + Flatten(parts[1..])
  }

  /** `s` with its separator characters deleted. */
  function Without(s: string, isSep: char -> bool): string
  {
    if s == [] then "" else (if isSep(s[0]) then "" else [s[0]]) + Without(s[1..], isSep)
  }

  lemma {:induction false} WithoutDropRun(s: string, isSep: char -> bool)
    ensures Without(DropRun(s, isSep), isSep) == Without(s, isSep)
  {
    if s != [] && isSep(s[0]) {
      WithoutDropRun(s[1..], isSep);
    }
  }

  /** Splitting loses exactly the separators: the pieces put together are `s` without them. */
  lemma {:induction false} SplitRunsFlatten(s: string, isSep: char -> bool)
    ensures Flatten(SplitRuns(s, isSep)) == Without(s, isSep)
    decreases |s|
  {
    if s == [] {
    } else if isSep(s[0]) {
      SplitRunsFlatten(DropRun(s, isSep), isSep);
      SplitRunsFlattenAtSep(s, isSep);
    } else {
      SplitRunsFlatten(s[1..], isSep);
      SplitRunsFlattenGlued(s, isSep);
    }
  }

  /** The step of `SplitRunsFlatten` at a run of separators: an empty piece, then the rest. */
  lemma {:induction false} SplitRunsFlattenAtSep(s: string, isSep: char -> bool)
    requires s != [] && isSep(s[0])
    requires Flatten(SplitRuns(DropRun(s, isSep), isSep)) == Without(DropRun(s, isSep), isSep)
    ensures Flatten(SplitRuns(s, isSep)) == Without(s, isSep)
  {
    var t := DropRun(s, isSep);
    WithoutDropRun(s, isSep);
    var q := [""] + SplitRuns(t, isSep);
    assert q[1..] == SplitRuns(t, isSep);
  }

  /** The step of `SplitRunsFlatten` at a kept character: it joins the first piece. */
  lemma {:induction false} SplitRunsFlattenGlued(s: string, isSep: char -> bool)
    requires s != [] && !isSep(s[0])
    requires Flatten(SplitRuns(s[1..], isSep)) == Without(s[1..], isSep)
    ensures Flatten(SplitRuns(s, isSep)) == Without(s, isSep)
  {
    var r := SplitRuns(s[1..], isSep);
    var q := [[s[0]] + r[0]] + r[1..];
    var rest := Flatten(r[1..]);
    assert SplitRuns(s, isSep) == q;
    assert Without(s, isSep) == [s[0]] + Without(s[1..], isSep);
    assert Flatten(r) == r[0] + rest;
    assert q[0] == [s[0]] + r[0] && q[1..] == r[1..];
    assert Flatten(q) == ([s[0]] + r[0]) + rest;
    assert ([s[0]] + r[0]) + rest == [s[0]] + (r[0] + rest);
  }

  /** Every piece is made of non-separator characters of `s`. */
  lemma {:induction false} SplitRunsPieces(s: string, isSep: char -> bool)
    ensures forall i, j :: 0 <= i < |SplitRuns(s, isSep)| && 0 <= j < |SplitRuns(s, isSep)[i]| ==>
      !isSep(SplitRuns(s, isSep)[i][j]) && SplitRuns(s, isSep)[i][j] in s
    decreases |s|
  {
    if s == [] {
    } else if isSep(s[0]) {
      var t := DropRun(s, isSep);
      SplitRunsPieces(t, isSep);
      var r := SplitRuns(t, isSep);
      DropRunSuffix(s, isSep);
      assert multiset(t) <= multiset(s);
      assert SplitRuns(s, isSep) == [""] + r;
    } else {
      var r := SplitRuns(s[1..], isSep);
      SplitRunsPieces(s[1..], isSep);
      var q := [[s[0]] + r[0]] + r[1..];
      assert SplitRuns(s, isSep) == q;
      forall i, j | 0 <= i < |q| && 0 <= j < |q[i]|
        ensures !isSep(q[i][j]) && q[i][j] in s
      {
        if i == 0 {
          if j > 0 {
            assert q[0][j] == r[0][j - 1];
          }
        } else {
          assert q[i] == r[i];
        }
      }
    }
  }

  // ---------------------------------------------------------------------------
  // Sentences
  // ---------------------------------------------------------------------------

  predicate IsTerminator(c: char)
  {
    c == '.' || c == '!' || c == '?'
  }

  /** The sentences of the content: the pieces between runs of `.`, `!` and `?` whose
      trimmed length exceeds 10. */
  function Sentences(content: string): seq<string>
  {
    Filter(SplitRuns(content, IsTerminator), (s: string) => |Trim(s)| > 10)
  }

  /** A sentence holds no terminator and more than 10 characters once trimmed; every piece
      long enough is a sentence. */
  lemma {:induction false} SentencesSpec(content: string)
    ensures forall i :: 0 <= i < |Sentences(content)| ==> |Trim(Sentences(content)[i])| > 10
    ensures forall i, j :: 0 <= i < |Sentences(content)| && 0 <= j < |Sentences(content)[i]| ==>
      !IsTerminator(Sentences(content)[i][j])
    ensures forall p :: p in SplitRuns(content, IsTerminator) && |Trim(p)| > 10 ==> p in Sentences(content)
  {
    SplitRunsPieces(content, IsTerminator);
  }

  // ---------------------------------------------------------------------------
  // Keywords
  // ---------------------------------------------------------------------------

  /** `\w`: an ASCII letter, digit or underscore. */
  predicate IsWordChar(c: char)
  {
    'a' <= c <= 'z' || 'A' <= c <= 'Z' || '0' <= c <= '9' || c == '_'
  }

  predicate NotWordChar(c: char)
  {
    !IsWordChar(c)
  }

  /** `text.toLowerCase().match(/\b\w{4,}\b/g)`: the maximal runs of word characters of the
      lower-cased text that are at least four long. */
  function Candidates(text: string): seq<string>
  {
    Filter(SplitRuns(ToLower(text), NotWordChar), (w: string) => |w| >= 4)
  }

  /** Every candidate is a lower-case word of at least four word characters. */
  lemma {:induction false} CandidatesAreWords(text: string)
    ensures forall i :: 0 <= i < |Candidates(text)| ==> |Candidates(text)[i]| >= 4
    ensures forall i, j :: 0 <= i < |Candidates(text)| && 0 <= j < |Candidates(text)[i]| ==>
      IsWordChar(Candidates(text)[i][j]) && !('A' <= Candidates(text)[i][j] <= 'Z')
  {
    var lower := ToLower(text);
    SplitRunsPieces(lower, NotWordChar);
    forall c | c in lower ensures !('A' <= c <= 'Z') {
      var k :| 0 <= k < |lower| && lower[k] == c;
    }
  }

  type Entry = (string, nat)

  /** The frequency dictionary: each word once, in order of first occurrence, with the
      number of its occurrences. */
  function Tally(words: seq<string>): (r: seq<Entry>)
    ensures |r| == |Distinct(words)|
  {
    var d := Distinct(words);
    seq(|d|, j requires 0 <= j < |d| => (d[j], multiset(words)[d[j]]))
  }

  function Frequency(e: Entry): real
  {
    e.1 as real
  }

  function Names(es: seq<Entry>): (r: seq<string>)
    ensures |r| == |es|
  {
    seq(|es|, j requires 0 <= j < |es| => es[j].0)
  }

  /** The words by decreasing frequency, equal ones in dictionary order, the first 20. */
  function TopWords(words: seq<string>): seq<string>
  {
    Names(Take(SortDesc(Tally(words), Frequency), 20))
  }

  /** `extractKeywords`: the top words of the candidates. */
  function Keywords(text: string): seq<string>
  {
    TopWords(Candidates(text))
  }

  /** The frequency dictionary as the `forEach` builds it: each word in turn adds one to its
      count, starting from zero. */
  function FrequencyMap(words: seq<string>): map<string, nat>
    decreases |words|
  {
    if words == [] then map[]
    else
      var m := FrequencyMap(words[..|words| - 1]);
      var w := words[|words| - 1];
      m[w := (if w in m then m[w] else 0) + 1]
  }

  /** One more word adds one to its count. */
  lemma {:induction false} FrequencyMapSnoc(words: seq<string>, w: string)
    ensures FrequencyMap(words + [w]) ==
      FrequencyMap(words)[w := (if w in FrequencyMap(words) then FrequencyMap(words)[w] else 0) + 1]
  {
    assert (words + [w])[..|words|] == words;
  }

  /** The dictionary holds exactly the words seen, each with its number of occurrences. */
  lemma {:induction false} FrequencyMapCounts(words: seq<string>)
    ensures forall w :: w in FrequencyMap(words) <==> w in words
    ensures forall w :: w in FrequencyMap(words) ==> FrequencyMap(words)[w] == multiset(words)[w]
    decreases |words|
  {
    if words != [] {
      var init := words[..|words| - 1];
      var w := words[|words| - 1];
      assert words == init + [w];
      FrequencyMapCounts(init);
      assert multiset(words) == multiset(init) + multiset{w};
      assert w !in FrequencyMap(init) ==> multiset(init)[w] == 0;
    }
  }

  /** The `forEach` that fills the frequency dictionary, one word at a time. */
  method CountWords(words: seq<string>) returns (entries: seq<Entry>)
    ensures entries == Tally(words)
  {
    var order: seq<string> := [];
    var frequency: map<string, nat> := map[];
    for i := 0 to |words|
      invariant order == Distinct(words[..i])
      invariant frequency == FrequencyMap(words[..i])
    {
      order, frequency := CountWord(words, i, order, frequency);
    }
    assert words[..|words|] == words;
    TallyOfMap(words);
    entries := EntriesOf(order, frequency);
  }

  /** The body of the `forEach`: a new word joins the key order, and its count goes up. */
  method CountWord(words: seq<string>, i: nat, order: seq<string>, frequency: map<string, nat>)
    returns (order': seq<string>, frequency': map<string, nat>)
    requires i < |words|
    requires order == Distinct(words[..i]) && frequency == FrequencyMap(words[..i])
    ensures order' == Distinct(words[..i + 1]) && frequency' == FrequencyMap(words[..i + 1])
  {
    var w := words[i];
    CountStep(words, i);
    order' := if w in frequency then order else order + [w];
    frequency' := frequency[w := (if w in frequency then frequency[w] else 0) + 1];
  }

  /** The dictionary's entries listed in the given key order. */
  function EntriesOf(order: seq<string>, frequency: map<string, nat>): seq<Entry>
    requires forall j :: 0 <= j < |order| ==> order[j] in frequency
  {
    seq(|order|, j requires 0 <= j < |order| => (order[j], frequency[order[j]]))
  }

  /** One word of the counting loop: a new word joins the order, and its count goes up. */
  lemma {:induction false} CountStep(words: seq<string>, i: nat)
    requires i < |words|
    ensures words[i] in FrequencyMap(words[..i]) <==> words[i] in Distinct(words[..i])
    ensures Distinct(words[..i + 1]) ==
      if words[i] in FrequencyMap(words[..i]) then Distinct(words[..i]) else Distinct(words[..i]) + [words[i]]
    ensures FrequencyMap(words[..i + 1]) ==
      FrequencyMap(words[..i])[words[i] := (if words[i] in FrequencyMap(words[..i]) then FrequencyMap(words[..i])[words[i]] else 0) + 1]
  {
    assert words[..i + 1] == words[..i] + [words[i]];
    DistinctSnoc(words[..i], words[i]);
    FrequencyMapSnoc(words[..i], words[i]);
    FrequencyMapCounts(words[..i]);
  }

  /** The tally read off the frequency dictionary. */
  lemma {:induction false} TallyOfMap(words: seq<string>)
    ensures forall j :: 0 <= j < |Distinct(words)| ==> Distinct(words)[j] in FrequencyMap(words)
    ensures Tally(words) == EntriesOf(Distinct(words), FrequencyMap(words))
  {
    FrequencyMapCounts(words);
  }

  /** `extractKeywords`. */
  method ExtractKeywords(text: string) returns (keywords: seq<string>)
    ensures keywords == Keywords(text)
  {
    var entries := CountWords(Candidates(text));
    keywords := Names(Take(SortDesc(entries, Frequency), 20));
    assert keywords == TopWords(Candidates(text));
  }

  /** Every sorted dictionary entry pairs a word with its count, and no entry repeats. */
  lemma {:induction false} SortedEntries(words: seq<string>)
    ensures forall i :: 0 <= i < |SortDesc(Tally(words), Frequency)| ==>
      var e := SortDesc(Tally(words), Frequency)[i];
      e.0 in words && e.1 == multiset(words)[e.0]
    ensures NoDuplicates(SortDesc(Tally(words), Frequency))
  {
    var t := Tally(words);
    var s := SortDesc(t, Frequency);
    var d := Distinct(words);
    forall i | 0 <= i < |s|
      ensures s[i].0 in words && s[i].1 == multiset(words)[s[i].0]
    {
      assert s[i] in multiset(s);
      assert s[i] in t;
    }
    assert NoDuplicates(t) by {
      forall i, j | 0 <= i < j < |t| ensures t[i] != t[j] {
        assert t[i].0 == d[i] && t[j].0 == d[j];
      }
    }
    NoDuplicatesOnce(t);
    OnceNoDuplicates(s);
  }

  /** The top words are the names of the first entries of the sorted tally. */
  lemma {:induction false} TopWordsPrefix(words: seq<string>)
    ensures var s := SortDesc(Tally(words), Frequency);
      && |TopWords(words)| == (if |s| < 20 then |s| else 20)
      && forall i :: 0 <= i < |TopWords(words)| ==> TopWords(words)[i] == s[i].0
  {
    var s := SortDesc(Tally(words), Frequency);
    var p := Take(s, 20);
    assert forall i :: 0 <= i < |p| ==> p[i] == s[i];
  }

  /** The top words are distinct words of the list, as many as there are distinct words,
      up to 20. */
  lemma {:induction false} TopWordsDistinct(words: seq<string>)
    ensures |TopWords(words)| == (if |Distinct(words)| < 20 then |Distinct(words)| else 20)
    ensures NoDuplicates(TopWords(words))
    ensures forall i :: 0 <= i < |TopWords(words)| ==> TopWords(words)[i] in words
  {
    var s := SortDesc(Tally(words), Frequency);
    var k := TopWords(words);
    SortedEntries(words);
    TopWordsPrefix(words);
    forall i, j | 0 <= i < j < |k| ensures k[i] != k[j] {
      assert s[i] != s[j];
    }
  }

  /** The top words come in non-increasing frequency. */
  lemma {:induction false} TopWordsOrdered(words: seq<string>)
    ensures forall i, j :: 0 <= i < j < |TopWords(words)| ==>
      multiset(words)[TopWords(words)[i]] >= multiset(words)[TopWords(words)[j]]
  {
    var s := SortDesc(Tally(words), Frequency);
    var k := TopWords(words);
    SortedEntries(words);
    TopWordsPrefix(words);
    forall i, j | 0 <= i < j < |k|
      ensures multiset(words)[k[i]] >= multiset(words)[k[j]]
    {
      assert Frequency(s[i]) >= Frequency(s[j]);
    }
  }

  /** A word left out is no more frequent than the `i`-th top word. */
  lemma {:induction false} TopWordBeats(words: seq<string>, w: string, i: nat)
    requires w in words && w !in TopWords(words) && i < |TopWords(words)|
    ensures multiset(words)[TopWords(words)[i]] >= multiset(words)[w]
  {
    var s := SortDesc(Tally(words), Frequency);
    var q := LeftOutIndex(words, w);
    SortedEntries(words);
    TopWordsPrefix(words);
    assert Frequency(s[i]) >= Frequency(s[q]);
  }

  /** A word left out of the top words has its entry after the first 20 of the sorted tally. */
  lemma {:induction false} LeftOutIndex(words: seq<string>, w: string) returns (q: nat)
    requires w in words && w !in TopWords(words)
    ensures |TopWords(words)| <= q < |SortDesc(Tally(words), Frequency)|
    ensures SortDesc(Tally(words), Frequency)[q] == (w, multiset(words)[w])
  {
    var k := TopWords(words);
    q := SortedIndexOf(words, w);
    TopWordsPrefix(words);
    assert forall j :: 0 <= j < |k| ==> k[j] != w;
  }

  /** Every word of the list has its entry, with its count, somewhere in the sorted tally. */
  lemma {:induction false} SortedIndexOf(words: seq<string>, w: string) returns (q: nat)
    requires w in words
    ensures q < |SortDesc(Tally(words), Frequency)|
    ensures SortDesc(Tally(words), Frequency)[q] == (w, multiset(words)[w])
  {
    var t := Tally(words);
    var s := SortDesc(t, Frequency);
    var d := Distinct(words);
    assert w in d;
    var m :| 0 <= m < |d| && d[m] == w;
    assert t[m] == (w, multiset(words)[w]);
    assert t[m] in multiset(s);
    q :| 0 <= q < |s| && s[q] == t[m];
  }

  // ---------------------------------------------------------------------------
  // Concepts and their categories
  // ---------------------------------------------------------------------------

  datatype Category = ConceptCategory | Action | Emotion | Time | Place | Person | General

  /** The categories tried in turn, with their keywords. */
  const Ordered: seq<Category> := [ConceptCategory, Action, Emotion, Time, Place, Person]

  function CategoryKeywords(c: Category): seq<string>
  {
    match c
    case ConceptCategory => ["concept", "idea", "theory", "principle", "notion"]
    case Action => ["do", "make", "create", "build", "develop", "implement"]
    case Emotion => ["feel", "emotion", "happy", "sad", "excited", "worried"]
    case Time => ["when", "time", "moment", "period", "duration", "schedule"]
    case Place => ["where", "location", "place", "area", "region", "space"]
    case Person => ["who", "person", "people", "individual", "character", "author"]
    case General => []
  }

  /** `keywords.some(keyword => lowerText.includes(keyword))`. */
  predicate Mentions(lower: string, c: Category)
  {
    exists i :: 0 <= i < |CategoryKeywords(c)| && Contains(lower, CategoryKeywords(c)[i])
  }

  function FirstMentioned(lower: string, cats: seq<Category>): Category
  {
    if cats == [] then General
    else if Mentions(lower, cats[0]) then cats[0]
    else FirstMentioned(lower, cats[1..])
  }

  /** The first of `cats` that the text mentions, or `General` when it mentions none. */
  lemma {:induction false} FirstMentionedSpec(lower: string, cats: seq<Category>)
    requires General !in cats
    ensures FirstMentioned(lower, cats) == General <==>
      forall i :: 0 <= i < |cats| ==> !Mentions(lower, cats[i])
    ensures FirstMentioned(lower, cats) != General ==>
      exists k :: 0 <= k < |cats| && cats[k] == FirstMentioned(lower, cats) && Mentions(lower, cats[k]) &&
        forall i :: 0 <= i < k ==> !Mentions(lower, cats[i])
  {
    if cats != [] && !Mentions(lower, cats[0]) {
      FirstMentionedSpec(lower, cats[1..]);
      if FirstMentioned(lower, cats) != General {
        var k :| 0 <= k < |cats[1..]| && cats[1..][k] == FirstMentioned(lower, cats) &&
          Mentions(lower, cats[1..][k]) && forall i :: 0 <= i < k ==> !Mentions(lower, cats[1..][i]);
        assert cats[k + 1] == cats[1..][k];
        forall i | 0 <= i < k + 1 ensures !Mentions(lower, cats[i]) {
          if i > 0 {
            assert cats[i] == cats[1..][i - 1];
          }
        }
      }
    } else if cats != [] {
      assert Mentions(lower, cats[0]);
    }
  }

  /** `categorizeText`. */
  function Categorize(text: string): Category
  {
    FirstMentioned(ToLower(text), Ordered)
  }

  /** The category is the first, in the order concept, action, emotion, time, place, person,
      whose keywords occur in the lower-cased text; `General` when none does. */
  lemma {:induction false} CategorizeSpec(text: string)
    ensures Categorize(text) == General <==>
      forall i :: 0 <= i < |Ordered| ==> !Mentions(ToLower(text), Ordered[i])
    ensures Categorize(text) != General ==>
      exists k :: 0 <= k < |Ordered| && Ordered[k] == Categorize(text) && Mentions(ToLower(text), Ordered[k]) &&
        forall i :: 0 <= i < k ==> !Mentions(ToLower(text), Ordered[i])
  {
    FirstMentionedSpec(ToLower(text), Ordered);
  }

  /** `sentence.split(' ').length / 20`, at most 1. */
  function Importance(sentence: string): (r: real)
    ensures 0.0 < r <= 1.0
  {
    var words := |Split(sentence, " ")|;
    if words as real / 20.0 <= 1.0 then words as real / 20.0 else 1.0
  }

  /** A sentence is important enough for a concept exactly when it has at least five
      space-separated pieces, and fully important from twenty on. */
  lemma {:induction false} ImportanceThresholds(sentence: string)
    ensures Importance(sentence) > 0.2 <==> |Split(sentence, " ")| >= 5
    ensures Importance(sentence) == 1.0 <==> |Split(sentence, " ")| >= 20
  {
  }

  /** The trimmed sentence cut at 100 characters, with `...` when the sentence itself is
      longer than 100. */
  function ConceptText(sentence: string): (t: string)
    ensures |t| <= (if |sentence| > 100 then 103 else 100)
    ensures |sentence| <= 100 ==> t == Trim(sentence)
    ensures |sentence| > 100 ==> |t| >= 3 && t[|t| - 3..] == "..."
    ensures |t| - (if |sentence| > 100 then 3 else 0) <= |Trim(sentence)|
    ensures forall i :: 0 <= i < |t| - (if |sentence| > 100 then 3 else 0) ==> t[i] == Trim(sentence)[i]
  {
    Take(Trim(sentence), 100) + (if |sentence| > 100 then "..." else "")
  }

  datatype Concept = Concept(text: string, importance: real, category: Category, index: nat)

  function MakeConcept(sentence: string, index: nat): Concept
  {
    Concept(ConceptText(sentence), Importance(sentence), Categorize(sentence), index)
  }

  /** The positions below `n` that `keep` accepts, in increasing order. */
  function Positions(n: nat, keep: nat -> bool): (r: seq<nat>)
    ensures forall i :: 0 <= i < |r| ==> r[i] < n && keep(r[i])
    ensures forall p: nat :: p < n && keep(p) ==> p in r
    ensures forall i, j :: 0 <= i < j < |r| ==> r[i] < r[j]
  {
    if n == 0 then []
    else
      var r := Positions(n - 1, keep);
      if keep(n - 1) then r + [n - 1] else r
  }

  /** A sentence is kept as a concept when its importance exceeds 0.2. */
  function ConceptKept(sentences: seq<string>): nat -> bool
  {
    (i: nat) => i < |sentences| && Importance(sentences[i]) > 0.2
  }

  /** `extractConcepts`: a concept, numbered by its sentence, for each sentence whose
      importance exceeds 0.2. */
  function ExtractConcepts(sentences: seq<string>): seq<Concept>
  {
    var kept := Positions(|sentences|, ConceptKept(sentences));
    seq(|kept|, k requires 0 <= k < |kept| => MakeConcept(sentences[kept[k]], kept[k]))
  }

  /** Each concept is its sentence's, of importance above 0.2, in sentence order. */
  lemma {:induction false} ConceptsOrdered(sentences: seq<string>)
    ensures forall k :: 0 <= k < |ExtractConcepts(sentences)| ==>
      var c := ExtractConcepts(sentences)[k];
      c.index < |sentences| && c == MakeConcept(sentences[c.index], c.index) && 0.2 < c.importance <= 1.0
    ensures forall k, l :: 0 <= k < l < |ExtractConcepts(sentences)| ==>
      ExtractConcepts(sentences)[k].index < ExtractConcepts(sentences)[l].index
  {
    var kept := Positions(|sentences|, ConceptKept(sentences));
    var cs := ExtractConcepts(sentences);
    forall k | 0 <= k < |cs|
      ensures cs[k].index == kept[k] < |sentences| && Importance(sentences[kept[k]]) > 0.2
    {
      assert ConceptKept(sentences)(kept[k]);
    }
  }

  /** Every sentence of importance above 0.2 yields a concept. */
  lemma {:induction false} ConceptsComplete(sentences: seq<string>, n: nat)
    requires n < |sentences| && Importance(sentences[n]) > 0.2
    ensures MakeConcept(sentences[n], n) in ExtractConcepts(sentences)
  {
    var kept := Positions(|sentences|, ConceptKept(sentences));
    var cs := ExtractConcepts(sentences);
    assert ConceptKept(sentences)(n);
    var k :| 0 <= k < |kept| && kept[k] == n;
    assert cs[k] == MakeConcept(sentences[n], n);
  }

  // ---------------------------------------------------------------------------
  // Links between concepts
  // ---------------------------------------------------------------------------

  function LowerWords(text: string): seq<string>
  {
    Split(ToLower(text), " ")
  }

  /** The words of `a` longer than four letters that also occur in `b`. */
  function CommonWords(a: Concept, b: Concept): seq<string>
  {
    var other := LowerWords(b.text);
    Filter(LowerWords(a.text), (w: string) => w in other && |w| > 4)
  }

  /** Two concepts are linked when they share more than one long word or a category. */
  predicate Linked(a: Concept, b: Concept)
  {
    |CommonWords(a, b)| > 1 || a.category == b.category
  }

  /** The positions of the other concepts linked to `concept`. */
  function LinkedTo(concept: Concept, all: seq<Concept>): nat -> bool
  {
    (p: nat) => p < |all| && all[p].index != concept.index && Linked(concept, all[p])
  }

  /** `findConnections`: the first three linked positions. */
  function Connections(concept: Concept, all: seq<Concept>): seq<nat>
  {
    Take(Positions(|all|, LinkedTo(concept, all)), 3)
  }

  /** `findConnections`, pushing one position at a time. */
  method FindConnections(concept: Concept, all: seq<Concept>) returns (connections: seq<nat>)
    ensures connections == Connections(concept, all)
  {
    connections := [];
    for i := 0 to |all|
      invariant connections == Positions(i, LinkedTo(concept, all))
    {
      var other := all[i];
      assert Positions(i + 1, LinkedTo(concept, all)) ==
        Positions(i, LinkedTo(concept, all)) + (if LinkedTo(concept, all)(i) then [i] else []);
      assert LinkedTo(concept, all)(i) <==> other.index != concept.index && Linked(concept, other);
      if other.index != concept.index {
        var common := CommonWords(concept, other);
        if |common| > 1 || other.category == concept.category {
          connections := connections + [i];
        }
      }
    }
    connections := Take(connections, 3);
  }

  /** A concept has at most three links, in increasing position, each to another linked
      concept; with distinct concept numbers a concept is never linked to itself. */
  lemma {:induction false} ConnectionsSpec(concept: Concept, all: seq<Concept>)
    ensures |Connections(concept, all)| <= 3
    ensures forall i :: 0 <= i < |Connections(concept, all)| ==>
      var p := Connections(concept, all)[i];
      p < |all| && all[p].index != concept.index && Linked(concept, all[p])
    ensures forall i, j :: 0 <= i < j < |Connections(concept, all)| ==>
      Connections(concept, all)[i] < Connections(concept, all)[j]
    ensures forall k :: 0 <= k < |all| && all[k] == concept ==> k !in Connections(concept, all)
  {
    var r := Positions(|all|, LinkedTo(concept, all));
    var c := Connections(concept, all);
    assert forall i :: 0 <= i < |c| ==> c[i] == r[i];
    assert forall p :: p in c ==> p in r;
  }

  /** The first three linked positions are the three first: every linked position before
      the last one kept is kept. */
  lemma {:induction false} ConnectionsFirst(concept: Concept, all: seq<Concept>, p: nat)
    requires p < |all| && all[p].index != concept.index && Linked(concept, all[p])
    requires |Connections(concept, all)| < 3 || p < Connections(concept, all)[2]
    ensures p in Connections(concept, all)
  {
    var r := Positions(|all|, LinkedTo(concept, all));
    var c := Connections(concept, all);
    assert p in r;
    var q :| 0 <= q < |r| && r[q] == p;
    if |c| == 3 {
      assert c[2] == r[2];
      assert q < 3;
    }
    assert c[q] == p;
  }

  // ---------------------------------------------------------------------------
  // Nodes
  // ---------------------------------------------------------------------------

  /** `Math.max(20, importance * 50)`. */
  function NodeSize(importance: real): (r: real)
    ensures r >= 20.0
    ensures importance <= 1.0 ==> r <= 50.0
    ensures importance >= 0.4 ==> r == importance * 50.0
  {
    if 20.0 >= importance * 50.0 then 20.0 else importance * 50.0
  }

  datatype ColorScheme = Semantic | ByImportance | ByCategory
  datatype Color = Hex(code: string) | Hsl(hue: real)

  function CategoryName(c: Category): string
  {
    match c
    case ConceptCategory => "concept"
    case Action => "action"
    case Emotion => "emotion"
    case Time => "time"
    case Place => "place"
    case Person => "person"
    case General => "general"
  }

  function SemanticColor(c: Category): string
  {
    match c
    case ConceptCategory => "#3B82F6"
    case Action => "#EF4444"
    case Emotion => "#F59E0B"
    case Time => "#10B981"
    case Place => "#8B5CF6"
    case Person => "#F97316"
    case General => "#6B7280"
  }

  /** Every category has its own semantic colour. */
  lemma {:induction false} SemanticColorsDistinct(a: Category, b: Category)
    ensures SemanticColor(a) == SemanticColor(b) <==> a == b
  {
    if a != b {
      assert SemanticColor(a)[1..3] != SemanticColor(b)[1..3] || SemanticColor(a)[3..] != SemanticColor(b)[3..];
    }
  }

  /** The sum of the character codes of `s`. */
  function CodeSum(s: string): nat
  {
    if s == [] then 0 else s[0] as nat + CodeSum(s[1..])
  }

  /** The hue of the category scheme: the character-code sum modulo 360. */
  function CategoryHue(name: string): (h: nat)
    ensures h < 360
    ensures (h - CodeSum(name)) % 360 == 0
  {
    CodeSum(name) % 360
  }

  datatype Node = Node(id: nat, text: string, size: real, color: Color, connections: seq<nat>,
                       importance: real, category: Category)

  /** The hue of the importance scheme, from the first node of the previous render with this
      category (`120` when there is none). */
  function ImportanceHue(previous: seq<Node>, c: Category): (h: real)
    ensures (forall i :: 0 <= i < |previous| ==> 0.0 <= previous[i].importance <= 1.0) ==> 0.0 <= h <= 120.0
  {
    if previous == [] then 120.0
    else if previous[0].category == c then 120.0 - (1.0 - previous[0].importance) * 120.0
    else ImportanceHue(previous[1..], c)
  }

  /** `getNodeColor`. */
  function NodeColor(c: Category, scheme: ColorScheme, previous: seq<Node>): (color: Color)
    ensures scheme == Semantic ==> color == Hex(SemanticColor(c))
    ensures scheme == ByCategory ==> color.Hsl? && 0.0 <= color.hue < 360.0
  {
    match scheme
    case Semantic => Hex(SemanticColor(c))
    case ByImportance => Hsl(ImportanceHue(previous, c))
    case ByCategory => Hsl(CategoryHue(CategoryName(c)) as real)
  }

  /** The nodes built from the content (the `useEffect` on content and colour scheme); `None`
      for empty content, which leaves the nodes as they were. Node `i` is identified as
      `node-i`, and its links are node positions. */
  function BuildNodes(content: string, scheme: ColorScheme, previous: seq<Node>): (r: Option<seq<Node>>)
    ensures r.None? <==> content == ""
  {
    if content == "" then None
    else
      var concepts := ExtractConcepts(Sentences(content));
      Some(seq(|concepts|, i requires 0 <= i < |concepts| =>
        var c := concepts[i];
        Node(i, c.text, NodeSize(c.importance), NodeColor(c.category, scheme, previous),
             Connections(c, concepts), c.importance, c.category)))
  }

  /** Node `i` has at most three links, to other nodes. */
  lemma {:induction false} NodeSpec(content: string, scheme: ColorScheme, previous: seq<Node>, i: nat)
    requires content != "" && i < |BuildNodes(content, scheme, previous).value|
    ensures var nodes := BuildNodes(content, scheme, previous).value;
      nodes[i].id == i && 20.0 <= nodes[i].size <= 50.0 && 0.2 < nodes[i].importance <= 1.0 &&
      |nodes[i].connections| <= 3 && i !in nodes[i].connections &&
      forall j :: 0 <= j < |nodes[i].connections| ==> nodes[i].connections[j] < |nodes|
  {
    var concepts := ExtractConcepts(Sentences(content));
    var nodes := BuildNodes(content, scheme, previous).value;
    var c := concepts[i];
    assert nodes[i] == Node(i, c.text, NodeSize(c.importance), NodeColor(c.category, scheme, previous),
                            Connections(c, concepts), c.importance, c.category);
    ConceptsOrdered(Sentences(content));
    assert 0.2 < c.importance <= 1.0;
    ConnectionsSpec(c, concepts);
  }
}
