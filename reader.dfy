/** The scrolling reader of `src/components/Reader.tsx`: the progress and words-read figures
    derived from the scroll position, and `formatContent`, which classifies the chapter text's
    blank-line-separated pieces as headings, subheadings or paragraphs with bold runs. */
module Reader {
  import opened Wrappers
  import opened Seqs
  import opened Text

  /** The scroll progress in percent: the offset over the scrollable height, or 0 when
      nothing can scroll. */
  function ScrollProgress(scrollTop: real, documentHeight: real, windowHeight: real): (percent: real)
    ensures documentHeight - windowHeight <= 0.0 ==> percent == 0.0
  {
    var scrollable := documentHeight - windowHeight;
    if scrollable > 0.0 then scrollTop / scrollable * 100.0 else 0.0
  }

  /** The progress handed on: capped at 100 from above only. */
  function EmittedProgress(percent: real): (r: real)
    ensures r <= 100.0
    ensures r <= percent
    ensures percent <= 100.0 ==> r == percent
  {
    if percent <= 100.0 then percent else 100.0
  }

  /** `chapter.content.split(/\s+/).length`: empty pieces at either end are counted. */
  function TotalWords(content: string): (n: nat)
    ensures n >= 1
  {
    |SplitWs(content)|
  }

  /** Text of single-space-separated words counts each word once; white space at the start
      adds an empty piece. */
  lemma {:induction false} TotalWordsCounts(words: seq<string>)
    requires |words| > 0
    requires forall i :: 0 <= i < |words| ==> words[i] != "" && NoSpace(words[i])
    ensures TotalWords(Join(words, " ")) == |words|
    ensures TotalWords(" " + Join(words, " ")) == |words| + 1
    ensures TotalWords("") == 1
  {
    SplitWsJoin(words);
    var s := Join(words, " ");
    JoinStartsWithFirst(words, " ");
    assert s[0] == words[0][0];
    assert (" " + s)[1..] == s;
    assert TrimStart(s) == s;
  }

  /** `Math.floor((percent / 100) * totalWords)`, from the uncapped progress. */
  function WordsRead(percent: real, totalWords: nat): int
  {
    (percent / 100.0 * totalWords as real).Floor
  }

  /** Within the scrollable range the words read lie between 0 and the total, and half-way
      through four words two have been read. */
  lemma {:induction false} WordsReadBounds(scrollTop: real, documentHeight: real, windowHeight: real, totalWords: nat)
    requires documentHeight - windowHeight > 0.0
    requires 0.0 <= scrollTop <= documentHeight - windowHeight
    ensures 0.0 <= ScrollProgress(scrollTop, documentHeight, windowHeight) <= 100.0
    ensures 0 <= WordsRead(ScrollProgress(scrollTop, documentHeight, windowHeight), totalWords) <= totalWords
    ensures WordsRead(50.0, 4) == 2
  {
    var d := documentHeight - windowHeight;
    var p := ScrollProgress(scrollTop, documentHeight, windowHeight);
    assert scrollTop / d <= 1.0 by {
      assert scrollTop / d * d == scrollTop;
    }
    assert p / 100.0 == scrollTop / d;
    var x := p / 100.0 * totalWords as real;
    assert 0.0 <= x <= totalWords as real;
  }

  /** Scrolling above the top is not clamped: the emitted progress is then negative. */
  lemma NoLowerClamp()
    ensures EmittedProgress(ScrollProgress(-10.0, 300.0, 200.0)) == -10.0
  {
  }

  datatype Block =
    | Heading(text: string)
    | Subheading(text: string)
    | Paragraph(html: string)

  /** `paragraph.replace(/\*\*\/g, '')`: every pair of asterisks found scanning left to right
      is deleted. */
  function RemoveStars(s: string): string
  {
    if |s| >= 2 && s[..2] == "**" then RemoveStars(s[2..])
    else if s == [] then []
    else [s[0]] + RemoveStars(s[1..])
  }

  /** The characters of `s` other than asterisks, in order. */
  function NonStars(s: string): string
  {
    if s == [] then [] else (if s[0] == '*' then [] else [s[0]]) + NonStars(s[1..])
  }

  /** Only asterisks are deleted: the other characters survive, in order. */
  lemma {:induction false} RemoveStarsKeepsText(s: string)
    ensures NonStars(RemoveStars(s)) == NonStars(s)
    decreases |s|
  {
    if |s| >= 2 && s[..2] == "**" {
      RemoveStarsKeepsText(s[2..]);
      NonStarsPair(s);
    } else if s != [] {
      RemoveStarsKeepsText(s[1..]);
      NonStarsCons(s[0], RemoveStars(s[1..]));
    }
  }

  /** A leading `**` contributes nothing to the non-asterisk text. */
  lemma {:induction false} NonStarsPair(s: string)
    requires |s| >= 2 && s[..2] == "**"
    ensures NonStars(s) == NonStars(s[2..])
  {
    assert s[0] == '*' && s[1] == '*' by {
      assert s[..2][0] == s[0] && s[..2][1] == s[1];
    }
    assert s[1..][1..] == s[2..];
  }

  lemma {:induction false} NonStarsCons(c: char, x: string)
    ensures NonStars([c] + x) == (if c == '*' then [] else [c]) + NonStars(x)
  {
    assert ([c] + x)[0] == c && ([c] + x)[1..] == x;
  }

  /** A non-asterisk first character comes first in the result. */
  lemma {:induction false} RemoveStarsHead(s: string)
    requires s != [] && s[0] != '*'
    ensures RemoveStars(s) != [] && RemoveStars(s)[0] == s[0]
  {
  }

  /** The result holds no two adjacent asterisks. */
  lemma {:induction false} RemoveStarsNoPair(s: string)
    ensures forall i :: 0 <= i < |RemoveStars(s)| - 1 ==> !(RemoveStars(s)[i] == '*' && RemoveStars(s)[i + 1] == '*')
  {
    if |s| >= 2 && s[..2] == "**" {
      RemoveStarsNoPair(s[2..]);
    } else if s != [] {
      RemoveStarsNoPair(s[1..]);
      var t := RemoveStars(s[1..]);
      if s[0] == '*' && t != [] {
        assert s[1] != '*';
        RemoveStarsHead(s[1..]);
      }
    }
  }

  const StrongOpen := "<strong class=\"font-semibold text-gray-900 dark:text-gray-100 sepia:text-amber-900\">"
  const StrongClose := "</strong>"

  /** A `**` starts at position `m`. */
  predicate PairAt(s: string, m: int)
  {
    0 <= m && m + 2 <= |s| && s[m..m + 2] == "**"
  }

  /** The first `**` at or after `k` with no line terminator before it, as the lazy `(.*?)`
      of the bold pattern finds it. */
  function FindClose(s: string, k: nat): (j: Option<nat>)
    ensures j.Some? ==> k <= j.value && PairAt(s, j.value)
    ensures j.Some? ==> forall m :: k <= m < j.value ==> !IsLineTerminator(s[m]) && !PairAt(s, m)
    decreases |s| - k
  {
    if k + 2 > |s| then None
    else if s[k..k + 2] == "**" then Some(k)
    else if IsLineTerminator(s[k]) then None
    else FindClose(s, k + 1)
  }

  /** When the search finds nothing, every `**` at or after `k` has a line terminator
      before it. */
  lemma {:induction false} FindCloseMissing(s: string, k: nat)
    ensures FindClose(s, k).None? ==> forall m :: k <= m && PairAt(s, m) ==>
      exists t :: k <= t < m && IsLineTerminator(s[t])
    decreases |s| - k
  {
    if k + 2 <= |s| && s[k..k + 2] != "**" && !IsLineTerminator(s[k]) {
      FindCloseMissing(s, k + 1);
      forall m | k <= m && PairAt(s, m) && FindClose(s, k).None?
        ensures exists t :: k <= t < m && IsLineTerminator(s[t])
      {
        var t :| k + 1 <= t < m && IsLineTerminator(s[t]);
      }
    }
  }

  /** `paragraph.replace(/\*\*(.*?)\*\*\/g, StrongOpen + '$1' + StrongClose)`. */
  function Bold(s: string): string
    decreases |s|
  {
    if |s| < 2 then s
    else if s[..2] == "**" then
      match FindClose(s, 2)
      case Some(j) => StrongOpen + s[2..j] + StrongClose + Bold(s[j + 2..])
      case None => [s[0]] + Bold(s[1..])
    else [s[0]] + Bold(s[1..])
  }

  /** Text without asterisks is left alone. */
  lemma {:induction false} BoldPlain(s: string)
    requires '*' !in s
    ensures Bold(s) == s
  {
    if |s| >= 2 {
      assert s[0] != '*';
      BoldSkip(s);
      BoldPlain(s[1..]);
      assert s == [s[0]] + s[1..];
    }
  }

  /** A bold run on one line is wrapped in the strong element and scanning resumes after it. */
  lemma {:induction false} BoldWraps(x: string, rest: string)
    requires '*' !in x
    requires forall i :: 0 <= i < |x| ==> !IsLineTerminator(x[i])
    ensures Bold("**" + x + "**" + rest) == StrongOpen + x + StrongClose + Bold(rest)
  {
    var s := "**" + x + "**" + rest;
    var j := 2 + |x|;
    assert s[j..j + 2] == "**";
    assert s[2..j] == x;
    assert s[j + 2..] == rest;
    forall m | 2 <= m < j
      ensures !IsLineTerminator(s[m]) && !PairAt(s, m)
    {
      assert s[m] == x[m - 2];
      assert s[m..m + 2][0] == s[m];
    }
    FindCloseAt(s, 2, j);
  }

  lemma {:induction false} FindCloseAt(s: string, k: nat, j: nat)
    requires k <= j && PairAt(s, j)
    requires forall m :: k <= m < j ==> !IsLineTerminator(s[m]) && !PairAt(s, m)
    ensures FindClose(s, k) == Some(j)
    decreases j - k
  {
    if k < j {
      FindCloseAt(s, k + 1, j);
    }
  }

  /** The bold pattern does not reach across a line break. */
  lemma BoldStopsAtLineBreak()
    ensures Bold("**a\nb**") == "**a\nb**"
  {
    var s := "**a\nb**";
    assert s[2..4] == "a\n" && s[3..5] == "\nb";
    assert IsLineTerminator(s[3]);
    assert FindClose(s, 3) == None;
    assert FindClose(s, 2) == None;
    assert Bold(s[1..]) == "*a\nb**" by {
      BoldPlainPrefix();
    }
  }

  lemma BoldPlainPrefix()
    ensures Bold("*a\nb**") == "*a\nb**"
  {
    assert Bold("**") == "**" by {
      assert FindClose("**", 2) == None;
      assert Bold("*") == "*";
    }
    BoldSkip("b**");
    assert "b**"[1..] == "**";
    BoldSkip("\nb**");
    assert "\nb**"[1..] == "b**";
    BoldSkip("a\nb**");
    assert "a\nb**"[1..] == "\nb**";
    BoldSkip("*a\nb**");
    assert "*a\nb**"[1..] == "a\nb**";
  }

  /** Without `**` at the front, `Bold` keeps the first character and goes on. */
  lemma {:induction false} BoldSkip(s: string)
    requires |s| >= 2 && (s[0] != '*' || s[1] != '*')
    ensures Bold(s) == [s[0]] + Bold(s[1..])
  {
    assert s[..2] != "**" by {
      assert s[..2][0] == s[0] && s[..2][1] == s[1];
    }
  }

  /** One piece of text as `formatContent` renders it; the heading test comes first. */
  function Classify(piece: string): (b: Block)
    ensures b.Heading? <==> StartsWith(piece, "## ")
    ensures b.Heading? ==> b.text == piece[3..]
    ensures b.Subheading? <==> !StartsWith(piece, "## ") && StartsWith(piece, "**") && EndsWith(piece, "**")
    ensures b.Subheading? ==> b.text == RemoveStars(piece)
    ensures b.Paragraph? ==> b.html == Bold(piece)
  {
    if StartsWith(piece, "## ") then Heading(piece[3..])
    else if StartsWith(piece, "**") && EndsWith(piece, "**") then Subheading(RemoveStars(piece))
    else Paragraph(Bold(piece))
  }

  /** A subheading has no asterisk pair left and keeps all other characters of its piece. */
  lemma {:induction false} SubheadingText(piece: string)
    requires Classify(piece).Subheading?
    ensures forall i :: 0 <= i < |Classify(piece).text| - 1 ==>
      !(Classify(piece).text[i] == '*' && Classify(piece).text[i + 1] == '*')
    ensures NonStars(Classify(piece).text) == NonStars(piece)
  {
    RemoveStarsNoPair(piece);
    RemoveStarsKeepsText(piece);
  }

  /** The pieces `content.split('\n\n')`: none of them holds a blank line. */
  function Pieces(content: string): (ps: seq<string>)
    ensures |ps| >= 1
    ensures forall i :: 0 <= i < |ps| ==> !Contains(ps[i], "\n\n")
  {
    SplitPiecesFree(content, "\n\n");
    Split(content, "\n\n")
  }

  /** `formatContent`: one block per piece, in order. */
  function FormatContent(content: string): (blocks: seq<Block>)
    ensures |blocks| == |Pieces(content)|
    ensures forall i :: 0 <= i < |blocks| ==> blocks[i] == Classify(Pieces(content)[i])
  {
    var ps := Pieces(content);
    seq(|ps|, i requires 0 <= i < |ps| => Classify(ps[i]))
  }

  /** The pieces the blocks come from are the whole text, cut at every blank line: joined
      with blank lines they give it back, and none of them holds one. */
  lemma {:induction false} FormatContentCoversText(content: string)
    ensures |FormatContent(content)| == |Pieces(content)|
    ensures Join(Pieces(content), "\n\n") == content
    ensures forall i :: 0 <= i < |Pieces(content)| ==> !Contains(Pieces(content)[i], "\n\n")
  {
    JoinSplit(content, "\n\n");
  }
}
