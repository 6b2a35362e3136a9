/** The paced reader of `src/components/ImmersiveReader.tsx`: the chapter text cut into
    words, a word cursor driven by a timer and by skip buttons, the progress it reports, and
    the focus score derived from counted distractions. Timer ticks, page events and clock
    readings are method calls and parameters. */
module ImmersiveReader {
  import opened Seqs
  import opened Text

  /** `content.split(/\s+/).filter(word => word.length > 0)`. */
  function Words(content: string): seq<string>
  {
    Filter(SplitWs(content), (w: string) => |w| > 0)
  }

  /** No word is empty and no word contains white space. */
  lemma {:induction false} WordsAreClean(content: string)
    ensures forall i :: 0 <= i < |Words(content)| ==> Words(content)[i] != "" && NoSpace(Words(content)[i])
  {
    SplitWsNoSpace(content);
    var pieces := SplitWs(content);
    forall i | 0 <= i < |Words(content)|
      ensures NoSpace(Words(content)[i])
    {
      var k :| 0 <= k < |pieces| && pieces[k] == Words(content)[i];
    }
  }

  /** Words joined by single spaces are cut back into the same words. */
  lemma {:induction false} WordsOfJoin(words: seq<string>)
    requires forall i :: 0 <= i < |words| ==> words[i] != "" && NoSpace(words[i])
    ensures Words(Join(words, " ")) == words
  {
    if words == [] {
      assert SplitWs("") == [""];
    } else {
      SplitWsJoin(words);
      FilterKeepsAll(words, (w: string) => |w| > 0);
    }
  }

  function MaxReal(a: real, b: real): real { if a >= b then a else b }
  function MinReal(a: real, b: real): real { if a <= b then a else b }

  /** `updateFocusScore` for `count` distractions after `elapsedMs` milliseconds: the
      distractions per minute, at least one minute counted, cost 10 points each, at most 50. */
  function FocusScore(count: nat, elapsedMs: int): (score: real)
    ensures 50.0 <= score <= 100.0
    ensures count == 0 ==> score == 100.0
  {
    var minutes := elapsedMs as real / 60000.0;
    var perMinute := count as real / MaxReal(minutes, 1.0);
    var penalty := MinReal(perMinute * 10.0, 50.0);
    MaxReal(100.0 - penalty, 0.0)
  }

  /** More distractions in the same time never raise the score. */
  lemma {:induction false} FocusScoreAntitone(c1: nat, c2: nat, elapsedMs: int)
    requires c1 <= c2
    ensures FocusScore(c2, elapsedMs) <= FocusScore(c1, elapsedMs)
  {
    var d := MaxReal(elapsedMs as real / 60000.0, 1.0);
    assert c1 as real / d <= c2 as real / d by {
      assert c2 as real / d - c1 as real / d == (c2 - c1) as real / d;
    }
  }

  /** Within the first minute each distraction costs exactly 10 points, down to the floor of 50. */
  lemma {:induction false} FocusScoreFirstMinute(count: nat, elapsedMs: int)
    requires elapsedMs <= 60000 && count <= 5
    ensures FocusScore(count, elapsedMs) == 100.0 - 10.0 * count as real
  {
  }

  /** The focus score the source actually reports: the handlers were bound when the reader
      opened, so `distractionCount` reads 0 whatever the count has become. */
  function FocusScoreAsWritten(count: nat, elapsedMs: int): real
  {
    FocusScore(0, elapsedMs)
  }

  /** Six distractions within a minute leave the reported score at 100, where the formula
      gives 50. */
  lemma FocusScoreIgnoresCountAsWritten()
    ensures FocusScoreAsWritten(6, 60000) == 100.0
    ensures FocusScore(6, 60000) == 50.0
  {
  }

  /** Milliseconds between two words at `speed` words per minute. */
  function TickPeriod(speed: int): (ms: real)
    requires speed > 0
  {
    60000.0 / speed as real
  }

  /** 300 words per minute is one word every 200 ms; the slider's 100 to 500 words per minute
      keep the period within [120, 600] ms, slower speeds giving longer periods. */
  lemma {:induction false} TickPeriodBounds(speed: int, faster: int)
    requires 100 <= speed <= faster <= 500
    ensures TickPeriod(300) == 200.0
    ensures 120.0 <= TickPeriod(speed) <= 600.0
    ensures TickPeriod(faster) <= TickPeriod(speed)
  {
    var p := TickPeriod(speed);
    assert p * speed as real == 60000.0;
    var q := TickPeriod(faster);
    assert q * faster as real == 60000.0;
    assert p - q == 60000.0 * (faster - speed) as real / (speed as real * faster as real);
  }

  /** The reported progress, in percent, for the word at `cursor`. */
  function Progress(cursor: int, wordCount: int): (percent: real)
    requires wordCount > 0
    requires 0 <= cursor < wordCount
    ensures 0.0 <= percent < 100.0
    ensures cursor == 0 <==> percent == 0.0
  {
    (cursor as real / wordCount as real) * 100.0
  }

  /** Longer into the text, further along. */
  lemma {:induction false} ProgressMonotone(c1: int, c2: int, wordCount: int)
    requires wordCount > 0 && 0 <= c1 <= c2 < wordCount
    ensures Progress(c1, wordCount) <= Progress(c2, wordCount)
  {
    var n := wordCount as real;
    assert c2 as real / n - c1 as real / n == (c2 - c1) as real / n;
  }

  const InactivityLimitMs := 10000

  /** The reader's state. `cursor` is the index of the highlighted word; with no words it can
      be -1, since skipping forward computes `min(cursor + 10, -1)`. */
  class PacedReader {
    const words: seq<string>
    const startTime: int
    var cursor: int
    var playing: bool
    var speed: int
    var distractions: nat
    var focusScore: real
    var lastActive: int

    /** The cursor is on a word, or on -1 or 0 when there are none; the speed is in the
        slider's range; the score lies within the formula's bounds. */
    ghost predicate Valid()
      reads this
    {
      && (|words| > 0 ==> 0 <= cursor < |words|)
      && (|words| == 0 ==> -1 <= cursor <= 0)
      && 100 <= speed <= 500
      && 50.0 <= focusScore <= 100.0
    }

    /** The reader opened on `content` at time `now`. */
    constructor (content: string, now: int)
      ensures Valid()
      ensures words == Words(content) && startTime == now && lastActive == now
      ensures cursor == 0 && !playing && speed == 250 && distractions == 0 && focusScore == 100.0
    {
      words := Words(content);
      startTime := now;
      cursor := 0;
      playing := false;
      speed := 250;
      distractions := 0;
      focusScore := 100.0;
      lastActive := now;
    }

    /** One timer tick while playing: the next word, or a stop on the last one. */
    method Tick()
      requires Valid()
      modifies this
      ensures Valid()
      ensures old(cursor) >= |words| - 1 ==> cursor == old(cursor) && !playing
      ensures old(cursor) < |words| - 1 ==> cursor == old(cursor) + 1 && playing == old(playing)
      ensures speed == old(speed) && distractions == old(distractions)
      ensures focusScore == old(focusScore) && lastActive == old(lastActive)
    {
      if cursor >= |words| - 1 {
        playing := false;
      } else {
        cursor := cursor + 1;
      }
    }

    /** Ten words ahead, stopping at the last word. */
    method SkipForward()
      requires Valid()
      modifies this
      ensures Valid()
      ensures cursor == (if old(cursor) + 10 <= |words| - 1 then old(cursor) + 10 else |words| - 1)
      ensures |words| == 0 ==> cursor == -1
      ensures playing == old(playing) && speed == old(speed) && distractions == old(distractions)
      ensures focusScore == old(focusScore) && lastActive == old(lastActive)
    {
      cursor := if cursor + 10 <= |words| - 1 then cursor + 10 else |words| - 1;
    }

    /** Ten words back, stopping at the first word. */
    method SkipBackward()
      requires Valid()
      modifies this
      ensures Valid()
      ensures cursor == (if old(cursor) - 10 >= 0 then old(cursor) - 10 else 0)
      ensures playing == old(playing) && speed == old(speed) && distractions == old(distractions)
      ensures focusScore == old(focusScore) && lastActive == old(lastActive)
    {
      cursor := if cursor - 10 >= 0 then cursor - 10 else 0;
    }

    /** Play or pause; starting to play counts as activity. */
    method TogglePlay(now: int)
      requires Valid()
      modifies this
      ensures Valid()
      ensures playing == !old(playing)
      ensures lastActive == (if old(playing) then old(lastActive) else now)
      ensures cursor == old(cursor) && speed == old(speed) && distractions == old(distractions)
      ensures focusScore == old(focusScore)
    {
      if !playing {
        lastActive := now;
      }
      playing := !playing;
    }

    /** The speed slider. */
    method SetSpeed(wpm: int)
      requires Valid() && 100 <= wpm <= 500
      modifies this
      ensures Valid()
      ensures speed == wpm
      ensures cursor == old(cursor) && playing == old(playing) && distractions == old(distractions)
      ensures focusScore == old(focusScore) && lastActive == old(lastActive)
    {
      speed := wpm;
    }

    /** The progress reported for the current word and the words read so far. */
    method Report() returns (percent: real, wordsRead: int)
      requires Valid() && |words| > 0
      ensures percent == Progress(cursor, |words|) && wordsRead == cursor
      ensures 0.0 <= percent < 100.0
    {
      percent := Progress(cursor, |words|);
      wordsRead := cursor;
    }

    /** A distraction is counted and the score recomputed from the new count. */
    method Distracted(now: int)
      requires Valid()
      modifies this
      ensures Valid()
      ensures distractions == old(distractions) + 1
      ensures focusScore == FocusScore(distractions, now - startTime)
      ensures cursor == old(cursor) && playing == old(playing) && speed == old(speed)
      ensures lastActive == old(lastActive)
    {
      distractions := distractions + 1;
      focusScore := FocusScore(distractions, now - startTime);
    }

    /** The page was hidden (a distraction) or shown again (activity). */
    method VisibilityChanged(hidden: bool, now: int)
      requires Valid()
      modifies this
      ensures Valid()
      ensures hidden ==> (distractions == old(distractions) + 1 && lastActive == old(lastActive)
                          && focusScore == FocusScore(distractions, now - startTime))
      ensures !hidden ==> distractions == old(distractions) && lastActive == now && focusScore == old(focusScore)
      ensures cursor == old(cursor) && playing == old(playing) && speed == old(speed)
    {
      if hidden {
        Distracted(now);
      } else {
        lastActive := now;
      }
    }

    /** A mouse move or key press. */
    method Activity(now: int)
      requires Valid()
      modifies this
      ensures Valid()
      ensures lastActive == now
      ensures cursor == old(cursor) && playing == old(playing) && speed == old(speed)
      ensures distractions == old(distractions) && focusScore == old(focusScore)
    {
      lastActive := now;
    }

    /** The five-second inactivity check: more than ten seconds without activity is a
        distraction. */
    method InactivityCheck(now: int)
      requires Valid()
      modifies this
      ensures Valid()
      ensures now - old(lastActive) > InactivityLimitMs ==>
        (distractions == old(distractions) + 1 && focusScore == FocusScore(distractions, now - startTime))
      ensures now - old(lastActive) <= InactivityLimitMs ==>
        distractions == old(distractions) && focusScore == old(focusScore)
      ensures cursor == old(cursor) && playing == old(playing) && speed == old(speed)
      ensures lastActive == old(lastActive)
    {
      if now - lastActive > InactivityLimitMs {
        Distracted(now);
      }
    }
  }
}
