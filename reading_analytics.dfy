/** The reading statistics of `src/components/ReadingAnalytics.tsx`: the sessions within the
    chosen time range, their totals and averages, the recent-session list, and the time and
    score formatting. */
module ReadingAnalytics {
  import opened Seqs
  import opened Text

  datatype Session = Session(
    id: string,
    chapterId: string,
    chapterTitle: string,
    startTime: int,
    endTime: int,
    wordsRead: int,
    focusScore: real,
    comprehensionScore: real,
    readingSpeed: real)

  datatype TimeRange = Week | Month | Year

  const HourMs := 60 * 60 * 1000
  const DayMs := 24 * HourMs

  function RangeMs(r: TimeRange): (ms: int)
    ensures ms > 0
  {
    match r
    case Week => 7 * DayMs
    case Month => 30 * DayMs
    case Year => 365 * DayMs
  }

  lemma RangeValues()
    ensures RangeMs(Week) == 604800000 && RangeMs(Month) == 2592000000 && RangeMs(Year) == 31536000000
  {
  }

  predicate InRange(s: Session, now: int, r: TimeRange)
  {
    now - s.startTime <= RangeMs(r)
  }

  /** `getFilteredSessions`: the sessions started no longer ago than the range. */
  function Kept(ss: seq<Session>, now: int, r: TimeRange): seq<Session>
  {
    Filter(ss, (s: Session) => InRange(s, now, r))
  }

  /** A session is kept exactly when it started within the range, and the stored order is kept. */
  lemma {:induction false} KeptSpec(ss: seq<Session>, now: int, r: TimeRange)
    ensures forall i :: 0 <= i < |ss| ==> (ss[i] in Kept(ss, now, r) <==> InRange(ss[i], now, r))
    ensures IsSubsequence(Kept(ss, now, r), ss)
  {
    FilterIsSubsequence(ss, (s: Session) => InRange(s, now, r));
  }

  /** The week's sessions are among the month's, which are among the year's. */
  lemma {:induction false} RangesNest(ss: seq<Session>, now: int)
    ensures IsSubsequence(Kept(ss, now, Week), Kept(ss, now, Month))
    ensures IsSubsequence(Kept(ss, now, Month), Kept(ss, now, Year))
  {
    FilterMonotone(ss, (s: Session) => InRange(s, now, Week), (s: Session) => InRange(s, now, Month));
    FilterMonotone(ss, (s: Session) => InRange(s, now, Month), (s: Session) => InRange(s, now, Year));
  }

  /** The summed reading time, `endTime - startTime` over the sessions. */
  function TotalTime(ss: seq<Session>): int
  {
    if ss == [] then 0 else (ss[0].endTime - ss[0].startTime) + TotalTime(ss[1..])
  }

  function TotalWords(ss: seq<Session>): int
  {
    if ss == [] then 0 else ss[0].wordsRead + TotalWords(ss[1..])
  }

  function SumOf(ss: seq<Session>, f: Session -> real): real
  {
    if ss == [] then 0.0 else f(ss[0]) + SumOf(ss[1..], f)
  }

  /** Totals add up over consecutive runs of sessions. */
  lemma {:induction false} TotalsAppend(a: seq<Session>, b: seq<Session>)
    ensures TotalTime(a + b) == TotalTime(a) + TotalTime(b)
    ensures TotalWords(a + b) == TotalWords(a) + TotalWords(b)
  {
    if a != [] {
      TotalsAppend(a[1..], b);
      assert (a + b)[1..] == a[1..] + b;
    } else {
      assert a + b == b;
    }
  }

  /** Sessions that all end after they start give a non-negative total time. */
  lemma {:induction false} TotalTimeNonNegative(ss: seq<Session>)
    requires forall i :: 0 <= i < |ss| ==> ss[i].startTime <= ss[i].endTime
    ensures TotalTime(ss) >= 0
  {
    if ss != [] {
      TotalTimeNonNegative(ss[1..]);
    }
  }

  /** The average focus or speed: the mean over the sessions, 0 when there are none. */
  function Average(ss: seq<Session>, f: Session -> real): (avg: real)
    ensures ss == [] ==> avg == 0.0
  {
    if |ss| > 0 then SumOf(ss, f) / |ss| as real else 0.0
  }

  lemma {:induction false} SumBounds(ss: seq<Session>, f: Session -> real, lo: real, hi: real)
    requires forall i :: 0 <= i < |ss| ==> lo <= f(ss[i]) <= hi
    ensures |ss| as real * lo <= SumOf(ss, f) <= |ss| as real * hi
  {
    if ss != [] {
      SumBounds(ss[1..], f, lo, hi);
    }
  }

  /** Scores within bounds average within the same bounds. */
  lemma {:induction false} AverageBounds(ss: seq<Session>, f: Session -> real, lo: real, hi: real)
    requires |ss| > 0
    requires forall i :: 0 <= i < |ss| ==> lo <= f(ss[i]) <= hi
    ensures lo <= Average(ss, f) <= hi
  {
    SumBounds(ss, f, lo, hi);
    var n := |ss| as real;
    var sum := SumOf(ss, f);
    assert sum / n * n == sum;
    if sum / n < lo {
      assert sum / n * n < lo * n;
    }
    if sum / n > hi {
      assert sum / n * n > hi * n;
    }
  }

  function FocusOf(s: Session): real { s.focusScore }
  function SpeedOf(s: Session): real { s.readingSpeed }

  /** The session list shows the first ten kept sessions in stored order. */
  function Recent(kept: seq<Session>): (shown: seq<Session>)
    ensures |shown| <= 10 && |shown| <= |kept| && kept == shown + kept[|shown|..]
    ensures |kept| <= 10 ==> shown == kept
  {
    Take(kept, 10)
  }

  /** JavaScript's `%` for a positive divisor: the remainder takes the dividend's sign. */
  function JsRem(a: int, b: int): (r: int)
    requires b > 0
    ensures a >= 0 ==> r == a % b
    ensures -b < r < b
  {
    if a >= 0 then a % b else -((-a) % b)
  }

  /** The hours and minutes `formatTime` shows. */
  function TimeParts(ms: int): (hm: (int, int))
  {
    (ms / HourMs, JsRem(ms, HourMs) / 60000)
  }

  /** For a non-negative duration the parts are whole hours and the leftover whole minutes. */
  lemma {:induction false} TimePartsSpec(ms: int)
    requires ms >= 0
    ensures var (h, m) := TimeParts(ms);
      && h >= 0 && 0 <= m <= 59
      && h * HourMs + m * 60000 <= ms < h * HourMs + (m + 1) * 60000
  {
    var h := ms / HourMs;
    var rest := ms % HourMs;
    assert ms == h * HourMs + rest;
    var m := rest / 60000;
    assert rest == m * 60000 + rest % 60000;
  }

  /** For a negative duration the hours are rounded down while the minutes keep the sign of
      the remainder: they lie in [-60, 0] and are 0 only for a whole number of hours. */
  lemma {:induction false} TimePartsNegative(ms: int)
    requires ms < 0
    ensures var (h, m) := TimeParts(ms);
      && h < 0 && h * HourMs <= ms < (h + 1) * HourMs
      && -60 <= m <= 0
      && (m == 0 <==> ms % HourMs == 0)
  {
    var r := JsRem(ms, HourMs);
    assert r == -((-ms) % HourMs);
    assert -ms == ((-ms) / HourMs) * HourMs + (-ms) % HourMs;
    assert (-ms) % HourMs == 0 <==> ms % HourMs == 0 by {
      if (-ms) % HourMs == 0 {
        assert ms == -((-ms) / HourMs) * HourMs;
      }
      if ms % HourMs == 0 {
        assert ms == (ms / HourMs) * HourMs;
        assert -ms == (-(ms / HourMs)) * HourMs;
      }
    }
    var m := r / 60000;
    assert r == m * 60000 + r % 60000;
  }

  /** `formatTime`: `${hours}h ${minutes}m`. */
  function FormatTime(ms: int): string
  {
    var (h, m) := TimeParts(ms);
    IntToDecimal(h) + "h " + IntToDecimal(m) + "m"
  }

  /** A negative duration shows its floor of hours beside the truncated minutes. */
  lemma FormatTimeNegative()
    ensures TimeParts(-60000) == (-1, -1)
    ensures TimeParts(5400000) == (1, 30)
  {
  }

  datatype ScoreColor = Green | Yellow | Red

  /** `getScoreColor`. */
  function ScoreColorOf(score: real): (c: ScoreColor)
    ensures c == Green <==> score >= 80.0
    ensures c == Yellow <==> 60.0 <= score < 80.0
    ensures c == Red <==> score < 60.0
  {
    if score >= 80.0 then Green else if score >= 60.0 then Yellow else Red
  }
}
