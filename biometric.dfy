/** The reading-condition monitor of `src/components/BiometricOptimizer.tsx`: the bounded
    sample history, the rules that turn a sample into suggestions, the de-duplication of
    suggestions, dismissing one, and the status colours. Samples are simulated with random
    numbers in the source; here each tick receives its sample. */
module Biometric {
  import opened Wrappers
  import opened Seqs

  datatype Sample = Sample(heartRate: real, eyeStrain: real, focusLevel: real, cognitiveLoad: real, timestamp: int)

  datatype SuggestionType = Break | Lighting | Posture | SpeedChange | Environment
  datatype Priority = LowPriority | MediumPriority | HighPriority

  datatype Suggestion = Suggestion(kind: SuggestionType, message: string, priority: Priority, action: string)

  const EyeStrainBreak := Suggestion(Break, "High eye strain detected", HighPriority, "Take a 20-second break and look at something 20 feet away")
  const HeartRateCalm := Suggestion(Environment, "Elevated heart rate detected", MediumPriority, "Consider reducing environmental stressors or taking deep breaths")
  const FocusSlowDown := Suggestion(SpeedChange, "Focus level declining", MediumPriority, "Consider slowing down reading speed or taking a short break")
  const LoadBreak := Suggestion(Break, "High cognitive load detected", HighPriority, "Take a 5-minute break to process information")

  /** The four threshold rules of `generateSuggestions`, in order. */
  function Rules(s: Sample): (r: seq<Suggestion>)
    ensures |r| <= 4
  {
    (if s.eyeStrain > 70.0 then [EyeStrainBreak] else [])
    + (if s.heartRate > 90.0 then [HeartRateCalm] else [])
    + (if s.focusLevel < 50.0 then [FocusSlowDown] else [])
    + (if s.cognitiveLoad > 80.0 then [LoadBreak] else [])
  }

  /** Each rule fires exactly when its threshold is crossed. */
  lemma {:induction false} RulesFire(s: Sample)
    ensures EyeStrainBreak in Rules(s) <==> s.eyeStrain > 70.0
    ensures HeartRateCalm in Rules(s) <==> s.heartRate > 90.0
    ensures FocusSlowDown in Rules(s) <==> s.focusLevel < 50.0
    ensures LoadBreak in Rules(s) <==> s.cognitiveLoad > 80.0
  {
  }

  /** Two suggestions are the same when type and message agree. */
  predicate SameAs(a: Suggestion, b: Suggestion)
  {
    a.kind == b.kind && a.message == b.message
  }

  predicate Known(existing: seq<Suggestion>, n: Suggestion)
  {
    exists i :: 0 <= i < |existing| && SameAs(existing[i], n)
  }

  /** The new suggestions not already present. */
  function Unique(news: seq<Suggestion>, existing: seq<Suggestion>): seq<Suggestion>
  {
    Filter(news, (n: Suggestion) => !Known(existing, n))
  }

  /** No added suggestion repeats an existing one, and every fresh one is added. */
  lemma {:induction false} UniqueSpec(news: seq<Suggestion>, existing: seq<Suggestion>)
    ensures forall k, i :: 0 <= k < |Unique(news, existing)| && 0 <= i < |existing| ==>
      !SameAs(existing[i], Unique(news, existing)[k])
    ensures forall k :: 0 <= k < |news| && !Known(existing, news[k]) ==> news[k] in Unique(news, existing)
  {
  }

  /** The suggestion list after a tick: the last five earlier ones and the fresh ones, or
      unchanged when nothing is fresh. */
  function NextSuggestions(existing: seq<Suggestion>, s: Sample): (r: seq<Suggestion>)
    ensures Unique(Rules(s), existing) == [] ==> r == existing
    ensures Unique(Rules(s), existing) != [] ==> r == SliceLast(existing, 5) + Unique(Rules(s), existing)
  {
    var added := Unique(Rules(s), existing);
    if |added| > 0 then SliceLast(existing, 5) + added else existing
  }

  /** `prev.filter((_, i) => i !== index)`. */
  function RemoveAt(s: seq<Suggestion>, index: int): (r: seq<Suggestion>)
    ensures 0 <= index < |s| ==> r == s[..index] + s[index + 1..]
    ensures !(0 <= index < |s|) ==> r == s
  {
    if 0 <= index < |s| then s[..index] + s[index + 1..] else s
  }

  /** The suggestions on screen: the last three. */
  function Shown(s: seq<Suggestion>): (r: seq<Suggestion>)
    ensures |r| == (if |s| < 3 then |s| else 3)
    ensures s == s[..|s| - |r|] + r
  {
    SliceLast(s, 3)
  }

  /** The dismiss button of the `k`-th shown suggestion as written: it removes index
      `length - 3 + k`. */
  function DismissShownAsWritten(s: seq<Suggestion>, k: int): seq<Suggestion>
  {
    RemoveAt(s, |s| - 3 + k)
  }

  /** With two suggestions shown, dismissing the second removes the first. */
  lemma {:induction false} DismissWrongAsWritten(a: Suggestion, b: Suggestion)
    requires a != b
    ensures Shown([a, b]) == [a, b]
    ensures DismissShownAsWritten([a, b], 1) == [b]
    ensures DismissShownAsWritten([a, b], 0) == [a, b]
  {
  }

  /** The dismiss button of the `k`-th shown suggestion, counting from the first one shown. */
  function DismissShown(s: seq<Suggestion>, k: int): seq<Suggestion>
  {
    RemoveAt(s, |s| - |Shown(s)| + k)
  }

  /** Dismissing a shown suggestion removes exactly that one. */
  lemma {:induction false} DismissShownRemovesIt(s: seq<Suggestion>, k: int)
    requires 0 <= k < |Shown(s)|
    ensures var j := |s| - |Shown(s)| + k;
      && 0 <= j < |s| && s[j] == Shown(s)[k]
      && DismissShown(s, k) == s[..j] + s[j + 1..]
  {
    var r := Shown(s);
    var j := |s| - |r| + k;
    assert s[j] == (s[..|s| - |r|] + r)[j];
  }

  datatype Metric = HeartRate | EyeStrain | FocusLevel | CognitiveLoad
  datatype StatusColor = Green | Yellow | Red

  /** `getStatusColor`. */
  function StatusColorOf(value: real, m: Metric): (c: StatusColor)
    ensures m == HeartRate ==> (c == Red <==> value < 60.0 || value > 100.0)
    ensures m == HeartRate ==> (c == Yellow <==> 80.0 < value <= 100.0)
    ensures m == EyeStrain ==> (c == Red <==> value > 70.0) && (c == Yellow <==> 40.0 < value <= 70.0)
    ensures m == FocusLevel ==> (c == Red <==> value < 50.0) && (c == Yellow <==> 50.0 <= value < 70.0)
    ensures m == CognitiveLoad ==> (c == Red <==> value > 80.0) && (c == Yellow <==> 60.0 < value <= 80.0)
  {
    match m
    case HeartRate => if value < 60.0 || value > 100.0 then Red else if value > 80.0 then Yellow else Green
    case EyeStrain => if value > 70.0 then Red else if value > 40.0 then Yellow else Green
    case FocusLevel => if value < 50.0 then Red else if value < 70.0 then Yellow else Green
    case CognitiveLoad => if value > 80.0 then Red else if value > 60.0 then Yellow else Green
  }

  /** The monitor's samples and suggestions. */
  class Optimizer {
    var history: seq<Sample>
    var current: Option<Sample>
    var suggestions: seq<Suggestion>

    /** The history keeps at most 51 samples, the suggestion list at most 9 entries. */
    ghost predicate Valid()
      reads this
    {
      |history| <= 51 && |suggestions| <= 9
    }

    constructor ()
      ensures Valid() && history == [] && current == None && suggestions == []
    {
      history := [];
      current := None;
      suggestions := [];
    }

    /** One monitoring tick with sample `s`; returns the suggestions reported to the reader. */
    method Tick(s: Sample) returns (reported: seq<Suggestion>)
      requires Valid()
      modifies this
      ensures Valid()
      ensures current == Some(s)
      ensures history == SliceLast(old(history), 50) + [s]
      ensures reported == Unique(Rules(s), old(suggestions))
      ensures suggestions == NextSuggestions(old(suggestions), s)
    {
      current := Some(s);
      history := SliceLast(history, 50) + [s];
      reported := Unique(Rules(s), suggestions);
      if |reported| > 0 {
        suggestions := SliceLast(suggestions, 5) + reported;
      }
    }

    /** `dismissSuggestion(index)`. */
    method Dismiss(index: int)
      requires Valid()
      modifies this
      ensures Valid()
      ensures suggestions == RemoveAt(old(suggestions), index)
      ensures history == old(history) && current == old(current)
    {
      suggestions := RemoveAt(suggestions, index);
    }

    /** The dismiss button beside the `k`-th shown suggestion. */
    method DismissShownAt(k: int)
      requires Valid()
      modifies this
      ensures Valid()
      ensures suggestions == DismissShown(old(suggestions), k)
      ensures history == old(history) && current == old(current)
    {
      Dismiss(|suggestions| - |Shown(suggestions)| + k);
    }
  }
}
