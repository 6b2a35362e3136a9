/** The reading coach of `src/components/AIReadingCoach.tsx`: threshold rules that turn the
    current reading figures into advice, the bounded message window, and goal bookkeeping.
    The personalised message is picked at random in the source and is a parameter here. */
module ReadingCoach {
  import opened Wrappers
  import opened Seqs
  import opened Text
  import opened App

  datatype MessageKind = Encouragement | Tip | Challenge | Insight | Warning
  datatype Priority = LowPriority | MediumPriority | HighPriority

  datatype CoachMessage = CoachMessage(
    id: string,
    kind: MessageKind,
    message: string,
    timestamp: int,
    priority: Priority,
    actionable: bool,
    relatedGoal: Option<string>)

  datatype GoalType = Speed | Comprehension | Focus | Retention

  datatype Goal = Goal(id: string, goalType: GoalType, target: int, current: real, deadline: int, description: string)

  /** The goal being composed (`Partial<ReadingGoal>`); the target comes from `parseInt` and
      the deadline is a date, here in milliseconds. */
  datatype GoalDraft = GoalDraft(goalType: Option<GoalType>, target: Option<int>, deadline: Option<int>, description: Option<string>)

  const EmptyDraft := GoalDraft(None, None, None, None)

  /** The fixed advice texts. */
  const PointerTip := "Try using a pointer (finger or pen) to guide your eyes. This can increase reading speed by 25-50%!"
  const TooFastWarning := "You're reading very fast! Make sure you're not sacrificing comprehension for speed."
  const PomodoroChallenge := "Your focus is wavering. Try the Pomodoro technique: 25 minutes focused reading, 5 minute break."
  const ComprehensionPraise := "Excellent comprehension! You're really absorbing the material. Consider increasing your reading speed slightly."
  const BreakTip := "You've been reading for a while. Consider taking a 10-minute break to maintain peak performance."

  const FortyFiveMinutesMs := 45 * 60 * 1000

  function Stamp(prefix: string, now: int): string
  {
    prefix + IntToDecimal(now)
  }

  function SpeedAdvice(d: ReadingData, now: int): seq<CoachMessage>
  {
    if d.speed < 200 then
      [CoachMessage(Stamp("speed-", now), Tip, PointerTip, now, MediumPriority, true, None)]
    else if d.speed > 400 then
      [CoachMessage(Stamp("speed-", now), Warning, TooFastWarning, now, HighPriority, true, None)]
    else []
  }

  function FocusAdvice(d: ReadingData, now: int): seq<CoachMessage>
  {
    if d.focusScore < 60.0 then
      [CoachMessage(Stamp("focus-", now), Challenge, PomodoroChallenge, now, HighPriority, true, None)]
    else []
  }

  function ComprehensionAdvice(d: ReadingData, now: int): seq<CoachMessage>
  {
    if d.comprehension > 85 then
      [CoachMessage(Stamp("comp-", now), Encouragement, ComprehensionPraise, now, LowPriority, false, None)]
    else []
  }

  function SessionAdvice(d: ReadingData, now: int): seq<CoachMessage>
  {
    if d.sessionTime > FortyFiveMinutesMs then
      [CoachMessage(Stamp("time-", now), Tip, BreakTip, now, MediumPriority, true, None)]
    else []
  }

  /** The rule part of `analyzePerformance`. */
  function Rules(d: ReadingData, now: int): (ms: seq<CoachMessage>)
    ensures |ms| <= 4
  {
    SpeedAdvice(d, now) + FocusAdvice(d, now) + ComprehensionAdvice(d, now) + SessionAdvice(d, now)
  }

  /** The rules' messages followed by the personalised insight. */
  function Advice(d: ReadingData, now: int, insight: string): (ms: seq<CoachMessage>)
    ensures 1 <= |ms| <= 5
    ensures ms[|ms| - 1].kind == Insight && ms[|ms| - 1].message == insight
  {
    Rules(d, now) + [CoachMessage(Stamp("personal-", now), Insight, insight, now, LowPriority, false, None)]
  }

  /** The speed rule gives a tip below 200 words per minute, a warning above 400, and nothing
      in between; the other rules fire exactly at their thresholds. */
  lemma {:induction false} AdviceRules(d: ReadingData, now: int, insight: string)
    ensures |SpeedAdvice(d, now)| <= 1
    ensures d.speed < 200 <==> SpeedAdvice(d, now) != [] && SpeedAdvice(d, now)[0].kind == Tip
    ensures d.speed > 400 <==> SpeedAdvice(d, now) != [] && SpeedAdvice(d, now)[0].kind == Warning
    ensures FocusAdvice(d, now) != [] <==> d.focusScore < 60.0
    ensures ComprehensionAdvice(d, now) != [] <==> d.comprehension > 85
    ensures SessionAdvice(d, now) != [] <==> d.sessionTime > 2700000
    ensures |Rules(d, now)| == |SpeedAdvice(d, now)| + |FocusAdvice(d, now)|
      + |ComprehensionAdvice(d, now)| + |SessionAdvice(d, now)|
  {
  }

  /** `Math.min((current / target) * 100, 100)`, for the non-zero targets goals have. */
  function GoalProgress(current: real, target: int): (percent: real)
    requires target != 0
    ensures percent <= 100.0
    ensures target > 0 && current >= target as real ==> percent == 100.0
    ensures target > 0 && 0.0 <= current ==> 0.0 <= percent
  {
    var p := current / target as real * 100.0;
    if p <= 100.0 then p else 100.0
  }

  /** Half-way to a positive target is 50 percent. */
  lemma {:induction false} GoalProgressHalf(target: int)
    requires target > 0
    ensures GoalProgress(target as real / 2.0, target) == 50.0
  {
    assert (target as real / 2.0) / target as real == 0.5;
  }

  /** `getCurrentValue`: retention is a fixed 75. */
  function CurrentValue(t: GoalType, d: ReadingData): (v: real)
    ensures t == Retention ==> v == 75.0
    ensures t == Speed ==> v == d.speed as real
  {
    match t
    case Speed => d.speed as real
    case Comprehension => d.comprehension as real
    case Focus => d.focusScore
    case Retention => 75.0
  }

  function GoalTypeName(t: GoalType): string
  {
    match t
    case Speed => "speed"
    case Comprehension => "comprehension"
    case Focus => "focus"
    case Retention => "retention"
  }

  /** A draft can become a goal when it has a type, a non-zero target and a deadline. */
  predicate Complete(g: GoalDraft)
  {
    g.goalType.Some? && g.target.Some? && g.target.value != 0 && g.deadline.Some?
  }

  function GoalFrom(g: GoalDraft, d: ReadingData, now: int): (goal: Goal)
    requires Complete(g)
    ensures goal.target == g.target.value && goal.goalType == g.goalType.value
    ensures goal.current == CurrentValue(goal.goalType, d)
    ensures g.description.None? || g.description == Some("") ==>
      goal.description == "Improve " + GoalTypeName(goal.goalType) + " to " + IntToDecimal(goal.target)
  {
    var t := g.goalType.value;
    Goal(Stamp("goal-", now), t, g.target.value, CurrentValue(t, d), g.deadline.value,
         if g.description.Some? && g.description.value != "" then g.description.value
         else "Improve " + GoalTypeName(t) + " to " + IntToDecimal(g.target.value))
  }

  function GoalMessage(goal: Goal, now: int): CoachMessage
  {
    CoachMessage(Stamp("goal-created-", now), Encouragement,
                 "Great! You've set a new " + GoalTypeName(goal.goalType) + " goal. I'll help you track your progress.",
                 now, MediumPriority, false, Some(goal.id))
  }

  /** The coach's goals, messages and goal draft. */
  class Coach {
    var goals: seq<Goal>
    var messages: seq<CoachMessage>
    var draft: GoalDraft
    var creatorOpen: bool

    /** Every goal has a non-zero target, so its progress is defined. */
    ghost predicate Valid()
      reads this
    {
      forall i :: 0 <= i < |goals| ==> goals[i].target != 0
    }

    constructor ()
      ensures Valid()
      ensures goals == [] && messages == [] && draft == EmptyDraft && !creatorOpen
    {
      goals := [];
      messages := [];
      draft := EmptyDraft;
      creatorOpen := false;
    }

    /** One run of `analyzePerformance`: the last ten earlier messages, then the new ones. */
    method Analyze(d: ReadingData, now: int, insight: string)
      requires Valid()
      modifies this
      ensures Valid()
      ensures messages == SliceLast(old(messages), 10) + Advice(d, now, insight)
      ensures |messages| <= 15
      ensures goals == old(goals) && draft == old(draft) && creatorOpen == old(creatorOpen)
    {
      messages := SliceLast(messages, 10) + Advice(d, now, insight);
    }

    method EditDraft(g: GoalDraft)
      requires Valid()
      modifies this
      ensures Valid()
      ensures draft == g && goals == old(goals) && messages == old(messages) && creatorOpen == old(creatorOpen)
    {
      draft := g;
    }

    /** `createGoal`: an incomplete draft changes nothing; a complete one appends exactly one
        goal and one message that refers to it, and clears the draft. */
    method CreateGoal(d: ReadingData, now: int) returns (created: Option<Goal>)
      requires Valid()
      modifies this
      ensures Valid()
      ensures !Complete(old(draft)) ==>
        created == None && goals == old(goals) && messages == old(messages)
        && draft == old(draft) && creatorOpen == old(creatorOpen)
      ensures Complete(old(draft)) ==>
        && created == Some(GoalFrom(old(draft), d, now))
        && goals == old(goals) + [created.value]
        && messages == old(messages) + [GoalMessage(created.value, now)]
        && messages[|messages| - 1].relatedGoal == Some(created.value.id)
        && draft == EmptyDraft && !creatorOpen
    {
      if !Complete(draft) {
        return None;
      }
      var goal := GoalFrom(draft, d, now);
      goals := goals + [goal];
      draft := EmptyDraft;
      creatorOpen := false;
      messages := messages + [GoalMessage(goal, now)];
      created := Some(goal);
    }

    /** The progress shown for goal `i`. */
    function Progress(i: int, d: ReadingData): (percent: real)
      requires Valid() && 0 <= i < |goals|
      reads this
      ensures percent <= 100.0
    {
      GoalProgress(CurrentValue(goals[i].goalType, d), goals[i].target)
    }
  }
}
