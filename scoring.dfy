/** The axis scorer: six scores computed from one questionnaire, each capped at
    100, then checked against the [0, 100] constraint of the axes record.
    The specification functions give each score as a formula; the method
    CalculateProfileAxes builds the same scores step by step, as the service
    does, and is proved to agree with them. */
module Scoring {
  import opened Text
  import opened Domain

  /** Words that signal a clear purpose in the "passionate problems" answer. */
  const PurposeKeywords: seq<string> :=
    ["create", "build", "help", "solve", "improve", "teach", "mentor", "impact"]

  /** Words that signal deep-focus work in the "energizing activities" answer. */
  const FocusKeywords: seq<string> :=
    ["coding", "design", "writing", "research", "analysis", "problem", "create"]

  function ChronotypeScore(c: Chronotype): (n: int)
    ensures 30 <= n <= 90
    ensures n == 90 <==> c == EarlyMorning
  {
    match c
    case EarlyMorning => 90
    case LateMorning => 70
    case Afternoon => 60
    case Evening => 50
    case Night => 30
  }

  function HabitScore(h: HabitCount): (n: int)
    ensures 10 <= n <= 90
  {
    match h
    case Zero => 10
    case OneToTwo => 35
    case ThreeToFour => 65
    case FivePlus => 90
  }

  function SetbackScore(s: SetbackReaction): (n: int)
    ensures 20 <= n <= 95
  {
    match s
    case GiveUp => 20
    case TryAgainSame => 40
    case AdjustApproach => 75
    case LearnIterate => 95
  }

  predicate Distinct(kws: seq<string>) {
    forall i, j :: 0 <= i < j < |kws| ==> kws[i] != kws[j]
  }

  /** How many entries of `kws` occur somewhere in `text`: each entry is tested
      for membership once, however often it occurs. */
  function KeywordHits(kws: seq<string>, text: string): (n: nat)
    ensures n <= |kws|
  {
    if kws == [] then 0
    else KeywordHits(kws[..|kws| - 1], text) + (if Contains(text, kws[|kws| - 1]) then 1 else 0)
  }

  /** The set of keywords found in `text`. */
  ghost function Found(kws: seq<string>, text: string): set<string> {
    set k | k in kws && Contains(text, k)
  }

  /** With no keyword listed twice, the hit count is the number of distinct
      keywords found: repeating a keyword in the text adds nothing. */
  lemma {:induction false} KeywordHitsCountsDistinctMatches(kws: seq<string>, text: string)
    requires Distinct(kws)
    ensures KeywordHits(kws, text) == |Found(kws, text)|
  {
    if kws == [] {
      assert Found(kws, text) == {};
    } else {
      var init, last := kws[..|kws| - 1], kws[|kws| - 1];
      assert kws == init + [last];
      assert Distinct(init);
      KeywordHitsCountsDistinctMatches(init, text);
      assert last !in init;
      if Contains(text, last) {
        assert Found(kws, text) == Found(init, text) + {last};
      } else {
        assert Found(kws, text) == Found(init, text);
      }
    }
  }

  /** The number of answers with more than three whitespace-separated words. */
  function CountSpecific(outcomes: seq<string>): (n: nat)
    ensures n <= |outcomes|
  {
    if outcomes == [] then 0
    else CountSpecific(outcomes[..|outcomes| - 1]) + (if |Split(outcomes[|outcomes| - 1])| > 3 then 1 else 0)
  }

  function Outcomes(q: QuestionnaireResponse): seq<string> {
    [q.outcome1, q.outcome2, q.outcome3]
  }

  /** The three outcomes joined by single spaces, lower-cased. */
  function OutcomesText(q: QuestionnaireResponse): (t: string)
    ensures t == Lower(JoinSpace(Outcomes(q)))
    ensures Contains(t, Lower(q.outcome1)) && Contains(t, Lower(q.outcome2)) && Contains(t, Lower(q.outcome3))
  {
    JoinedOutcomes(q.outcome1, q.outcome2, q.outcome3);
    Lower(q.outcome1 + " " + q.outcome2 + " " + q.outcome3)
  }

  /** The outcomes text is `" ".join` of the three outcomes, lower-cased, and
      quotes each of them lower-cased. */
  lemma JoinedOutcomes(o1: string, o2: string, o3: string)
    ensures var t := Lower(o1 + " " + o2 + " " + o3);
      t == Lower(JoinSpace([o1, o2, o3])) &&
      Contains(t, Lower(o1)) && Contains(t, Lower(o2)) && Contains(t, Lower(o3))
  {
    JoinThree(o1, o2, o3);
    LowerJoin3(o1, o2, o3);
    ThreePartsContained(Lower(o1), Lower(o2), Lower(o3));
  }

  /** Each of three strings joined by spaces occurs in the joined text. */
  lemma ThreePartsContained(a: string, b: string, c: string)
    ensures Contains(a + " " + b + " " + c, a)
    ensures Contains(a + " " + b + " " + c, b)
    ensures Contains(a + " " + b + " " + c, c)
  {
    ContainsInfix([], a, " " + b + " " + c);
    assert [] + a + (" " + b + " " + c) == a + " " + b + " " + c;
    ContainsInfix(a + " ", b, " " + c);
    assert (a + " ") + b + (" " + c) == a + " " + b + " " + c;
    ContainsInfix(a + " " + b + " ", c, []);
    assert a + " " + b + " " + c + [] == a + " " + b + " " + c;
  }

  lemma JoinThree(o1: string, o2: string, o3: string)
    ensures JoinSpace([o1, o2, o3]) == o1 + " " + o2 + " " + o3
  {
    assert [o1, o2, o3][1..] == [o2, o3];
    assert [o2, o3][1..] == [o3];
    assert JoinSpace([o2, o3]) == o2 + " " + o3;
    assert o1 + " " + (o2 + " " + o3) == o1 + " " + o2 + " " + o3;
  }

  /** Lower-casing three strings joined by spaces lower-cases each in place. */
  lemma LowerJoin3(a: string, b: string, c: string)
    ensures Lower(a + " " + b + " " + c) == Lower(a) + " " + Lower(b) + " " + Lower(c)
  {
    var l := Lower(a + " " + b + " " + c);
    var r := Lower(a) + " " + Lower(b) + " " + Lower(c);
    assert |l| == |r|;
    forall i | 0 <= i < |l|
      ensures l[i] == r[i]
    {
      if i < |a| {
      } else if i == |a| {
      } else if i < |a| + 1 + |b| {
      } else if i == |a| + 1 + |b| {
      } else {
      }
    }
  }

  /** Some whitespace-separated word of the lower-cased skill occurs in `text`. */
  predicate SkillAligned(skill: string, text: string) {
    exists j :: 0 <= j < |Split(Lower(skill))| && Contains(text, Split(Lower(skill))[j])
  }

  /** How many entries of `skills` are aligned with `text`; a skill listed twice
      counts twice. */
  function AlignedCount(skills: seq<string>, text: string): (n: nat)
    ensures n <= |skills|
  {
    if skills == [] then 0
    else AlignedCount(skills[..|skills| - 1], text) + (if SkillAligned(skills[|skills| - 1], text) then 1 else 0)
  }

  /** A skill written out verbatim (up to case) in the outcomes is aligned,
      unless it is blank. */
  lemma ContainedSkillAligned(skill: string, text: string)
    requires !AllSpace(skill) && Contains(text, Lower(skill))
    ensures SkillAligned(skill, text)
  {
    LowerAllSpace(skill);
    var words := Split(Lower(skill));
    FirstWordOccurs(Lower(skill));
    ContainsTransitive(words[0], Lower(skill), text);
  }

  /** Average hours per day over a week of five weekdays and two weekend days. */
  function AvgHours(q: QuestionnaireResponse): (h: real)
    ensures Min(q.weekdayHours, q.weekendHours) <= h <= Max(q.weekdayHours, q.weekendHours)
  {
    (q.weekdayHours * 5.0 + q.weekendHours * 2.0) / 7.0
  }

  /** The routine bonus applies when the routine text is not blank and a
      duration is given and is not zero. */
  predicate HasRoutine(q: QuestionnaireResponse) {
    Strip(q.morningRoutine) != [] && q.morningRoutineDuration.Some? && q.morningRoutineDuration.value != 0
  }

  function RoutineBonus(q: QuestionnaireResponse): (b: real)
    ensures !HasRoutine(q) ==> b == 0.0
    ensures HasRoutine(q) ==> b <= 20.0 && b <= q.morningRoutineDuration.value as real / 2.0
  {
    if HasRoutine(q) then Min(20.0, q.morningRoutineDuration.value as real / 2.0) else 0.0
  }

  function PurposeClarity(q: QuestionnaireResponse): (r: real)
    ensures 0.0 <= r <= 100.0
    ensures KeywordHits(PurposeKeywords, Lower(q.passionateProblems)) == 0 ==>
      r == (15 * CountSpecific(Outcomes(q))) as real
  {
    Min(100.0, Max(0.0, (20 * KeywordHits(PurposeKeywords, Lower(q.passionateProblems))
                         + 15 * CountSpecific(Outcomes(q))) as real))
  }

  function EnergyChronotype(q: QuestionnaireResponse): (r: real)
    ensures r <= 100.0
    ensures NonNegativeInputs(q) ==> Min(100.0, ChronotypeScore(q.chronotype) as real) <= r
    ensures NonNegativeInputs(q) && q.chronotype == EarlyMorning && AvgHours(q) >= 2.0 ==> r == 100.0
  {
    Min(100.0, ChronotypeScore(q.chronotype) as real + RoutineBonus(q) + Min(30.0, AvgHours(q) * 5.0))
  }

  function FocusCapacity(q: QuestionnaireResponse): (r: real)
    ensures 0.0 <= r <= 100.0
    ensures |q.distractions| >= 29 ==> r == 0.0
  {
    assert |FocusKeywords| == 7;
    Min(100.0, Max(0.0, (15 * KeywordHits(FocusKeywords, Lower(q.energizingActivities))) as real
                        + Min(40.0, AvgHours(q) * 8.0) - (5 * |q.distractions|) as real))
  }

  function HabitFoundation(q: QuestionnaireResponse): (r: real)
    ensures 10.0 <= r <= 100.0
    ensures r >= 25.0 <==> q.habitCount != Zero || |Strip(q.keyHabitChange)| > 10
  {
    Min(100.0, (HabitScore(q.habitCount) + (if |Strip(q.keyHabitChange)| > 10 then 15 else 0)) as real)
  }

  function Mindset(q: QuestionnaireResponse): (r: real)
    ensures r <= 100.0
    ensures ValidQuestionnaire(q) ==> 25.0 <= r
    ensures ValidQuestionnaire(q) && q.setbackReaction == LearnIterate ==> r == 100.0
  {
    Min(100.0, (SetbackScore(q.setbackReaction) + 5 * q.commitmentLevel) as real)
  }

  function SkillFit(q: QuestionnaireResponse): (r: real)
    ensures Min(60.0, (20 * |q.skills|) as real) <= r <= 100.0
  {
    Min(100.0, Min(60.0, (20 * |q.skills|) as real) + (15 * AlignedCount(q.skills, OutcomesText(q))) as real)
  }

  /** The six scores before the record's range check. */
  function RawAxes(q: QuestionnaireResponse): ProfileAxes {
    ProfileAxes(PurposeClarity(q), EnergyChronotype(q), FocusCapacity(q),
                HabitFoundation(q), Mindset(q), SkillFit(q))
  }

  /** The scorer's outcome: the axes, or the error raised when building the
      axes record rejects a score outside [0, 100]. */
  function ScoreAxes(q: QuestionnaireResponse): (r: Result<ProfileAxes>)
    ensures r.Ok? ==> r.value == RawAxes(q) && AxesInRange(r.value)
    ensures r.Err? ==> r.error == AxisOutOfRange && !AxesInRange(RawAxes(q))
  {
    if AxesInRange(RawAxes(q)) then Ok(RawAxes(q)) else Err(AxisOutOfRange)
  }

  /** The inputs the axes need to be non-negative for energy to stay in range;
      the questionnaire record itself does not enforce them. */
  predicate NonNegativeInputs(q: QuestionnaireResponse) {
    q.weekdayHours >= 0.0 && q.weekendHours >= 0.0 &&
    (q.morningRoutineDuration.Some? ==> q.morningRoutineDuration.value >= 0)
  }

  /** Every score is capped at 100 whatever the input; purpose, focus, habit
      and skill fit are never negative either, and mindset is not once the
      commitment level is in 1..10. */
  lemma AxesBounds(q: QuestionnaireResponse)
    ensures var a := RawAxes(q);
      a.purposeClarity <= 100.0 && a.energyChronotype <= 100.0 && a.focusCapacity <= 100.0 &&
      a.habitFoundation <= 100.0 && a.mindset <= 100.0 && a.skillFit <= 100.0
    ensures var a := RawAxes(q);
      0.0 <= a.purposeClarity && 0.0 <= a.focusCapacity && 10.0 <= a.habitFoundation && 0.0 <= a.skillFit
    ensures ValidQuestionnaire(q) ==> 25.0 <= RawAxes(q).mindset
  {
  }

  /** For a valid questionnaire the only score that can break the [0, 100]
      constraint is energy, and it breaks it exactly when it is negative. */
  lemma ScoreFailsOnlyOnNegativeEnergy(q: QuestionnaireResponse)
    requires ValidQuestionnaire(q)
    ensures ScoreAxes(q).Err? <==> EnergyChronotype(q) < 0.0
    ensures ScoreAxes(q).Err? ==> ScoreAxes(q).error == AxisOutOfRange
  {
    AxesBounds(q);
  }

  /** With non-negative hours and routine duration every axis lies in
      [0, 100], and energy is at least the chronotype's base score. */
  lemma ScoreInRange(q: QuestionnaireResponse)
    requires ValidQuestionnaire(q) && NonNegativeInputs(q)
    ensures ScoreAxes(q).Ok? && AxesInRange(ScoreAxes(q).value)
    ensures ScoreAxes(q).value.energyChronotype >= Min(100.0, ChronotypeScore(q.chronotype) as real)
  {
    AxesBounds(q);
  }

  /** Negative hours are accepted by the questionnaire record but make the
      scorer raise: Night owls reporting -100 weekday hours get no profile. */
  lemma NegativeHoursRejected()
    ensures exists q :: ValidQuestionnaire(q) && ScoreAxes(q).Err?
  {
    var q := QuestionnaireResponse("", "", [], -100.0, 0.0, Night, "", None, Zero, GiveUp,
                                   "", "", "", "", [], 5);
    assert !HasRoutine(q);
    assert EnergyChronotype(q) < 0.0;
    ScoreFailsOnlyOnNegativeEnergy(q);
  }

  /** Purpose clarity counts each purpose keyword found at most once: it is
      20 per distinct keyword found plus 15 per specific outcome, capped at 100. */
  lemma PurposeClarityCountsDistinctKeywords(q: QuestionnaireResponse)
    ensures var found := Found(PurposeKeywords, Lower(q.passionateProblems));
      |found| <= 8 &&
      PurposeClarity(q) == Min(100.0, (20 * |found| + 15 * CountSpecific(Outcomes(q))) as real)
  {
    assert Distinct(PurposeKeywords);
    KeywordHitsCountsDistinctMatches(PurposeKeywords, Lower(q.passionateProblems));
  }

  /** Focus capacity counts each focus keyword found at most once, and drops to
      0 exactly when the distraction penalty reaches the keyword and hours terms. */
  lemma FocusCapacityFormula(q: QuestionnaireResponse)
    ensures var found := Found(FocusKeywords, Lower(q.energizingActivities));
      |found| <= 7 &&
      FocusCapacity(q) == Min(100.0, Max(0.0, (15 * |found|) as real
                                              + Min(40.0, AvgHours(q) * 8.0) - (5 * |q.distractions|) as real))
    ensures FocusCapacity(q) == 0.0 <==>
      (15 * KeywordHits(FocusKeywords, Lower(q.energizingActivities))) as real + Min(40.0, AvgHours(q) * 8.0)
        <= (5 * |q.distractions|) as real
  {
    assert Distinct(FocusKeywords);
    KeywordHitsCountsDistinctMatches(FocusKeywords, Lower(q.energizingActivities));
  }

  /** One more distraction never raises focus capacity. */
  lemma DistractionNeverHelps(q: QuestionnaireResponse, d: string)
    ensures FocusCapacity(q.(distractions := q.distractions + [d])) <= FocusCapacity(q)
  {
  }

  /** No skills, no skill fit: the base and the alignment bonus are both 0. */
  lemma NoSkillsNoFit(q: QuestionnaireResponse)
    requires q.skills == []
    ensures SkillFit(q) == 0.0
  {
  }

  /** Skill fit is at most 35 per listed skill: 20 for the base, 15 for alignment. */
  lemma SkillFitPerSkill(q: QuestionnaireResponse)
    ensures SkillFit(q) <= (35 * |q.skills|) as real
  {
  }

  /** A keyword sum: `weight` for each entry of `kws` found in `text`. */
  method KeywordScore(kws: seq<string>, text: string, weight: int) returns (score: int)
    ensures score == weight * KeywordHits(kws, text)
  {
    score := 0;
    for k := 0 to |kws|
      invariant score == weight * KeywordHits(kws[..k], text)
    {
      assert kws[..k + 1][..k] == kws[..k];
      if Contains(text, kws[k]) {
        score := score + weight;
      }
    }
    assert kws[..|kws|] == kws;
  }

  /** Counts the outcomes with more than three words. */
  method SpecificOutcomes(outcomes: seq<string>) returns (n: int)
    ensures n == CountSpecific(outcomes)
  {
    n := 0;
    for k := 0 to |outcomes|
      invariant n == CountSpecific(outcomes[..k])
    {
      assert outcomes[..k + 1][..k] == outcomes[..k];
      if |Split(outcomes[k])| > 3 {
        n := n + 1;
      }
    }
    assert outcomes[..|outcomes|] == outcomes;
  }

  /** Python's any(): stops at the first word found in `text`. */
  method AnyWordIn(words: seq<string>, text: string) returns (found: bool)
    ensures found <==> exists j :: 0 <= j < |words| && Contains(text, words[j])
  {
    found := false;
    var w := 0;
    while w < |words| && !found
      invariant 0 <= w <= |words|
      invariant found <==> exists j :: 0 <= j < w && Contains(text, words[j])
    {
      found := Contains(text, words[w]);
      w := w + 1;
    }
  }

  /** The skill alignment loop: 15 for each skill with a word in `text`. */
  method SkillAlignment(skills: seq<string>, text: string) returns (alignment: int)
    ensures alignment == 15 * AlignedCount(skills, text)
  {
    alignment := 0;
    for k := 0 to |skills|
      invariant alignment == 15 * AlignedCount(skills[..k], text)
    {
      assert skills[..k + 1][..k] == skills[..k];
      var aligned := AnyWordIn(Split(Lower(skills[k])), text);
      if aligned {
        alignment := alignment + 15;
      }
    }
    assert skills[..|skills|] == skills;
  }

  /** The scorer as the service runs it: each score accumulated in a local,
      then the axes record built and checked. */
  method CalculateProfileAxes(q: QuestionnaireResponse) returns (r: Result<ProfileAxes>)
    ensures r == ScoreAxes(q)
  {
    // Purpose clarity: keywords in the problems answer, then specific outcomes.
    var purposeScore := KeywordScore(PurposeKeywords, Lower(q.passionateProblems), 20);
    var specific := SpecificOutcomes([q.outcome1, q.outcome2, q.outcome3]);
    purposeScore := purposeScore + specific * 15;
    var purposeClarity := Min(100.0, Max(0.0, purposeScore as real));

    // Energy: chronotype base, routine bonus, time bonus.
    var energyScore := ChronotypeScore(q.chronotype) as real;
    if Strip(q.morningRoutine) != [] && q.morningRoutineDuration.Some? && q.morningRoutineDuration.value != 0 {
      energyScore := energyScore + Min(20.0, q.morningRoutineDuration.value as real / 2.0);
    }
    var avgHours := (q.weekdayHours * 5.0 + q.weekendHours * 2.0) / 7.0;
    var timeScore := Min(30.0, avgHours * 5.0);
    var energy := Min(100.0, energyScore + timeScore);

    // Focus: keywords in the activities answer, hours factor, distraction penalty.
    var focusBase := KeywordScore(FocusKeywords, Lower(q.energizingActivities), 15);
    var hoursFactor := Min(40.0, avgHours * 8.0);
    var distractionPenalty := |q.distractions| * 5;
    var focus := Min(100.0, Max(0.0, focusBase as real + hoursFactor - distractionPenalty as real));

    // Habit foundation.
    var habitBase := HabitScore(q.habitCount);
    if |Strip(q.keyHabitChange)| > 10 {
      habitBase := habitBase + 15;
    }
    var habit := Min(100.0, habitBase as real);

    // Mindset.
    var mindset := Min(100.0, (SetbackScore(q.setbackReaction) + q.commitmentLevel * 5) as real);

    // Skill fit: base from the number of skills, bonus per skill aligned with the outcomes.
    var skillBase := Min(60.0, (|q.skills| * 20) as real);
    var skillAlignment := SkillAlignment(q.skills, Lower(q.outcome1 + " " + q.outcome2 + " " + q.outcome3));
    var skillFit := Min(100.0, skillBase + skillAlignment as real);

    assert purposeClarity == PurposeClarity(q);
    assert energy == EnergyChronotype(q);
    assert focus == FocusCapacity(q);
    assert habit == HabitFoundation(q);
    assert mindset == Mindset(q);
    assert skillFit == SkillFit(q);
    var axes := ProfileAxes(purposeClarity, energy, focus, habit, mindset, skillFit);
    if AxesInRange(axes) {
      r := Ok(axes);
    } else {
      r := Err(AxisOutOfRange);
    }
  }
}
