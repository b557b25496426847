/** The plan synthesizer: one of three fixed templates chosen by archetype,
    filled in with the respondent's first outcome, first skill and key habit
    change, plus a two-entry habit stack and a justification line. */
module Plans {
  import opened Text
  import opened Domain
  import opened NumberFormat

  const MonthlyTemplate: string := "Monthly theme focus with weekly milestones and habit tracking"
  const WeeklyTemplate: string := "Weekly planning with 2-3 focus sessions and daily micro-habits"
  const DailyTemplate: string := "Morning routine → Deep work/practice → Evening reflection"

  /** The first, fixed entry of every habit stack. */
  const MorningStartup: HabitStack :=
    HabitStack("Morning Startup", "After waking up", "Drink water + 5-minute planning",
               "Favorite morning beverage", "Daily checkbox")

  /** The first skill, or "core skills" when none is listed. */
  function FirstSkill(q: QuestionnaireResponse): string {
    if q.skills != [] then q.skills[0] else "core skills"
  }

  /** Each archetype's yearly goal; every one quotes the first outcome. */
  function YearlyGoal(a: Archetype, q: QuestionnaireResponse): (g: string)
    ensures Contains(g, q.outcome1)
  {
    match a
    case PurposeDrivenHighEnergy =>
      ContainsInfix("Achieve ", q.outcome1, " through systematic skill building and focused execution");
      "Achieve " + q.outcome1 + " through systematic skill building and focused execution"
    case LowEnergyWantsChange =>
      ContainsInfix("Build sustainable habits and gradually work toward ", q.outcome1, "");
      assert "Build sustainable habits and gradually work toward " + q.outcome1 + ""
          == "Build sustainable habits and gradually work toward " + q.outcome1;
      "Build sustainable habits and gradually work toward " + q.outcome1
    case ExploratoryModerate =>
      ContainsInfix("Explore and develop ", q.outcome1, " through structured experimentation");
      "Explore and develop " + q.outcome1 + " through structured experimentation"
  }

  /** Each archetype's three pillars; every second pillar quotes the key
      habit change. */
  function Pillars(a: Archetype, q: QuestionnaireResponse): (p: seq<string>)
    ensures |p| == 3 && Contains(p[1], q.keyHabitChange)
  {
    match a
    case PurposeDrivenHighEnergy =>
      ContainsInfix("Build sustainable systems around ", q.keyHabitChange, "");
      assert "Build sustainable systems around " + q.keyHabitChange + ""
          == "Build sustainable systems around " + q.keyHabitChange;
      ["Master " + FirstSkill(q) + " through daily practice",
       "Build sustainable systems around " + q.keyHabitChange,
       "Maintain high-energy routines and deep work blocks"]
    case LowEnergyWantsChange =>
      ContainsInfix("Address ", q.keyHabitChange, " with small steps");
      ["Establish micro-habits and daily wins",
       "Address " + q.keyHabitChange + " with small steps",
       "Build energy and focus capacity over time"]
    case ExploratoryModerate =>
      ContainsInfix("Develop ", q.keyHabitChange, " through habit stacking");
      ["Monthly skill experiments and learning sprints",
       "Develop " + q.keyHabitChange + " through habit stacking",
       "Build consistent review and iteration cycles"]
  }

  /** Each archetype's suggested daily schedule: three blocks for the
      purpose-driven archetype and two otherwise, opening with a routine block
      and closing with a practice block, every block of positive length. */
  function TimeBlocks(a: Archetype): (b: seq<TimeBlock>)
    ensures |b| == (if a == PurposeDrivenHighEnergy then 3 else 2)
    ensures b[0].kind == "routine" && b[|b| - 1].kind == "practice"
    ensures forall i :: 0 <= i < |b| ==> b[i].duration > 0
  {
    match a
    case PurposeDrivenHighEnergy =>
      [TimeBlock("05:30", 30, "Morning routine + planning", "routine"),
       TimeBlock("06:00", 90, "Deep work block 1", "deep_work"),
       TimeBlock("18:00", 60, "Skill practice", "practice")]
    case LowEnergyWantsChange =>
      [TimeBlock("07:00", 15, "Simple morning routine", "routine"),
       TimeBlock("19:30", 30, "Micro-practice session", "practice")]
    case ExploratoryModerate =>
      [TimeBlock("06:30", 45, "Morning routine + planning", "routine"),
       TimeBlock("19:00", 45, "Learning and practice", "practice")]
  }

  /** The closing line: it opens with the archetype's label and quotes both
      scores as whole percentages. */
  function Justification(a: Archetype, axes: ProfileAxes): (j: string)
    ensures ArchetypeLabel(a) <= j
    ensures Contains(j, FormatFixed0(axes.purposeClarity)) && Contains(j, FormatFixed0(axes.energyChronotype))
  {
    JustificationLine(ArchetypeLabel(a), FormatFixed0(axes.purposeClarity), FormatFixed0(axes.energyChronotype));
    ArchetypeLabel(a) + " approach based on " + FormatFixed0(axes.purposeClarity)
      + "% purpose clarity and " + FormatFixed0(axes.energyChronotype) + "% energy score"
  }

  /** The plan for a stored profile. Naming the second habit takes the first
      token of the key habit change; a blank key habit change has none, and the
      lookup raises an index error. */
  function GeneratePlanTemplate(profile: UserProfile): (r: Result<PlanTemplate>)
    ensures r.Ok? <==> !AllSpace(profile.questionnaire.keyHabitChange)
    ensures r.Err? ==> r.error == IndexError
  {
    var q := profile.questionnaire;
    var blocks := TimeBlocks(profile.archetype);
    var words := Split(q.keyHabitChange);
    if words == [] then
      Err(IndexError)
    else
      var practice := HabitStack(
        words[0] + " Practice",
        "After " + (if |blocks| > 1 then blocks[1].activity else "dinner"),
        "10 minutes of " + q.keyHabitChange,
        "Track progress + celebration",
        "Weekly streak counter");
      Ok(PlanTemplate(YearlyGoal(profile.archetype, q), Pillars(profile.archetype, q),
                      MonthlyTemplate, WeeklyTemplate, DailyTemplate,
                      [MorningStartup, practice], blocks,
                      Justification(profile.archetype, profile.axes)))
  }

  /** Plan generation fails exactly when the key habit change strips to nothing. */
  lemma PlanFailsOnlyOnBlankHabit(profile: UserProfile)
    ensures GeneratePlanTemplate(profile).Err? <==> Strip(profile.questionnaire.keyHabitChange) == []
  {
  }

  /** Only the purpose-driven schedule has a deep-work block; the scheduled
      minutes are 180, 45 and 90. */
  lemma TimeBlockShape(a: Archetype)
    ensures var b := TimeBlocks(a);
      ((exists i :: 0 <= i < |b| && b[i].kind == "deep_work") <==> a == PurposeDrivenHighEnergy) &&
      TotalMinutes(b) == (match a
                          case PurposeDrivenHighEnergy => 180
                          case LowEnergyWantsChange => 45
                          case ExploratoryModerate => 90)
  {
    var b := TimeBlocks(a);
    if a != PurposeDrivenHighEnergy {
      assert b[0].kind[0] == 'r' && b[1].kind[0] == 'p';
      assert TotalMinutes(b[1..]) == b[1].duration;
    } else {
      assert b[1].kind == "deep_work";
      assert TotalMinutes(b[2..]) == 60;
    }
  }

  function TotalMinutes(b: seq<TimeBlock>): int {
    if b == [] then 0 else b[0].duration + TotalMinutes(b[1..])
  }

  /** No schedule's second block is called "dinner", so no cue built from it
      reads "After dinner". */
  lemma SecondBlockNotDinner(a: Archetype)
    ensures var b := TimeBlocks(a);
      |b| >= 2 && "After " + b[1].activity != "After dinner"
  {
    var act := TimeBlocks(a)[1].activity;
    assert act[0] != 'd';
    assert ("After " + act)[6] == act[0];
  }

  /** A generated plan is the archetype's goal, pillars and schedule together
      with the fixed templates, the two-entry habit stack and the
      justification; the second habit's cue is always taken from the second
      time block. */
  lemma PlanParts(profile: UserProfile)
    requires !AllSpace(profile.questionnaire.keyHabitChange)
    ensures var q := profile.questionnaire;
      var a := profile.archetype;
      var p := GeneratePlanTemplate(profile).value;
      p.yearlyGoal == YearlyGoal(a, q) && p.pillars == Pillars(a, q) &&
      p.monthlyTemplate == MonthlyTemplate && p.weeklyTemplate == WeeklyTemplate &&
      p.dailyTemplate == DailyTemplate && p.suggestedTimeBlocks == TimeBlocks(a) &&
      p.justification == Justification(a, profile.axes)
    ensures PlanHabits(profile)
  {
    SecondBlockNotDinner(profile.archetype);
  }

  /** The habit stack of a generated plan: the fixed morning entry, then the
      practice entry built from the first token and the second time block. */
  predicate PlanHabits(profile: UserProfile)
    requires GeneratePlanTemplate(profile).Ok?
  {
    var q := profile.questionnaire;
    var a := profile.archetype;
    |TimeBlocks(a)| >= 2 && Split(q.keyHabitChange) != [] &&
    GeneratePlanTemplate(profile).value.habitStack == [MorningStartup,
      HabitStack(Split(q.keyHabitChange)[0] + " Practice", "After " + TimeBlocks(a)[1].activity,
                 "10 minutes of " + q.keyHabitChange, "Track progress + celebration", "Weekly streak counter")]
  }

  /** Every plan has three pillars, the same monthly, weekly and daily
      templates, two habit-stack entries of which the first is fixed, and three
      time blocks for the purpose-driven archetype and two otherwise. */
  lemma PlanShape(profile: UserProfile)
    requires !AllSpace(profile.questionnaire.keyHabitChange)
    ensures var p := GeneratePlanTemplate(profile).value;
      |p.pillars| == 3 &&
      p.monthlyTemplate == MonthlyTemplate && p.weeklyTemplate == WeeklyTemplate &&
      p.dailyTemplate == DailyTemplate &&
      |p.habitStack| == 2 && p.habitStack[0] == MorningStartup &&
      |p.suggestedTimeBlocks| == (if profile.archetype == PurposeDrivenHighEnergy then 3 else 2)
  {
    PlanParts(profile);
  }

  /** The second habit is named after the first token of the key habit change,
      a non-empty whitespace-free piece of that text; its cue is the activity of
      the second time block, so the "dinner" fallback is never used; its action
      quotes the key habit change in full. */
  lemma PracticeHabit(profile: UserProfile)
    requires !AllSpace(profile.questionnaire.keyHabitChange)
    ensures var p := GeneratePlanTemplate(profile).value;
      var khc := profile.questionnaire.keyHabitChange;
      |p.habitStack| == 2 && |p.suggestedTimeBlocks| >= 2 && Split(khc) != [] &&
      var token := Split(khc)[0];
      IsWord(token) && Contains(khc, token) &&
      p.habitStack[1].name == token + " Practice" &&
      p.habitStack[1].cue == "After " + p.suggestedTimeBlocks[1].activity &&
      p.habitStack[1].cue != "After dinner" &&
      p.habitStack[1].action == "10 minutes of " + khc
  {
    PlanParts(profile);
    FirstWordOccurs(profile.questionnaire.keyHabitChange);
    SecondBlockNotDinner(profile.archetype);
  }


  /** The answers reach the plan: the yearly goal quotes the first outcome, the
      second pillar and the practice habit's action quote the key habit change. */
  lemma PlanQuotesAnswers(profile: UserProfile)
    requires !AllSpace(profile.questionnaire.keyHabitChange)
    ensures var p := GeneratePlanTemplate(profile).value;
      var q := profile.questionnaire;
      |p.pillars| == 3 && |p.habitStack| == 2 &&
      Contains(p.yearlyGoal, q.outcome1) &&
      Contains(p.pillars[1], q.keyHabitChange) &&
      Contains(p.habitStack[1].action, q.keyHabitChange)
  {
    var q := profile.questionnaire;
    PlanParts(profile);
    ContainsInfix("10 minutes of ", q.keyHabitChange, "");
    assert "10 minutes of " + q.keyHabitChange + "" == "10 minutes of " + q.keyHabitChange;
  }

  /** The purpose-driven plan's first pillar names the first skill, or "core
      skills" when no skill is listed. */
  lemma MasterPillar(profile: UserProfile)
    requires !AllSpace(profile.questionnaire.keyHabitChange)
    requires profile.archetype == PurposeDrivenHighEnergy
    ensures var p := GeneratePlanTemplate(profile).value;
      var q := profile.questionnaire;
      |p.pillars| == 3 &&
      p.pillars[0] == "Master " + (if q.skills == [] then "core skills" else q.skills[0]) + " through daily practice"
  {
    PlanParts(profile);
  }

  /** The axes reach the plan only through the justification line: two profiles
      with the same archetype and answers get the same plan otherwise. */
  lemma AxesOnlyInJustification(p1: UserProfile, p2: UserProfile)
    requires p1.archetype == p2.archetype && p1.questionnaire == p2.questionnaire
    ensures GeneratePlanTemplate(p1).Ok? == GeneratePlanTemplate(p2).Ok?
    ensures GeneratePlanTemplate(p1).Ok? ==>
      GeneratePlanTemplate(p1).value.(justification := "") == GeneratePlanTemplate(p2).value.(justification := "")
  {
    if GeneratePlanTemplate(p1).Ok? {
      PlanParts(p1);
      PlanParts(p2);
    }
  }

  /** The justification opens with the archetype's label and, for scores in
      [0, 100], quotes both scores rounded half to even. */
  lemma JustificationQuotesScores(profile: UserProfile)
    requires !AllSpace(profile.questionnaire.keyHabitChange)
    requires AxesInRange(profile.axes)
    ensures var j := GeneratePlanTemplate(profile).value.justification;
      var heading := ArchetypeLabel(profile.archetype);
      var purpose := FormatFixed0(profile.axes.purposeClarity);
      var energy := FormatFixed0(profile.axes.energyChronotype);
      heading <= j && Contains(j, purpose) && Contains(j, energy) &&
      DecimalValue(purpose) == RoundHalfEven(profile.axes.purposeClarity) &&
      DecimalValue(energy) == RoundHalfEven(profile.axes.energyChronotype)
  {
    PlanParts(profile);
  }

  /** The justification template, for any heading and score texts. */
  lemma JustificationLine(heading: string, purpose: string, energy: string)
    ensures var j := heading + " approach based on " + purpose + "% purpose clarity and " + energy + "% energy score";
      heading <= j && Contains(j, purpose) && Contains(j, energy)
  {
    var front := heading + " approach based on ";
    var mid := "% purpose clarity and ";
    var tail := "% energy score";
    assert front + purpose + mid + energy + tail == front + purpose + (mid + energy + tail);
    ContainsInfix(front, purpose, mid + energy + tail);
    ContainsInfix(front + purpose + mid, energy, tail);
  }
}
