/** The questionnaire, profile and plan records of the coaching service, and the
    three answer enumerations and the archetype tag they use. */
module Domain {

  /** When the respondent is most alert (question 5). */
  datatype Chronotype = EarlyMorning | LateMorning | Afternoon | Evening | Night

  /** How the respondent reacts to setbacks (question 8). */
  datatype SetbackReaction = GiveUp | TryAgainSame | AdjustApproach | LearnIterate

  /** How many daily habits the respondent already keeps (question 7). */
  datatype HabitCount = Zero | OneToTwo | ThreeToFour | FivePlus

  /** The three behavioural archetypes a profile is classified into. */
  datatype Archetype = PurposeDrivenHighEnergy | ExploratoryModerate | LowEnergyWantsChange

  /** The display value of each archetype tag. */
  function ArchetypeLabel(a: Archetype): (s: string)
    ensures |s| > 0
  {
    match a
    case PurposeDrivenHighEnergy => "Purpose-driven + High Energy + High Focus"
    case ExploratoryModerate => "Exploratory + Moderate Energy + Moderate Habit"
    case LowEnergyWantsChange => "Low Energy / Low Habit + Wants Change"
  }

  /** One questionnaire submission. Hours are real numbers; the routine
      duration is optional whole minutes. */
  datatype QuestionnaireResponse = QuestionnaireResponse(
    energizingActivities: string,
    passionateProblems: string,
    skills: seq<string>,
    weekdayHours: real,
    weekendHours: real,
    chronotype: Chronotype,
    morningRoutine: string,
    morningRoutineDuration: Option<int>,
    habitCount: HabitCount,
    setbackReaction: SetbackReaction,
    outcome1: string,
    outcome2: string,
    outcome3: string,
    keyHabitChange: string,
    distractions: seq<string>,
    commitmentLevel: int)

  /** The field constraint the record itself enforces: commitment in 1..10. */
  predicate ValidQuestionnaire(q: QuestionnaireResponse) {
    1 <= q.commitmentLevel <= 10
  }

  /** The six axis scores. */
  datatype ProfileAxes = ProfileAxes(
    purposeClarity: real,
    energyChronotype: real,
    focusCapacity: real,
    habitFoundation: real,
    mindset: real,
    skillFit: real)

  predicate InUnitRange(x: real) {
    0.0 <= x <= 100.0
  }

  /** The field constraints of the axes record: every score in [0, 100]. */
  predicate AxesInRange(a: ProfileAxes) {
    InUnitRange(a.purposeClarity) && InUnitRange(a.energyChronotype) &&
    InUnitRange(a.focusCapacity) && InUnitRange(a.habitFoundation) &&
    InUnitRange(a.mindset) && InUnitRange(a.skillFit)
  }

  /** A stored profile; its identifier is an opaque string chosen by the caller. */
  datatype UserProfile = UserProfile(
    id: string,
    questionnaire: QuestionnaireResponse,
    axes: ProfileAxes,
    archetype: Archetype)

  datatype HabitStack = HabitStack(name: string, cue: string, action: string, reward: string, tracking: string)

  /** A daily slot: start time, length in minutes, activity label and kind. */
  datatype TimeBlock = TimeBlock(time: string, duration: int, activity: string, kind: string)

  datatype PlanTemplate = PlanTemplate(
    yearlyGoal: string,
    pillars: seq<string>,
    monthlyTemplate: string,
    weeklyTemplate: string,
    dailyTemplate: string,
    habitStack: seq<HabitStack>,
    suggestedTimeBlocks: seq<TimeBlock>,
    justification: string)

  datatype Option<T> = None | Some(value: T)

  /** The exceptions the core can raise: a record field constraint rejected
      (axes outside [0, 100]) and indexing the empty token list. */
  datatype Error = AxisOutOfRange | IndexError

  datatype Result<T> = Ok(value: T) | Err(error: Error)

  function Min(a: real, b: real): (m: real)
    ensures m <= a && m <= b && (m == a || m == b)
  {
    if a <= b then a else b
  }

  function Max(a: real, b: real): (m: real)
    ensures m >= a && m >= b && (m == a || m == b)
  {
    if a >= b then a else b
  }
}
