# Personal-growth profile and plan core, modelled in Dafny

The backend takes a twelve-question self-assessment (a `QuestionnaireResponse`)
and works in three steps:

1. It scores the answers on six axes between 0 and 100: purpose clarity, energy
   and chronotype, focus capacity, habit foundation, mindset and skill fit.
2. It classifies the axes into one of three archetypes.
3. It turns the profile into a plan template: a yearly goal, three pillars,
   fixed monthly, weekly and daily templates, a two-entry habit stack,
   suggested time blocks and a one-line justification.

This project models those three functions of `backend/server.py` and the
records they use.

- `domain.dfy` (module `Domain`): the enums, the records and a `Result` type.
  - The three enums are `Chronotype`, `SetbackReaction` and `HabitCount`.
  - The records are `QuestionnaireResponse`, `ProfileAxes`, `UserProfile`,
    `HabitStack`, `TimeBlock` and `PlanTemplate`.
  - `Result` holds the two ways the code can fail.
- `text.dfy` (module `Text`): the Python string operations the scoring and the
  plan rely on.
  - `str.lower` (ASCII letters only).
  - The `in` substring test.
  - `str.strip()` and `str.split()` with no argument, using Python's ASCII
    whitespace.
  - `" ".join`, together with the round trip `Split(JoinSpace(ws)) == ws` for
    a list of non-empty, whitespace-free words (`SplitJoin`).
- `scoring.dfy` (module `Scoring`): `calculate_profile_axes`.
  - One function per axis specifies it. `ScoreAxes` puts the six together,
    including the `ProfileAxes` range check.
  - The method `CalculateProfileAxes` follows the code's loops step by step and
    is proved equal to that specification.
  - Lemmas give the bounds, the one way scoring can fail, keyword counting
    as a set of distinct keywords, and the effects of distractions and skills.
- `archetype.dfy` (module `Archetypes`): `determine_archetype`, with the exact
  condition for each archetype and the consequences for scored questionnaires.
- `format.dfy` (module `NumberFormat`): the `:.0f` formatting used in the
  justification line. It rounds half to even and writes decimal digits.
- `plan.dfy` (module `Plans`): `generate_plan_template`, with lemmas on the
  shape of every plan, what it quotes from the answers, the habit stack and the
  justification.
- `scenarios.dfy` (module `Scenarios`): worked questionnaires, a lemma
  connecting the outcome answers to purpose clarity, and a full purpose score
  of 85 for a concrete answer.

Four facts about the code that the model makes explicit:

- **A blank `key_habit_change` makes plan generation fail.**
  `key_habit_change.split()[0]` (server.py:317) raises `IndexError` when the
  answer is empty or whitespace only, and the code has no fallback token. The
  model returns `Err(IndexError)` exactly in that case (`GeneratePlanTemplate`,
  `PlanFailsOnlyOnBlankHabit`).
- **Scoring is not total.** The code builds a `ProfileAxes`, whose fields are
  constrained to `[0, 100]` (server.py:91-96). The hours and routine-duration
  answers have no lower bound, so negative hours can make the energy score
  negative, and building the record then raises a validation error. The model
  returns `Err(AxisOutOfRange)` in that case. `ScoreFailsOnlyOnNegativeEnergy`
  shows that energy is the only axis that can fail for a valid questionnaire,
  and `NegativeHoursRejected` shows that it does happen.
- **Two purpose keywords and three specific outcomes give 85.** Each keyword
  found adds 20 and each outcome of more than three words adds 15
  (server.py:149-156), so the purpose score is 20 + 20 + 15 + 15 + 15 = 85, not
  capped. `HelpAndBuildPurpose` proves it for the answer "Help build".
- **The archetype guards never overlap.** The purpose-driven guard needs energy
  ≥ 70 and the low-energy guard needs energy < 60, so they cannot both hold
  (`PurposeDrivenGuard`). The order in which `determine_archetype` tests them
  never decides the result, as the three iff clauses of `DetermineArchetype`
  show.

## Model

| member | source | states |
|---|---|---|
| Domain.ArchetypeLabel | backend/server.py:98-101 | each archetype's display value is the non-empty label string the enum declares |
| Text.Lower | backend/server.py:148 | `str.lower`: same length; each character is mapped by `LowerChar`, so no upper-case letter remains and whitespace stays whitespace |
| Text.LowerChar | backend/server.py:148 | an ASCII capital becomes its lower-case letter (+32); any other character is unchanged |
| Text.LowerKeepsLowerCase | backend/server.py:148 | lower-casing a text without capital letters leaves it unchanged |
| Text.LowerCapitalised | backend/server.py:148 | lower-casing a capital followed by lower-case text changes only the first character |
| Text.AsciiWhitespace | backend/server.py:153 | the whitespace `split()` and `strip()` use is exactly the ten ASCII characters tab, newline, vertical tab, form feed, carriage return, the four separators 0x1C-0x1F and space |
| Text.Contains | backend/server.py:149 | Python's `pat in text`: true exactly when `pat` occurs at some index of `text` |
| Text.ContainsInfix | backend/server.py:267 | an f-string that interpolates a value contains that value |
| Text.ContainsTransitive | backend/server.py:229 | a substring of a substring of `c` is a substring of `c` |
| Text.MissingCharNotContained | backend/server.py:149 | a text lacking one of the pattern's characters does not contain the pattern |
| Text.Strip | backend/server.py:170 | `str.strip()`: the result is `s[i..j]`, with only whitespace outside it and no whitespace at either end; it is empty exactly when `s` is all whitespace |
| Text.Split | backend/server.py:153 | `str.split()`: every token is non-empty and free of whitespace; the tokens spell exactly the non-whitespace characters of `s`, in order; there are none exactly when `s` is blank (maximality of the tokens is `SplitAtSpace`) |
| Text.SplitAtSpace | backend/server.py:153 | every whitespace character separates tokens: splitting `a + [c] + b`, with `c` whitespace, gives the tokens of `a` followed by the tokens of `b` |
| Text.FirstTokenSpan | backend/server.py:317 | the first token of a non-blank text is `s[i..j]`, where everything before `i` is whitespace and `j` is the end of the text or a whitespace character |
| Text.SplitFromFacts | backend/server.py:153 | the same three facts for the tokens from any index on, proved by induction over the tokens |
| Text.SkipSpaceSkipsSpace | backend/server.py:170 | every character skipped as leading whitespace is whitespace |
| Text.WordEndSkipsWord | backend/server.py:153 | every character inside a token is non-whitespace |
| Text.SplitFromShift | backend/server.py:153 | text in front of the starting index does not change the tokens found from there |
| Text.SplitWordSpace | backend/server.py:153 | splitting `w + " " + r`, where `w` is a word, gives `w` followed by the tokens of `r` |
| Text.JoinSpace | backend/server.py:223 | `" ".join`: the joined text is as long as all the pieces plus one separator between each two |
| Text.SplitJoin | backend/server.py:223 | round trip: `" ".join` of words, split again, gives back the same words |
| Text.FirstWordOccurs | backend/server.py:317 | the first token of a non-blank text is a whitespace-free word that occurs in the text |
| Text.SplitEmptyIffStripEmpty | backend/server.py:317 | `split()` finds no token exactly when `strip()` leaves nothing |
| Domain.Min | backend/server.py:156 | Python `min` on two scores: no larger than either argument, and equal to one of them |
| Domain.Max | backend/server.py:156 | Python `max` on two scores: no smaller than either argument, and equal to one of them |
| Scoring.ChronotypeScore | backend/server.py:159-167 | the chronotype table lies in 30..90, and only an early riser gets 90 |
| Scoring.HabitScore | backend/server.py:191-198 | the habit-count table lies in 10..90 |
| Scoring.SetbackScore | backend/server.py:207-214 | the setback table lies in 20..95 |
| Scoring.KeywordHits | backend/server.py:149 | the number of listed keywords found never exceeds the number listed |
| Scoring.KeywordHitsCountsDistinctMatches | backend/server.py:144-149 | for a keyword list with no repeats, the hit count is the size of the set of keywords found in the text |
| Scoring.CountSpecific | backend/server.py:153 | the number of outcomes with more than three words is at most the number of outcomes |
| Scoring.OutcomesText | backend/server.py:223 | the outcomes text is `" ".join` of the three outcomes, lower-cased, and contains each outcome lower-cased |
| Scoring.JoinedOutcomes | backend/server.py:223 | for any three outcomes, the lower-cased space-joined text equals the lower-cased `" ".join` and contains each lower-cased outcome |
| Scoring.AvgHours | backend/server.py:174 | the weighted average of weekday and weekend hours lies between the two |
| Scoring.PurposeClarity | backend/server.py:143-156 | purpose clarity lies in [0, 100]; with no purpose keyword found it is 15 × the number of specific outcomes |
| Scoring.EnergyChronotype | backend/server.py:158-176 | energy is at most 100; with non-negative hours and duration it is at least the chronotype base (capped at 100), and an early riser with at least 2 average hours scores 100 |
| Scoring.FocusCapacity | backend/server.py:178-188 | focus lies in [0, 100]; 29 or more distractions (penalty 145 against at most 105 + 40) bring it to 0 |
| Scoring.HabitFoundation | backend/server.py:190-204 | habit foundation lies in [10, 100], and reaches 25 exactly when some habits are kept or the stripped key habit change is longer than 10 characters |
| Scoring.Mindset | backend/server.py:206-216 | mindset is at most 100; for a commitment in 1..10 it is at least 25, and learning and iterating scores 100 |
| Scoring.SkillFit | backend/server.py:218-232 | skill fit lies between min(60, 20 × number of skills) and 100 |
| Scoring.ScoreAxes | backend/server.py:234-241 | scoring succeeds exactly when all six raw axes are in [0, 100], with those axes; otherwise it fails with the range error |
| Scoring.AlignedCount | backend/server.py:228-230 | the number of aligned skills is at most the number of skills |
| Scoring.ContainedSkillAligned | backend/server.py:229 | a non-blank skill whose whole lower-cased text occurs in the outcomes is aligned |
| Scoring.RoutineBonus | backend/server.py:170-171 | no routine text, or no or zero duration, gives no bonus; otherwise the bonus is at most 20 and at most half the duration |
| Scoring.AxesBounds | backend/server.py:156-232 | every axis is capped at 100; purpose, focus and skill fit are never negative; habit is at least 10; mindset is at least 25 when commitment is in 1..10 |
| Scoring.ScoreFailsOnlyOnNegativeEnergy | backend/server.py:90-96 | for a valid questionnaire, building `ProfileAxes` fails exactly when the energy score is negative, and the error is the range error |
| Scoring.ScoreInRange | backend/server.py:140-241 | with a valid questionnaire and non-negative hours and duration, scoring succeeds with all axes in [0, 100], and energy is at least the chronotype's base score (capped at 100) |
| Scoring.NegativeHoursRejected | backend/server.py:174-176 | some valid questionnaire (negative weekday hours) is rejected by the range check |
| Scoring.PurposeClarityCountsDistinctKeywords | backend/server.py:144-156 | purpose clarity is min(100, 20 × distinct purpose keywords found + 15 × specific outcomes), with at most 8 keywords found |
| Scoring.FocusCapacityFormula | backend/server.py:179-188 | focus is min(100, max(0, 15 × distinct focus keywords + min(40, 8 × avg hours) − 5 × distractions)), and it is 0 exactly when the penalty reaches the other two terms |
| Scoring.DistractionNeverHelps | backend/server.py:187-188 | adding a distraction never raises focus capacity |
| Scoring.NoSkillsNoFit | backend/server.py:219-232 | with no skills listed, skill fit is 0 |
| Scoring.SkillFitPerSkill | backend/server.py:219-232 | skill fit is at most 35 per listed skill (20 base + 15 alignment) |
| Scoring.KeywordScore | backend/server.py:149 | the loop over keywords returns the weight times the number of keywords found |
| Scoring.SpecificOutcomes | backend/server.py:153 | the loop returns the number of outcomes with more than three words |
| Scoring.AnyWordIn | backend/server.py:229 | `any(word in text for word in words)`: true exactly when some word occurs in the text |
| Scoring.SkillAlignment | backend/server.py:227-230 | the loop over skills returns 15 × the number of aligned skills |
| Scoring.CalculateProfileAxes | backend/server.py:140-241 | the step-by-step computation equals the scoring specification `ScoreAxes`, including the range error |
| Archetypes.DetermineArchetype | backend/server.py:243-256 | purpose-driven exactly when purpose ≥ 60, energy ≥ 70 and focus ≥ 60; low-energy exactly when habit < 40 and energy < 60; exploratory exactly when neither holds |
| Archetypes.PurposeDrivenGuard | backend/server.py:246-252 | whenever the purpose-driven guard holds, the low-energy guard does not |
| Archetypes.ArchetypeIgnoresMindsetAndSkillFit | backend/server.py:243-256 | mindset and skill fit never affect the archetype |
| Archetypes.MoreEnergyNeverLowEnergy | backend/server.py:251-253 | raising energy never turns a profile into the low-energy archetype |
| Archetypes.EarlyRisersNeverLowEnergy | backend/server.py:251-253 | an early riser with non-negative inputs is never classified low-energy |
| Archetypes.HabitKeepersNeverLowEnergy | backend/server.py:251-253 | someone keeping 3 or more habits is never classified low-energy |
| Archetypes.VaguePurposeNotPurposeDriven | backend/server.py:246-249 | with no purpose keyword and at most two specific outcomes, purpose stays below 60, so the profile is not purpose-driven |
| NumberFormat.RoundHalfEven | backend/server.py:333 | the rounded integer is within 0.5 of `x`, and a tie goes to the even neighbour |
| NumberFormat.RoundHalfEvenUnique | backend/server.py:333 | that rounding is unique: any integer with those two properties is the result |
| NumberFormat.DigitChar | backend/server.py:333 | a digit 0..9 becomes the character of that digit |
| NumberFormat.Decimal | backend/server.py:333 | a natural number is written as digits without a leading zero, and the digits read back as the number |
| NumberFormat.FormatFixed0 | backend/server.py:333 | `:.0f`: a non-negative `x` prints as at least one digit, without a leading zero, whose value is `x` rounded half to even; a negative `x` prints as "-" then such digits for the rounded magnitude |
| NumberFormat.LeadingDigitPositive | backend/server.py:333 | digits starting with a non-zero digit spell a positive number |
| NumberFormat.DecimalCanonical | backend/server.py:333 | digits without a leading zero are the only way to write their value, so `FormatFixed0`'s contract fixes the printed text |
| NumberFormat.TiesGoToEven | backend/server.py:333 | 62.5 prints "62" and 63.5 prints "64" |
| Plans.GeneratePlanTemplate | backend/server.py:258-334 | a plan is produced exactly when `key_habit_change` is not blank; otherwise the result is the `IndexError` raised by `split()[0]` |
| Plans.YearlyGoal | backend/server.py:266-295 | every archetype's yearly goal contains the first outcome |
| Plans.Pillars | backend/server.py:268-300 | every archetype has three pillars, and the second contains the key habit change |
| Plans.TimeBlocks | backend/server.py:275-305 | 3 blocks for purpose-driven and 2 otherwise; each schedule opens with a routine block and ends with a practice block; every block has a positive duration |
| Plans.Justification | backend/server.py:333 | the justification starts with the archetype's label and contains both formatted scores |
| Plans.PlanFailsOnlyOnBlankHabit | backend/server.py:317 | plan generation fails exactly when `key_habit_change.strip()` is empty |
| Plans.TimeBlockShape | backend/server.py:275-305 | a deep-work block exists exactly for purpose-driven; durations total 180, 45 and 90 minutes |
| Plans.SecondBlockNotDinner | backend/server.py:318 | every schedule has a second block and its activity is not "dinner" |
| Plans.PlanShape | backend/server.py:268-332 | three pillars, the fixed monthly, weekly and daily templates, two habits of which the first is "Morning Startup", and 3 or 2 time blocks by archetype |
| Plans.PracticeHabit | backend/server.py:316-322 | the practice habit is named after the first token of the key habit change, a word from that text; its cue is "After " and the second block's activity, never "After dinner"; its action quotes the key habit change |
| Plans.PlanQuotesAnswers | backend/server.py:267-319 | the goal quotes outcome 1; the second pillar and the practice action quote the key habit change |
| Plans.MasterPillar | backend/server.py:269 | the purpose-driven first pillar names the first skill, or "core skills" when no skill is listed |
| Plans.AxesOnlyInJustification | backend/server.py:258-334 | two profiles with the same archetype and answers get the same plan, except for the justification |
| Plans.JustificationQuotesScores | backend/server.py:333 | the justification starts with the archetype's label and quotes both scores, each rounded half to even |
| Plans.JustificationLine | backend/server.py:333 | for any heading and score texts, the justification template starts with the heading and contains both score texts |
| Scenarios.EarlyRiserFullEnergy | backend/server.py:159-176 | an early riser with 8 hours every day and no routine scores energy 100 (90 + 30, capped) |
| Scenarios.LowestHabitAndMindset | backend/server.py:191-216 | no habits and a blank habit change give habit 10; giving up with commitment 1 gives mindset 25 |
| Scenarios.AllThreeSpecific | backend/server.py:152-153 | three outcomes of more than three words each count as three specific outcomes |
| Scenarios.WordyOutcomesGivePurpose | backend/server.py:152-156 | outcomes that are each four or more words joined by single spaces are all specific, so purpose clarity is at least 45 |
| Scenarios.LoweredExample | backend/server.py:148 | "Help build" lower-cases to "help build" |
| Scenarios.NoOtherPurposeKeyword | backend/server.py:144-149 | a text without c, v or m contains none of the purpose keywords other than "help" and "build" |
| Scenarios.HelpAndBuildHitTwo | backend/server.py:144-149 | a text with "help" and "build" and without c, v or m hits exactly two purpose keywords |
| Scenarios.HelpAndBuildPurpose | backend/server.py:143-156 | the passionate-problems answer "Help build" with three outcomes of four or more words scores purpose clarity 85 |

## Left out

- The FastAPI routes, the MongoDB persistence and the application setup
  (backend/server.py:1-26, 337-461) are I/O; `UserPlan` and the stored
  round trip of profiles and plans are left out with them.
- The `id` and `created_at` fields that pydantic fills with `uuid4()` and the
  current time are randomness and clock. `UserProfile` keeps `id` as a plain
  parameter and drops `created_at`.
- Pydantic's validation is modelled only where it changes the result of the
  core: the `ProfileAxes` range check (`Err(AxisOutOfRange)`) and the 1..10
  commitment bound (`ValidQuestionnaire`). Enum membership and field types are
  enforced by the datatypes.
- Hours, durations and scores are exact reals, not IEEE doubles. Rounding
  errors of `float` arithmetic (for example in `avg_hours`) are not modelled.
- `str.lower`, `str.strip` and `str.split` are modelled on ASCII characters.
  Unicode case mapping and Unicode whitespace are not.
- `skills_text` (backend/server.py:224) is computed but never used by the code,
  so the model does not compute it.
- `backend_test.py` exercises the HTTP endpoints and is not part of this model.
