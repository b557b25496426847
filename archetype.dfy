/** The archetype classifier: an ordered chain of threshold guards over the
    six axis scores. */
module Archetypes {
  import opened Domain
  import opened Scoring

  /** High purpose, high energy and high focus. It asks for energy at least
      70, the low-energy guard for energy below 60: the two never hold together. */
  function PurposeDrivenGuard(a: ProfileAxes): (b: bool)
    ensures b ==> !LowEnergyGuard(a)
  {
    a.purposeClarity >= 60.0 && a.energyChronotype >= 70.0 && a.focusCapacity >= 60.0
  }

  /** Few habits and low energy. */
  predicate LowEnergyGuard(a: ProfileAxes) {
    a.habitFoundation < 40.0 && a.energyChronotype < 60.0
  }

  /** The first guard that holds picks the archetype; exploratory otherwise.
      As the guards are disjoint, each archetype is characterised by its own
      guard alone. */
  function DetermineArchetype(axes: ProfileAxes): (t: Archetype)
    ensures t == PurposeDrivenHighEnergy <==> PurposeDrivenGuard(axes)
    ensures t == LowEnergyWantsChange <==> LowEnergyGuard(axes)
    ensures t == ExploratoryModerate <==> !PurposeDrivenGuard(axes) && !LowEnergyGuard(axes)
  {
    if PurposeDrivenGuard(axes) then PurposeDrivenHighEnergy
    else if LowEnergyGuard(axes) then LowEnergyWantsChange
    else ExploratoryModerate
  }

  /** Mindset and skill fit never influence the archetype. */
  lemma ArchetypeIgnoresMindsetAndSkillFit(axes: ProfileAxes, mindset: real, skillFit: real)
    ensures DetermineArchetype(axes.(mindset := mindset, skillFit := skillFit)) == DetermineArchetype(axes)
  {
  }

  /** Raising energy never moves a profile into the low-energy archetype. */
  lemma MoreEnergyNeverLowEnergy(axes: ProfileAxes, energy: real)
    requires energy >= axes.energyChronotype
    requires DetermineArchetype(axes) != LowEnergyWantsChange
    ensures DetermineArchetype(axes.(energyChronotype := energy)) != LowEnergyWantsChange
  {
  }

  /** Early risers with non-negative hours start at 90 energy, so they are
      never classified as low energy. */
  lemma EarlyRisersNeverLowEnergy(q: QuestionnaireResponse)
    requires q.chronotype == EarlyMorning && NonNegativeInputs(q)
    ensures DetermineArchetype(RawAxes(q)) != LowEnergyWantsChange
  {
  }

  /** Respondents keeping three or more habits start at 65 habit foundation,
      so they are never classified as low energy. */
  lemma HabitKeepersNeverLowEnergy(q: QuestionnaireResponse)
    requires q.habitCount == ThreeToFour || q.habitCount == FivePlus
    ensures DetermineArchetype(RawAxes(q)) != LowEnergyWantsChange
  {
  }

  /** A respondent with no purpose keyword and at most two specific outcomes
      has purpose clarity at most 30 and cannot be purpose driven. */
  lemma VaguePurposeNotPurposeDriven(q: QuestionnaireResponse)
    requires KeywordHits(PurposeKeywords, Text.Lower(q.passionateProblems)) == 0
    requires CountSpecific(Outcomes(q)) <= 2
    ensures DetermineArchetype(RawAxes(q)) != PurposeDrivenHighEnergy
  {
  }
}
