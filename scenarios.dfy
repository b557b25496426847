/** Worked examples: the scores and plans the model gives single questionnaires. */
module Scenarios {
  import opened Text
  import opened Domain
  import opened Scoring
  import opened Archetypes
  import opened Plans

  /** A questionnaire with every text answer empty and no lists. */
  function Blank(c: Chronotype, h: HabitCount, s: SetbackReaction, commitment: int, weekday: real, weekend: real): QuestionnaireResponse {
    QuestionnaireResponse("", "", [], weekday, weekend, c, "", None, h, s, "", "", "", "", [], commitment)
  }

  /** An early riser with no routine and eight hours a day every day: 90 base,
      no routine bonus, time bonus capped at 30, total capped at 100. */
  lemma EarlyRiserFullEnergy()
    ensures EnergyChronotype(Blank(EarlyMorning, Zero, GiveUp, 1, 8.0, 8.0)) == 100.0
  {
    var q := Blank(EarlyMorning, Zero, GiveUp, 1, 8.0, 8.0);
    assert !HasRoutine(q);
  }

  /** No habits and an empty habit change: habit foundation 10. Giving up with
      commitment 1: mindset 25. */
  lemma LowestHabitAndMindset()
    ensures HabitFoundation(Blank(Night, Zero, GiveUp, 1, 0.0, 0.0)) == 10.0
    ensures Mindset(Blank(Night, Zero, GiveUp, 1, 0.0, 0.0)) == 25.0
  {
    assert |Strip("")| == 0;
  }

  /** Three outcomes of more than three words each are all specific. */
  lemma AllThreeSpecific(x: string, y: string, z: string)
    requires |Split(x)| > 3 && |Split(y)| > 3 && |Split(z)| > 3
    ensures CountSpecific([x, y, z]) == 3
  {
    assert [x][..0] == [];
    assert CountSpecific([x]) == 1;
    assert [x, y][..1] == [x];
    assert CountSpecific([x, y]) == 2;
    assert [x, y, z][..2] == [x, y];
  }

  predicate Words(ws: seq<string>) {
    forall k :: 0 <= k < |ws| ==> IsWord(ws[k])
  }

  /** Outcomes each written as four or more words separated by single spaces
      are all specific, which alone puts purpose clarity at 45 or more. */
  lemma WordyOutcomesGivePurpose(q: QuestionnaireResponse, w1: seq<string>, w2: seq<string>, w3: seq<string>)
    requires Words(w1) && Words(w2) && Words(w3)
    requires |w1| >= 4 && |w2| >= 4 && |w3| >= 4
    requires q.outcome1 == JoinSpace(w1) && q.outcome2 == JoinSpace(w2) && q.outcome3 == JoinSpace(w3)
    ensures CountSpecific(Outcomes(q)) == 3
    ensures PurposeClarity(q) >= 45.0
  {
    SplitJoin(w1);
    SplitJoin(w2);
    SplitJoin(w3);
    AllThreeSpecific(q.outcome1, q.outcome2, q.outcome3);
  }

  /** "Help build" is a capital H before lower-case text. */
  lemma ExampleShape(s: string)
    requires s == "Help build"
    ensures |s| >= 1 && s[0] == 'H'
    ensures forall i :: 1 <= i < |s| ==> !IsUpper(s[i])
  {
  }

  lemma ExampleLowered(s: string, l: string)
    requires s == "Help build" && l == [LowerChar(s[0])] + s[1..]
    ensures l == "help build"
  {
    assert LowerChar('H') == 'h';
  }

  /** Lower-casing "Help build" only lower-cases its capital H. */
  lemma LoweredExample(s: string)
    requires s == "Help build"
    ensures Lower(s) == "help build"
  {
    ExampleShape(s);
    var r := s[1..];
    assert s == [s[0]] + r;
    LowerCapitalised(s[0], r);
    ExampleLowered(s, [LowerChar(s[0])] + r);
  }

  lemma ExampleHasHelp(t: string)
    requires t == "help build"
    ensures Contains(t, "help")
  {
    ContainsInfix("", "help", " build");
    assert "" + "help" + " build" == t;
  }

  lemma ExampleHasBuild(t: string)
    requires t == "help build"
    ensures Contains(t, "build")
  {
    ContainsInfix("help ", "build", "");
    assert "help " + "build" + "" == t;
  }

  lemma ExampleLacksLetters(t: string)
    requires t == "help build"
    ensures 'c' !in t && 'v' !in t && 'm' !in t
  {
  }

  /** Each purpose keyword other than "help" and "build" has a c, v or m. */
  lemma NoOtherPurposeKeyword(t: string)
    requires 'c' !in t && 'v' !in t && 'm' !in t
    ensures !Contains(t, "create") && !Contains(t, "solve") && !Contains(t, "improve")
    ensures !Contains(t, "teach") && !Contains(t, "mentor") && !Contains(t, "impact")
  {
    MissingCharNotContained(t, "create", 0);
    MissingCharNotContained(t, "solve", 3);
    MissingCharNotContained(t, "improve", 1);
    MissingCharNotContained(t, "teach", 3);
    MissingCharNotContained(t, "mentor", 0);
    MissingCharNotContained(t, "impact", 1);
  }

  /** A text with "help" and "build" and without c, v or m hits exactly two
      purpose keywords. */
  lemma HelpAndBuildHitTwo(t: string)
    requires Contains(t, "help") && Contains(t, "build")
    requires 'c' !in t && 'v' !in t && 'm' !in t
    ensures KeywordHits(PurposeKeywords, t) == 2
  {
    NoOtherPurposeKeyword(t);
    var k := PurposeKeywords;
    assert k[..1][..0] == [] && k[..2][..1] == k[..1] && k[..3][..2] == k[..2] && k[..4][..3] == k[..3];
    assert k[..5][..4] == k[..4] && k[..6][..5] == k[..5] && k[..7][..6] == k[..6] && k[..7] == k[..|k| - 1];
    assert KeywordHits(k[..1], t) == 0;
    assert KeywordHits(k[..2], t) == 1;
    assert KeywordHits(k[..3], t) == 2;
    assert KeywordHits(k[..4], t) == 2;
    assert KeywordHits(k[..5], t) == 2;
    assert KeywordHits(k[..6], t) == 2;
    assert KeywordHits(k[..7], t) == 2;
  }

  /** "Help build" with three outcomes of four or more words: two keywords and three specific outcomes give 20 + 20 + 15 + 15 +
      15 = 85 purpose clarity. */
  lemma HelpAndBuildPurpose(q: QuestionnaireResponse, w1: seq<string>, w2: seq<string>, w3: seq<string>)
    requires q.passionateProblems == "Help build"
    requires Words(w1) && Words(w2) && Words(w3)
    requires |w1| >= 4 && |w2| >= 4 && |w3| >= 4
    requires q.outcome1 == JoinSpace(w1) && q.outcome2 == JoinSpace(w2) && q.outcome3 == JoinSpace(w3)
    ensures PurposeClarity(q) == 85.0
  {
    WordyOutcomesGivePurpose(q, w1, w2, w3);
    LoweredExample(q.passionateProblems);
    var t := Lower(q.passionateProblems);
    ExampleHasHelp(t);
    ExampleHasBuild(t);
    ExampleLacksLetters(t);
    HelpAndBuildHitTwo(t);
  }
}
