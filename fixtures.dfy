/** Worked cases drawn from the bundled knowledge base: the German and Japanese
    etiquette rules, the first-business-meeting template and the seeded session. */
module Fixtures {
  import opened Wrappers
  import opened Types
  import opened Messages
  import opened Text
  import opened Observer
  import opened Decision
  import opened Api

  /** Keywords of GE002, "Be punctual" (Critical, Business Meeting). */
  const PunctualityKeywords: seq<string> := ["punctual", "on time", "late", "meeting"]

  /** Learning modules of SCEN001. */
  const Scen001Modules: seq<string> := ["LM001", "LM002", "LM004"]

  /** In Germany GE001 (Negative) precedes GE002 (Critical). Any utterance
      with "late" in it, such as "I arrive 20 minutes late", trips GE002:
      whatever the intent, the decision is the Critical branch reporting
      GE002, with -25 and SCEN001's modules suggested. */
  lemma LateArrivalInGermany(c: Culture, t: ScenarioTemplate, settings: SystemSettings, obs: Observation,
                             ge001: EtiquetteRule, ge002: EtiquetteRule, others: seq<EtiquetteRule>,
                             action: string, k: nat)
    requires c.etiquetteRules == [ge001, ge002] + others
    requires ge001.consequences == Negative
    requires ge002.consequences == Critical && ge002.category == BusinessMeeting
    requires ge002.keywords == Some(PunctualityKeywords)
    requires t.relatedLearningModules == Some(Scen001Modules)
    requires OccursAt(action, "late", k)
    ensures var d := Decide(c, t, settings, action, obs);
      && Outcome(d) == (Critical, -25, -5)
      && ReportsRule(d, ge002)
      && d.detailedFeedback[0].dimension == [Value("Business Meeting"), Fixed(EtiquetteSuffix)]
      && d.suggestedResources == ["LM001", "LM002", "LM004"]
  {
    LateTripsKeyword(action, k, PunctualityKeywords, 2);
    assert RuleMatches(c.etiquetteRules[1], Lower(action));
    ReportedRuleIsFirst(c, t, settings, action, obs, Critical, 1);
  }

  /** Keywords of JP_E002, "Exchange business cards (Meishi)" (Critical, Business Meeting). */
  const MeishiKeywords: seq<string> := ["business card", "meishi", "two hands"]

  /** Keywords of JP_E003, "Do not stick chopsticks upright in rice" (Critical, Dining). */
  const ChopsticksKeywords: seq<string> := ["chopsticks", "rice", "upright", "funeral"]

  /** In Japan JP_E001 (Negative) and JP_E002 (Critical) precede JP_E003
      (Critical). An utterance with "chopsticks" in it, such as "I stick my
      chopsticks upright in the rice", that mentions no business card skips
      JP_E002 and trips JP_E003: the decision is the Critical branch reporting
      JP_E003 under the Dining dimension, with -25, whatever the intent. */
  lemma ChopsticksInJapan(c: Culture, t: ScenarioTemplate, settings: SystemSettings, obs: Observation,
                          jp001: EtiquetteRule, jp002: EtiquetteRule, jp003: EtiquetteRule,
                          others: seq<EtiquetteRule>, action: string, k: nat)
    requires c.etiquetteRules == [jp001, jp002, jp003] + others
    requires jp001.consequences == Negative
    requires jp002.consequences == Critical && jp002.keywords == Some(MeishiKeywords)
    requires !ContainsAny(Lower(action), MeishiKeywords)
    requires jp003.consequences == Critical && jp003.category == Dining
    requires jp003.keywords == Some(ChopsticksKeywords)
    requires OccursAt(action, "chopsticks", k)
    ensures var d := Decide(c, t, settings, action, obs);
      && Outcome(d) == (Critical, -25, -5)
      && ReportsRule(d, jp003)
      && d.detailedFeedback[0].dimension == [Value("Dining"), Fixed(EtiquetteSuffix)]
  {
    ChopsticksTrips(action, k, jp003);
    assert !RuleMatches(jp002, Lower(action));
    ThirdRuleReported(c, t, settings, obs, jp001, jp002, jp003, others, action);
  }

  /** With a Negative rule and a Critical rule that does not match ahead of
      it, a matching Critical third rule is the one reported. */
  lemma ThirdRuleReported(c: Culture, t: ScenarioTemplate, settings: SystemSettings, obs: Observation,
                          r1: EtiquetteRule, r2: EtiquetteRule, r3: EtiquetteRule,
                          others: seq<EtiquetteRule>, action: string)
    requires c.etiquetteRules == [r1, r2, r3] + others
    requires r1.consequences == Negative && r2.consequences == Critical && r3.consequences == Critical
    requires !RuleMatches(r2, Lower(action)) && RuleMatches(r3, Lower(action))
    ensures var d := Decide(c, t, settings, action, obs);
      Outcome(d) == (Critical, -25, -5) && ReportsRule(d, r3)
  {
    var rules := c.etiquetteRules;
    assert rules[0] == r1 && rules[1] == r2 && rules[2] == r3;
    ReportedRuleIsFirst(c, t, settings, action, obs, Critical, 2);
  }

  lemma ChopsticksTrips(action: string, k: nat, jp003: EtiquetteRule)
    requires jp003.keywords == Some(ChopsticksKeywords)
    requires OccursAt(action, "chopsticks", k)
    ensures RuleMatches(jp003, Lower(action))
  {
    LowercaseWordTrips(action, "chopsticks", k, ChopsticksKeywords, 0);
  }

  /** A keyword without capitals that occurs in the utterance trips every
      keyword list holding it, since lower-casing keeps it in place. */
  lemma LowercaseWordTrips(action: string, w: string, k: nat, keywords: seq<string>, j: nat)
    requires forall i :: 0 <= i < |w| ==> !('A' <= w[i] <= 'Z')
    requires OccursAt(action, w, k)
    requires j < |keywords| && keywords[j] == w
    ensures ContainsAny(Lower(action), keywords)
  {
    var u := Lower(action);
    assert u[k..k + |w|] == w by {
      forall i | k <= i < k + |w| ensures u[i] == w[i - k] {
        assert action[i] == w[i - k];
      }
    }
    assert OccursAt(u, w, k);
    LowerOfLowercase(w);
    assert Contains(u, Lower(keywords[j]));
    ContainsAnyIff(u, keywords);
  }

  /** Lower-casing keeps "late" where it was, so the utterance matches any
      keyword list holding "late". */
  lemma LateTripsKeyword(action: string, k: nat, keywords: seq<string>, j: nat)
    requires OccursAt(action, "late", k)
    requires j < |keywords| && keywords[j] == "late"
    ensures ContainsAny(Lower(action), keywords)
  {
    var u := Lower(action);
    assert u[k..k + 4] == "late" by {
      forall i | k <= i < k + 4 ensures u[i] == action[i] {
        assert action[i] == "late"[i - k];
      }
    }
    assert OccursAt(u, "late", k);
    LowerOfLowercase("late");
    assert Contains(u, Lower(keywords[j]));
    ContainsAnyIff(u, keywords);
  }

  /** The seeded session is at turn 1 of 10; from turn 9 one more interaction
      reaches turn 10 and completes the scenario. */
  lemma LastTurnCompletes(s: ActiveScenarioInstance, t: ScenarioTemplate, fb: InteractionFeedback)
    requires s.currentTurn == 9 && s.maxTurns == 10 && !s.isCompleted
    ensures Advance(s, t, fb).currentTurn == 10 && Advance(s, t, fb).isCompleted
  {
    AdvanceCompletion(s, t, fb);
  }

  /** The metric saturates at both ends: a Critical answer at 0 stays at 0 and
      a Positive-rule answer at 100 stays at 100. */
  lemma MetricSaturates(s: ActiveScenarioInstance, t: ScenarioTemplate, fb: InteractionFeedback)
    ensures s.successMetric == 0 && fb.overallCulturalCompetenceImpact == -25 ==> Advance(s, t, fb).successMetric == 0
    ensures s.successMetric == 100 && fb.overallCulturalCompetenceImpact == 15 ==> Advance(s, t, fb).successMetric == 100
  {
    AdvanceSteps(s, t, fb);
  }

  /** In the seeded SCEN001 session only "Demonstrate punctuality and
      preparation" is marked; a positive answer marks the template's first
      objective, "Establish professional rapport", and keeps the other mark. */
  lemma PositiveAnswerMarksFirstObjective(s: ActiveScenarioInstance, t: ScenarioTemplate, fb: InteractionFeedback)
    requires |t.objectives| > 0 && t.objectives[0] == "Establish professional rapport"
    requires "Demonstrate punctuality and preparation" in s.objectiveStatus
    requires s.objectiveStatus["Demonstrate punctuality and preparation"]
    requires fb.overallCulturalCompetenceImpact > 0
    ensures var m := Advance(s, t, fb).objectiveStatus;
      && "Establish professional rapport" in m && m["Establish professional rapport"]
      && "Demonstrate punctuality and preparation" in m && m["Demonstrate punctuality and preparation"]
  {
    AdvanceObjectives(s, t, fb);
  }
}
