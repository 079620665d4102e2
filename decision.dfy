/** The decision stage of the evaluator: a strict priority chain over the
    matched etiquette rules, then over the observed intent. */
module Decision {
  import opened Wrappers
  import opened Types
  import opened Text
  import opened Observer
  import opened Messages

  datatype Decision = Decision(
    aiResponse: Message, feedbackSummary: FeedbackSummary,
    detailedFeedback: seq<DetailedFeedback>, competenceImpact: int,
    suggestedResources: seq<string>)

  /** The fixed opening of every response, by persona; 'neutral' and anything
      else share the default. */
  function ResponsePrefix(persona: Persona): (p: Phrase)
    ensures p == SupportivePrefix || p == ChallengingPrefix || p == FormalAdvisorPrefix || p == DefaultPrefix
    ensures p == DefaultPrefix <==> persona == Impartial
  {
    match persona
    case Supportive => SupportivePrefix
    case Challenging => ChallengingPrefix
    case FormalAdvisor => FormalAdvisorPrefix
    case Impartial => DefaultPrefix
  }

  predicate RuleMatches(r: EtiquetteRule, u: string) {
    KeywordsMatch(r.keywords, u)
  }

  /** The etiquette rules with consequence `sev` whose keywords match, in rule
      order (the source's three `filter` calls). */
  function MatchingRules(rules: seq<EtiquetteRule>, sev: Severity, u: string): (r: seq<EtiquetteRule>)
    ensures |r| <= |rules|
  {
    if rules == [] then []
    else
      (if rules[0].consequences == sev && RuleMatches(rules[0], u) then [rules[0]] else [])
        + MatchingRules(rules[1..], sev, u)
  }

  /** Some rule with consequence `sev` matches the utterance. */
  ghost predicate HasMatch(rules: seq<EtiquetteRule>, sev: Severity, u: string) {
    exists i :: 0 <= i < |rules| && rules[i].consequences == sev && RuleMatches(rules[i], u)
  }

  /** The filter keeps exactly the matching rules of consequence `sev`: all it
      keeps pass, and it is empty only when none does. */
  lemma {:induction false} MatchingRulesSpec(rules: seq<EtiquetteRule>, sev: Severity, u: string)
    ensures forall x :: x in MatchingRules(rules, sev, u) ==> x in rules && x.consequences == sev && RuleMatches(x, u)
    ensures |MatchingRules(rules, sev, u)| > 0 <==> HasMatch(rules, sev, u)
  {
    if rules != [] {
      var rest := MatchingRules(rules[1..], sev, u);
      MatchingRulesSpec(rules[1..], sev, u);
      assert forall x :: x in rules[1..] ==> x in rules;
      if rules[0].consequences == sev && RuleMatches(rules[0], u) {
        assert MatchingRules(rules, sev, u) == [rules[0]] + rest;
      } else {
        assert MatchingRules(rules, sev, u) == rest;
        if HasMatch(rules[1..], sev, u) {
          var i :| 0 <= i < |rules[1..]| && rules[1..][i].consequences == sev && RuleMatches(rules[1..][i], u);
          assert rules[i + 1] == rules[1..][i];
        }
        if HasMatch(rules, sev, u) {
          var i :| 0 <= i < |rules| && rules[i].consequences == sev && RuleMatches(rules[i], u);
          assert rules[1..][i - 1] == rules[i];
        }
      }
    }
  }

  /** (severity, competence impact, detailed score) of the six branches. */
  predicate IsBranchOutcome(o: (Severity, int, int)) {
    || o == (Critical, -25, -5) || o == (Negative, -10, -3) || o == (Positive, 15, 4)
    || o == (Positive, 10, 3) || o == (Advisory, -5, -2) || o == (Neutral, 0, 0)
  }

  function Outcome(d: Decision): (Severity, int, int)
    requires |d.detailedFeedback| == 1
  {
    (d.feedbackSummary.severity, d.competenceImpact, d.detailedFeedback[0].score)
  }

  /** A decision with a single detailed-feedback entry whose severity is the
      summary's, and the given outcome. */
  predicate HasOutcome(d: Decision, o: (Severity, int, int)) {
    && |d.detailedFeedback| == 1
    && d.detailedFeedback[0].severity == d.feedbackSummary.severity
    && Outcome(d) == o
  }

  /** The rule a decision reports: its category names the dimension, its
      description opens the explanation and ends the response. */
  predicate ReportsRule(d: Decision, rule: EtiquetteRule) {
    && |d.detailedFeedback| == 1
    && d.detailedFeedback[0].dimension == [Value(CategoryName(rule.category)), Fixed(EtiquetteSuffix)]
    && |d.detailedFeedback[0].explanation| > 0
    && d.detailedFeedback[0].explanation[0] == Value(rule.description)
    && |d.aiResponse| > 0 && d.aiResponse[|d.aiResponse| - 1] == Value(rule.description)
  }

  /** The branch of the if/else chain that applies. */
  datatype Branch =
    | CriticalRule(rule: EtiquetteRule)
    | NegativeRule(rule: EtiquetteRule)
    | PositiveRule(rule: EtiquetteRule)
    | ObjectiveAligned
    | PitfallApproached
    | NoImplication

  function SelectBranch(rules: seq<EtiquetteRule>, u: string, intent: Intent): (b: Branch)
    ensures b.CriticalRule? ==> b.rule in rules && b.rule.consequences == Critical && RuleMatches(b.rule, u)
    ensures b.NegativeRule? ==> b.rule in rules && b.rule.consequences == Negative && RuleMatches(b.rule, u)
    ensures b.PositiveRule? ==> b.rule in rules && b.rule.consequences == Positive && RuleMatches(b.rule, u)
    ensures b.ObjectiveAligned? ==> intent == PositiveAction
    ensures b.PitfallApproached? ==> intent == PotentialPitfall
  {
    MatchingRulesSpec(rules, Critical, u);
    MatchingRulesSpec(rules, Negative, u);
    MatchingRulesSpec(rules, Positive, u);
    var critical := MatchingRules(rules, Critical, u);
    var negative := MatchingRules(rules, Negative, u);
    var positive := MatchingRules(rules, Positive, u);
    if |critical| > 0 then CriticalRule(critical[0])
    else if |negative| > 0 then NegativeRule(negative[0])
    else if |positive| > 0 then PositiveRule(positive[0])
    else if intent == PositiveAction then ObjectiveAligned
    else if intent == PotentialPitfall then PitfallApproached
    else NoImplication
  }

  /** The outcome table of the six branches. */
  function BranchOutcome(b: Branch): (o: (Severity, int, int))
    ensures IsBranchOutcome(o)
    ensures o.0 == Critical <==> b.CriticalRule?
    ensures o.1 > 0 <==> b.PositiveRule? || b.ObjectiveAligned?
  {
    match b
    case CriticalRule(_) => (Critical, -25, -5)
    case NegativeRule(_) => (Negative, -10, -3)
    case PositiveRule(_) => (Positive, 15, 4)
    case ObjectiveAligned => (Positive, 10, 3)
    case PitfallApproached => (Advisory, -5, -2)
    case NoImplication => (Neutral, 0, 0)
  }

  /** What each branch writes, behind the persona's prefix. */
  function RenderDecision(b: Branch, cultureName: string, t: ScenarioTemplate, persona: Persona): (d: Decision)
    ensures HasOutcome(d, BranchOutcome(b))
    ensures b.CriticalRule? || b.NegativeRule? || b.PositiveRule? ==> ReportsRule(d, b.rule)
    ensures |d.aiResponse| > 0 && d.aiResponse[0] == Fixed(ResponsePrefix(persona))
    ensures d.suggestedResources == if b.CriticalRule? then t.relatedLearningModules.GetOr([]) else []
  {
    var prefix := Fixed(ResponsePrefix(persona));
    match b
    case CriticalRule(rule) =>
      Decision(
        [prefix, Fixed(AtmosphereShifts), Value(rule.description)],
        FeedbackSummary([Fixed(CriticalLabel), Value(rule.rule), Fixed(ViolationSuffix)], Critical),
        [DetailedFeedback([Value(CategoryName(rule.category)), Fixed(EtiquetteSuffix)], -5,
           [Value(rule.description), Fixed(SevereTaboo), Value(cultureName), Fixed(Period)],
           Critical, [[Fixed(AvoidIn), Value(cultureName), Fixed(Period)]])],
        -25,
        t.relatedLearningModules.GetOr([]))
    case NegativeRule(rule) =>
      Decision(
        [prefix, Fixed(SubtleShift), Value(rule.description)],
        FeedbackSummary([Fixed(NegativeLabel), Value(rule.rule), Fixed(PerceivedPoorly)], Negative),
        [DetailedFeedback([Value(CategoryName(rule.category)), Fixed(EtiquetteSuffix)], -3,
           [Value(rule.description), Fixed(LeadsToMisunderstandings)],
           Negative, [[Fixed(BeMindfulOf), Value(CategoryName(rule.category)), Fixed(InWord), Value(cultureName), Fixed(Period)]])],
        -10, [])
    case PositiveRule(rule) =>
      Decision(
        [prefix, Fixed(ReactPositively), Value(rule.description)],
        FeedbackSummary([Fixed(WellAlignedWith), Value(CategoryName(rule.category)), Fixed(EtiquetteWord)], Positive),
        [DetailedFeedback([Value(CategoryName(rule.category)), Fixed(EtiquetteSuffix)], 4,
           [Value(rule.description), Fixed(CulturallyAppropriate)],
           Positive, [[Fixed(ContinueToApply), Value(cultureName), Fixed(Period)]])],
        15, [])
    case ObjectiveAligned =>
      Decision(
        [prefix, Fixed(WellReceived)],
        FeedbackSummary([Fixed(AlignedWithObjectives)], Positive),
        [DetailedFeedback([Fixed(ScenarioObjective)], 3, [Fixed(GoodChoice)], Positive, [])],
        10, [])
    case PitfallApproached =>
      Decision(
        [prefix, Fixed(Awkwardness)],
        FeedbackSummary([Fixed(PitfallApproachedSummary)], Advisory),
        [DetailedFeedback([Fixed(ScenarioPitfall)], -2, [Fixed(TouchedPitfall)], Advisory, [])],
        -5, [])
    case NoImplication =>
      Decision(
        [prefix, Fixed(UnderstandInput)],
        FeedbackSummary([Fixed(NoImplications)], Neutral),
        [DetailedFeedback([Fixed(GeneralInteractionDimension)], 0, [Fixed(GenerallyAcceptable)], Neutral, [])],
        0, [])
  }

  /** `decide`: the first applicable branch of Critical rule, Negative rule,
      Positive rule, positive action, pitfall and neutral fixes the response,
      the summary, a single detailed-feedback entry and the impact; only the
      Critical branch suggests the template's learning modules. Every
      response opens with the persona's prefix. */
  function Decide(c: Culture, t: ScenarioTemplate, settings: SystemSettings, userAction: string, obs: Observation)
    : (d: Decision)
    ensures |d.detailedFeedback| == 1 && d.detailedFeedback[0].severity == d.feedbackSummary.severity
    ensures IsBranchOutcome(Outcome(d))
    ensures |d.aiResponse| > 0 && d.aiResponse[0] == Fixed(ResponsePrefix(settings.aiPersona))
    ensures d.feedbackSummary.severity == Critical ==> d.suggestedResources == t.relatedLearningModules.GetOr([])
    ensures d.feedbackSummary.severity != Critical ==> d.suggestedResources == []
  {
    RenderDecision(SelectBranch(c.etiquetteRules, Lower(userAction), obs.userIntent), c.name, t, settings.aiPersona)
  }

  /** The decision is the rendering of the selected branch behind the persona
      prefix; in particular a reported rule stays reported. */
  lemma DecideRendersBranch(c: Culture, t: ScenarioTemplate, settings: SystemSettings, userAction: string, obs: Observation)
    ensures var b := SelectBranch(c.etiquetteRules, Lower(userAction), obs.userIntent);
      var d := Decide(c, t, settings, userAction, obs);
      && HasOutcome(d, BranchOutcome(b))
      && (b.CriticalRule? || b.NegativeRule? || b.PositiveRule? ==> ReportsRule(d, b.rule))
  {
  }

  /** The priority chain is total: a matched Critical rule beats a Negative
      one, which beats a Positive one; only without any of them does the
      intent decide, positive action before pitfall before neutral. */
  lemma DecisionPriority(c: Culture, t: ScenarioTemplate, settings: SystemSettings, userAction: string, obs: Observation)
    ensures var u := Lower(userAction); var rules := c.etiquetteRules;
      var d := Decide(c, t, settings, userAction, obs);
      && (HasMatch(rules, Critical, u) ==> Outcome(d) == (Critical, -25, -5))
      && (!HasMatch(rules, Critical, u) && HasMatch(rules, Negative, u) ==> Outcome(d) == (Negative, -10, -3))
      && (!HasMatch(rules, Critical, u) && !HasMatch(rules, Negative, u) && HasMatch(rules, Positive, u) ==>
            Outcome(d) == (Positive, 15, 4))
      && (!HasMatch(rules, Critical, u) && !HasMatch(rules, Negative, u) && !HasMatch(rules, Positive, u) ==>
            Outcome(d) == (if obs.userIntent == PositiveAction then (Positive, 10, 3)
                           else if obs.userIntent == PotentialPitfall then (Advisory, -5, -2)
                           else (Neutral, 0, 0)))
  {
    var u := Lower(userAction);
    MatchingRulesSpec(c.etiquetteRules, Critical, u);
    MatchingRulesSpec(c.etiquetteRules, Negative, u);
    MatchingRulesSpec(c.etiquetteRules, Positive, u);
    DecideRendersBranch(c, t, settings, userAction, obs);
  }

  /** The filtered list starts with the first rule, in rule order, that passes
      the filter. */
  lemma {:induction false} FirstMatchHeadsFilter(rules: seq<EtiquetteRule>, sev: Severity, u: string, i: nat)
    requires i < |rules| && rules[i].consequences == sev && RuleMatches(rules[i], u)
    requires forall j :: 0 <= j < i ==> !(rules[j].consequences == sev && RuleMatches(rules[j], u))
    ensures |MatchingRules(rules, sev, u)| > 0 && MatchingRules(rules, sev, u)[0] == rules[i]
  {
    if i > 0 {
      FirstMatchHeadsFilter(rules[1..], sev, u, i - 1);
    }
  }

  /** In a rule branch the rule reported is the first matching rule of that
      consequence: its category names the feedback dimension, its description
      ends the response and opens the explanation. */
  lemma ReportedRuleIsFirst(c: Culture, t: ScenarioTemplate, settings: SystemSettings, userAction: string,
                            obs: Observation, sev: Severity, i: nat)
    requires sev == Critical || sev == Negative || sev == Positive
    requires var u := Lower(userAction);
      && i < |c.etiquetteRules| && c.etiquetteRules[i].consequences == sev
      && RuleMatches(c.etiquetteRules[i], u)
      && (forall j :: 0 <= j < i ==> !(c.etiquetteRules[j].consequences == sev && RuleMatches(c.etiquetteRules[j], u)))
      && (sev != Critical ==> !HasMatch(c.etiquetteRules, Critical, u))
      && (sev == Positive ==> !HasMatch(c.etiquetteRules, Negative, u))
    ensures var d := Decide(c, t, settings, userAction, obs);
      d.feedbackSummary.severity == sev && ReportsRule(d, c.etiquetteRules[i])
  {
    var u := Lower(userAction);
    FirstMatchHeadsFilter(c.etiquetteRules, sev, u, i);
    MatchingRulesSpec(c.etiquetteRules, Critical, u);
    MatchingRulesSpec(c.etiquetteRules, Negative, u);
    DecideRendersBranch(c, t, settings, userAction, obs);
  }

  /** Filtering distributes over concatenation. */
  lemma {:induction false} MatchingRulesAppend(a: seq<EtiquetteRule>, b: seq<EtiquetteRule>, sev: Severity, u: string)
    ensures MatchingRules(a + b, sev, u) == MatchingRules(a, sev, u) + MatchingRules(b, sev, u)
  {
    if a == [] {
      assert a + b == b;
    } else {
      assert (a + b)[1..] == a[1..] + b;
      MatchingRulesAppend(a[1..], b, sev, u);
    }
  }

  lemma SkippedSingleton(extra: EtiquetteRule, sev: Severity, u: string)
    requires extra.consequences != sev
    ensures MatchingRules([extra], sev, u) == []
  {
    assert [extra][1..] == [];
  }

  /** A rule that fails the filter can be inserted anywhere without changing
      the filtered list. */
  lemma {:induction false} FilterSkipsInserted(rules: seq<EtiquetteRule>, k: nat, extra: EtiquetteRule, sev: Severity, u: string)
    requires k <= |rules| && extra.consequences != sev
    ensures MatchingRules(rules[..k] + [extra] + rules[k..], sev, u) == MatchingRules(rules, sev, u)
  {
    var front, back := rules[..k], rules[k..];
    assert rules == front + back;
    SkippedSingleton(extra, sev, u);
    calc {
      MatchingRules(front + [extra] + back, sev, u);
      { MatchingRulesAppend(front + [extra], back, sev, u); }
      MatchingRules(front + [extra], sev, u) + MatchingRules(back, sev, u);
      { MatchingRulesAppend(front, [extra], sev, u); }
      MatchingRules(front, sev, u) + MatchingRules(back, sev, u);
      { MatchingRulesAppend(front, back, sev, u); }
      MatchingRules(rules, sev, u);
    }
  }

  /** Etiquette rules whose consequence is Neutral or Advisory never affect the
      decision: inserting one anywhere leaves it unchanged. */
  lemma IgnoredConsequences(c: Culture, t: ScenarioTemplate, settings: SystemSettings, userAction: string,
                            obs: Observation, k: nat, extra: EtiquetteRule)
    requires k <= |c.etiquetteRules|
    requires extra.consequences == Neutral || extra.consequences == Advisory
    ensures var rules := c.etiquetteRules;
      Decide(c.(etiquetteRules := rules[..k] + [extra] + rules[k..]), t, settings, userAction, obs)
        == Decide(c, t, settings, userAction, obs)
  {
    var rules := c.etiquetteRules;
    var u := Lower(userAction);
    FilterSkipsInserted(rules, k, extra, Critical, u);
    FilterSkipsInserted(rules, k, extra, Negative, u);
    FilterSkipsInserted(rules, k, extra, Positive, u);
  }

  /** The same, with the observation recomputed from the changed culture: the
      inserted rule may add an identified aspect or change the keyword intent,
      but neither reaches the decision. */
  lemma IgnoredConsequencesObserved(c: Culture, t: ScenarioTemplate, settings: SystemSettings, userAction: string,
                                    k: nat, extra: EtiquetteRule)
    requires k <= |c.etiquetteRules|
    requires extra.consequences == Neutral || extra.consequences == Advisory
    ensures var c' := c.(etiquetteRules := c.etiquetteRules[..k] + [extra] + c.etiquetteRules[k..]);
      Decide(c', t, settings, userAction, Observe(c', t, userAction))
        == Decide(c, t, settings, userAction, Observe(c, t, userAction))
  {
    var c' := c.(etiquetteRules := c.etiquetteRules[..k] + [extra] + c.etiquetteRules[k..]);
    var before, after := Observe(c, t, userAction).userIntent, Observe(c', t, userAction).userIntent;
    ObservedIntent(c, t, userAction);
    ObservedIntent(c', t, userAction);
    IgnoredConsequences(c, t, settings, userAction, Observe(c', t, userAction), k, extra);
    SelectBranchReadsPhraseIntents(c.etiquetteRules, Lower(userAction), after, before);
  }

  /** The chain reads the intent only to tell a positive action and a pitfall
      from everything else. */
  lemma SelectBranchReadsPhraseIntents(rules: seq<EtiquetteRule>, u: string, i1: Intent, i2: Intent)
    requires (i1 == PositiveAction <==> i2 == PositiveAction) && (i1 == PotentialPitfall <==> i2 == PotentialPitfall)
    ensures SelectBranch(rules, u, i1) == SelectBranch(rules, u, i2)
  {
  }

  /** The decision ignores the case of the utterance, since `observe` and
      `decide` both read its lower-cased form. */
  lemma DecideIgnoresCase(c: Culture, t: ScenarioTemplate, settings: SystemSettings, userAction: string)
    ensures Decide(c, t, settings, Lower(userAction), Observe(c, t, Lower(userAction)))
         == Decide(c, t, settings, userAction, Observe(c, t, userAction))
  {
    ObserveIgnoresCase(c, t, userAction);
    LowerIdempotent(userAction);
  }

  /** The rendered response opens with the persona's prefix text, which ends
      in a space. */
  lemma ResponseOpensWithPrefix(c: Culture, t: ScenarioTemplate, settings: SystemSettings, userAction: string,
                                obs: Observation)
    ensures var prefix := PhraseText(ResponsePrefix(settings.aiPersona));
      && prefix <= Render(Decide(c, t, settings, userAction, obs).aiResponse)
      && |prefix| > 0 && prefix[|prefix| - 1] == ' '
  {
    PrefixEndsInSpace(ResponsePrefix(settings.aiPersona));
  }
}
