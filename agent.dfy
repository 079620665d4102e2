/** `processUserInteraction`: observe, decide, package the feedback and, for
    a strongly positive interaction, request a token reward. */
module Agent {
  import opened Wrappers
  import opened Types
  import opened Observer
  import opened Decision

  /** What the token service's call comes back with: a fresh transaction id,
      or an error the packaging catches. */
  datatype IssueOutcome = Issued(tokenId: string) | IssueFailed(message: string)

  /** `tokenRewardService.issueTokens`: a token for the requested amount. */
  function IssueTokens(amount: int, tokenId: string): (r: Reward)
    ensures r.kind == Token && r.amount == Some(amount) && r.id == tokenId
  {
    Reward(Token, Some(amount), tokenId)
  }

  /** Impacts strictly above this earn a token reward. */
  const RewardThreshold := 10

  /** The packet before any reward: the decision, with the echo fields of the
      call and an empty suggestion list left out. */
  function Package(userAction: string, inst: ActiveScenarioInstance, profile: UserProfile, now: string, d: Decision)
    : (fb: InteractionFeedback)
    ensures fb.potentialRewardsEarned.None?
    ensures fb.suggestedResources.Some? ==> fb.suggestedResources.value == d.suggestedResources != []
    ensures fb.suggestedResources.None? ==> d.suggestedResources == []
  {
    InteractionFeedback(
      userAction, d.aiResponse, d.feedbackSummary, now,
      inst.instanceId, inst.targetCulture.id, profile,
      d.detailedFeedback, d.competenceImpact,
      if |d.suggestedResources| > 0 then Some(d.suggestedResources) else None,
      None)
  }

  /** The reward step: above the threshold, a token of `floor(impact / 5)`
      appended to any rewards already present when the service answers; a
      caught failure leaves the packet as it is. */
  function WithReward(fb: InteractionFeedback, issue: IssueOutcome): (r: InteractionFeedback)
    ensures r.(potentialRewardsEarned := fb.potentialRewardsEarned) == fb
    ensures r != fb <==> fb.overallCulturalCompetenceImpact > RewardThreshold && issue.Issued?
    ensures r != fb ==> var before := fb.potentialRewardsEarned.GetOr([]);
      && r.potentialRewardsEarned.Some? && |r.potentialRewardsEarned.value| == |before| + 1
      && r.potentialRewardsEarned.value[..|before|] == before
  {
    if fb.overallCulturalCompetenceImpact > RewardThreshold && issue.Issued? then
      var reward := IssueTokens(fb.overallCulturalCompetenceImpact / 5, issue.tokenId);
      fb.(potentialRewardsEarned := Some(fb.potentialRewardsEarned.GetOr([]) + [reward]))
    else fb
  }

  /** The packet `processUserInteraction` resolves to. */
  function Interaction(inst: ActiveScenarioInstance, userAction: string, profile: UserProfile, c: Culture,
                       settings: SystemSettings, t: ScenarioTemplate, now: string, issue: IssueOutcome)
    : (fb: InteractionFeedback)
    ensures fb.userAction == userAction && fb.scenarioId == inst.instanceId && fb.timestamp == now
    ensures fb.potentialRewardsEarned.Some? ==> fb.overallCulturalCompetenceImpact > RewardThreshold && issue.Issued?
  {
    WithReward(Package(userAction, inst, profile, now, Decide(c, t, settings, userAction, Observe(c, t, userAction))), issue)
  }

  /** The agent's entry point, run step by step: the observation loop, the
      decision, the packet, then the reward request whose failure is caught. */
  method ProcessUserInteraction(userId: string, inst: ActiveScenarioInstance, userAction: string,
                                profile: UserProfile, c: Culture, settings: SystemSettings,
                                t: ScenarioTemplate, now: string, issue: IssueOutcome)
    returns (fb: InteractionFeedback)
    ensures fb == Interaction(inst, userAction, profile, c, settings, t, now, issue)
  {
    var obs := Scan(c, t, userAction);
    var d := Decide(c, t, settings, userAction, obs);
    fb := Package(userAction, inst, profile, now, d);
    if fb.overallCulturalCompetenceImpact > RewardThreshold {
      match issue
      case Issued(tokenId) =>
        var reward := IssueTokens(fb.overallCulturalCompetenceImpact / 5, tokenId);
        assert fb.potentialRewardsEarned.GetOr([]) + [reward] == [reward];
        fb := fb.(potentialRewardsEarned := Some(fb.potentialRewardsEarned.GetOr([]) + [reward]));
      case IssueFailed(_) =>
    }
  }

  /** The packet carries the decision on the observed intent and echoes the
      call: the utterance, the instance id, the target culture's id, the
      profile and the time. */
  lemma PacketEchoesCall(inst: ActiveScenarioInstance, userAction: string, profile: UserProfile, c: Culture,
                         settings: SystemSettings, t: ScenarioTemplate, now: string, issue: IssueOutcome)
    ensures var fb := Interaction(inst, userAction, profile, c, settings, t, now, issue);
      var d := Decide(c, t, settings, userAction, Observe(c, t, userAction));
      && fb.userAction == userAction && fb.scenarioId == inst.instanceId
      && fb.targetCultureId == inst.targetCulture.id && fb.userProfileSnapshot == profile
      && fb.timestamp == now
      && fb.aiResponse == d.aiResponse && fb.feedbackSummary == d.feedbackSummary
      && fb.detailedFeedback == d.detailedFeedback
      && fb.overallCulturalCompetenceImpact == d.competenceImpact
  {
  }

  /** Suggestions are present exactly in the Critical branch when the template
      lists learning modules, and are then those modules in order. */
  lemma SuggestionsOnlyWhenCritical(inst: ActiveScenarioInstance, userAction: string, profile: UserProfile,
                                    c: Culture, settings: SystemSettings, t: ScenarioTemplate, now: string,
                                    issue: IssueOutcome)
    ensures var fb := Interaction(inst, userAction, profile, c, settings, t, now, issue);
      && (fb.suggestedResources.Some? <==>
            fb.feedbackSummary.severity == Critical && |t.relatedLearningModules.GetOr([])| > 0)
      && (fb.suggestedResources.Some? ==> fb.suggestedResources.value == t.relatedLearningModules.value)
  {
  }

  /** A reward is attached exactly when the impact exceeds 10 and the token
      service answers; it is then one token of `floor(impact / 5)`. A failed
      request still yields the packet, without a reward. */
  lemma RewardRule(inst: ActiveScenarioInstance, userAction: string, profile: UserProfile, c: Culture,
                   settings: SystemSettings, t: ScenarioTemplate, now: string, issue: IssueOutcome)
    ensures var fb := Interaction(inst, userAction, profile, c, settings, t, now, issue);
      && (fb.potentialRewardsEarned.Some? <==> fb.overallCulturalCompetenceImpact > 10 && issue.Issued?)
      && (fb.potentialRewardsEarned.Some? ==>
            fb.potentialRewardsEarned.value == [Reward(Token, Some(fb.overallCulturalCompetenceImpact / 5), issue.tokenId)])
      && (issue.IssueFailed? ==>
            fb == Package(userAction, inst, profile, now, Decide(c, t, settings, userAction, Observe(c, t, userAction))))
  {
  }

  /** Of the six outcomes only the Positive-rule branch (+15) clears the
      threshold, so every reward is a token of 3 for a Positive decision;
      aligning with an objective (+10) earns nothing. */
  lemma OnlyPositiveRuleRewards(inst: ActiveScenarioInstance, userAction: string, profile: UserProfile, c: Culture,
                                settings: SystemSettings, t: ScenarioTemplate, now: string, issue: IssueOutcome)
    ensures var fb := Interaction(inst, userAction, profile, c, settings, t, now, issue);
      fb.potentialRewardsEarned.Some? ==>
        && fb.overallCulturalCompetenceImpact == 15
        && fb.feedbackSummary.severity == Positive
        && fb.detailedFeedback[0].score == 4
        && fb.potentialRewardsEarned.value[0].amount == Some(3)
  {
    var d := Decide(c, t, settings, userAction, Observe(c, t, userAction));
    RewardedOutcome(Package(userAction, inst, profile, now, d), d, issue);
  }

  lemma RewardedOutcome(fb: InteractionFeedback, d: Decision, issue: IssueOutcome)
    requires |d.detailedFeedback| == 1 && IsBranchOutcome(Outcome(d))
    requires fb.overallCulturalCompetenceImpact == d.competenceImpact
    requires fb.feedbackSummary == d.feedbackSummary && fb.detailedFeedback == d.detailedFeedback
    ensures var r := WithReward(fb, issue);
      r.potentialRewardsEarned.Some? && fb.potentialRewardsEarned.None? ==>
        && r.overallCulturalCompetenceImpact == 15
        && r.feedbackSummary.severity == Positive
        && r.detailedFeedback[0].score == 4
        && r.potentialRewardsEarned.value[0].amount == Some(3)
  {
  }
}
