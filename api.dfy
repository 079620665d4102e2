/** The in-memory session store: starting a scenario appends a fresh instance,
    processing an interaction runs the agent and then updates the instance in
    place. */
module Api {
  import opened Wrappers
  import opened Types
  import opened Messages
  import opened Agent

  /** The three errors the store throws. */
  datatype ApiError =
    | InvalidStart          // unknown template, culture or user profile
    | InstanceNotFound      // no instance with the given id
    | MissingPrerequisites  // the user profile or the instance's template is gone

  const MaxTurns := 10
  const InitialSuccessMetric := 50

  /** `findIndex`: the first position whose element satisfies `p`. */
  function FirstIndex<T>(s: seq<T>, p: T -> bool): (r: Option<nat>)
    ensures r.Some? ==> r.value < |s| && p(s[r.value]) && forall j :: 0 <= j < r.value ==> !p(s[j])
    ensures r.None? ==> forall j :: 0 <= j < |s| ==> !p(s[j])
  {
    if s == [] then None
    else if p(s[0]) then Some(0)
    else match FirstIndex(s[1..], p)
      case None => None
      case Some(i) => Some(i + 1)
  }

  /** `find`: the first element satisfying `p`. */
  function Find<T>(s: seq<T>, p: T -> bool): (r: Option<T>)
    ensures r.Some? <==> exists j :: 0 <= j < |s| && p(s[j])
    ensures r.Some? ==> p(r.value) && r.value in s
    ensures r.Some? ==> exists i :: 0 <= i < |s| && s[i] == r.value && forall j :: 0 <= j < i ==> !p(s[j])
  {
    match FirstIndex(s, p)
    case None => None
    case Some(i) => Some(s[i])
  }

  function TemplateById(ts: seq<ScenarioTemplate>, id: string): Option<ScenarioTemplate> {
    Find(ts, (t: ScenarioTemplate) => t.id == id)
  }

  function CultureById(cs: seq<Culture>, id: string): Option<Culture> {
    Find(cs, (c: Culture) => c.id == id)
  }

  function UserById(us: seq<UserProfile>, id: string): Option<UserProfile> {
    Find(us, (u: UserProfile) => u.userId == id)
  }

  function InstanceIndex(active: seq<ActiveScenarioInstance>, id: string): Option<nat> {
    FirstIndex(active, (s: ActiveScenarioInstance) => s.instanceId == id)
  }

  /** `Math.max(0, Math.min(100, x))`. */
  function Clamp(x: int): (r: int)
    ensures 0 <= r <= 100
    ensures 0 <= x <= 100 ==> r == x
    ensures x < 0 ==> r == 0
    ensures x > 100 ==> r == 100
  {
    if x > 100 then 100 else if x < 0 then 0 else x
  }

  /** The instance `startScenario` builds: turn 0 of 10, not completed, a
      success metric of 50, the template's opening situation, every objective
      pending and the user as the only participant. */
  function NewInstance(t: ScenarioTemplate, c: Culture, user: UserProfile, instanceId: string)
    : (s: ActiveScenarioInstance)
    ensures InstanceInvariant(s)
    ensures forall o :: o in s.objectiveStatus <==> o in t.objectives
    ensures forall o :: o in s.objectiveStatus ==> !s.objectiveStatus[o]
  {
    ActiveScenarioInstance(
      t.id, instanceId, [Value(t.initialSituation)],
      map o | o in t.objectives :: false,
      c, [Participant(user.username, "User", user.originCultureId)],
      0, MaxTurns, false, InitialSuccessMetric)
  }

  /** The objective a positive interaction marks: the template's first one, if
      it exists and is not the empty string (which JavaScript treats as false). */
  function MarkedObjective(t: ScenarioTemplate): (r: Option<string>)
    ensures r.Some? ==> r.value in t.objectives && r.value != ""
    ensures r.None? <==> |t.objectives| == 0 || t.objectives[0] == ""
  {
    if |t.objectives| > 0 && t.objectives[0] != "" then Some(t.objectives[0]) else None
  }

  /** The in-place update after the agent answers with `fb`. */
  function Advance(s: ActiveScenarioInstance, t: ScenarioTemplate, fb: InteractionFeedback): (n: ActiveScenarioInstance)
    ensures n.currentTurn == s.currentTurn + 1 && 0 <= n.successMetric <= 100
    ensures n.currentTurn >= n.maxTurns ==> n.isCompleted
    ensures forall o :: o in s.objectiveStatus && s.objectiveStatus[o] ==> o in n.objectiveStatus && n.objectiveStatus[o]
  {
    var impact := fb.overallCulturalCompetenceImpact;
    var turn := s.currentTurn + 1;
    s.(currentTurn := turn,
       currentSituation := fb.aiResponse,
       successMetric := Clamp(s.successMetric + impact),
       objectiveStatus :=
         if impact > 0 && MarkedObjective(t).Some? then s.objectiveStatus[MarkedObjective(t).value := true]
         else s.objectiveStatus,
       isCompleted := if turn >= s.maxTurns then true else s.isCompleted)
  }

  /** What every stored instance satisfies: a metric within [0, 100], a
      non-negative turn, and completion once the turn reaches the maximum. */
  predicate InstanceInvariant(s: ActiveScenarioInstance) {
    && 0 <= s.successMetric <= 100
    && 0 <= s.currentTurn
    && (s.currentTurn >= s.maxTurns ==> s.isCompleted)
  }

  /** `ACTIVE_SCENARIOS_DATA` together with the read-only tables it is used with. */
  class ScenarioStore {
    const cultures: seq<Culture>
    const templates: seq<ScenarioTemplate>
    const users: seq<UserProfile>
    const settings: SystemSettings
    var active: seq<ActiveScenarioInstance>

    ghost predicate Valid()
      reads this
    {
      forall i :: 0 <= i < |active| ==> InstanceInvariant(active[i])
    }

    constructor(cultures: seq<Culture>, templates: seq<ScenarioTemplate>, users: seq<UserProfile>,
                settings: SystemSettings, seed: seq<ActiveScenarioInstance>)
      requires forall i :: 0 <= i < |seed| ==> InstanceInvariant(seed[i])
      ensures this.cultures == cultures && this.templates == templates && this.users == users
      ensures this.settings == settings && active == seed
      ensures Valid()
    {
      this.cultures := cultures;
      this.templates := templates;
      this.users := users;
      this.settings := settings;
      active := seed;
    }

    /** `startScenario`: with the template, the culture and the user all found
        a new instance is appended and returned; otherwise the call fails and
        the store is unchanged. `instanceId` is the freshly generated id. */
    method StartScenario(userId: string, templateId: string, cultureId: string, instanceId: string)
      returns (r: Result<ActiveScenarioInstance, ApiError>)
      requires Valid()
      modifies this
      ensures Valid()
      ensures var t, c, u := TemplateById(templates, templateId), CultureById(cultures, cultureId), UserById(users, userId);
        && (r.Err? <==> t.None? || c.None? || u.None?)
        && (r.Err? ==> r.error == InvalidStart && active == old(active))
        && (r.Ok? ==> r.value == NewInstance(t.value, c.value, u.value, instanceId) && active == old(active) + [r.value])
    {
      var template := TemplateById(templates, templateId);
      var targetCulture := CultureById(cultures, cultureId);
      var userProfile := UserById(users, userId);
      if template.None? || targetCulture.None? || userProfile.None? {
        return Err(InvalidStart);
      }
      var newInstance := NewInstance(template.value, targetCulture.value, userProfile.value, instanceId);
      active := active + [newInstance];
      r := Ok(newInstance);
    }

    /** `processInteraction`: find the instance, check the user and the
        template, run the agent, then update that instance alone. Each error
        leaves the store unchanged. */
    method ProcessInteraction(userId: string, instanceId: string, userAction: string, now: string,
                              issue: IssueOutcome)
      returns (r: Result<InteractionFeedback, ApiError>)
      requires Valid()
      modifies this
      ensures Valid()
      ensures |active| == |old(active)|
      ensures InstanceIndex(old(active), instanceId).None? ==> r == Err(InstanceNotFound) && active == old(active)
      ensures InstanceIndex(old(active), instanceId).Some? ==>
        var idx := InstanceIndex(old(active), instanceId).value;
        var s := old(active)[idx];
        var t, u := TemplateById(templates, s.scenarioTemplateId), UserById(users, userId);
        && (t.None? || u.None? ==> r == Err(MissingPrerequisites) && active == old(active))
        && (t.Some? && u.Some? ==>
              && r == Ok(Interaction(s, userAction, u.value, s.targetCulture, settings, t.value, now, issue))
              && active == old(active)[idx := Advance(s, t.value, r.value)])
      ensures forall j :: 0 <= j < |active| && active[j].instanceId != instanceId ==> active[j] == old(active)[j]
    {
      var found := InstanceIndex(active, instanceId);
      if found.None? {
        return Err(InstanceNotFound);
      }
      var idx := found.value;
      var scenario := active[idx];
      var userProfile := UserById(users, userId);
      var scenarioTemplate := TemplateById(templates, scenario.scenarioTemplateId);
      if userProfile.None? || scenarioTemplate.None? {
        return Err(MissingPrerequisites);
      }
      var fb := ProcessUserInteraction(userId, scenario, userAction, userProfile.value, scenario.targetCulture,
                                       settings, scenarioTemplate.value, now, issue);
      Apply(idx, scenarioTemplate.value, fb);
      r := Ok(fb);
    }

    /** The in-place update of the instance at `idx` once the agent has
        answered: turn, situation, metric, objective, completion. */
    method Apply(idx: nat, t: ScenarioTemplate, fb: InteractionFeedback)
      requires Valid() && idx < |active|
      modifies this
      ensures Valid()
      ensures active == old(active)[idx := Advance(old(active)[idx], t, fb)]
    {
      var scenario := active[idx];
      var impact := fb.overallCulturalCompetenceImpact;
      scenario := scenario.(currentTurn := scenario.currentTurn + 1);
      scenario := scenario.(currentSituation := fb.aiResponse);
      scenario := scenario.(successMetric := Clamp(scenario.successMetric + impact));
      if impact > 0 {
        var firstObj := MarkedObjective(t);
        if firstObj.Some? {
          scenario := scenario.(objectiveStatus := scenario.objectiveStatus[firstObj.value := true]);
        }
      }
      if scenario.currentTurn >= scenario.maxTurns {
        scenario := scenario.(isCompleted := true);
      }
      AdvanceKeepsInvariant(active[idx], t, fb);
      active := active[idx := scenario];
    }

    /** `getActiveScenario`: the first instance with the id, if any. */
    function GetActiveScenario(instanceId: string): (r: Option<ActiveScenarioInstance>)
      reads this
      ensures r.None? <==> forall j :: 0 <= j < |active| ==> active[j].instanceId != instanceId
      ensures r.Some? ==>
        exists i :: 0 <= i < |active| && active[i] == r.value && r.value.instanceId == instanceId
          && forall j :: 0 <= j < i ==> active[j].instanceId != instanceId
    {
      match InstanceIndex(active, instanceId)
      case None => None
      case Some(i) => Some(active[i])
    }
  }

  /** A new instance starts within the invariant, with its objectives exactly
      the template's, all pending. */
  lemma NewInstanceShape(t: ScenarioTemplate, c: Culture, user: UserProfile, instanceId: string)
    ensures var s := NewInstance(t, c, user, instanceId);
      && InstanceInvariant(s)
      && s.currentTurn == 0 && s.maxTurns == 10 && !s.isCompleted && s.successMetric == 50
      && s.currentSituation == [Value(t.initialSituation)]
      && s.objectiveStatus.Keys == set o | o in t.objectives
      && (forall o :: o in s.objectiveStatus ==> !s.objectiveStatus[o])
  {
  }

  /** One interaction: the turn goes up by one, the situation becomes the
      response, the metric is the clamped sum, and identity, culture,
      participants and the turn limit stay. */
  lemma AdvanceSteps(s: ActiveScenarioInstance, t: ScenarioTemplate, fb: InteractionFeedback)
    ensures var n := Advance(s, t, fb);
      && n.currentTurn == s.currentTurn + 1
      && n.currentSituation == fb.aiResponse
      && n.successMetric == Clamp(s.successMetric + fb.overallCulturalCompetenceImpact)
      && 0 <= n.successMetric <= 100
      && n.instanceId == s.instanceId && n.scenarioTemplateId == s.scenarioTemplateId
      && n.targetCulture == s.targetCulture && n.participants == s.participants && n.maxTurns == s.maxTurns
  {
  }

  /** A positive impact marks the template's first objective and nothing else;
      any other impact, or a template whose first objective is missing or
      empty, leaves the objective map alone; no objective is ever unmarked. */
  lemma AdvanceObjectives(s: ActiveScenarioInstance, t: ScenarioTemplate, fb: InteractionFeedback)
    ensures var n := Advance(s, t, fb);
      && (fb.overallCulturalCompetenceImpact <= 0 ==> n.objectiveStatus == s.objectiveStatus)
      && (|t.objectives| == 0 || t.objectives[0] == "" ==> n.objectiveStatus == s.objectiveStatus)
      && (fb.overallCulturalCompetenceImpact > 0 && |t.objectives| > 0 && t.objectives[0] != "" ==>
            t.objectives[0] in n.objectiveStatus && n.objectiveStatus[t.objectives[0]])
      && (forall o :: o in s.objectiveStatus ==> o in n.objectiveStatus)
      && (forall o :: o in n.objectiveStatus && (|t.objectives| == 0 || o != t.objectives[0]) ==>
            o in s.objectiveStatus && n.objectiveStatus[o] == s.objectiveStatus[o])
      && (forall o :: o in s.objectiveStatus && s.objectiveStatus[o] ==> n.objectiveStatus[o])
  {
  }

  /** Completion: reached once the turn hits the maximum, and never undone. */
  lemma AdvanceCompletion(s: ActiveScenarioInstance, t: ScenarioTemplate, fb: InteractionFeedback)
    ensures var n := Advance(s, t, fb);
      && (n.isCompleted <==> s.isCompleted || s.currentTurn + 1 >= s.maxTurns)
  {
  }

  /** The store's invariant survives an interaction. */
  lemma AdvanceKeepsInvariant(s: ActiveScenarioInstance, t: ScenarioTemplate, fb: InteractionFeedback)
    requires InstanceInvariant(s)
    ensures InstanceInvariant(Advance(s, t, fb))
  {
  }

  /** A run of interactions, applied in order. */
  function AdvanceAll(s: ActiveScenarioInstance, t: ScenarioTemplate, fbs: seq<InteractionFeedback>)
    : ActiveScenarioInstance
    decreases |fbs|
  {
    if fbs == [] then s else AdvanceAll(Advance(s, t, fbs[0]), t, fbs[1..])
  }

  /** Over `n` interactions the turn grows by `n`, the invariant holds, marked
      objectives stay marked, a completed scenario stays completed, and the
      scenario is completed whenever the turn has reached the maximum. Nothing
      stops interactions after completion. */
  lemma {:induction false} AdvanceAllProgress(s: ActiveScenarioInstance, t: ScenarioTemplate, fbs: seq<InteractionFeedback>)
    requires InstanceInvariant(s)
    decreases |fbs|
    ensures var n := AdvanceAll(s, t, fbs);
      && n.currentTurn == s.currentTurn + |fbs|
      && InstanceInvariant(n)
      && (s.isCompleted ==> n.isCompleted)
      && (forall o :: o in s.objectiveStatus && s.objectiveStatus[o] ==> o in n.objectiveStatus && n.objectiveStatus[o])
  {
    if fbs != [] {
      var next := Advance(s, t, fbs[0]);
      AdvanceKeepsInvariant(s, t, fbs[0]);
      AdvanceObjectives(s, t, fbs[0]);
      AdvanceAllProgress(next, t, fbs[1..]);
    }
  }
}
