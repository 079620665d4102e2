# Cultural-intelligence evaluator and scenario sessions, in Dafny

The model covers two services of the cross-cultural training simulator. The first is its interaction evaluator (`services/agent.ts`). The second is the in-memory scenario session store that drives it (`services/api.ts`).

The evaluator judges one utterance of the user in three steps.

- **Observe** lower-cases the utterance. It then scans the target culture's knowledge base in a fixed order: etiquette rules, negotiation practices, social norms, common misunderstandings, non-verbal cues. An item matches when one of its lower-cased keywords is a plain substring of the utterance. The scan collects the ids of matched items and derives an intent in which the last match wins. A whole-phrase match of one of the scenario's pitfall or positive-action phrases then overrides that intent.
- **Decide** runs a strict priority chain. A matching Critical etiquette rule comes first, then a Negative one, then a Positive one. Without any of these the intent decides: positive action, then potential pitfall, then neutral. Each branch fixes the feedback severity, the competence impact, a single detailed-feedback entry and a narrative that opens with the persona's prefix. Only the Critical branch suggests learning modules.
- **Package** returns the feedback packet. When the impact is above 10 it requests a token reward of `floor(impact / 5)`.

The session store holds the running scenario instances.

- `startScenario` checks the template, the culture and the user, then appends a fresh instance.
- `processInteraction` finds the instance and checks the user and the template. It runs the evaluator and then updates that instance in place:
  - the turn goes up by one;
  - the situation becomes the response;
  - the success metric is clamped to [0, 100];
  - a positive impact marks the template's first objective;
  - the instance is completed once the turn reaches the maximum.

Modules:

- `Wrappers`: `Option` and `Result`.
- `Text`: ASCII lower-casing, substring containment with its specification by offsets, and `some`.
- `Types`: the records of `types.ts` that the core reads or writes.
- `Messages`: fixed wording plus interpolated values. `PhraseText` holds the source's exact strings and `Render` gives the string a message stands for.
- `Observer`: the observation stage. `Observe` is its specification. `Scan` is the loop, proved equal to `Observe`.
- `Decision`: the rule filters, the priority chain and the rendered decision.
- `Agent`: the packet and the reward.
- `Api`: the `ScenarioStore` class and the instance transition `Advance`.
- `Fixtures`: worked cases from `constants.ts`.

## Model

| member | source | states |
|---|---|---|
| Text.Lower | services/agent.ts:36 | lower-casing keeps the length and maps every character through ASCII `toLowerCase` |
| Text.LowerIdempotent | services/agent.ts:49 | lower-casing an already lower-cased keyword changes nothing |
| Text.LowerOfLowercase | services/agent.ts:49 | a string with no upper-case letter is its own lower-case form |
| Text.Contains | services/agent.ts:49 | `includes` is true exactly when the needle occurs at some offset of the haystack |
| Text.ContainsAnyIff | services/agent.ts:49 | `keywords.some(k => u.includes(k.toLowerCase()))` holds exactly when some lower-cased keyword occurs in `u` |
| Text.EmptyNeedleEverywhere | services/agent.ts:49 | the empty string is contained in every string |
| Messages.Render | services/agent.ts:106-141 | the string of a message opens with the text of its first piece |
| Messages.RenderAppend | services/agent.ts:106-141 | the string of a concatenated message is the concatenation of the parts' strings, as a template literal's fragments are |
| Messages.PrefixEndsInSpace | services/agent.ts:97-100 | each of the four persona prefixes is non-empty and ends in a space |
| Observer.ItemMatchesIff | services/agent.ts:49 | an item matches iff it has keywords and one of them, lower-cased, occurs in the utterance; a missing or empty list never matches |
| Observer.EmptyKeywordMatchesAll | services/agent.ts:49 | an item listing the empty keyword matches every utterance |
| Observer.AllItems | services/agent.ts:40-46 | the scanned list holds every item of the five collections, the etiquette rules first and in order |
| Observer.CategoryIntent | services/agent.ts:52-56 | a category yields an intent iff it is Greeting, Conversation, Dining or Business Meeting, and never a phrase intent |
| Observer.ItemIntent | services/agent.ts:52-61 | misunderstandings and cues yield no intent, negotiation practices yield business negotiation, and no item yields a phrase intent |
| Observer.Observe | services/agent.ts:34-73 | the observation has the potential-pitfall intent only when a pitfall phrase is contained, and the positive-action intent only when an action phrase is |
| Observer.Scan | services/agent.ts:34-73 | the loop over the five collections, with its ordered id list and reassigned intent, and then the two phrase overrides compute exactly `Observe` |
| Observer.MatchedIdsMembership | services/agent.ts:48-50 | an id is reported iff some scanned item carrying it matches |
| Observer.IdentifiedAspectsInScanOrder | services/agent.ts:40-50 | the identified aspects are the matched etiquette ids, then negotiation, social-norm, misunderstanding and non-verbal ids, each in collection order |
| Observer.KeywordIntentLastWins | services/agent.ts:52-61 | the keyword intent is the one given by the last matched item that assigns one: Greeting/Conversation gives social greeting, Dining gives dining etiquette, Business Meeting and every negotiation practice give business negotiation |
| Observer.KeywordIntentDefault | services/agent.ts:38 | with no matched item that assigns an intent, the intent stays general interaction |
| Observer.KeywordIntentNotPhraseDriven | services/agent.ts:52-61 | keywords never yield positive action or potential pitfall |
| Observer.ObservedIntent | services/agent.ts:65-70 | a contained pitfall phrase gives potential pitfall, both directions, even when an action phrase is also contained; otherwise a contained action phrase gives positive action, both directions; otherwise the keyword intent stands |
| Observer.ObserveIgnoresCase | services/agent.ts:36 | the observation of an utterance equals that of its lower-cased form |
| Decision.ResponsePrefix | services/agent.ts:95-101 | the prefix is one of the four persona openers, and the default one exactly for the persona without a case of its own |
| Decision.MatchingRules | services/agent.ts:85-93 | a filter never yields more rules than it is given |
| Decision.MatchingRulesSpec | services/agent.ts:85-93 | each filter keeps only rules of its consequence whose keywords match, and is empty iff no such rule exists |
| Decision.SelectBranch | services/agent.ts:104-145 | a rule branch carries a rule of the list with that branch's consequence whose keywords match; the objective branch needs the positive-action intent and the pitfall branch the potential-pitfall intent |
| Decision.BranchOutcome | services/agent.ts:104-145 | each branch has one of the six outcome rows; only the Critical branch is Critical, and only the Positive-rule and objective branches raise the competence |
| Decision.RenderDecision | services/agent.ts:104-145 | each branch writes its (severity, impact, score) row and exactly one detailed entry whose severity equals the summary's; the rule branches report their rule; the response opens with the persona prefix; only the Critical branch suggests the template's modules |
| Decision.Decide | services/agent.ts:75-148 | one detailed entry with the summary's severity; the outcome is one of the six rows; the response opens with the persona prefix from `getResponsePrefix`; suggestions equal the template's modules in the Critical branch and are empty otherwise |
| Decision.DecideRendersBranch | services/agent.ts:104-145 | the decision has the outcome of the branch the priority chain selects, and a rule branch reports the selected rule |
| Decision.ResponseOpensWithPrefix | services/agent.ts:106-141 | the rendered response starts with the persona prefix's text, which ends in a space |
| Decision.DecideIgnoresCase | services/agent.ts:36 | the decision on an utterance equals the decision on its lower-cased form |
| Decision.DecisionPriority | services/agent.ts:104-145 | a Critical match beats a Negative one, which beats a Positive one; without any, positive action comes before pitfall, which comes before neutral; each case has its outcome row |
| Decision.FirstMatchHeadsFilter | services/agent.ts:85-93 | the first rule in rule order that passes a filter heads the filtered list |
| Decision.ReportedRuleIsFirst | services/agent.ts:104-128 | in a rule branch the reported rule is the first matching rule of that consequence: its category names the dimension, and its description opens the explanation and ends the response |
| Decision.MatchingRulesAppend | services/agent.ts:85-93 | filtering distributes over concatenation |
| Decision.FilterSkipsInserted | services/agent.ts:85-93 | inserting a rule of another consequence anywhere leaves a filter's result unchanged |
| Decision.IgnoredConsequences | services/agent.ts:85-93 | for a given observation, inserting a Neutral or Advisory etiquette rule anywhere leaves the whole decision unchanged |
| Decision.IgnoredConsequencesObserved | services/agent.ts:48-145 | inserting a Neutral or Advisory etiquette rule anywhere leaves the decision unchanged even with the observation recomputed from the changed culture |
| Agent.IssueTokens | services/agent.ts:23-26 | the stub answers with a token reward of exactly the requested amount under the transaction id |
| Agent.Package | services/agent.ts:171-182 | the packet carries no reward yet, never an empty suggestion list, and the decision's suggestions whenever there are any |
| Agent.WithReward | services/agent.ts:184-192 | only the reward field changes, exactly when the impact is above 10 and the token service answers, and then one reward is appended after those already present |
| Agent.Interaction | services/agent.ts:150-195 | the packet echoes the utterance, the instance id and the time, and a reward is present only above an impact of 10 with an answered request |
| Agent.ProcessUserInteraction | services/agent.ts:150-195 | observation loop, decision, packet and caught reward request give exactly `Interaction` |
| Agent.PacketEchoesCall | services/agent.ts:171-182 | the packet echoes the utterance, the instance id, the target culture id, the profile and the time, and carries the decision's response, summary, entries and impact |
| Agent.SuggestionsOnlyWhenCritical | services/agent.ts:181 | suggestions are present iff the decision is Critical and the template lists modules, and then they are those modules in order; an empty list is absent |
| Agent.RewardRule | services/agent.ts:184-192 | a reward is attached iff the impact is strictly above 10 and the token service answers; it is one token of `floor(impact / 5)`; a failed request returns the packet without a reward |
| Agent.OnlyPositiveRuleRewards | services/agent.ts:184-186 | every reward comes from the Positive-rule branch, with impact 15, score 4 and 3 tokens; the +10 objective branch earns nothing |
| Api.FirstIndex | services/api.ts:58 | `findIndex` gives the first position satisfying the predicate, or none when no position does |
| Api.Find | services/api.ts:33-35 | `find` gives an element satisfying the predicate iff one exists, and it is the element at the first satisfying position |
| Api.Clamp | services/api.ts:85 | `max(0, min(100, x))` lies in [0, 100], equals `x` inside the range and the nearer bound outside it |
| Api.NewInstance | services/api.ts:41-52 | a new instance satisfies the instance invariant, has exactly the template's objectives as keys, and none of them marked |
| Api.MarkedObjective | services/api.ts:87-90 | the marked objective is one of the template's and non-empty; there is none iff the template has no objectives or its first is `""` |
| Api.Advance | services/api.ts:83-94 | the turn grows by one, the metric lies in [0, 100], the instance is completed at the maximum turn, and every marked objective stays marked |
| Api.ScenarioStore.constructor | constants.ts:272-293 | the store starts from the given tables and seeded instances, which satisfy the instance invariant |
| Api.ScenarioStore.StartScenario | services/api.ts:32-55 | fails iff the template, the culture or the user is missing, and then leaves the store unchanged; otherwise appends exactly the new instance and returns it |
| Api.ScenarioStore.ProcessInteraction | services/api.ts:57-97 | an unknown id, or a missing user or template, fails and leaves the store unchanged; otherwise returns the agent's packet and replaces only that instance by its `Advance`; every instance with another id is unchanged; the invariant is kept |
| Api.ScenarioStore.Apply | services/api.ts:83-94 | the in-place updates of turn, situation, metric, objective and completion amount to `Advance` at that index alone |
| Api.ScenarioStore.GetActiveScenario | services/api.ts:99-101 | returns the first instance with the id, or none iff no instance has it |
| Api.NewInstanceShape | services/api.ts:41-52 | a new instance is at turn 0 of 10, not completed, metric 50, in the template's opening situation, with exactly the template's objectives as keys, all false |
| Api.AdvanceSteps | services/api.ts:83-85 | the turn grows by exactly one, the situation becomes the response, the metric is the clamped sum and lies in [0, 100], and id, template, culture, participants and limit stay |
| Api.AdvanceObjectives | services/api.ts:87-90 | a positive impact marks `objectives[0]` and changes no other entry; a non-positive impact, or a template whose first objective is missing or `""`, leaves the map unchanged; no objective is ever unmarked |
| Api.AdvanceCompletion | services/api.ts:92-94 | after the step, the instance is completed iff it was already completed or the new turn reached the maximum |
| Api.AdvanceKeepsInvariant | services/api.ts:83-94 | a metric in [0, 100], a non-negative turn, and completion at the maximum turn are preserved |
| Api.AdvanceAllProgress | services/api.ts:83-94 | over n interactions the turn grows by n, the invariant holds, completion and marked objectives persist, and nothing stops interactions after completion |
| Fixtures.LateArrivalInGermany | constants.ts:31-32 | with GE001 (Negative) before GE002 (Critical, keyword "late"), any utterance containing "late" is decided Critical (-25, -5), reports GE002 with dimension "Business Meeting Etiquette" and suggests LM001, LM002, LM004 |
| Fixtures.LateTripsKeyword | constants.ts:32 | an utterance containing "late" matches every keyword list that holds "late" |
| Fixtures.ChopsticksInJapan | constants.ts:78-80 | with JP_E001 (Negative) and JP_E002 (Critical) ahead of JP_E003 (Critical, Dining, keyword "chopsticks"), an utterance containing "chopsticks" and none of JP_E002's keywords is decided Critical (-25, -5) and reports JP_E003 under the dimension "Dining Etiquette" |
| Fixtures.ThirdRuleReported | services/agent.ts:85-111 | a matching Critical third rule behind a Negative rule and a non-matching Critical rule is the one reported |
| Fixtures.LowercaseWordTrips | services/agent.ts:49 | a keyword without capitals that occurs in the utterance makes its keyword list match |
| Fixtures.LastTurnCompletes | constants.ts:288-289 | from turn 9 of 10 one interaction reaches turn 10 and completes the scenario |
| Fixtures.MetricSaturates | services/api.ts:85 | a Critical answer at metric 0 stays at 0, and a Positive-rule answer at 100 stays at 100 |
| Fixtures.PositiveAnswerMarksFirstObjective | constants.ts:278-280 | in the seeded SCEN001 session a positive answer marks "Establish professional rapport" and keeps "Demonstrate punctuality and preparation" marked |

## Left out

- Unicode case mapping: `toLowerCase` is modelled on ASCII letters only.
- Message wording: the evaluator's narratives, summaries, explanations and recommendations are kept as sequences of fixed phrases and interpolated values (`Messages.Message`). `Messages.PhraseText` gives each phrase's exact text and `Messages.Render` the resulting string. The contracts speak of the phrase sequences; `Decision.ResponseOpensWithPrefix` carries the persona prefix over to the rendered string.
- Fresh ids and clocks: the ids from `generateUniqueId` and the timestamp from `new Date().toISOString()` are parameters (`instanceId`, `tokenId`, `now`). Their uniqueness is not modelled, so `getActiveScenario` is specified as returning the first instance with an id.
- The reward service: `issueTokens` is a call whose outcome is a parameter (`Agent.IssueOutcome`). It either returns a transaction id or fails, and the packaging catches the failure. `grantCertificate` is never called by the core and is not modelled.
- Logging (`systemLogger`), `async`/`Promise` plumbing and the thrown `Error` objects are not modelled. Errors are modelled as `Api.ApiError` values.
- Aliasing: an instance is a value in the store's sequence. The source returns the same object that it later mutates; here a caller's copy does not change. The profile snapshot is a copy of the profile value; the source makes a shallow copy, and no isolation claim is made.
- Fields the core never reads: the template's category, difficulty and flow example, and every setting except `aiPersona`. `feedbackVerbosity` is kept in `SystemSettings` but the core never reads it. The cultural dimensions are kept as a map, and the traits, learning modules and resources are omitted.
- The profile's learning path and scenario history are left out of `UserProfile`. The source copies them into `userProfileSnapshot` (`services/agent.ts:178`), and no part of the core reads them, so the model's snapshot lacks those two fields.
- The other `api` getters (`getCultures`, `getScenarioTemplates`, `getLearningModules`, `getUserProfile`, `getSystemSettings`) only return the static tables. The React components and context are not part of this model.
- The fixtures describe `constants.ts` through the fields their cases need (consequences, categories, keywords, objectives, modules, turn counts), not whole records. The template phrases of SCEN001 have no worked case of their own; `Observer.ObservedIntent` states the phrase overrides for every template.
- A positive interaction marks `objectives[0]` (`services/api.ts:88-89`), not the first objective still pending. The profile snapshot (`services/agent.ts:178`) is a shallow spread, and the model makes no isolation claim. An objective that is `""` is never marked, because `if (firstObj)` treats it as false.
- The culture check in `processInteraction` (`services/api.ts:69`) can never fail, since the instance always carries its culture, so it has no error case here.
