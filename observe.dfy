/** The observation stage of the evaluator: which knowledge-base items the
    utterance mentions, and what kind of interaction it is. */
module Observer {
  import opened Wrappers
  import opened Types
  import opened Text

  /** What the observation stage reports. */
  datatype Intent =
    SocialGreeting | DiningEtiquette | BusinessNegotiation | PositiveAction | PotentialPitfall | GeneralInteraction

  datatype Observation = Observation(userIntent: Intent, identifiedAspects: seq<string>)

  /** `item.keywords?.some(k => u.includes(k.toLowerCase()))`: a missing keyword
      list never matches. */
  predicate KeywordsMatch(keywords: Option<seq<string>>, u: string) {
    match keywords
    case None => false
    case Some(ks) => ContainsAny(u, ks)
  }

  predicate ItemMatches(item: CulturalItem, u: string) {
    KeywordsMatch(item.Keywords(), u)
  }

  /** An item matches exactly when one of its keywords, lower-cased, occurs in
      the (already lower-cased) utterance; missing and empty keyword lists
      never match. */
  lemma ItemMatchesIff(item: CulturalItem, u: string)
    ensures ItemMatches(item, u) <==>
      item.Keywords().Some? &&
      exists j :: 0 <= j < |item.Keywords().value| && Contains(u, Lower(item.Keywords().value[j]))
    ensures item.Keywords() == None || item.Keywords() == Some([]) ==> !ItemMatches(item, u)
  {
    if item.Keywords().Some? {
      ContainsAnyIff(u, item.Keywords().value);
    }
  }

  /** An empty keyword string is contained in every utterance, so an item
      listing one matches whatever the user says. */
  lemma EmptyKeywordMatchesAll(item: CulturalItem, u: string, j: nat)
    requires item.Keywords().Some? && j < |item.Keywords().value| && item.Keywords().value[j] == ""
    ensures ItemMatches(item, u)
  {
    assert Lower("") == "";
    EmptyNeedleEverywhere(u);
    ContainsAnyIff(u, item.Keywords().value);
  }

  /** The intent a matched item assigns, if any: a `category` of Greeting or
      Conversation gives a social greeting, Dining dining etiquette, Business
      Meeting a negotiation; every negotiation practice (the items with an
      `aspect`) gives a negotiation; misunderstandings and cues assign none. */
  function CategoryIntent(c: Category): (r: Option<Intent>)
    ensures r.Some? <==> c == Greeting || c == Conversation || c == Dining || c == BusinessMeeting
    ensures r != Some(PositiveAction) && r != Some(PotentialPitfall)
  {
    if c == Greeting || c == Conversation then Some(SocialGreeting)
    else if c == Dining then Some(DiningEtiquette)
    else if c == BusinessMeeting then Some(BusinessNegotiation)
    else None
  }

  function ItemIntent(item: CulturalItem): (r: Option<Intent>)
    ensures (item.MisunderstandingItem? || item.CueItem?) ==> r.None?
    ensures item.NegotiationItem? ==> r == Some(BusinessNegotiation)
    ensures r != Some(PositiveAction) && r != Some(PotentialPitfall)
  {
    match item
    case EtiquetteItem(r) => CategoryIntent(r.category)
    case NormItem(n) => CategoryIntent(n.category)
    case NegotiationItem(_) => Some(BusinessNegotiation)
    case MisunderstandingItem(_) => None
    case CueItem(_) => None
  }

  function EtiquetteItems(rs: seq<EtiquetteRule>): seq<CulturalItem> {
    seq(|rs|, i requires 0 <= i < |rs| => EtiquetteItem(rs[i]))
  }
  function NegotiationItems(ps: seq<NegotiationPractice>): seq<CulturalItem> {
    seq(|ps|, i requires 0 <= i < |ps| => NegotiationItem(ps[i]))
  }
  function NormItems(ns: seq<SocialNorm>): seq<CulturalItem> {
    seq(|ns|, i requires 0 <= i < |ns| => NormItem(ns[i]))
  }
  function MisunderstandingItems(ms: seq<Misunderstanding>): seq<CulturalItem> {
    seq(|ms|, i requires 0 <= i < |ms| => MisunderstandingItem(ms[i]))
  }
  function CueItems(cs: seq<NonVerbalCue>): seq<CulturalItem> {
    seq(|cs|, i requires 0 <= i < |cs| => CueItem(cs[i]))
  }

  /** The five collections in the fixed scan order. */
  function AllItems(c: Culture): (r: seq<CulturalItem>)
    ensures |r| == |c.etiquetteRules| + |c.negotiationPractices| + |c.socialNorms|
                   + |c.commonMisunderstandings| + |c.nonVerbalCues|
    ensures forall i :: 0 <= i < |c.etiquetteRules| ==> r[i] == EtiquetteItem(c.etiquetteRules[i])
  {
    EtiquetteItems(c.etiquetteRules) + NegotiationItems(c.negotiationPractices)
      + NormItems(c.socialNorms) + MisunderstandingItems(c.commonMisunderstandings)
      + CueItems(c.nonVerbalCues)
  }

  /** Ids of the matched items, in scan order (defined on the scanned prefix,
      one item at a time from the end, as the loop pushes them). */
  function MatchedIds(items: seq<CulturalItem>, u: string): seq<string> {
    if items == [] then []
    else
      var last := items[|items| - 1];
      MatchedIds(items[..|items| - 1], u) + (if ItemMatches(last, u) then [last.Id()] else [])
  }

  /** The keyword-derived intent after scanning `items`: the last matched item
      that assigns an intent decides it; the default is a general interaction. */
  function KeywordIntent(items: seq<CulturalItem>, u: string): Intent {
    if items == [] then GeneralInteraction
    else
      var last := items[|items| - 1];
      var before := KeywordIntent(items[..|items| - 1], u);
      if ItemMatches(last, u) then ItemIntent(last).GetOr(before) else before
  }

  /** The phrase checks that follow the scan: a pitfall phrase wins over a
      positive-action phrase, and either wins over the keyword intent. */
  function PhraseIntent(keywordIntent: Intent, t: ScenarioTemplate, u: string): Intent {
    if ContainsAny(u, t.possiblePitfalls) then PotentialPitfall
    else if ContainsAny(u, t.possibleUserActions) then PositiveAction
    else keywordIntent
  }

  /** What `observe` computes for a culture, a template and an utterance. */
  function Observe(c: Culture, t: ScenarioTemplate, userAction: string): (r: Observation)
    ensures r.userIntent == PotentialPitfall ==> ContainsAny(Lower(userAction), t.possiblePitfalls)
    ensures r.userIntent == PositiveAction ==> ContainsAny(Lower(userAction), t.possibleUserActions)
  {
    var u := Lower(userAction);
    KeywordIntentNotPhraseDriven(AllItems(c), u);
    var items := AllItems(c);
    Observation(PhraseIntent(KeywordIntent(items, u), t, u), MatchedIds(items, u))
  }

  /** The observation stage as the source runs it: one pass over the five
      collections pushing matched ids and reassigning the intent, then the two
      phrase overrides. */
  method Scan(c: Culture, t: ScenarioTemplate, userAction: string) returns (obs: Observation)
    ensures obs == Observe(c, t, userAction)
  {
    var u := Lower(userAction);
    var identifiedAspects: seq<string> := [];
    var userIntent := GeneralInteraction;
    var items := AllItems(c);
    for i := 0 to |items|
      invariant identifiedAspects == MatchedIds(items[..i], u)
      invariant userIntent == KeywordIntent(items[..i], u)
    {
      var item := items[i];
      assert items[..i + 1][..i] == items[..i];
      if ItemMatches(item, u) {
        identifiedAspects := identifiedAspects + [item.Id()];
        match item {
          case EtiquetteItem(r) =>
            var ci := CategoryIntent(r.category);
            if ci.Some? { userIntent := ci.value; }
          case NormItem(n) =>
            var ci := CategoryIntent(n.category);
            if ci.Some? { userIntent := ci.value; }
          case NegotiationItem(_) =>
            userIntent := BusinessNegotiation;
          case MisunderstandingItem(_) =>
          case CueItem(_) =>
        }
      }
    }
    assert items[..|items|] == items;
    if ContainsAny(u, t.possibleUserActions) {
      userIntent := PositiveAction;
    }
    if ContainsAny(u, t.possiblePitfalls) {
      userIntent := PotentialPitfall;
    }
    obs := Observation(userIntent, identifiedAspects);
  }

  /** Matched ids of a concatenation are the matched ids of each part, in order. */
  lemma {:induction false} MatchedIdsAppend(a: seq<CulturalItem>, b: seq<CulturalItem>, u: string)
    ensures MatchedIds(a + b, u) == MatchedIds(a, u) + MatchedIds(b, u)
    decreases |b|
  {
    if b == [] {
      assert a + b == a;
    } else {
      var b' := b[..|b| - 1];
      assert (a + b)[..|a + b| - 1] == a + b';
      MatchedIdsAppend(a, b', u);
    }
  }

  /** An id is reported exactly when some scanned item carrying it matches. */
  lemma {:induction false} MatchedIdsMembership(items: seq<CulturalItem>, u: string, x: string)
    ensures x in MatchedIds(items, u) <==>
      exists i :: 0 <= i < |items| && ItemMatches(items[i], u) && items[i].Id() == x
    decreases |items|
  {
    if items != [] {
      var init := items[..|items| - 1];
      MatchedIdsMembership(init, u, x);
      assert forall i :: 0 <= i < |init| ==> items[i] == init[i];
    }
  }

  /** The identified aspects list the matches of etiquette rules, then of
      negotiation practices, social norms, misunderstandings and non-verbal
      cues, each collection in its own order. */
  lemma IdentifiedAspectsInScanOrder(c: Culture, t: ScenarioTemplate, userAction: string)
    ensures var u := Lower(userAction);
      Observe(c, t, userAction).identifiedAspects ==
        MatchedIds(EtiquetteItems(c.etiquetteRules), u)
        + MatchedIds(NegotiationItems(c.negotiationPractices), u)
        + MatchedIds(NormItems(c.socialNorms), u)
        + MatchedIds(MisunderstandingItems(c.commonMisunderstandings), u)
        + MatchedIds(CueItems(c.nonVerbalCues), u)
  {
    var u := Lower(userAction);
    var e, n, s, m, v :=
      EtiquetteItems(c.etiquetteRules), NegotiationItems(c.negotiationPractices),
      NormItems(c.socialNorms), MisunderstandingItems(c.commonMisunderstandings),
      CueItems(c.nonVerbalCues);
    MatchedIdsAppend(e + n + s + m, v, u);
    MatchedIdsAppend(e + n + s, m, u);
    MatchedIdsAppend(e + n, s, u);
    MatchedIdsAppend(e, n, u);
  }

  /** Last match wins: the keyword intent is the one assigned by the last
      matched item that assigns any. */
  lemma {:induction false} KeywordIntentLastWins(items: seq<CulturalItem>, u: string, i: nat)
    requires i < |items| && ItemMatches(items[i], u) && ItemIntent(items[i]).Some?
    requires forall j :: i < j < |items| ==> !ItemMatches(items[j], u) || ItemIntent(items[j]).None?
    ensures KeywordIntent(items, u) == ItemIntent(items[i]).value
    decreases |items|
  {
    if i < |items| - 1 {
      var init := items[..|items| - 1];
      KeywordIntentLastWins(init, u, i);
    }
  }

  /** With no matched item that assigns an intent, the intent stays general. */
  lemma {:induction false} KeywordIntentDefault(items: seq<CulturalItem>, u: string)
    requires forall j :: 0 <= j < |items| ==> !ItemMatches(items[j], u) || ItemIntent(items[j]).None?
    ensures KeywordIntent(items, u) == GeneralInteraction
    decreases |items|
  {
    if items != [] {
      KeywordIntentDefault(items[..|items| - 1], u);
    }
  }

  /** Keywords alone never produce the two phrase-driven intents. */
  lemma {:induction false} KeywordIntentNotPhraseDriven(items: seq<CulturalItem>, u: string)
    ensures KeywordIntent(items, u) != PositiveAction && KeywordIntent(items, u) != PotentialPitfall
    decreases |items|
  {
    if items != [] {
      KeywordIntentNotPhraseDriven(items[..|items| - 1], u);
    }
  }

  /** The phrase overrides: a contained pitfall phrase yields a potential
      pitfall even when a positive-action phrase is also contained; otherwise a
      contained positive-action phrase yields a positive action; otherwise the
      keyword intent stands. */
  lemma ObservedIntent(c: Culture, t: ScenarioTemplate, userAction: string)
    ensures var u := Lower(userAction); var intent := Observe(c, t, userAction).userIntent;
      && ((exists j :: 0 <= j < |t.possiblePitfalls| && Contains(u, Lower(t.possiblePitfalls[j])))
          <==> intent == PotentialPitfall)
      && (intent == PositiveAction <==>
          (!(exists j :: 0 <= j < |t.possiblePitfalls| && Contains(u, Lower(t.possiblePitfalls[j])))
           && exists j :: 0 <= j < |t.possibleUserActions| && Contains(u, Lower(t.possibleUserActions[j]))))
      && (intent != PotentialPitfall && intent != PositiveAction ==>
          intent == KeywordIntent(AllItems(c), u))
  {
    var u := Lower(userAction);
    ContainsAnyIff(u, t.possiblePitfalls);
    ContainsAnyIff(u, t.possibleUserActions);
    KeywordIntentNotPhraseDriven(AllItems(c), u);
  }

  /** The observation ignores the case of the utterance: it reads only the
      lower-cased form, and lower-casing twice changes nothing. */
  lemma ObserveIgnoresCase(c: Culture, t: ScenarioTemplate, userAction: string)
    ensures Observe(c, t, Lower(userAction)) == Observe(c, t, userAction)
  {
    LowerIdempotent(userAction);
  }
}
