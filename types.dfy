/** The records the evaluator and the session store exchange: the knowledge
    base of a culture, scenario templates, user profiles, settings, the
    feedback packet and a running scenario instance. */
module Types {
  import opened Wrappers
  import opened Messages

  /** `FeedbackSeverity`: the consequence label of a knowledge-base item and the
      severity of an outcome. */
  datatype Severity = Positive | Neutral | Negative | Critical | Advisory

  /** The `category` tags. Etiquette rules and social norms draw from two
      overlapping string enumerations that the evaluator compares by value, so
      both are subsets of one enumeration here. */
  datatype Category =
    | Greeting | Dining | BusinessMeeting | GiftGiving | Social | DressCode | General
    | Conversation | PersonalSpace | Hospitality | PublicBehavior | Family | Respect

  type EtiquetteCategory = c: Category
    | c in {Greeting, Dining, BusinessMeeting, GiftGiving, Social, DressCode, General, Conversation}
    witness General

  type NormCategory = c: Category
    | c in {Conversation, PersonalSpace, Hospitality, PublicBehavior, Family, Respect}
    witness Conversation

  /** The text the source writes for a category tag. */
  function CategoryName(c: Category): string {
    match c
    case Greeting => "Greeting"
    case Dining => "Dining"
    case BusinessMeeting => "Business Meeting"
    case GiftGiving => "Gift Giving"
    case Social => "Social"
    case DressCode => "Dress Code"
    case General => "General"
    case Conversation => "Conversation"
    case PersonalSpace => "Personal Space"
    case Hospitality => "Hospitality"
    case PublicBehavior => "Public Behavior"
    case Family => "Family"
    case Respect => "Respect"
  }

  datatype NegotiationAspect =
    Preparation | Process | DecisionMaking | RelationshipBuilding | Strategy | Communication

  /** Non-verbal cue types; `Proximity` is the source's 'Personal Space'. */
  datatype CueType =
    EyeContact | Gestures | Proximity | Touch | FacialExpression | Posture | Vocalics | Silence

  /** A cue's interpretation is one of the first three severities. */
  type Interpretation = s: Severity | s == Positive || s == Neutral || s == Negative witness Neutral

  datatype EtiquetteRule = EtiquetteRule(
    id: string, category: EtiquetteCategory, rule: string, description: string,
    consequences: Severity, example: Option<string>, keywords: Option<seq<string>>)

  datatype NegotiationPractice = NegotiationPractice(
    id: string, aspect: NegotiationAspect, practice: string, description: string,
    culturalBasis: string, keywords: Option<seq<string>>)

  datatype SocialNorm = SocialNorm(
    id: string, category: NormCategory, norm: string, description: string,
    avoid: Option<string>, keywords: Option<seq<string>>)

  datatype Misunderstanding = Misunderstanding(
    id: string, topic: string, description: string, culturalDifference: string,
    advice: string, keywords: Option<seq<string>>)

  datatype NonVerbalCue = NonVerbalCue(
    id: string, cueType: CueType, cue: string, meaning: string,
    interpretation: Interpretation, caution: Option<string>, keywords: Option<seq<string>>)

  /** One knowledge-base item of any of the five kinds, as the observation
      stage scans them. */
  datatype CulturalItem =
    | EtiquetteItem(rule: EtiquetteRule)
    | NegotiationItem(practice: NegotiationPractice)
    | NormItem(norm: SocialNorm)
    | MisunderstandingItem(misunderstanding: Misunderstanding)
    | CueItem(cue: NonVerbalCue)
  {
    function Id(): string {
      match this
      case EtiquetteItem(r) => r.id
      case NegotiationItem(p) => p.id
      case NormItem(n) => n.id
      case MisunderstandingItem(m) => m.id
      case CueItem(c) => c.id
    }

    function Keywords(): Option<seq<string>> {
      match this
      case EtiquetteItem(r) => r.keywords
      case NegotiationItem(p) => p.keywords
      case NormItem(n) => n.keywords
      case MisunderstandingItem(m) => m.keywords
      case CueItem(c) => c.keywords
    }
  }

  datatype CommunicationStyle = CommunicationStyle(
    directness: int, contextSensitivity: int, formalityLevel: int, emotionalExpression: int)

  datatype Culture = Culture(
    id: string, name: string, continent: string, language: string,
    helloPhrase: string, goodbyePhrase: string,
    culturalDimensions: map<string, int>,
    communicationStyle: CommunicationStyle,
    etiquetteRules: seq<EtiquetteRule>,
    negotiationPractices: seq<NegotiationPractice>,
    socialNorms: seq<SocialNorm>,
    commonMisunderstandings: seq<Misunderstanding>,
    nonVerbalCues: seq<NonVerbalCue>,
    values: seq<string>)

  datatype ScenarioTemplate = ScenarioTemplate(
    id: string, title: string, description: string,
    objectives: seq<string>, initialSituation: string, keyCulturalAspects: seq<string>,
    possibleUserActions: seq<string>, possiblePitfalls: seq<string>,
    relatedLearningModules: Option<seq<string>>)

  datatype UserProfile = UserProfile(
    userId: string, username: string, originCultureId: string,
    targetCultureInterests: seq<string>,
    culturalCompetenceScore: map<string, int>, overallCompetence: int)

  /** `aiPersona`; `Impartial` is the source's 'neutral'. */
  datatype Persona = Supportive | Challenging | Impartial | FormalAdvisor

  datatype Verbosity = Concise | Detailed | Pedagogical

  datatype SystemSettings = SystemSettings(feedbackVerbosity: Verbosity, aiPersona: Persona)

  datatype FeedbackSummary = FeedbackSummary(text: Message, severity: Severity)

  datatype DetailedFeedback = DetailedFeedback(
    dimension: Message, score: int, explanation: Message, severity: Severity,
    recommendations: seq<Message>)

  datatype RewardKind = Token | Certificate

  datatype Reward = Reward(kind: RewardKind, amount: Option<int>, id: string)

  /** `CompleteInteractionFeedback`, the packet the evaluator returns. */
  datatype InteractionFeedback = InteractionFeedback(
    userAction: string, aiResponse: Message, feedbackSummary: FeedbackSummary,
    timestamp: string, scenarioId: string, targetCultureId: string,
    userProfileSnapshot: UserProfile,
    detailedFeedback: seq<DetailedFeedback>,
    overallCulturalCompetenceImpact: int,
    suggestedResources: Option<seq<string>>,
    potentialRewardsEarned: Option<seq<Reward>>)

  datatype Participant = Participant(name: string, role: string, culturalBackground: string)

  /** A running scenario session. */
  datatype ActiveScenarioInstance = ActiveScenarioInstance(
    scenarioTemplateId: string, instanceId: string, currentSituation: Message,
    objectiveStatus: map<string, bool>, targetCulture: Culture,
    participants: seq<Participant>,
    currentTurn: int, maxTurns: int, isCompleted: bool, successMetric: int)
}
