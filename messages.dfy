/** The evaluator's messages are the source's template strings: fixed wording
    with interpolated values. A message is kept as that sequence of pieces, and
    `Render` gives the string the source builds. */
module Messages {

  /** Every fixed fragment of wording the evaluator writes. */
  datatype Phrase =
    // persona prefixes
    | SupportivePrefix | ChallengingPrefix | FormalAdvisorPrefix | DefaultPrefix
    // responses
    | AtmosphereShifts | SubtleShift | ReactPositively | WellReceived | Awkwardness | UnderstandInput
    // summaries
    | CriticalLabel | ViolationSuffix | NegativeLabel | PerceivedPoorly | WellAlignedWith | EtiquetteWord
    | AlignedWithObjectives | PitfallApproachedSummary | NoImplications
    // detailed feedback
    | EtiquetteSuffix | SevereTaboo | LeadsToMisunderstandings | CulturallyAppropriate
    | ScenarioObjective | GoodChoice | ScenarioPitfall | TouchedPitfall
    | GeneralInteractionDimension | GenerallyAcceptable
    // recommendations
    | AvoidIn | BeMindfulOf | InWord | ContinueToApply | Period

  /** The exact wording of each phrase. */
  function PhraseText(p: Phrase): string {
    match p
    case SupportivePrefix => "That's an interesting approach. Let's see... "
    case ChallengingPrefix => "Consider your strategy carefully. "
    case FormalAdvisorPrefix => "Analyzing your input, the cultural implications are as follows: "
    case DefaultPrefix => "Processing your action. "
    case AtmosphereShifts => "The atmosphere shifts dramatically. "
    case SubtleShift => "There's a noticeable, subtle shift in the interaction. "
    case ReactPositively => "Your counterparts react positively. "
    case WellReceived => "Your action is well-received. The interaction proceeds smoothly."
    case Awkwardness => "A moment of awkwardness. Your action might have unintended consequences."
    case UnderstandInput => "I understand your input. Let's see how the interaction evolves."
    case CriticalLabel => "Critical: "
    case ViolationSuffix => " violation."
    case NegativeLabel => "Negative: "
    case PerceivedPoorly => " might be perceived poorly."
    case WellAlignedWith => "Positive: Well-aligned with "
    case EtiquetteWord => " etiquette."
    case AlignedWithObjectives => "Positive: Aligned with scenario objectives."
    case PitfallApproachedSummary => "Advisory: A potential cultural pitfall was approached."
    case NoImplications => "Neutral: No strong cultural implications detected."
    case EtiquetteSuffix => " Etiquette"
    case SevereTaboo => " This action is a severe cultural taboo in "
    case LeadsToMisunderstandings => " This can lead to misunderstandings."
    case CulturallyAppropriate => " Your action was culturally appropriate."
    case ScenarioObjective => "Scenario Objective"
    case GoodChoice => "You made a good choice, progressing the scenario positively."
    case ScenarioPitfall => "Scenario Pitfall"
    case TouchedPitfall => "Your action touched upon a known cultural pitfall."
    case GeneralInteractionDimension => "General Interaction"
    case GenerallyAcceptable => "Your action was generally acceptable."
    case AvoidIn => "Avoid this action in "
    case BeMindfulOf => "Be mindful of "
    case InWord => " in "
    case ContinueToApply => "Continue to apply this principle in "
    case Period => "."
  }

  /** A piece of a message: fixed wording, or an interpolated value. */
  datatype Piece = Fixed(phrase: Phrase) | Value(text: string)

  type Message = seq<Piece>

  function PieceText(x: Piece): string {
    match x
    case Fixed(p) => PhraseText(p)
    case Value(s) => s
  }

  /** The string a message stands for: its pieces' texts in order. */
  function Render(m: Message): (r: string)
    ensures m != [] ==> PieceText(m[0]) <= r
  {
    if m == [] then "" else PieceText(m[0]) + Render(m[1..])
  }

  /** A persona prefix ends in a space, so the text after it never runs into it. */
  lemma PrefixEndsInSpace(p: Phrase)
    requires p.SupportivePrefix? || p.ChallengingPrefix? || p.FormalAdvisorPrefix? || p.DefaultPrefix?
    ensures |PhraseText(p)| > 0 && PhraseText(p)[|PhraseText(p)| - 1] == ' '
  {
    match p
    case SupportivePrefix =>
    case ChallengingPrefix =>
    case FormalAdvisorPrefix =>
    case DefaultPrefix =>
  }

  /** Rendering distributes over concatenation of messages. */
  lemma {:induction false} RenderAppend(a: Message, b: Message)
    ensures Render(a + b) == Render(a) + Render(b)
  {
    if a == [] {
      assert a + b == b;
    } else {
      assert (a + b)[0] == a[0] && (a + b)[1..] == a[1..] + b;
      RenderAppend(a[1..], b);
    }
  }
}
