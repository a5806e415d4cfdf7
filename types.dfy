/** The records and enumerations shared by the application (types.ts). */
module Types {
  import Wrappers

  /** Whether a trait is a strength, a weakness or neither. */
  datatype Impact = Virtue | Vice | Neutral

  /** One distinguishing trait of an author's style. */
  datatype StyleTrait = StyleTrait(name: string, description: string, example: string, impact: Impact)

  /** Per-axis scores, each meant to lie in 0..100. */
  datatype StyleMetrics = StyleMetrics(
    complexity: int, formality: int, emotionality: int, sarcasm: int, creativity: int)

  /** The style profile produced by an analysis. */
  datatype StyleAnalysis = StyleAnalysis(
    personaName: string,
    writingLevel: string,
    writingScore: int,
    metrics: StyleMetrics,
    summary: string,
    keyTraits: seq<StyleTrait>,
    systemPrompt: string)

  /** Who wrote a chat message. */
  datatype Role = User | Model

  /** The optional thumbs-up / thumbs-down label on a message. */
  datatype Feedback = Positive | Negative

  datatype ChatMessage = ChatMessage(role: Role, content: string, feedback: Wrappers.Option<Feedback>)

  /** The phase of the analysis session shown by the top-level view. */
  datatype AppState = Idle | ReadingPdf | Analyzing | Complete | Error

  /** The five independent humanization toggles of the chat tester. */
  datatype HumanizationConfig = HumanizationConfig(
    burstiness: bool,
    imperfections: bool,
    personalTouch: bool,
    culturalContext: bool,
    antiRepetition: bool)

  /** The names of the toggles, `keyof HumanizationConfig`. */
  datatype ConfigKey = Burstiness | Imperfections | PersonalTouch | CulturalContext | AntiRepetition

  /** The value of toggle `k` in `c`. */
  function Get(c: HumanizationConfig, k: ConfigKey): bool
  {
    match k
    case Burstiness => c.burstiness
    case Imperfections => c.imperfections
    case PersonalTouch => c.personalTouch
    case CulturalContext => c.culturalContext
    case AntiRepetition => c.antiRepetition
  }
}
