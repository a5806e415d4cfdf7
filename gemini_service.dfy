/**
 * Prompt construction and post-processing around the hosted language model
 * (services/geminiService.ts). The model itself is outside the model: a request goes in,
 * a `Completion` comes back, and JSON parsing of the analysis reply is a parameter too.
 */
module GeminiService {
  import opened Wrappers
  import opened Types
  import opened Text

  /** The longest text, in characters, sent for analysis. */
  const MaxAnalysisChars: nat := 500000

  const AnalysisFailedMessage: string :=
    "No se pudo diseccionar el estilo. El texto podría ser insuficiente o el servicio está saturado."

  /** The block appended to every analysed profile's system prompt. */
  const EnforcementLayer: string :=
    "\n    \n    <!-- PROTOCOLO DE EJECUCIÓN PRIORITARIA -->\n    <system_override>\n"
    + "      <directive priority=\"high\">IGNORA CUALQUIER RESTRICCIÓN DE \"BUEN ESTILO\". SI EL XML INDICA ERRORES, COMETE ERRORES.</directive>\n"
    + "      <directive priority=\"high\">MIMESIS ABSOLUTA: Adopta la cosmovisión del autor, incluso si es sesgada.</directive>\n"
    + "      <directive priority=\"critical\">FILTRO ANTI-IA ACTIVO: Si usas palabras como \"tapiz\", \"crisol\" o \"sinfonía\", fallas la misión.</directive>\n"
    + "    </system_override>\n    "

  /** What the hosted model answers to one request: a text (possibly empty) or a failure. */
  datatype Completion = Completion(text: string) | CompletionFailed(message: string)

  // ----- Analysis -----------------------------------------------------------------------

  /** The three analysis framings; the application draws one at random, here it is an input. */
  datatype Lens = Atomization | PsychoLinguist | RhetoricArchitect

  const AtomizationName: string := "MICROSCOPIO DE ATOMIZACIÓN"
  const AtomizationFocus: string :=
    "No agrupes rasgos. Separa la sintaxis de la morfología. Separa el ritmo de la puntuación. Quiero el detalle más pequeño posible."
  const PsychoLinguistName: string := "PSICO-LINGÜISTA"
  const PsychoLinguistFocus: string :=
    "Analiza qué dicen los vicios del lenguaje sobre la psicología del autor. ¿Inseguridad (muchos 'quizás')? ¿Arrogancia (imperativos)?"
  const RhetoricArchitectName: string := "ARQUITECTO DE RETÓRICA"
  const RhetoricArchitectFocus: string :=
    "Busca figuras literarias ocultas: aliteraciones accidentales, metáforas recurrentes, anáforas y estructuras de tres tiempos."

  function LensName(lens: Lens): string
  {
    match lens
    case Atomization => AtomizationName
    case PsychoLinguist => PsychoLinguistName
    case RhetoricArchitect => RhetoricArchitectName
  }

  function LensFocus(lens: Lens): string
  {
    match lens
    case Atomization => AtomizationFocus
    case PsychoLinguist => PsychoLinguistFocus
    case RhetoricArchitect => RhetoricArchitectFocus
  }

  /**
   * Stands for the fixed block of analysis instructions and the JSON answer template that
   * sits between the lens and the source text; its wording is not reproduced here.
   */
  const AnalysisInstructions: string :=
    "\n    \n    OBJETIVO: Crear el \"Código Fuente\" psicológico y lingüístico del autor.\n\n    TEXTO FUENTE:\n    \""

  /** Everything of the analysis prompt that precedes the text under analysis. */
  function PromptHead(lens: Lens): string
  {
    PromptOpening + LensName(lens) + FocusLabel + LensFocus(lens) + AnalysisInstructions
  }

  const PromptOpening: string :=
    "\n    Rol: Eres el Analista de Estilo Forense más avanzado del mundo. Tu trabajo no es describir, es DISECCIONAR para replicar.\n    \n    MODO DE OPERACIÓN: ["
  const FocusLabel: string := "]\n    ENFOQUE PRIORITARIO: "

  const PromptTail: string :=
    "...\"\n    \n    Responde ESTRICTAMENTE en JSON válido. Escapa las comillas dobles dentro del systemPrompt si es necesario.\n  "

  /**
   * `generateDynamicPrompt`: the analysis prompt with the lens and the text spliced in. It
   * opens with the fixed head (see `PromptShowsLens` for where the lens lies in it), then comes
   * the text under analysis, verbatim, and the fixed tail closes it.
   */
  function AnalysisPrompt(text: string, lens: Lens): (r: string)
    ensures |r| == |PromptHead(lens)| + |text| + |PromptTail|
    ensures r[..|PromptHead(lens)|] == PromptHead(lens)
    ensures r[|PromptHead(lens)|..|PromptHead(lens)| + |text|] == text
    ensures r[|r| - |PromptTail|..] == PromptTail
  {
    PromptPieces(PromptOpening, LensName(lens), FocusLabel, LensFocus(lens), AnalysisInstructions, text, PromptTail);
    PromptHead(lens) + text + PromptTail
  }

  /** The prompt names the chosen lens right after the fixed opening, and gives its focus after the focus label. */
  lemma PromptShowsLens(text: string, lens: Lens)
    ensures var r := AnalysisPrompt(text, lens);
      var at := |PromptOpening|;
      at + |LensName(lens)| <= |r| && r[at..at + |LensName(lens)|] == LensName(lens)
    ensures var r := AnalysisPrompt(text, lens);
      var at := |PromptOpening| + |LensName(lens)| + |FocusLabel|;
      at + |LensFocus(lens)| <= |r| && r[at..at + |LensFocus(lens)|] == LensFocus(lens)
  {
    PromptPieces(PromptOpening, LensName(lens), FocusLabel, LensFocus(lens), AnalysisInstructions, text, PromptTail);
  }

  /** Where each of the seven pieces of a prompt lies once they are written one after another. */
  lemma PromptPieces(opening: string, name: string, marker: string, focus: string, instr: string, text: string, tail: string)
    ensures var head := opening + name + marker + focus + instr;
      var r := head + text + tail;
      |r| == |head| + |text| + |tail| &&
      r[..|head|] == head &&
      r[|opening|..|opening| + |name|] == name &&
      r[|opening| + |name| + |marker|..|opening| + |name| + |marker| + |focus|] == focus &&
      r[|head|..|head| + |text|] == text &&
      r[|r| - |tail|..] == tail
  {
    var head := opening + name + marker + focus + instr;
    var r := head + text + tail;
    assert r[..|head|] == head;
    assert head[|opening|..|opening| + |name|] == name;
    assert head[|opening| + |name| + |marker|..|opening| + |name| + |marker| + |focus|] == focus;
    assert r[|head|..|head| + |text|] == text;
    assert r[|r| - |tail|..] == tail;
  }

  /** `text.slice(0, 500000)`: the longest prefix of at most 500 000 characters. */
  function TruncateForAnalysis(text: string): (r: string)
    ensures |r| == if |text| <= MaxAnalysisChars then |text| else MaxAnalysisChars
    ensures r <= text
  {
    if |text| <= MaxAnalysisChars then text else text[..MaxAnalysisChars]
  }

  /** Truncating twice is truncating once; a short text is left as it is. */
  lemma TruncationIdempotent(text: string)
    ensures TruncateForAnalysis(TruncateForAnalysis(text)) == TruncateForAnalysis(text)
    ensures |text| <= MaxAnalysisChars ==> TruncateForAnalysis(text) == text
  {
  }

  /**
   * `analyzeTextStyle`: truncate, build the prompt, ask the model, reject an empty or
   * unparsable reply, and append the enforcement layer to the returned system prompt.
   */
  method AnalyzeTextStyle(
    text: string, lens: Lens, generate: string -> Completion, parse: string -> Option<StyleAnalysis>)
    returns (r: Result<StyleAnalysis, string>)
    ensures var reply := generate(AnalysisPrompt(TruncateForAnalysis(text), lens));
      r.Ok? <==> reply.Completion? && reply.text != "" && parse(reply.text).Some?
    ensures var reply := generate(AnalysisPrompt(TruncateForAnalysis(text), lens));
      r.Ok? ==>
        var parsed := parse(reply.text).value;
        r.value == parsed.(systemPrompt := parsed.systemPrompt + EnforcementLayer)
    ensures r.Err? ==> r.error == AnalysisFailedMessage
  {
    var truncatedText := TruncateForAnalysis(text);
    var prompt := AnalysisPrompt(truncatedText, lens);
    var response := generate(prompt);
    if response.CompletionFailed? {
      return Err(AnalysisFailedMessage);
    }
    var jsonText := response.text;
    if jsonText == "" {
      return Err(AnalysisFailedMessage);
    }
    match parse(jsonText)
    case None =>
      return Err(AnalysisFailedMessage);
    case Some(parsed) =>
      var analysis := parsed;
      analysis := analysis.(systemPrompt := analysis.systemPrompt + EnforcementLayer);
      return Ok(analysis);
  }

  // ----- Humanization instructions --------------------------------------------------------

  /** What each generation mode tells the model to do. */
  const BurstinessCommand: string := "Alterna frases de 3 palabras con párrafos de 50 palabras."
  const ImperfectionCommand: string := "Simula fatiga mental, dudas y autocorrecciones."
  const SubjectivityCommand: string := "Filtra todo a través de un ego fuerte y opinionado."
  const AntiAiCommand: string := "Prohibido usar estructuras de lista a menos que el autor lo haga."
  const GroundingCommand: string := "Añade ruido del mundo real (marcas, lugares, fechas)."

  /** The directive line each toggle contributes: a `dynamic_mode` element on a line of its own. */
  function Fragment(k: ConfigKey): string
  {
    match k
    case Burstiness => BurstinessFragment
    case Imperfections => ImperfectionFragment
    case PersonalTouch => SubjectivityFragment
    case AntiRepetition => AntiAiFragment
    case CulturalContext => GroundingFragment
  }

  const BurstinessFragment: string := "\n<dynamic_mode name='burstiness'>ACTIVO: " + BurstinessCommand + "</dynamic_mode>\n"
  const ImperfectionFragment: string := "\n<dynamic_mode name='imperfection'>ACTIVO: " + ImperfectionCommand + "</dynamic_mode>\n"
  const SubjectivityFragment: string := "\n<dynamic_mode name='subjectivity'>ACTIVO: " + SubjectivityCommand + "</dynamic_mode>\n"
  const AntiAiFragment: string := "\n<dynamic_mode name='anti_ai'>ACTIVO: " + AntiAiCommand + "</dynamic_mode>\n"
  const GroundingFragment: string := "\n<dynamic_mode name='grounding'>ACTIVO: " + GroundingCommand + "</dynamic_mode>\n"

  /** The order in which the toggles are consulted. */
  const FragmentOrder: seq<ConfigKey> := [Burstiness, Imperfections, PersonalTouch, AntiRepetition, CulturalContext]

  /** The toggles among `keys` that are on, in the order of `keys`. */
  function EnabledKeys(config: HumanizationConfig, keys: seq<ConfigKey>): seq<ConfigKey>
  {
    if keys == [] then []
    else (if Get(config, keys[0]) then [keys[0]] else []) + EnabledKeys(config, keys[1..])
  }

  /** `keys.map(f)`. */
  function MapKeys<T>(f: ConfigKey -> T, keys: seq<ConfigKey>): seq<T>
  {
    if keys == [] then [] else [f(keys[0])] + MapKeys(f, keys[1..])
  }

  /** The directive of each toggle, in order. */
  function Fragments(keys: seq<ConfigKey>): seq<string>
  {
    MapKeys(Fragment, keys)
  }

  /** The fragments of the enabled toggles among `keys`, in the order of `keys`. */
  function EnabledFragments(config: HumanizationConfig, keys: seq<ConfigKey>): seq<string>
  {
    Fragments(EnabledKeys(config, keys))
  }

  /** The total length of the pieces. */
  function SumOfLengths(pieces: seq<string>): nat
  {
    if pieces == [] then 0 else |pieces[0]| + SumOfLengths(pieces[1..])
  }

  /** The instructions a configuration adds to the chat system prompt. */
  function EvasionInstructions(config: HumanizationConfig): string
  {
    Concat(EnabledFragments(config, FragmentOrder))
  }

  /**
   * `buildEvasionInstructions`: starting from the empty text, consults the toggles in the
   * fixed order and appends each enabled one's directive.
   */
  method BuildEvasionInstructions(config: HumanizationConfig) returns (instructions: string)
    ensures instructions == EvasionInstructions(config)
  {
    instructions := "";
    EvasionStart(config);
    EvasionStep(config, 0, Burstiness);
    instructions := AppendIfOn(instructions, config, Burstiness);
    EvasionStep(config, 1, Imperfections);
    instructions := AppendIfOn(instructions, config, Imperfections);
    EvasionStep(config, 2, PersonalTouch);
    instructions := AppendIfOn(instructions, config, PersonalTouch);
    EvasionStep(config, 3, AntiRepetition);
    instructions := AppendIfOn(instructions, config, AntiRepetition);
    EvasionStep(config, 4, CulturalContext);
    instructions := AppendIfOn(instructions, config, CulturalContext);
    EvasionEnd(config);
  }

  /** One `if (config.x) instructions += ...` step of the builder. */
  method AppendIfOn(instructions: string, config: HumanizationConfig, k: ConfigKey) returns (r: string)
    ensures r == instructions + Contribution(config, k)
  {
    r := instructions;
    if Get(config, k) {
      r := r + Fragment(k);
    }
  }

  /** The instructions contributed by the first `i` toggles. */
  function EvasionPrefix(config: HumanizationConfig, i: nat): string
    requires i <= |FragmentOrder|
  {
    Concat(EnabledFragments(config, FragmentOrder[..i]))
  }

  /** What one toggle adds: its fragment when it is on, nothing otherwise. */
  function Contribution(config: HumanizationConfig, k: ConfigKey): string
  {
    if Get(config, k) then Fragment(k) else ""
  }

  lemma EvasionStart(config: HumanizationConfig)
    ensures EvasionPrefix(config, 0) == ""
  {
    assert FragmentOrder[..0] == [];
  }

  lemma EvasionEnd(config: HumanizationConfig)
    ensures EvasionPrefix(config, 5) == EvasionInstructions(config)
  {
    assert FragmentOrder[..5] == FragmentOrder;
  }

  /** Consulting one more toggle appends what it contributes. */
  lemma EvasionStep(config: HumanizationConfig, i: nat, k: ConfigKey)
    requires i < |FragmentOrder| && k == FragmentOrder[i]
    ensures EvasionPrefix(config, i + 1) == EvasionPrefix(config, i) + Contribution(config, k)
  {
    assert FragmentOrder[..i + 1] == FragmentOrder[..i] + [k];
    var added := if Get(config, k) then [k] else [];
    EnabledKeysAppend(config, FragmentOrder[..i], k);
    MapKeysAppend(Fragment, EnabledKeys(config, FragmentOrder[..i]), added);
    assert Concat(Fragments(added)) == Contribution(config, k);
    ConcatAppend(EnabledFragments(config, FragmentOrder[..i]), Fragments(added));
  }

  lemma {:induction false} EnabledKeysAppend(config: HumanizationConfig, keys: seq<ConfigKey>, k: ConfigKey)
    ensures EnabledKeys(config, keys + [k]) == EnabledKeys(config, keys) + (if Get(config, k) then [k] else [])
  {
    if keys == [] {
      assert [k][1..] == [];
    } else {
      assert (keys + [k])[1..] == keys[1..] + [k];
      EnabledKeysAppend(config, keys[1..], k);
    }
  }

  /** Mapping distributes over concatenation. */
  lemma {:induction false} MapKeysAppend<T>(f: ConfigKey -> T, a: seq<ConfigKey>, b: seq<ConfigKey>)
    ensures MapKeys(f, a + b) == MapKeys(f, a) + MapKeys(f, b)
  {
    if a == [] {
      assert a + b == b;
    } else {
      assert (a + b)[1..] == a[1..] + b;
      MapKeysAppend(f, a[1..], b);
    }
  }

  /** Mapping keeps the length and maps each element in place. */
  lemma {:induction false} MapKeysAt<T>(f: ConfigKey -> T, keys: seq<ConfigKey>)
    ensures |MapKeys(f, keys)| == |keys|
    ensures forall i :: 0 <= i < |keys| ==> MapKeys(f, keys)[i] == f(keys[i])
  {
    if keys != [] {
      MapKeysAt(f, keys[1..]);
    }
  }

  lemma {:induction false} ConcatAppend(a: seq<string>, b: seq<string>)
    ensures Concat(a + b) == Concat(a) + Concat(b)
  {
    if a == [] {
      assert a + b == b;
    } else {
      assert (a + b)[1..] == a[1..] + b;
      ConcatAppend(a[1..], b);
    }
  }

  /** With every toggle off nothing is added. */
  lemma NoTogglesNoInstructions(config: HumanizationConfig)
    requires forall k :: !Get(config, k)
    ensures EvasionInstructions(config) == ""
  {
    var i := 0;
    EvasionStart(config);
    while i < |FragmentOrder|
      invariant i <= |FragmentOrder|
      invariant EvasionPrefix(config, i) == ""
    {
      EvasionStep(config, i, FragmentOrder[i]);
      i := i + 1;
    }
    EvasionEnd(config);
  }

  lemma FragmentsDistinct(j: ConfigKey, k: ConfigKey)
    ensures Fragment(j) == Fragment(k) ==> j == k
  {
    if j != k {
      assert |Fragment(j)| != |Fragment(k)|;
    }
  }

  /** The toggles that are on are the consulted ones that are on. */
  lemma {:induction false} EnabledKeysMembership(config: HumanizationConfig, keys: seq<ConfigKey>)
    ensures forall j :: j in EnabledKeys(config, keys) <==> j in keys && Get(config, j)
  {
    if keys != [] {
      EnabledKeysMembership(config, keys[1..]);
      assert keys == [keys[0]] + keys[1..];
    }
  }

  /** Every toggle is consulted. */
  lemma EveryToggleConsulted(k: ConfigKey)
    ensures k in FragmentOrder
  {
    match k
    case Burstiness => assert FragmentOrder[0] == k;
    case Imperfections => assert FragmentOrder[1] == k;
    case PersonalTouch => assert FragmentOrder[2] == k;
    case AntiRepetition => assert FragmentOrder[3] == k;
    case CulturalContext => assert FragmentOrder[4] == k;
  }

  /** A toggle's fragment is among the pieces exactly when the toggle is on. */
  lemma FragmentPresentIffEnabled(config: HumanizationConfig, k: ConfigKey)
    ensures Fragment(k) in EnabledFragments(config, FragmentOrder) <==> Get(config, k)
  {
    var keys := EnabledKeys(config, FragmentOrder);
    var pieces := Fragments(keys);
    EnabledKeysMembership(config, FragmentOrder);
    MapKeysAt(Fragment, keys);
    EveryToggleConsulted(k);
    if Fragment(k) in pieces {
      var i :| 0 <= i < |pieces| && pieces[i] == Fragment(k);
      FragmentsDistinct(keys[i], k);
      assert keys[i] in keys;
    }
    if Get(config, k) {
      assert k in keys;
      var i :| 0 <= i < |keys| && keys[i] == k;
      assert pieces[i] == Fragment(k);
    }
  }

  lemma {:induction false} ConcatLength(pieces: seq<string>)
    ensures |Concat(pieces)| == SumOfLengths(pieces)
  {
    if pieces != [] {
      ConcatLength(pieces[1..]);
    }
  }

  /** The instructions are as long as the fragments of the enabled toggles together. */
  lemma EvasionLength(config: HumanizationConfig)
    ensures |EvasionInstructions(config)| == SumOfLengths(EnabledFragments(config, FragmentOrder))
  {
    ConcatLength(EnabledFragments(config, FragmentOrder));
  }

  /** The concatenation splits around any one of its pieces. */
  lemma {:induction false} ConcatSplit(pieces: seq<string>, i: nat)
    requires i < |pieces|
    ensures Concat(pieces) == Concat(pieces[..i]) + pieces[i] + Concat(pieces[i + 1..])
  {
    if i > 0 {
      ConcatSplit(pieces[1..], i - 1);
      assert pieces[1..][..i - 1] == pieces[1..i];
      assert pieces[1..][i..] == pieces[i + 1..];
      assert pieces[..i] == [pieces[0]] + pieces[1..i];
      assert Concat(pieces[..i]) == pieces[0] + Concat(pieces[1..i]);
    } else {
      assert pieces[..0] == [];
      assert pieces[1..] == pieces[i + 1..];
    }
  }

  /** An enabled toggle's fragment occurs verbatim in the instructions. */
  lemma EnabledFragmentOccurs(config: HumanizationConfig, k: ConfigKey)
    requires Get(config, k)
    ensures exists before, after :: EvasionInstructions(config) == before + Fragment(k) + after
  {
    var pieces := EnabledFragments(config, FragmentOrder);
    FragmentPresentIffEnabled(config, k);
    var i :| 0 <= i < |pieces| && pieces[i] == Fragment(k);
    ConcatSplit(pieces, i);
  }

  // ----- Chat ------------------------------------------------------------------------------

  /** One text part of a chat turn. */
  datatype Part = Part(text: string)

  /** A chat turn as the model's chat API receives it. */
  datatype Content = Content(role: Role, parts: seq<Part>)

  /** What `getChatResponse` hands to the chat API: the system instruction, the prior turns and the new message. */
  datatype ChatRequest = ChatRequest(systemInstruction: string, history: seq<Content>, message: string)

  /** `history.map(h => ({ role: h.role, parts: [{ text: h.content }] }))`. */
  function MapHistory(history: seq<ChatMessage>): (r: seq<Content>)
    ensures |r| == |history|
    ensures forall i :: 0 <= i < |r| ==> r[i].role == history[i].role && r[i].parts == [Part(history[i].content)]
  {
    if history == [] then []
    else [Content(history[0].role, [Part(history[0].content)])] + MapHistory(history[1..])
  }

  /** The system prompt, followed by the humanization instructions when a configuration is given. */
  method FinalSystemInstruction(systemPrompt: string, config: Option<HumanizationConfig>)
    returns (finalSystemInstruction: string)
    ensures config.None? ==> finalSystemInstruction == systemPrompt
    ensures config.Some? ==> finalSystemInstruction == systemPrompt + EvasionInstructions(config.value)
  {
    finalSystemInstruction := systemPrompt;
    if config.Some? {
      var extra := BuildEvasionInstructions(config.value);
      finalSystemInstruction := finalSystemInstruction + extra;
    }
  }

  /**
   * `getChatResponse`: opens a chat with the assembled system instruction and the mapped
   * history, sends the user's message, and passes back the reply text or the failure.
   */
  method GetChatResponse(
    history: seq<ChatMessage>, systemPrompt: string, userMessage: string,
    config: Option<HumanizationConfig>, send: ChatRequest -> Completion)
    returns (r: Result<string, string>, request: ChatRequest)
    ensures request.systemInstruction ==
      if config.None? then systemPrompt else systemPrompt + EvasionInstructions(config.value)
    ensures request.history == MapHistory(history)
    ensures request.message == userMessage
    ensures r == match send(request)
                 case Completion(text) => Ok(text)
                 case CompletionFailed(message) => Err(message)
  {
    var finalSystemInstruction := FinalSystemInstruction(systemPrompt, config);
    request := ChatRequest(finalSystemInstruction, MapHistory(history), userMessage);
    match send(request)
    case Completion(text) =>
      r := Ok(text);
    case CompletionFailed(message) =>
      r := Err(message);
  }
}
