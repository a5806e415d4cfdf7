/**
 * The chat panel in which a profile is tried out (components/StyleTester.tsx): the message
 * being typed, the conversation, the loading flag and the humanization toggles. The chat
 * service's reply is a parameter; each submission runs to completion as one step.
 */
module StyleTester {
  import opened Wrappers
  import opened Types
  import opened Text
  import opened GeminiService

  /** Shown as the model's message when the chat request fails. */
  const ChatErrorMessage: string := "Error al generar la respuesta. Por favor intenta de nuevo."

  /** The toggles a new panel starts with. */
  const DefaultConfig: HumanizationConfig := HumanizationConfig(
    burstiness := true, imperfections := false, personalTouch := true,
    culturalContext := false, antiRepetition := true)

  /** `{ ...prev, [key]: !prev[key] }`: flips exactly the named toggle. */
  function Toggled(c: HumanizationConfig, key: ConfigKey): (r: HumanizationConfig)
    ensures Get(r, key) == !Get(c, key)
    ensures forall k :: k != key ==> Get(r, k) == Get(c, k)
  {
    match key
    case Burstiness => c.(burstiness := !c.burstiness)
    case Imperfections => c.(imperfections := !c.imperfections)
    case PersonalTouch => c.(personalTouch := !c.personalTouch)
    case CulturalContext => c.(culturalContext := !c.culturalContext)
    case AntiRepetition => c.(antiRepetition := !c.antiRepetition)
  }

  /** Toggling the same key twice restores the configuration. */
  lemma ToggleTwiceRestores(c: HumanizationConfig, key: ConfigKey)
    ensures Toggled(Toggled(c, key), key) == c
  {
  }

  /** The default turns on burstiness, subjectivity and the anti-list rule, and nothing else. */
  lemma DefaultConfigInstructions()
    ensures Get(DefaultConfig, Burstiness) && Get(DefaultConfig, PersonalTouch) && Get(DefaultConfig, AntiRepetition)
    ensures !Get(DefaultConfig, Imperfections) && !Get(DefaultConfig, CulturalContext)
    ensures EnabledFragments(DefaultConfig, FragmentOrder) ==
      [Fragment(Burstiness), Fragment(PersonalTouch), Fragment(AntiRepetition)]
  {
    var order := FragmentOrder;
    assert order[1..][1..][1..][1..][1..] == [];
  }

  /** The panel's state as one value. */
  datatype TesterState = TesterState(
    input: string, messages: seq<ChatMessage>, isLoading: bool, humanConfig: HumanizationConfig)

  /**
   * The request a submission sends, if any: nothing for blank input or while a reply is
   * pending; otherwise the profile's prompt with the toggles' instructions, the whole
   * conversation so far as history, and the typed text as the new message.
   */
  function SubmitRequest(s: TesterState, systemPrompt: string): (r: Option<ChatRequest>)
    ensures r.None? <==> IsBlank(s.input) || s.isLoading
  {
    if IsBlank(s.input) || s.isLoading then None
    else Some(ChatRequest(systemPrompt + EvasionInstructions(s.humanConfig), MapHistory(s.messages), s.input))
  }

  /** The messages a reply adds: the reply text unless it is empty, or the error notice. */
  function ReplyMessages(reply: Completion): (r: seq<ChatMessage>)
    ensures |r| <= 1
    ensures forall i :: 0 <= i < |r| ==> r[i].role == Model && r[i].content != ""
  {
    match reply
    case Completion(text) => if text == "" then [] else [ChatMessage(Model, text, None)]
    case CompletionFailed(_) => [ChatMessage(Model, ChatErrorMessage, None)]
  }

  /** `handleSubmit` as a transition of the panel's state. */
  function AfterSubmit(s: TesterState, systemPrompt: string, send: ChatRequest -> Completion): (r: TesterState)
    ensures r.humanConfig == s.humanConfig
    ensures s.messages <= r.messages && |r.messages| <= |s.messages| + 2
    ensures SubmitRequest(s, systemPrompt).None? ==> r == s
    ensures SubmitRequest(s, systemPrompt).Some? ==>
      r.input == "" && !r.isLoading && |r.messages| > |s.messages| &&
      r.messages[|s.messages|] == ChatMessage(User, s.input, None)
  {
    match SubmitRequest(s, systemPrompt)
    case None => s
    case Some(request) =>
      TesterState("", s.messages + [ChatMessage(User, s.input, None)] + ReplyMessages(send(request)), false, s.humanConfig)
  }

  class ChatTester {
    /** The system prompt of the profile under test. */
    const systemPrompt: string
    var input: string
    var messages: seq<ChatMessage>
    var isLoading: bool
    var humanConfig: HumanizationConfig

    function State(): TesterState
      reads this
    {
      TesterState(input, messages, isLoading, humanConfig)
    }

    constructor(systemPrompt: string)
      ensures this.systemPrompt == systemPrompt
      ensures State() == TesterState("", [], false, DefaultConfig)
    {
      this.systemPrompt := systemPrompt;
      input := "";
      messages := [];
      isLoading := false;
      humanConfig := DefaultConfig;
    }

    /** `toggleConfig`. */
    method ToggleConfig(key: ConfigKey)
      modifies this
      ensures State() == old(State()).(humanConfig := Toggled(old(humanConfig), key))
    {
      humanConfig := Toggled(humanConfig, key);
    }

    /** Typing in the message box. */
    method EditInput(text: string)
      modifies this
      ensures State() == old(State()).(input := text)
    {
      input := text;
    }

    /**
     * `handleSubmit`: post the typed text, clear the box, ask the chat service with the
     * conversation as it was before this message, then add the reply or the error notice.
     */
    method HandleSubmit(send: ChatRequest -> Completion) returns (sent: Option<ChatRequest>)
      modifies this
      ensures State() == AfterSubmit(old(State()), systemPrompt, send)
      ensures sent == SubmitRequest(old(State()), systemPrompt)
    {
      ghost var before := State();
      if IsBlank(input) || isLoading {
        return None;
      }
      var history := messages;
      var userMsg := ChatMessage(User, input, None);
      messages := messages + [userMsg];
      input := "";
      isLoading := true;
      var result, request := GetChatResponse(history, systemPrompt, userMsg.content, Some(humanConfig), send);
      match result {
        case Ok(responseText) =>
          if responseText != "" {
            messages := messages + [ChatMessage(Model, responseText, None)];
          }
        case Err(_) =>
          messages := messages + [ChatMessage(Model, ChatErrorMessage, None)];
      }
      isLoading := false;
      sent := Some(request);
      SubmitStep(before, systemPrompt, send, request, messages);
    }
  }

  /** The transition of an accepted submission, in terms of the request actually sent and the resulting conversation. */
  lemma SubmitStep(
    s: TesterState, systemPrompt: string, send: ChatRequest -> Completion,
    request: ChatRequest, messages: seq<ChatMessage>)
    requires !IsBlank(s.input) && !s.isLoading
    requires request == ChatRequest(systemPrompt + EvasionInstructions(s.humanConfig), MapHistory(s.messages), s.input)
    requires messages == s.messages + [ChatMessage(User, s.input, None)] + ReplyMessages(send(request))
    ensures SubmitRequest(s, systemPrompt) == Some(request)
    ensures AfterSubmit(s, systemPrompt, send) == TesterState("", messages, false, s.humanConfig)
  {
  }

  // ----- Properties ---------------------------------------------------------------------

  /**
   * The whole conversation goes out as history, however long it is: one entry per earlier
   * message, same role and text, with the new message sent on its own.
   */
  lemma WholeConversationSent(s: TesterState, systemPrompt: string)
    requires !IsBlank(s.input) && !s.isLoading
    ensures var r := SubmitRequest(s, systemPrompt);
      r.Some? && r.value.message == s.input &&
      |r.value.history| == |s.messages| &&
      (forall i :: 0 <= i < |s.messages| ==>
        r.value.history[i].role == s.messages[i].role && r.value.history[i].parts == [Part(s.messages[i].content)])
  {
  }

  /**
   * The toggles in force when the message is sent decide the extra instructions: turning a
   * toggle on puts its directive into the system instruction of the next request, where it
   * was not among the enabled directives before.
   */
  lemma ToggleShapesRequest(s: TesterState, systemPrompt: string, key: ConfigKey)
    requires !IsBlank(s.input) && !s.isLoading && !Get(s.humanConfig, key)
    ensures var on := s.(humanConfig := Toggled(s.humanConfig, key));
      SubmitRequest(on, systemPrompt).Some? &&
      (exists before, after :: SubmitRequest(on, systemPrompt).value.systemInstruction == before + Fragment(key) + after) &&
      Fragment(key) in EnabledFragments(on.humanConfig, FragmentOrder) &&
      Fragment(key) !in EnabledFragments(s.humanConfig, FragmentOrder)
  {
    var config := Toggled(s.humanConfig, key);
    FragmentPresentIffEnabled(s.humanConfig, key);
    FragmentPresentIffEnabled(config, key);
    EnabledFragmentOccurs(config, key);
    OccursAfterPrefix(systemPrompt, EvasionInstructions(config), Fragment(key));
  }

  /** A successful non-empty reply follows the user's message; a failed one is replaced by the notice. */
  lemma ExchangeAppended(s: TesterState, systemPrompt: string, send: ChatRequest -> Completion)
    requires SubmitRequest(s, systemPrompt).Some?
    ensures var r := AfterSubmit(s, systemPrompt, send);
      var reply := send(SubmitRequest(s, systemPrompt).value);
      r.messages == s.messages + [ChatMessage(User, s.input, None)] +
        (match reply
         case Completion(text) => if text == "" then [] else [ChatMessage(Model, text, None)]
         case CompletionFailed(_) => [ChatMessage(Model, ChatErrorMessage, None)])
  {
  }

  /** A blank message, or one typed while a reply is pending, changes nothing and sends nothing. */
  lemma BlankOrBusyIgnored(s: TesterState, systemPrompt: string, send: ChatRequest -> Completion)
    requires IsBlank(s.input) || s.isLoading
    ensures AfterSubmit(s, systemPrompt, send) == s && SubmitRequest(s, systemPrompt) == None
  {
  }
}
