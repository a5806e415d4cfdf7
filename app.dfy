/**
 * The analysis session of the top-level view (App.tsx): which phase it is in, the documents
 * collected so far, the current style profile and the error to show. Text extraction and
 * style analysis are supplied by the caller as their outcomes, and each asynchronous handler
 * is taken as one step that runs to completion.
 */
module App {
  import opened Wrappers
  import opened Types
  import opened Text

  /** Texts shorter than this, in characters, are refused before any analysis. */
  const MinDocumentChars: nat := 50

  /** Placed between the collected documents when they are analysed together. */
  const DocumentSeparator: string := "\n\n*** SIGUIENTE DOCUMENTO ***\n\n"

  const InsufficientSpecimenMessage: string := "El espécimen es insuficiente para una autopsia válida."
  const AnalysisFallbackMessage: string := "Fallo sistémico en la disección."
  const ProcessingFallbackMessage: string := "Error al procesar el cadáver textual."

  /** The four pieces of session state, as one value. */
  datatype SessionState = SessionState(
    appState: AppState, corpus: seq<string>, analysis: Option<StyleAnalysis>, errorMsg: Option<string>)

  const InitialSession: SessionState := SessionState(Idle, [], None, None)

  /** A finished analysis has a profile to show and a failed one has a message to show. */
  predicate Consistent(s: SessionState)
  {
    (s.appState == Complete ==> s.analysis.Some?) &&
    (s.appState == Error ==> s.errorMsg.Some? && s.errorMsg.value != "")
  }

  /** A phase in which no handler is still at work. */
  predicate Settled(state: AppState)
  {
    state == Idle || state == Complete || state == Error
  }

  /** `error.message || fallback`: an empty message is replaced by the fallback. */
  function MessageOr(message: string, fallback: string): (r: string)
    ensures fallback != "" ==> r != ""
    ensures message != "" ==> r == message
    ensures message == "" ==> r == fallback
  {
    if message == "" then fallback else message
  }

  /**
   * The text the analyser receives for a corpus: all documents, separated. It opens with the
   * first document and closes with the latest one, and a single document is sent as it is.
   */
  function CorpusText(corpus: seq<string>): (r: string)
    ensures corpus == [] ==> r == ""
    ensures |corpus| == 1 ==> r == corpus[0]
    ensures corpus != [] ==> |corpus[0]| <= |r| && r[..|corpus[0]|] == corpus[0]
    ensures corpus != [] ==> |corpus[|corpus| - 1]| <= |r| && r[|r| - |corpus[|corpus| - 1]|..] == corpus[|corpus| - 1]
  {
    JoinEnds(corpus, DocumentSeparator);
    Join(corpus, DocumentSeparator)
  }

  /**
   * `processText`: refuse a short text; otherwise add it to the corpus (even if the analysis
   * then fails), analyse the whole corpus and record the profile or the error.
   */
  function AfterProcessText(s: SessionState, text: string, analyze: string -> Result<StyleAnalysis, string>)
    : (r: SessionState)
    ensures Consistent(r) && (r.appState == Complete || r.appState == Error)
    ensures |text| < MinDocumentChars ==> r.corpus == s.corpus && r.analysis == s.analysis
    ensures |text| >= MinDocumentChars ==> r.corpus == s.corpus + [text]
  {
    if |text| < MinDocumentChars then
      s.(appState := Error, errorMsg := Some(InsufficientSpecimenMessage))
    else
      var corpus := s.corpus + [text];
      match analyze(CorpusText(corpus))
      case Ok(result) =>
        s.(appState := Complete, corpus := corpus, analysis := Some(result))
      case Err(message) =>
        s.(appState := Error, corpus := corpus, errorMsg := Some(MessageOr(message, AnalysisFallbackMessage)))
  }

  /** `handleFileSelect`: extract the file's text, then process it; an extraction error ends there. */
  function AfterFileSelect(
    s: SessionState, extracted: Result<string, string>, analyze: string -> Result<StyleAnalysis, string>)
    : (r: SessionState)
    ensures Consistent(r) && (r.appState == Complete || r.appState == Error)
    ensures extracted.Err? ==> r.corpus == s.corpus && r.analysis == s.analysis
  {
    var reading := s.(appState := ReadingPdf, errorMsg := None);
    match extracted
    case Err(message) =>
      reading.(appState := Error, errorMsg := Some(MessageOr(message, ProcessingFallbackMessage)))
    case Ok(text) =>
      AfterProcessText(reading, text, analyze)
  }

  /** `handleTextSubmit`: clear the error and process pasted text. */
  function AfterTextSubmit(s: SessionState, text: string, analyze: string -> Result<StyleAnalysis, string>)
    : (r: SessionState)
    ensures Consistent(r) && (r.appState == Complete || r.appState == Error)
  {
    AfterProcessText(s.(appState := Analyzing, errorMsg := None), text, analyze)
  }

  /** The session object: the four `useState` cells of the view. */
  class Session {
    var appState: AppState
    var corpus: seq<string>
    var analysis: Option<StyleAnalysis>
    var errorMsg: Option<string>

    function State(): SessionState
      reads this
    {
      SessionState(appState, corpus, analysis, errorMsg)
    }

    predicate Valid()
      reads this
    {
      Consistent(State())
    }

    constructor()
      ensures State() == InitialSession && Valid()
    {
      appState := Idle;
      corpus := [];
      analysis := None;
      errorMsg := None;
    }

    method ProcessText(text: string, analyze: string -> Result<StyleAnalysis, string>)
      modifies this
      ensures State() == AfterProcessText(old(State()), text, analyze)
      ensures Valid()
    {
      if |text| < MinDocumentChars {
        errorMsg := Some(InsufficientSpecimenMessage);
        appState := Error;
        return;
      }
      appState := Analyzing;
      var newCorpus := corpus + [text];
      corpus := newCorpus;
      var fullText := Join(newCorpus, DocumentSeparator);
      match analyze(fullText)
      case Ok(result) =>
        analysis := Some(result);
        appState := Complete;
      case Err(message) =>
        errorMsg := Some(MessageOr(message, AnalysisFallbackMessage));
        appState := Error;
    }

    method HandleFileSelect(extracted: Result<string, string>, analyze: string -> Result<StyleAnalysis, string>)
      modifies this
      ensures State() == AfterFileSelect(old(State()), extracted, analyze)
      ensures Valid()
    {
      appState := ReadingPdf;
      errorMsg := None;
      match extracted
      case Err(message) =>
        errorMsg := Some(MessageOr(message, ProcessingFallbackMessage));
        appState := Error;
      case Ok(text) =>
        ProcessText(text, analyze);
    }

    method HandleTextSubmit(text: string, analyze: string -> Result<StyleAnalysis, string>)
      modifies this
      ensures State() == AfterTextSubmit(old(State()), text, analyze)
      ensures Valid()
    {
      appState := Analyzing;
      errorMsg := None;
      ProcessText(text, analyze);
    }

    method HandleReset()
      modifies this
      ensures State() == InitialSession && Valid()
    {
      appState := Idle;
      analysis := None;
      corpus := [];
      errorMsg := None;
    }
  }

  // ----- Properties ---------------------------------------------------------------------

  /** Every handler leaves the session settled and consistent, whatever state it started in. */
  lemma HandlersSettle(
    s: SessionState, text: string, extracted: Result<string, string>,
    analyze: string -> Result<StyleAnalysis, string>)
    ensures Settled(AfterFileSelect(s, extracted, analyze).appState)
    ensures Settled(AfterTextSubmit(s, text, analyze).appState)
    ensures Consistent(InitialSession) && Settled(InitialSession.appState)
  {
  }

  /** A short text is refused with the fixed message and nothing is sent for analysis. */
  lemma ShortTextRefused(s: SessionState, text: string, analyze: string -> Result<StyleAnalysis, string>)
    requires |text| < MinDocumentChars
    ensures AfterTextSubmit(s, text, analyze) ==
      s.(appState := Error, errorMsg := Some(InsufficientSpecimenMessage))
  {
  }

  /**
   * An accepted document stays in the corpus whether or not its analysis succeeds, and the
   * analyser sees the earlier documents followed by the separator and the new one.
   */
  lemma {:induction false} AcceptedDocumentJoinsCorpus(
    s: SessionState, text: string, analyze: string -> Result<StyleAnalysis, string>)
    requires |text| >= MinDocumentChars
    ensures AfterTextSubmit(s, text, analyze).corpus == s.corpus + [text]
    ensures |AfterTextSubmit(s, text, analyze).corpus| == |s.corpus| + 1
    ensures CorpusText(s.corpus + [text]) ==
      if s.corpus == [] then text else CorpusText(s.corpus) + DocumentSeparator + text
  {
    JoinAppend(s.corpus, text, DocumentSeparator);
  }

  /** The analysis outcome decides the phase: the profile on success, the message on failure. */
  lemma AnalysisOutcomeRecorded(s: SessionState, text: string, analyze: string -> Result<StyleAnalysis, string>)
    requires |text| >= MinDocumentChars
    ensures var r := AfterTextSubmit(s, text, analyze);
      match analyze(CorpusText(s.corpus + [text]))
      case Ok(result) => r.appState == Complete && r.analysis == Some(result) && r.errorMsg == None
      case Err(message) =>
        r.appState == Error && r.analysis == s.analysis &&
        r.errorMsg == Some(if message == "" then AnalysisFallbackMessage else message)
  {
  }

  /** A failed extraction reports its message (or the fallback) and analyses nothing. */
  lemma ExtractionFailureReported(s: SessionState, message: string, analyze: string -> Result<StyleAnalysis, string>)
    ensures var r := AfterFileSelect(s, Err(message), analyze);
      r.appState == Error && r.corpus == s.corpus && r.analysis == s.analysis &&
      r.errorMsg == Some(if message == "" then ProcessingFallbackMessage else message)
  {
  }

  /**
   * Refining a profile: after a first pasted document and a second uploaded one, both
   * successfully analysed, the corpus holds the two and the second analysis read them joined.
   */
  lemma {:induction false} RefinementAnalysesBothDocuments(
    first: string, second: string, analyze: string -> Result<StyleAnalysis, string>)
    requires |first| >= MinDocumentChars && |second| >= MinDocumentChars
    requires analyze(first).Ok?
    ensures var s1 := AfterTextSubmit(InitialSession, first, analyze);
      var s2 := AfterFileSelect(s1, Ok(second), analyze);
      s1.appState == Complete && s1.corpus == [first] &&
      s2.corpus == [first, second] &&
      s2.analysis == match analyze(first + DocumentSeparator + second)
                     case Ok(result) => Some(result)
                     case Err(_) => s1.analysis
  {
    assert CorpusText([first]) == first;
    AcceptedDocumentJoinsCorpus(InitialSession.(appState := Analyzing), first, analyze);
    var s1 := AfterTextSubmit(InitialSession, first, analyze);
    assert [first] + [second] == [first, second];
    assert [first, second][1..] == [second];
    assert Join([second], DocumentSeparator) == second;
    assert Join([first, second], DocumentSeparator) == first + DocumentSeparator + second;
  }
}
