# SoulScribe core, modelled in Dafny

SoulScribe is a browser application that reads a writer's documents, asks a hosted language
model to describe the writer's style as a profile (metrics, traits and a reusable system
prompt), and then lets the user generate new text from, or rewrite text in, that profile. This
project models the parts of it that make decisions, and proves what they guarantee:

- **Text extraction** (`pdf_service.dfy`, module `PdfService`). Plain text passes through. A PDF
  is sampled: every page up to 15 pages; beyond that the first five, the five around the
  middle and the last five. The sampled pages are sorted and their text is joined, with a gap
  marker wherever the previous page was skipped, and then trimmed. The sampling loops and the
  assembly loop are imperative methods, each proved against a specification function. Then come
  the proofs: exactly 15 distinct pages beyond 15, always the first and the last page, zero,
  one or two gap markers, and failure exactly when a sampled page cannot be read.
- **Model requests** (`gemini_service.dfy`, module `GeminiService`). Covers:
  - the 500 000-character truncation of the analysed text;
  - the analysis prompt (the randomly chosen lens is an input);
  - rejection of an empty or unparsable reply, with one fixed message;
  - the enforcement layer appended to every profile's system prompt;
  - the humanization directives built from the five chat toggles;
  - the chat request: system instruction, history mapping and new message.

  The language model and the JSON parser are function parameters.
- **Analysis session** (`app.dfy`, module `App`). The top-level view's state machine over
  phase, corpus, profile and error message is a class whose handlers are proved against
  transition functions. Texts under 50 characters are refused. Accepted documents accumulate,
  and the whole corpus is analysed joined by a separator. Every handler leaves the session
  settled and consistent.
- **Chat tester** (`style_tester.dfy`, module `StyleTester`). The panel is a component of the
  repository, but the top-level view (App.tsx) never renders it. Covers:
  - the default toggles and the toggle operation;
  - the submit transition: blank input or a pending reply is ignored; otherwise the user
    message, then the reply or an error notice;
  - the request carries the whole earlier conversation.
- **Profile view** (`analysis_result.dfy`): the three colour bands of the writing score.
- **Generator panel** (`style_summoner.dfy`, module `StyleSummoner`):
  - the displayed word count, proved equal to an independent count of word starts, and
    additive over white-space-joined texts;
  - the length slider's seven values;
  - the summon transition.
- Shared pieces: `wrappers.dfy` (Option, Result), `types.dfy` (the records of `types.ts`),
  `text.dfy` (JavaScript `trim`, `join`, `split(/\s+/)`, `filter(Boolean)`, over the
  ECMAScript white-space set).

The chat tester sends the whole conversation as history: there is no message window, and no
code sets the `feedback` field of a chat message. `StyleTester.WholeConversationSent` states
that the history sent has one entry per earlier message, however long the conversation is.

## Model

| member | source | states |
|---|---|---|
| PdfService.AddPages | services/pdfService.ts:35-41 | one sampling loop over lo..hi adds exactly the pages lo..hi to the set and nothing else (nothing when hi < lo) |
| PdfService.SamplePages | services/pdfService.ts:31-46 | the three sampling loops build exactly `Selection(n)`: pages 1..n when n ≤ 15, otherwise 1..5, floor(n/2)-2..floor(n/2)+2 and the last five pages above 0 |
| PdfService.SortAscending | services/pdfService.ts:48 | the numeric sort of the page set is strictly ascending, lists exactly the set's elements, and has as many entries as the set |
| PdfService.SelectPages | services/pdfService.ts:31-48 | the sampled set equals `Selection(n)` and the sorted list equals the block-by-block ascending list `SortedPages(n)` |
| PdfService.SmallDocumentSelectsAll | services/pdfService.ts:34-35 | up to 15 pages, the pages read are exactly 1, 2, ..., n in order (none for an empty document) |
| PdfService.LargeDocumentSelection | services/pdfService.ts:36-46 | beyond 15 pages exactly 15 distinct pages are read, and a page is read iff it lies in one of the three blocks |
| PdfService.SelectionBounds | services/pdfService.ts:33-48 | every page read exists (1..n), the order is strictly ascending with no duplicates, and at most 15 pages are read |
| PdfService.FirstAndLastPageSelected | services/pdfService.ts:33-46 | the first page read is page 1 and the last is page n, for every non-empty document |
| PdfService.ThirtyPageSample | services/pdfService.ts:36-46 | a 30-page document is read as pages 1-5, 13-17 and 26-30 |
| PdfService.GapMarkerCount | services/pdfService.ts:59-61 | the assembly inserts the gap marker before no page up to 15 pages, before one page for 16 or 17 pages (middle block adjoins the first), and before two pages from 18 pages on |
| PdfService.LongSampleGaps | services/pdfService.ts:36-61 | for a long document whose blocks are 1..5, mid-2..mid+2 and the last five, the sorted pages carry one gap marker when the middle block adjoins the first (mid = 8) and two otherwise |
| PdfService.Collect | services/pdfService.ts:51-63 | assembly yields no text exactly when some page's text cannot be obtained: no partial text is ever returned |
| PdfService.AssembleText | services/pdfService.ts:51-69 | the page loop produces the concatenation of every page's chunk (gap marker if the previous page was skipped, items joined by spaces, blank line), trimmed; an unreadable page gives the fixed PDF error |
| PdfService.PdfText | services/pdfService.ts:51-69 | reading a loaded PDF fails iff one of the sampled pages is unreadable, and then with the fixed "No se pudo leer el PDF..." message; a text read successfully has no white space at either end |
| PdfService.EmptyDocumentText | services/pdfService.ts:28-65 | a PDF with no pages yields the empty text |
| PdfService.ExtractTextFromFile | services/pdfService.ts:6-78 | plain text is returned as read (or the text-read error), a PDF goes through sampling and assembly (or the read / unreadable errors), any other type gets the unsupported-format error |
| Text.TrimStart | services/pdfService.ts:65 | the result is a suffix of the input, everything cut off is white space, and it does not start with white space |
| Text.TrimEnd | services/pdfService.ts:65 | the result is a prefix of the input, everything cut off is white space, and it does not end with white space |
| Text.Trim | services/pdfService.ts:65 | the trimmed text is the slice of the input between its leading and trailing white space, has no white space at either end, is empty iff the input is all white space, and leaves a text without outer white space unchanged |
| Text.SplitOnWhitespace | components/StyleSummoner.tsx:38 | the split yields at least one piece, no piece contains white space, the first piece is empty iff the text is empty or starts with white space, and the pieces written one after another give back the text with its white space removed |
| Text.NonEmpty | components/StyleSummoner.tsx:38 | the filter keeps exactly the non-empty pieces of the input, each as many times as it occurs there, and drops every empty one |
| Text.SplitOnWhitespaceSplitsAt | components/StyleSummoner.tsx:38 | the split cuts exactly at the maximal runs of white space: each piece but the last is the text up to its first white space, and the next piece starts after that whole run |
| Text.SplitsAtUnique | components/StyleSummoner.tsx:38 | cutting at the maximal runs of white space allows only one list of pieces, so the split is fully determined |
| Text.JoinEnds | App.tsx:31 | a join opens with its first part and closes with its last one, and joining nothing gives the empty text |
| Text.JoinAppend | App.tsx:28-31 | joining a list with one more element appends the separator and that element to the previous join |
| GeminiService.TruncateForAnalysis | services/geminiService.ts:151 | the analysed text is a prefix of the input of length min(length, 500000) |
| GeminiService.TruncationIdempotent | services/geminiService.ts:151 | truncating twice equals truncating once, and a text within the limit is sent whole |
| GeminiService.AnalysisPrompt | services/geminiService.ts:16-147 | the prompt opens with the lens-dependent head, the analysed text follows it verbatim, the fixed closing line ends it, and the prompt is exactly as long as the three together |
| GeminiService.PromptShowsLens | services/geminiService.ts:33-39 | the chosen lens's name stands right after the fixed opening, in the operating-mode brackets, and its focus right after the focus label |
| GeminiService.AnalyzeTextStyle | services/geminiService.ts:149-238 | the analysis succeeds iff the model replies with non-empty text that parses; the profile is the parsed one with the enforcement layer appended to its system prompt; every failure gives the one fixed message |
| GeminiService.BuildEvasionInstructions | services/geminiService.ts:240-264 | the instructions are the directives of the enabled toggles, concatenated in the fixed order burstiness, imperfection, subjectivity, anti-list, grounding |
| GeminiService.AppendIfOn | services/geminiService.ts:243-245 | one step appends the toggle's directive when it is on and nothing otherwise |
| GeminiService.EvasionStep | services/geminiService.ts:240-264 | consulting the next toggle in the fixed order extends the instructions by exactly that toggle's contribution |
| GeminiService.NoTogglesNoInstructions | services/geminiService.ts:240-264 | with every toggle off the system prompt gets nothing added |
| GeminiService.FragmentsDistinct | services/geminiService.ts:243-261 | the five directives are pairwise different texts |
| GeminiService.FragmentPresentIffEnabled | services/geminiService.ts:243-261 | a toggle's directive is among the appended pieces iff the toggle is on |
| GeminiService.EnabledKeysMembership | services/geminiService.ts:243-261 | a toggle is among the consulted toggles that are on iff it is consulted and on |
| GeminiService.EveryToggleConsulted | services/geminiService.ts:243-261 | each of the five toggles is consulted by the instruction builder |
| GeminiService.EnabledFragmentOccurs | services/geminiService.ts:243-261 | an enabled toggle's directive occurs verbatim in the final instructions |
| GeminiService.EvasionLength | services/geminiService.ts:240-264 | the instructions are exactly as long as the enabled directives together |
| GeminiService.MapHistory | services/geminiService.ts:292-295 | each earlier message becomes one chat turn with the same role and a single text part holding its content, in order |
| GeminiService.FinalSystemInstruction | services/geminiService.ts:273-278 | the system instruction is the profile prompt alone without a configuration, and the prompt followed by the humanization instructions with one |
| GeminiService.GetChatResponse | services/geminiService.ts:266-307 | the request carries the assembled system instruction, the mapped history and the user's message; the reply text or the failure is passed back unchanged |
| App.MessageOr | App.tsx:38 | an empty error message is replaced by the fallback, a non-empty one is kept, and the result is never empty when the fallback is not |
| App.CorpusText | App.tsx:31 | the analysed text of an empty corpus is empty, a single document is sent as it is, and otherwise the text opens with the first document and closes with the latest one |
| App.AfterProcessText | App.tsx:19-41 | processing always ends in Complete or Error with a consistent session; a short text leaves corpus and profile untouched; an accepted text is appended to the corpus |
| App.AfterFileSelect | App.tsx:43-55 | selecting a file ends in Complete or Error with a consistent session; an extraction failure leaves corpus and profile untouched |
| App.AfterTextSubmit | App.tsx:57-61 | submitting text ends in Complete or Error with a consistent session |
| App.Session.constructor | App.tsx:13-16 | a new session is idle with an empty corpus, no profile and no error |
| App.Session.ProcessText | App.tsx:19-41 | the handler performs exactly the `AfterProcessText` transition and keeps the session consistent |
| App.Session.HandleFileSelect | App.tsx:43-55 | the handler performs exactly the `AfterFileSelect` transition and keeps the session consistent |
| App.Session.HandleTextSubmit | App.tsx:57-61 | the handler performs exactly the `AfterTextSubmit` transition and keeps the session consistent |
| App.Session.HandleReset | App.tsx:63-68 | reset returns to the initial session from any state |
| App.HandlersSettle | App.tsx:19-61 | after any handler the view is never left reading or analysing, from any starting state |
| App.ShortTextRefused | App.tsx:20-24 | a text under 50 characters is refused with the fixed message, nothing else changes and nothing is analysed |
| App.AcceptedDocumentJoinsCorpus | App.tsx:28-31 | an accepted document is added to the corpus (the document count grows by one) even if analysis fails, and the analyser reads the earlier corpus, the separator and the new document |
| App.AnalysisOutcomeRecorded | App.tsx:32-39 | a successful analysis records the profile and clears nothing else; a failed one keeps the old profile and shows its message or the fallback |
| App.ExtractionFailureReported | App.tsx:50-54 | a failed extraction shows its message or the fallback and changes neither corpus nor profile |
| App.RefinementAnalysesBothDocuments | App.tsx:28-35 | after a pasted document and an uploaded one, the corpus holds both and the second analysis reads them joined by the separator |
| StyleTester.Toggled | components/StyleTester.tsx:25-27 | toggling negates the named toggle and leaves the other four unchanged |
| StyleTester.ToggleTwiceRestores | components/StyleTester.tsx:25-27 | toggling the same key twice restores the configuration |
| StyleTester.DefaultConfigInstructions | components/StyleTester.tsx:17-23 | the initial configuration enables burstiness, subjectivity and anti-list only, so exactly those three directives are sent |
| StyleTester.SubmitRequest | components/StyleTester.tsx:37-50 | no request is sent iff the input is blank after trimming or a reply is pending |
| StyleTester.ReplyMessages | components/StyleTester.tsx:52-57 | a reply adds at most one model message, never an empty one |
| StyleTester.AfterSubmit | components/StyleTester.tsx:35-61 | a submit that goes ahead clears the input, ends not loading, keeps the earlier conversation as a prefix and appends the user's message then at most one reply; an ignored submit changes nothing |
| StyleTester.ChatTester.constructor | components/StyleTester.tsx:10-23 | a new panel has an empty input and conversation, is not loading, and has the default toggles |
| StyleTester.ChatTester.ToggleConfig | components/StyleTester.tsx:25-27 | only the configuration changes, by toggling the key |
| StyleTester.ChatTester.EditInput | components/StyleTester.tsx:211 | only the input changes |
| StyleTester.ChatTester.HandleSubmit | components/StyleTester.tsx:35-61 | the handler performs exactly the `AfterSubmit` transition and reports the request it sent |
| StyleTester.SubmitStep | components/StyleTester.tsx:37-61 | a submit that goes ahead sends the prompt with the toggles' instructions, the mapped conversation and the typed text, and leaves an empty input, no loading, and the conversation extended by the user's message and the reply |
| StyleTester.WholeConversationSent | components/StyleTester.tsx:44-50 | the request's history has one entry per earlier message with the same role and text, whatever the length, and the new message is sent separately |
| StyleTester.ToggleShapesRequest | components/StyleTester.tsx:45-50 | switching a toggle on before sending puts its directive verbatim into the request's system instruction, where it was not among the enabled directives before |
| StyleTester.ExchangeAppended | components/StyleTester.tsx:39-57 | the conversation grows by the user's message followed by the non-empty reply, nothing for an empty reply, or the error notice on failure |
| StyleTester.BlankOrBusyIgnored | components/StyleTester.tsx:37 | blank input or a pending reply changes nothing and sends nothing |
| AnalysisResult.ScoreColor | components/AnalysisResult.tsx:22-26 | scores below 40 are green, 40 to 69 gold, 70 and above purple |
| AnalysisResult.ScoreColorMonotone | components/AnalysisResult.tsx:22-26 | a higher score never gets a simpler colour band |
| StyleSummoner.SplitCountsWordStarts | components/StyleSummoner.tsx:38 | splitting on white space and dropping empty pieces leaves one piece per word start |
| StyleSummoner.WordCount | components/StyleSummoner.tsx:38 | the displayed word count equals the number of maximal runs of non-white-space characters |
| StyleSummoner.WordCountConcat | components/StyleSummoner.tsx:38 | two texts joined by a white-space character count as many words as both together |
| StyleSummoner.SingleWordAndBlank | components/StyleSummoner.tsx:38 | a non-empty text without white space counts one word, a blank text none |
| StyleSummoner.SliderValues | components/StyleSummoner.tsx:57-63 | the length slider offers exactly 200, 250, ..., 500 words, and the default 350 is one of them |
| StyleSummoner.AfterSummon | components/StyleSummoner.tsx:16-36 | a blank topic or a pending request changes nothing; otherwise the panel shows the generated text or the fixed notice and is no longer loading, topic and length kept |
| StyleSummoner.Summoner.constructor | components/StyleSummoner.tsx:10-14 | a new panel has no topic, 350 words requested, no result and is not loading |
| StyleSummoner.Summoner.SetTopic | components/StyleSummoner.tsx:89 | only the topic changes |
| StyleSummoner.Summoner.SetWordCount | components/StyleSummoner.tsx:57-63 | only the requested length changes, and it stays a slider value |
| StyleSummoner.Summoner.HandleSummon | components/StyleSummoner.tsx:16-38 | the handler performs exactly the `AfterSummon` transition and reports the word count of the shown result |
| StyleSummoner.SummonUsesPanelSettings | components/StyleSummoner.tsx:22-32 | a summon that goes ahead sends topic, length and profile prompt, and shows the generated text or, on failure, the fixed notice |

## Left out

- The hosted language model, its configuration (model names, temperatures, top-p, penalties, response schema) and its transport are function parameters returning a reply or a failure; nothing about what the model writes is modelled.
- `JSON.parse` of the analysis reply is a parameter returning a profile or nothing; the shape of the parsed object is not checked.
- The random choice of analysis lens is an input of the analysis.
- The fixed instruction block and JSON template of the analysis prompt are represented by a shortened constant, `GeminiService.AnalysisInstructions`; the lens head, the text splice and the closing line are exact.
- `FileReader` and pdf.js are parameters. Reading a text file gives the text or nothing. Loading a PDF gives its page count or a failure. Each page gives its text items or nothing.
- JavaScript measures string length in UTF-16 code units. The model counts characters, so the 50-character minimum and the 500 000-character truncation differ for text outside the Basic Multilingual Plane.
- JavaScript `Set` insertion order is not modelled. The pages are sorted before use, so it cannot be observed.
- Asynchrony: each handler runs to completion as one step. Interleavings of concurrent handlers, and the loading states seen only between the steps of one handler, are not modelled.
- React's stale-closure reads of the state are not modelled: each handler reads the current state.
- `generateStyleContent` is not part of this model; the summoner receives its outcome as a parameter.
- The temperature slider (floating point) is left out.
- Clipboard copy and its timer, scrolling, the settings panel, the view-mode switch, all rendering, `RadarChart`, `FileUpload` and `MirrorEditor` are left out.
- Logging to the console is left out.
- The chat message `feedback` field exists in the data model, but no core code sets it.
- `Text.NonEmpty`: the contract fixes which pieces are kept and how often, not their order; the word count only needs their number.
- `GeminiService.FragmentPresentIffEnabled` states that a disabled toggle's directive is absent from the list of appended pieces, not that it is absent as a substring of the final text; the directives do not contain one another, but that is not proved.
- `AnalysisResult.ScoreColor` takes an integer score; fractional scores are not modelled.
- `GeminiService.BuildEvasionInstructions` performs its five `if`-and-append steps through one step method, `GeminiService.AppendIfOn`, rather than inline.
