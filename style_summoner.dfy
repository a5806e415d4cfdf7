/**
 * The panel that writes new text in the analysed style (components/StyleSummoner.tsx): the
 * topic, the requested length, the generated result and the loading flag, and the word count
 * shown under the result. Generation is a parameter; each request runs to completion as one step.
 */
module StyleSummoner {
  import opened Wrappers
  import opened Text

  // ----- Word count -----------------------------------------------------------------------

  /**
   * `result ? result.split(/\s+/).filter(Boolean).length : 0`: the number of maximal runs of
   * non-white-space characters in `result`.
   */
  function WordCount(result: string): (r: nat)
    ensures r == WordStarts(result, true)
  {
    SplitCountsWordStarts(result);
    if result == "" then 0 else |NonEmpty(SplitOnWhitespace(result))|
  }

  /**
   * An independent count of words: the number of positions where a non-white-space character
   * follows white space or the start (`afterSpace` says whether the text so far ended in space).
   */
  function WordStarts(s: string, afterSpace: bool): nat
  {
    if s == [] then 0
    else (if afterSpace && !IsWhitespace(s[0]) then 1 else 0) + WordStarts(s[1..], IsWhitespace(s[0]))
  }

  /** Leading white space is skipped without starting a word. */
  lemma {:induction false} WordStartsSkipSpace(s: string, afterSpace: bool)
    requires s != [] && IsWhitespace(s[0])
    ensures WordStarts(s, afterSpace) == WordStarts(TrimStart(s), true)
  {
    if s[1..] != [] && IsWhitespace(s[1]) {
      WordStartsSkipSpace(s[1..], true);
    }
  }

  /**
   * Splitting on white space and dropping the empty pieces leaves one piece per word start;
   * the pieces after the first are the words that do not begin at position 0.
   */
  lemma {:induction false} SplitCountsWordStarts(s: string)
    ensures |NonEmpty(SplitOnWhitespace(s))| == WordStarts(s, true)
    ensures |NonEmpty(SplitOnWhitespace(s)[1..])| == WordStarts(s, false)
    decreases |s|
  {
    var pieces := SplitOnWhitespace(s);
    if s == [] {
      assert pieces[1..] == [];
    } else if IsWhitespace(s[0]) {
      var t := TrimStart(s);
      assert pieces == [""] + SplitOnWhitespace(t);
      assert pieces[1..] == SplitOnWhitespace(t);
      WordStartsSkipSpace(s, true);
      WordStartsSkipSpace(s, false);
      SplitCountsWordStarts(t);
    } else {
      var rest := SplitOnWhitespace(s[1..]);
      assert pieces == [[s[0]] + rest[0]] + rest[1..];
      assert pieces[1..] == rest[1..];
      SplitCountsWordStarts(s[1..]);
    }
  }

  /** Word starts of two texts joined by a white-space character add up. */
  lemma {:induction false} WordStartsConcat(s: string, c: char, t: string, afterSpace: bool)
    requires IsWhitespace(c)
    ensures WordStarts(s + [c] + t, afterSpace) == WordStarts(s, afterSpace) + WordStarts(t, true)
  {
    if s == [] {
      assert s + [c] + t == [c] + t;
      assert ([c] + t)[1..] == t;
    } else {
      assert (s + [c] + t)[1..] == s[1..] + [c] + t;
      WordStartsConcat(s[1..], c, t, IsWhitespace(s[0]));
    }
  }

  /** Two texts joined by a white-space character have as many words as both together. */
  lemma WordCountConcat(s: string, c: char, t: string)
    requires IsWhitespace(c)
    ensures WordCount(s + [c] + t) == WordCount(s) + WordCount(t)
  {
    WordStartsConcat(s, c, t, true);
  }

  /** A non-empty text without white space is one word, and blank text has none. */
  lemma {:induction false} WordStartsOfRun(s: string, afterSpace: bool)
    requires forall i :: 0 <= i < |s| ==> !IsWhitespace(s[i])
    ensures WordStarts(s, afterSpace) == if s != [] && afterSpace then 1 else 0
  {
    if s != [] {
      WordStartsOfRun(s[1..], false);
    }
  }

  lemma {:induction false} WordStartsOfSpace(s: string, afterSpace: bool)
    requires AllWhitespace(s)
    ensures WordStarts(s, afterSpace) == 0
  {
    if s != [] {
      WordStartsOfSpace(s[1..], true);
    }
  }

  lemma SingleWordAndBlank(word: string, space: string)
    requires word != [] && forall i :: 0 <= i < |word| ==> !IsWhitespace(word[i])
    requires AllWhitespace(space)
    ensures WordCount(word) == 1 && WordCount(space) == 0
  {
    WordStartsOfRun(word, true);
    WordStartsOfSpace(space, true);
  }

  // ----- Summoning ------------------------------------------------------------------------

  /** Shown as the result when generation fails. */
  const SummonErrorMessage: string := "Error en la transmutación del ADN literario."

  const DefaultWordCount: nat := 350
  const MinWordCount: nat := 200
  const MaxWordCount: nat := 500
  const WordCountStep: nat := 50

  /** The values the length slider can produce. */
  predicate IsSliderValue(n: int)
  {
    MinWordCount <= n <= MaxWordCount && (n - MinWordCount) % WordCountStep == 0
  }

  /** The slider offers exactly seven lengths, the default among them. */
  lemma SliderValues(n: int)
    ensures IsSliderValue(n) <==> n in [200, 250, 300, 350, 400, 450, 500]
    ensures IsSliderValue(DefaultWordCount)
  {
  }

  /** What a generation request carries: the topic, the requested length and the profile's prompt. */
  datatype SummonRequest = SummonRequest(topic: string, wordCount: nat, systemPrompt: string)

  /** The panel's state as one value. */
  datatype SummonerState = SummonerState(topic: string, wordCount: nat, result: string, isLoading: bool)

  /** `handleSummon` as a transition: ignored for a blank topic or while busy; else the generated text or the notice. */
  function AfterSummon(s: SummonerState, systemPrompt: string, generate: SummonRequest -> Result<string, string>)
    : (r: SummonerState)
    ensures r.topic == s.topic && r.wordCount == s.wordCount
    ensures IsBlank(s.topic) || s.isLoading ==> r == s
    ensures !IsBlank(s.topic) && !s.isLoading ==>
      !r.isLoading &&
      (r.result == SummonErrorMessage || generate(SummonRequest(s.topic, s.wordCount, systemPrompt)) == Ok(r.result))
  {
    if IsBlank(s.topic) || s.isLoading then s
    else
      match generate(SummonRequest(s.topic, s.wordCount, systemPrompt))
      case Ok(generated) => s.(result := generated, isLoading := false)
      case Err(_) => s.(result := SummonErrorMessage, isLoading := false)
  }

  class Summoner {
    /** The system prompt of the profile in use. */
    const systemPrompt: string
    var topic: string
    var wordCount: nat
    var result: string
    var isLoading: bool

    function State(): SummonerState
      reads this
    {
      SummonerState(topic, wordCount, result, isLoading)
    }

    /** The requested length is always one the slider offers. */
    predicate Valid()
      reads this
    {
      IsSliderValue(wordCount)
    }

    constructor(systemPrompt: string)
      ensures this.systemPrompt == systemPrompt
      ensures State() == SummonerState("", DefaultWordCount, "", false) && Valid()
    {
      this.systemPrompt := systemPrompt;
      topic := "";
      wordCount := DefaultWordCount;
      result := "";
      isLoading := false;
    }

    /** Typing the topic. */
    method SetTopic(text: string)
      requires Valid()
      modifies this
      ensures State() == old(State()).(topic := text) && Valid()
    {
      topic := text;
    }

    /** Moving the length slider. */
    method SetWordCount(n: nat)
      requires Valid() && IsSliderValue(n)
      modifies this
      ensures State() == old(State()).(wordCount := n) && Valid()
    {
      wordCount := n;
    }

    /** `handleSummon`: clear the result, generate, and show the text or the notice. */
    method HandleSummon(generate: SummonRequest -> Result<string, string>) returns (shownWords: nat)
      requires Valid()
      modifies this
      ensures State() == AfterSummon(old(State()), systemPrompt, generate) && Valid()
      ensures shownWords == WordCount(result)
    {
      if IsBlank(topic) || isLoading {
        return WordCount(result);
      }
      isLoading := true;
      result := "";
      match generate(SummonRequest(topic, wordCount, systemPrompt)) {
        case Ok(generated) =>
          result := generated;
        case Err(_) =>
          result := SummonErrorMessage;
      }
      isLoading := false;
      shownWords := WordCount(result);
    }
  }

  /** A summon that goes ahead shows a result, and the requested length reaches the generator unchanged. */
  lemma SummonUsesPanelSettings(
    s: SummonerState, systemPrompt: string, generate: SummonRequest -> Result<string, string>)
    requires !IsBlank(s.topic) && !s.isLoading
    ensures var r := AfterSummon(s, systemPrompt, generate);
      match generate(SummonRequest(s.topic, s.wordCount, systemPrompt))
      case Ok(generated) => r.result == generated
      case Err(_) => r.result == SummonErrorMessage
  {
  }
}
