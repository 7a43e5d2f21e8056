/**
 * The lesson navigation controller: the provider that owns the current step
 * index, the fixed lesson content beside it, the saturating next/previous
 * actions, the raw setter, and the guard that hands the provider's value to
 * the views.
 */
module StepContext {
  import opened Common

  /** The example sentence, one token per entry. */
  const Sentence: seq<string> := ["The", "cat", "sat", "on", "the"]
  /** The word the lesson says the model predicts next. */
  const TargetWord: string := "mat"
  /** The sentence shown whole, as written in the provider. */
  const CompleteSentence: string := "The cat sat on the mat"
  /** Number of lesson steps. */
  const TotalSteps: int := 5

  /** A step index that names one of the lesson's steps. */
  predicate InRange(step: int)
  {
    0 <= step < TotalSteps
  }

  /** Words separated by single spaces. */
  function JoinWords(words: seq<string>): (s: string)
    ensures |words| == 1 ==> s == words[0]
  {
    if |words| == 0 then ""
    else if |words| == 1 then words[0]
    else words[0] + " " + JoinWords(words[1..])
  }

  /** Joining one more word appends a space and that word. */
  lemma {:induction false} JoinWordsAppend(words: seq<string>, w: string)
    requires |words| >= 1
    ensures JoinWords(words + [w]) == JoinWords(words) + " " + w
  {
    assert (words + [w])[1..] == words[1..] + [w];
    if |words| > 1 {
      JoinWordsAppend(words[1..], w);
    }
  }

  /** Joining a word in front of a non-empty list puts a space between them. */
  lemma JoinWordsCons(w: string, rest: seq<string>)
    requires |rest| >= 1
    ensures JoinWords([w] + rest) == w + " " + JoinWords(rest)
  {
  }

  /** The complete sentence is the sentence's tokens, then the target word, all space-separated. */
  lemma CompleteSentenceIsSentencePlusTarget()
    ensures CompleteSentence == JoinWords(Sentence + [TargetWord])
    ensures CompleteSentence == JoinWords(Sentence) + " " + TargetWord
  {
    JoinWordsCons("the", ["mat"]);
    assert ["on", "the", "mat"] == ["on"] + ["the", "mat"];
    JoinWordsCons("on", ["the", "mat"]);
    assert ["sat", "on", "the", "mat"] == ["sat"] + ["on", "the", "mat"];
    JoinWordsCons("sat", ["on", "the", "mat"]);
    assert ["cat", "sat", "on", "the", "mat"] == ["cat"] + ["sat", "on", "the", "mat"];
    JoinWordsCons("cat", ["sat", "on", "the", "mat"]);
    assert Sentence + [TargetWord] == ["The"] + ["cat", "sat", "on", "the", "mat"];
    JoinWordsCons("The", ["cat", "sat", "on", "the", "mat"]);
    JoinWordsAppend(Sentence, TargetWord);
  }

  /** The lesson content the provider exposes. */
  lemma LessonContent()
    ensures |Sentence| == TotalSteps == 5
    ensures TargetWord == "mat"
    ensures TargetWord !in Sentence
  {
  }

  /**
   * The "next" update `min(prev + 1, last)`: one step forward below `last`,
   * no change at `last`, and an index beyond `last` is pulled back to it.
   */
  function SaturatingNext(prev: int, last: int): (r: int)
    ensures r <= last
    ensures prev < last ==> r == prev + 1
    ensures prev == last ==> r == prev
    ensures prev > last ==> r == last
  {
    if prev + 1 < last then prev + 1 else last
  }

  /**
   * The "previous" update `max(prev - 1, 0)`: one step back above 0, no
   * change at 0, and a negative index is pulled up to 0.
   */
  function SaturatingPrev(prev: int): (r: int)
    ensures r >= 0
    ensures prev > 0 ==> r == prev - 1
    ensures prev == 0 ==> r == prev
    ensures prev < 0 ==> r == 0
  {
    if prev - 1 > 0 then prev - 1 else 0
  }

  /** Stepping forward then back, or back then forward, returns to an interior index. */
  lemma NextPrevUndo(n: int, last: int)
    ensures 0 <= n < last ==> SaturatingPrev(SaturatingNext(n, last)) == n
    ensures 0 < n <= last ==> SaturatingNext(SaturatingPrev(n), last) == n
  {
  }

  /** The state after k presses of "next". */
  function NextTimes(n: int, last: int, k: nat): int
  {
    if k == 0 then n else SaturatingNext(NextTimes(n, last, k - 1), last)
  }

  /** The state after k presses of "previous". */
  function PrevTimes(n: int, k: nat): int
  {
    if k == 0 then n else SaturatingPrev(PrevTimes(n, k - 1))
  }

  /** Pressing "next" k times from an index at or below `last` lands on min(n + k, last). */
  lemma {:induction false} NextTimesSaturates(n: int, last: int, k: nat)
    requires n <= last
    ensures NextTimes(n, last, k) == if n + k < last then n + k else last
  {
    if k > 0 {
      NextTimesSaturates(n, last, k - 1);
    }
  }

  /** Pressing "previous" k times from a non-negative index lands on max(n - k, 0). */
  lemma {:induction false} PrevTimesSaturates(n: int, k: nat)
    requires n >= 0
    ensures PrevTimes(n, k) == if n - k > 0 then n - k else 0
  {
    if k > 0 {
      PrevTimesSaturates(n, k - 1);
    }
  }

  /**
   * Walking forward from the first step visits 1, 2, 3, 4 and then stays at 4;
   * walking back from the last step visits 3, 2, 1, 0 and then stays at 0.
   */
  lemma WalkThroughLesson()
    ensures [NextTimes(0, 4, 1), NextTimes(0, 4, 2), NextTimes(0, 4, 3), NextTimes(0, 4, 4), NextTimes(0, 4, 5)]
         == [1, 2, 3, 4, 4]
    ensures [PrevTimes(4, 1), PrevTimes(4, 2), PrevTimes(4, 3), PrevTimes(4, 4), PrevTimes(4, 5)]
         == [3, 2, 1, 0, 0]
  {
  }

  /** The value the provider hands to its consumers (the actions are the class's methods). */
  datatype StepContextValue = StepContextValue(
    currentStep: int,
    sentence: seq<string>,
    targetWord: string,
    completeSentence: string,
    totalSteps: int)

  /** The provider: owns `currentStep`, which starts at the first step. */
  class StepProvider {
    var currentStep: int

    /** The range invariant: `currentStep` names one of the lesson's steps. */
    ghost predicate Valid()
      reads this
    {
      InRange(currentStep)
    }

    constructor ()
      ensures currentStep == 0
      ensures Valid()
    {
      currentStep := 0;
    }

    /** The raw state setter: it stores `step` as given, with no clamping. */
    method SetCurrentStep(step: int)
      modifies this
      ensures currentStep == step
      ensures Valid() <==> InRange(step)
    {
      currentStep := step;
    }

    /** Advance one step, saturating at the last step. */
    method NextStep()
      modifies this
      ensures currentStep == SaturatingNext(old(currentStep), TotalSteps - 1)
      ensures old(Valid()) ==> Valid()
    {
      currentStep := SaturatingNext(currentStep, TotalSteps - 1);
    }

    /** Go back one step, saturating at the first step. */
    method PrevStep()
      modifies this
      ensures currentStep == SaturatingPrev(old(currentStep))
      ensures old(Valid()) ==> Valid()
    {
      currentStep := SaturatingPrev(currentStep);
    }

    /** The provider's value: the current step and the fixed lesson content. */
    function Value(): (v: StepContextValue)
      reads this
      ensures v.currentStep == currentStep
      ensures v.sentence == Sentence && v.targetWord == TargetWord
      ensures v.completeSentence == CompleteSentence && v.totalSteps == TotalSteps
    {
      StepContextValue(currentStep, Sentence, TargetWord, CompleteSentence, TotalSteps)
    }
  }

  const OutsideProviderMessage: string := "useStep must be used within a StepProvider"

  /**
   * The consumer hook: fails when no provider encloses the caller, and
   * otherwise returns the provider's value unchanged.
   */
  function UseStep(context: Option<StepContextValue>): (r: Result<StepContextValue>)
    ensures r.Err? <==> context.None?
    ensures r.Err? ==> r.message == OutsideProviderMessage
    ensures r.Ok? ==> r.value == context.value
  {
    match context
    case None => Err(OutsideProviderMessage)
    case Some(v) => Ok(v)
  }
}
