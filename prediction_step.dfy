/**
 * The prediction view: a constant table of candidate next tokens, and a small
 * carousel over three formula steps with back/forward buttons, a
 * "Step k of n" label and a row of dots.
 */
module PredictionStep {
  import opened Common
  import opened StepContext

  /** A candidate next token; `probability` only sizes a bar. */
  datatype Candidate = Candidate(token: string, probability: real, correct: bool)

  /** The table `predictions`. */
  const Predictions: seq<Candidate> := [
    Candidate("mat", 0.85, true),
    Candidate("floor", 0.08, false),
    Candidate("rug", 0.05, false),
    Candidate("carpet", 0.02, false)
  ]

  /** One formula step: the KaTeX source, its caption and its badge number. */
  datatype MathStep = MathStep(formula: string, description: string, step: int)

  /** The table `mathSteps`. */
  const MathSteps: seq<MathStep> := [
    MathStep("P(next\\_token) = softmax(LayerNorm(x)W_{vocab})", "Final probability distribution", 1),
    MathStep("softmax(z_i) = \\frac{e^{z_i}}{\\sum_j e^{z_j}}", "Converts logits to probabilities", 2),
    MathStep("LayerNorm(x) = \\gamma \\frac{x - \\mu}{\\sqrt{\\sigma^2 + \\epsilon}} + \\beta", "Normalizes hidden states", 3)
  ]

  /** Index of the last formula step. */
  const LastMathStep: int := |MathSteps| - 1

  /** Exactly one candidate is flagged correct: the first, which is the target word. */
  lemma OnlyTargetIsCorrect()
    ensures OnlyAt(seq(|Predictions|, i requires 0 <= i < |Predictions| => Predictions[i].correct), 0)
    ensures CountTrue(seq(|Predictions|, i requires 0 <= i < |Predictions| => Predictions[i].correct)) == 1
    ensures Predictions[0].token == TargetWord
  {
    OnlyAtCountsOne(seq(|Predictions|, i requires 0 <= i < |Predictions| => Predictions[i].correct), 0);
  }

  /** The badge numbers run 1..n in list order. */
  lemma MathStepNumbers()
    ensures |MathSteps| == 3
    ensures forall i :: 0 <= i < |MathSteps| ==> MathSteps[i].step == i + 1
  {
  }

  /** The back button is disabled exactly when pressing it would change nothing. */
  function BackDisabled(currentMathStep: int): (disabled: bool)
    ensures disabled <==> SaturatingPrev(currentMathStep) == currentMathStep
  {
    currentMathStep == 0
  }

  /** The forward button is disabled exactly when pressing it would change nothing. */
  function ForwardDisabled(currentMathStep: int): (disabled: bool)
    ensures disabled <==> SaturatingNext(currentMathStep, LastMathStep) == currentMathStep
  {
    currentMathStep == |MathSteps| - 1
  }

  /** The label "Step k of n". */
  datatype StepOf = StepOf(k: int, n: int)

  /** The label over the carousel; in range, k is the displayed step's badge number. */
  function StepLabel(currentMathStep: int): (text: StepOf)
    ensures text.n == |MathSteps|
    ensures 0 <= currentMathStep < |MathSteps| ==> text.k == MathSteps[currentMathStep].step
  {
    StepOf(currentMathStep + 1, |MathSteps|)
  }

  /** The formula step on display, `mathSteps[currentMathStep]`. */
  function CurrentMathStep(currentMathStep: int): (m: MathStep)
    requires 0 <= currentMathStep < |MathSteps|
    ensures m in MathSteps
    ensures m.step == StepLabel(currentMathStep).k
  {
    MathSteps[currentMathStep]
  }

  /** The active flag of each dot under the carousel. */
  function MathDotFlags(currentMathStep: int): (flags: seq<bool>)
    ensures |flags| == |MathSteps|
    ensures 0 <= currentMathStep < |MathSteps| ==> OnlyAt(flags, currentMathStep)
    ensures !(0 <= currentMathStep < |MathSteps|) ==> forall i :: 0 <= i < |flags| ==> !flags[i]
  {
    seq(|MathSteps|, i => currentMathStep == i)
  }

  /** In every in-range state exactly one dot is active, the one at the current step. */
  lemma ExactlyOneMathDotActive(currentMathStep: int)
    requires 0 <= currentMathStep < |MathSteps|
    ensures OnlyAt(MathDotFlags(currentMathStep), currentMathStep)
    ensures CountTrue(MathDotFlags(currentMathStep)) == 1
  {
    OnlyAtCountsOne(MathDotFlags(currentMathStep), currentMathStep);
  }

  /** The carousel's state: which formula step is on display. */
  class MathCarousel {
    var currentMathStep: int

    /** The range invariant that keeps `mathSteps[currentMathStep]` defined. */
    ghost predicate Valid()
      reads this
    {
      0 <= currentMathStep < |MathSteps|
    }

    constructor ()
      ensures currentMathStep == 0
      ensures Valid()
    {
      currentMathStep := 0;
    }

    /** A click on the back button: nothing when disabled, else `max(0, prev - 1)`. */
    method ClickBack()
      modifies this
      ensures currentMathStep == SaturatingPrev(old(currentMathStep))
      ensures old(Valid()) ==> Valid()
    {
      if !BackDisabled(currentMathStep) {
        currentMathStep := SaturatingPrev(currentMathStep);
      }
    }

    /** A click on the forward button: nothing when disabled, else `min(length - 1, prev + 1)`. */
    method ClickForward()
      modifies this
      ensures currentMathStep == SaturatingNext(old(currentMathStep), LastMathStep)
      ensures old(Valid()) ==> Valid()
    {
      if !ForwardDisabled(currentMathStep) {
        currentMathStep := SaturatingNext(currentMathStep, LastMathStep);
      }
    }

    /** A click on dot `index`, which exists only for the table's indices. */
    method ClickDot(index: int)
      requires 0 <= index < |MathSteps|
      modifies this
      ensures currentMathStep == index
      ensures Valid()
    {
      currentMathStep := index;
    }
  }
}
