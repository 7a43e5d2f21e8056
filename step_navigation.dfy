/**
 * The navigation bar: a "previous" button, a row of one dot per step and a
 * "next" button. Its flags are expressions over the current step; it changes
 * state only through the provider's actions.
 */
module StepNavigation {
  import opened Common
  import opened StepContext

  /** The "previous" button is disabled exactly when pressing it would change nothing. */
  function PrevDisabled(currentStep: int): (disabled: bool)
    ensures disabled <==> SaturatingPrev(currentStep) == currentStep
    ensures InRange(currentStep) ==> (disabled <==> currentStep == 0)
  {
    currentStep == 0
  }

  /** The "next" button is disabled exactly when pressing it would change nothing. */
  function NextDisabled(currentStep: int, totalSteps: int): (disabled: bool)
    ensures disabled <==> SaturatingNext(currentStep, totalSteps - 1) == currentStep
  {
    currentStep == totalSteps - 1
  }

  /** The dot indices, `Array.from({ length: n }).map((_, index) => index)`. */
  function DotIndices(n: nat): (dots: seq<int>)
    ensures |dots| == n
    ensures forall i :: 0 <= i < n ==> dots[i] == i
    ensures forall k :: k in dots <==> 0 <= k < n
  {
    if n == 0 then [] else DotIndices(n - 1) + [n - 1]
  }

  /**
   * The active flag of every dot in the row, in order: dot `index` is styled
   * active iff `index === currentStep`. The dot at position i is active iff
   * i is the current step, so an in-range step has only its own dot active.
   */
  function DotFlags(currentStep: int): (flags: seq<bool>)
    ensures |flags| == TotalSteps
    ensures forall i :: 0 <= i < |flags| ==> (flags[i] <==> i == currentStep)
    ensures InRange(currentStep) ==> OnlyAt(flags, currentStep)
  {
    var dots := DotIndices(TotalSteps);
    seq(|dots|, i requires 0 <= i < |dots| => dots[i] == currentStep)
  }

  /** For an in-range step exactly one dot is active, the one at that step. */
  lemma ExactlyOneDotActive(currentStep: int)
    requires InRange(currentStep)
    ensures OnlyAt(DotFlags(currentStep), currentStep)
    ensures CountTrue(DotFlags(currentStep)) == 1
  {
    OnlyAtCountsOne(DotFlags(currentStep), currentStep);
  }

  /** For an out-of-range step no dot is active. */
  lemma NoDotActiveOutOfRange(currentStep: int)
    requires !InRange(currentStep)
    ensures CountTrue(DotFlags(currentStep)) == 0
  {
  }

  /**
   * A click on the "previous" button: a disabled button fires nothing,
   * an enabled one calls `prevStep`. Either way the step becomes
   * `max(step - 1, 0)`, and nothing else changes.
   */
  method ClickPrev(provider: StepProvider)
    modifies provider
    ensures provider.currentStep == SaturatingPrev(old(provider.currentStep))
    ensures old(provider.Valid()) ==> provider.Valid()
  {
    if !PrevDisabled(provider.currentStep) {
      provider.PrevStep();
    }
  }

  /**
   * A click on the "next" button: a disabled button fires nothing, an
   * enabled one calls `nextStep`. Either way the step becomes
   * `min(step + 1, TotalSteps - 1)`, and nothing else changes.
   */
  method ClickNext(provider: StepProvider)
    modifies provider
    ensures provider.currentStep == SaturatingNext(old(provider.currentStep), TotalSteps - 1)
    ensures old(provider.Valid()) ==> provider.Valid()
  {
    if !NextDisabled(provider.currentStep, TotalSteps) {
      provider.NextStep();
    }
  }

  /**
   * A click on a dot calls the raw setter with the dot's own index. Dots exist
   * only for the indices of the row, which discharges the setter's range
   * obligation: the provider stays valid.
   */
  method ClickDot(provider: StepProvider, index: int)
    requires index in DotIndices(TotalSteps)
    modifies provider
    ensures provider.currentStep == index
    ensures provider.Valid()
    ensures DotFlags(provider.currentStep)[index]
  {
    provider.SetCurrentStep(index);
  }
}
