/**
 * The page: a fixed dispatch table from step index to the view that renders
 * that step, and the lookup of the current step's view.
 */
module Page {
  import opened Common
  import opened StepContext

  /** The five step views. */
  datatype StepView = Tokenization | Embedding | Attention | FeedForward | Prediction

  /** The dispatch table `stepComponents`. */
  const StepComponents: map<int, StepView> :=
    map[0 := Tokenization, 1 := Embedding, 2 := Attention, 3 := FeedForward, 4 := Prediction]

  /** The lesson position of each view, independently of the table. */
  function LessonPosition(v: StepView): (k: int)
    ensures InRange(k)
  {
    match v
    case Tokenization => 0
    case Embedding => 1
    case Attention => 2
    case FeedForward => 3
    case Prediction => 4
  }

  /**
   * The lookup of the current step's view: `None` (no component to render)
   * when the index has no entry in the table.
   */
  function StepContent(currentStep: int): (view: Option<StepView>)
    ensures view.Some? <==> InRange(currentStep)
    ensures view.Some? ==> LessonPosition(view.value) == currentStep
  {
    if currentStep in StepComponents then Some(StepComponents[currentStep]) else None
  }

  /** The table's key set is exactly the lesson's step indices, one key per step. */
  lemma DispatchTableKeys()
    ensures forall k :: k in StepComponents <==> InRange(k)
    ensures |StepComponents| == TotalSteps
  {
  }

  /** Every view is selected by exactly its lesson position: the table is a bijection. */
  lemma EveryViewReachable(v: StepView)
    ensures StepContent(LessonPosition(v)) == Some(v)
    ensures forall k :: StepContent(k) == Some(v) ==> k == LessonPosition(v)
  {
  }

  /**
   * The view depends only on the step: setting the same step twice selects
   * the same view, and a valid provider always has a view to show.
   */
  method ShowAfterSet(provider: StepProvider, step: int) returns (first: Option<StepView>, second: Option<StepView>)
    requires InRange(step)
    modifies provider
    ensures provider.currentStep == step
    ensures first == second && first.Some?
    ensures LessonPosition(first.value) == step
  {
    provider.SetCurrentStep(step);
    first := StepContent(provider.currentStep);
    provider.SetCurrentStep(step);
    second := StepContent(provider.currentStep);
  }
}
