/**
 * The architecture strip shown above every step: a constant table of the five
 * stages, the highlight of the stage that matches the current step, and the
 * arrows drawn between neighbouring stages.
 */
module ModelArchitecture {
  import opened Common
  import opened StepContext

  /** One stage of the strip (its icon and colour classes are presentation only). */
  datatype Stage = Stage(id: int, name: string, description: string)

  /** The stage table `steps`. */
  const Stages: seq<Stage> := [
    Stage(1, "Tokenization", "Convert text to tokens"),
    Stage(2, "Embedding", "Map tokens to vectors"),
    Stage(3, "Self-Attention", "Process token relationships"),
    Stage(4, "Feed Forward", "Process each position"),
    Stage(5, "Prediction", "Generate next token")
  ]

  /** Width of the SVG viewBox the arrows are drawn in. */
  const ViewBoxWidth: int := 500

  /** The ids run 1..n in list order, so they are unique and contiguous. */
  lemma StageIdsContiguous()
    ensures |Stages| == TotalSteps
    ensures forall i :: 0 <= i < |Stages| ==> Stages[i].id == i + 1
    ensures forall i, j :: 0 <= i < j < |Stages| ==> Stages[i].id != Stages[j].id
  {
  }

  /**
   * The highlight flag of every stage in the strip, in order: a stage is
   * highlighted iff its id is the current step plus one. Because the ids run
   * 1..5 in list order, the stage at position i is highlighted iff i is the
   * current step.
   */
  function HighlightFlags(currentStep: int): (flags: seq<bool>)
    ensures |flags| == |Stages|
    ensures forall i :: 0 <= i < |flags| ==> (flags[i] <==> i == currentStep)
    ensures InRange(currentStep) ==> OnlyAt(flags, currentStep)
  {
    seq(|Stages|, i requires 0 <= i < |Stages| => Stages[i].id == currentStep + 1)
  }

  /** For an in-range step exactly one stage is highlighted, the one at list position `currentStep`. */
  lemma ExactlyOneStageHighlighted(currentStep: int)
    requires InRange(currentStep)
    ensures OnlyAt(HighlightFlags(currentStep), currentStep)
    ensures CountTrue(HighlightFlags(currentStep)) == 1
  {
    OnlyAtCountsOne(HighlightFlags(currentStep), currentStep);
  }

  /** For an out-of-range step no stage is highlighted. */
  lemma NoStageHighlightedOutOfRange(currentStep: int)
    requires !InRange(currentStep)
    ensures CountTrue(HighlightFlags(currentStep)) == 0
  {
  }

  /** A horizontal arrow at mid height, from x1 to x2. */
  datatype Arrow = Arrow(x1: int, x2: int)

  /**
   * What the arrow map renders for stage `index` of `count`: an arrow
   * starting at `100 + 100 * index` for every stage but the last, nothing for the last.
   */
  function ArrowAt(index: int, count: int): (arrow: Option<Arrow>)
    ensures arrow.Some? <==> index < count - 1
    ensures arrow.Some? ==> arrow.value.x2 == arrow.value.x1 + 100
    ensures arrow.Some? && index >= 0 ==> arrow.value.x1 >= 100
  {
    if index < count - 1 then
      var x1 := 100 + index * 100;
      Some(Arrow(x1, x1 + 100))
    else None
  }

  /** The arrows drawn for a strip of `count` stages. */
  function ArrowsDrawn(count: nat): (arrows: seq<Arrow>)
    ensures |arrows| <= count
    ensures forall a :: a in arrows ==> 100 <= a.x1 && a.x2 == a.x1 + 100
  {
    Present(seq(count, i => ArrowAt(i, count)))
  }

  /**
   * A strip of `count` stages gets `count - 1` arrows, arrow i running from
   * `100 + 100 * i` to `200 + 100 * i`; consecutive arrows share an endpoint.
   */
  lemma {:induction false} ArrowGeometry(count: nat)
    requires count >= 1
    ensures |ArrowsDrawn(count)| == count - 1
    ensures forall i :: 0 <= i < count - 1 ==> ArrowsDrawn(count)[i] == Arrow(100 + 100 * i, 200 + 100 * i)
    ensures forall i :: 0 <= i < count - 2 ==> ArrowsDrawn(count)[i].x2 == ArrowsDrawn(count)[i + 1].x1
  {
    var slots := seq(count, i => ArrowAt(i, count));
    var init := slots[..count - 1];
    assert slots == init + [None];
    PresentDropsTrailingNone(init);
    PresentAllSome(init);
  }

  /** The strip's four arrows all lie within the 0..500 viewBox. */
  lemma ArrowsInsideViewBox()
    ensures |ArrowsDrawn(|Stages|)| == |Stages| - 1
    ensures forall a :: a in ArrowsDrawn(|Stages|) ==> 0 <= a.x1 < a.x2 <= ViewBoxWidth
  {
    ArrowGeometry(|Stages|);
  }
}
