/**
 * The feed-forward view: three layer cards, a ring on the active one, and the
 * explanatory sentence for the active layer.
 */
module FeedForwardStep {
  import opened Common

  /** The three layers a card can show. */
  datatype Layer = Input | Hidden | Output

  /** A card's title and caption. */
  datatype LayerInfo = LayerInfo(title: string, description: string)

  /** The table `layerInfo`, whose keys are enumerated to draw the cards. */
  const LayerInfos: map<Layer, LayerInfo> := map[
    Input := LayerInfo("Input Layer", "The input vector from the attention layer"),
    Hidden := LayerInfo("Hidden Layer (with ReLU)", "After the first linear transformation and ReLU activation"),
    Output := LayerInfo("Output Layer", "After the second linear transformation")
  ]

  /** The cards in key order of `layerInfo`. */
  const CardOrder: seq<Layer> := [Input, Hidden, Output]

  /** Position of a layer's card. */
  function CardPosition(layer: Layer): (k: int)
    ensures 0 <= k < |CardOrder| && CardOrder[k] == layer
  {
    match layer
    case Input => 0
    case Hidden => 1
    case Output => 2
  }

  /** Every layer has exactly one card, and every card has an entry in `layerInfo`. */
  lemma CardsCoverLayers()
    ensures forall layer :: layer in CardOrder && layer in LayerInfos
    ensures forall i, j :: 0 <= i < j < |CardOrder| ==> CardOrder[i] != CardOrder[j]
    ensures |CardOrder| == |LayerInfos|
  {
    assert LayerInfos.Keys == {Input, Hidden, Output};
    forall layer ensures layer in CardOrder && layer in LayerInfos {
      assert CardOrder[CardPosition(layer)] == layer;
      assert layer in {Input, Hidden, Output};
    }
  }

  /** The ring flag of every card, in card order. */
  function RingFlags(activeLayer: Layer): (flags: seq<bool>)
    ensures |flags| == |CardOrder|
    ensures OnlyAt(flags, CardPosition(activeLayer))
  {
    seq(|CardOrder|, i requires 0 <= i < |CardOrder| => activeLayer == CardOrder[i])
  }

  /** Exactly one card has the ring, the active layer's. */
  lemma ExactlyOneRing(activeLayer: Layer)
    ensures OnlyAt(RingFlags(activeLayer), CardPosition(activeLayer))
    ensures CountTrue(RingFlags(activeLayer)) == 1
  {
    OnlyAtCountsOne(RingFlags(activeLayer), CardPosition(activeLayer));
  }

  const InputExplanation: string :=
    "This is the input vector from the attention layer. Each number represents different aspects of the token's meaning."
  const HiddenExplanation: string :=
    "After the first transformation, negative values are set to 0 by the ReLU function, creating a new representation."
  const OutputExplanation: string :=
    "The final transformation produces the output vector, which will be added back to the original input (residual connection)."

  /**
   * The paragraph's three conditional parts, in order: each is its sentence
   * when the active layer matches and renders nothing otherwise.
   */
  function ExplanationParts(activeLayer: Layer): (parts: seq<string>)
    ensures |parts| == |CardOrder|
    ensures parts[CardPosition(activeLayer)] != ""
    ensures forall i :: 0 <= i < |parts| && i != CardPosition(activeLayer) ==> parts[i] == ""
  {
    [ if activeLayer == Input then InputExplanation else "",
      if activeLayer == Hidden then HiddenExplanation else "",
      if activeLayer == Output then OutputExplanation else "" ]
  }

  /** Which of the paragraph's parts render text. */
  function ShownParts(activeLayer: Layer): (flags: seq<bool>)
    ensures |flags| == |CardOrder|
    ensures OnlyAt(flags, CardPosition(activeLayer))
  {
    var parts := ExplanationParts(activeLayer);
    seq(|parts|, i requires 0 <= i < |parts| => parts[i] != "")
  }

  /** Exactly one sentence is shown, the one at the active layer's position. */
  lemma ExactlyOneExplanation(activeLayer: Layer)
    ensures OnlyAt(ShownParts(activeLayer), CardPosition(activeLayer))
    ensures CountTrue(ShownParts(activeLayer)) == 1
  {
    OnlyAtCountsOne(ShownParts(activeLayer), CardPosition(activeLayer));
  }

  /** The view's state: which layer is active. */
  class LayerSelector {
    var activeLayer: Layer

    constructor ()
      ensures activeLayer == Input
    {
      activeLayer := Input;
    }

    /** A click on a card makes that card's layer active. */
    method ClickCard(layer: Layer)
      modifies this
      ensures activeLayer == layer
    {
      activeLayer := layer;
    }
  }
}
