/**
 * The tokenization view: one coloured card per sentence token, and an info
 * panel with the token's id and position while a card is hovered.
 */
module TokenizationStep {
  import opened Common
  import opened StepContext

  /** The table `tokenColors`: the gradient of the card at each position. */
  const TokenColors: seq<string> := [
    "from-red-400 to-red-600",
    "from-orange-400 to-orange-600",
    "from-yellow-400 to-yellow-600",
    "from-green-400 to-green-600",
    "from-blue-400 to-blue-600",
    "from-purple-400 to-purple-600"
  ]

  /** Every token card finds a colour, and no two cards share one. */
  lemma ColorsCoverSentence()
    ensures |TokenColors| == 6 && |TokenColors| >= |Sentence|
    ensures forall i, j :: 0 <= i < j < |Sentence| ==> TokenColors[i] != TokenColors[j]
  {
  }

  /** What the info panel shows: the 1-based token id and the 0-based position. */
  datatype TokenInfo = TokenInfo(tokenId: int, position: int)

  /**
   * The info panel: shown iff a token is hovered (`hoveredToken !== null`, so
   * position 0 shows it too), with the hovered position and an id one above it.
   */
  function InfoPanel(hoveredToken: Option<int>): (panel: Option<TokenInfo>)
    ensures panel.Some? <==> hoveredToken.Some?
    ensures panel.Some? ==> panel.value.position == hoveredToken.value
    ensures panel.Some? ==> panel.value.tokenId == panel.value.position + 1
  {
    match hoveredToken
    case None => None
    case Some(i) => Some(TokenInfo(i + 1, i))
  }

  /** The view's state: which card, if any, is under the pointer. */
  class HoverState {
    var hoveredToken: Option<int>

    /** A hovered token is a token of the sentence. */
    ghost predicate Valid()
      reads this
    {
      hoveredToken.Some? ==> 0 <= hoveredToken.value < |Sentence|
    }

    constructor ()
      ensures hoveredToken == None
      ensures Valid()
    {
      hoveredToken := None;
    }

    /** The pointer enters card `index`, which exists only for the sentence's indices. */
    method HoverStart(index: int)
      requires 0 <= index < |Sentence|
      modifies this
      ensures hoveredToken == Some(index)
      ensures Valid()
    {
      hoveredToken := Some(index);
    }

    /** The pointer leaves a card. */
    method HoverEnd()
      modifies this
      ensures hoveredToken == None
      ensures Valid()
    {
      hoveredToken := None;
    }

    /** The panel the view renders in the current state. */
    method Panel() returns (panel: Option<TokenInfo>)
      requires Valid()
      ensures panel.Some? <==> hoveredToken.Some?
      ensures panel == InfoPanel(hoveredToken)
      ensures panel.Some? ==> panel.value.tokenId == hoveredToken.value + 1
      ensures panel.Some? ==> 1 <= panel.value.tokenId <= |Sentence|
      ensures panel.Some? ==> panel.value.position == hoveredToken.value
    {
      panel := InfoPanel(hoveredToken);
    }
  }
}
