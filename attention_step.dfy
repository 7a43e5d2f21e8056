/**
 * The self-attention view: one selectable card per sentence token, a ring on
 * the selected card, and the selected token's row of a constant score matrix.
 */
module AttentionStep {
  import opened Common
  import opened StepContext

  /** The table `attentionScores`: row i holds how much token i attends to each token. */
  const AttentionScores: seq<seq<real>> := [
    [1.0, 0.2, 0.1, 0.1, 0.8],
    [0.2, 1.0, 0.3, 0.1, 0.1],
    [0.1, 0.4, 1.0, 0.2, 0.1],
    [0.1, 0.1, 0.3, 1.0, 0.2],
    [0.7, 0.1, 0.1, 0.2, 1.0]
  ]

  /** The matrix is square in the sentence length, so every `[selected][index]` lookup is in bounds. */
  lemma ScoreMatrixMatchesSentence()
    ensures |AttentionScores| == |Sentence|
    ensures forall i :: 0 <= i < |AttentionScores| ==> |AttentionScores[i]| == |Sentence|
  {
  }

  /**
   * The scores shown for the selected token: one per sentence token, each a
   * valid opacity in [0, 1], and the token's score for itself is 1.
   */
  function ScoreRow(selectedToken: int): (row: seq<real>)
    requires 0 <= selectedToken < |Sentence|
    ensures |row| == |Sentence|
    ensures forall j :: 0 <= j < |row| ==> 0.0 <= row[j] <= 1.0
    ensures row[selectedToken] == 1.0
  {
    AttentionScores[selectedToken]
  }

  /** The ring flag of every token card, in sentence order. */
  function RingFlags(selectedToken: int): (flags: seq<bool>)
    ensures |flags| == |Sentence|
    ensures 0 <= selectedToken < |Sentence| ==> OnlyAt(flags, selectedToken)
    ensures !(0 <= selectedToken < |Sentence|) ==> forall i :: 0 <= i < |flags| ==> !flags[i]
  {
    seq(|Sentence|, index => selectedToken == index)
  }

  /** For a selection inside the sentence exactly one card has the ring, the selected one. */
  lemma ExactlyOneRing(selectedToken: int)
    requires 0 <= selectedToken < |Sentence|
    ensures OnlyAt(RingFlags(selectedToken), selectedToken)
    ensures CountTrue(RingFlags(selectedToken)) == 1
  {
    OnlyAtCountsOne(RingFlags(selectedToken), selectedToken);
  }

  /** The view's state: which token's attention row is shown. */
  class TokenSelector {
    var selectedToken: int

    /** The selection names a token of the sentence. */
    ghost predicate Valid()
      reads this
    {
      0 <= selectedToken < |Sentence|
    }

    constructor ()
      ensures selectedToken == 0
      ensures Valid()
    {
      selectedToken := 0;
    }

    /** A click on token card `index`, which exists only for the sentence's indices. */
    method ClickToken(index: int)
      requires 0 <= index < |Sentence|
      modifies this
      ensures selectedToken == index
      ensures Valid()
    {
      selectedToken := index;
    }

    /** The row the view reads after any sequence of clicks. */
    method ShownScores() returns (row: seq<real>)
      requires Valid()
      ensures row == ScoreRow(selectedToken) == AttentionScores[selectedToken]
      ensures |row| == |Sentence|
      ensures row[selectedToken] == 1.0
    {
      row := ScoreRow(selectedToken);
    }
  }
}
