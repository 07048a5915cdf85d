/** The two placement rules (Game/MovesValidator.cs). Both only read their arguments. */
module MovesValidator {
  import opened Cards
  import opened Board
  import opened Wrappers

  /** Two cards differ in colour exactly when their suit numbers differ in parity. */
  predicate DifferentColours(a: Card, b: Card)
    ensures DifferentColours(a, b) <==> (a.suit + b.suit) % 2 == 1
  {
    a.IsRed() != b.IsRed()
  }

  /**
   * `IsCardLayable`: may the picked card be laid on a tableau column whose
   * top card is `targetTop` (None for an empty column)? On an empty column
   * only a King; otherwise the target must be face-up, of the other colour
   * and exactly one rank higher. The picked card's own flag is not read.
   */
  predicate IsCardLayable(pickedCard: Card, targetTop: Option<Card>)
    ensures targetTop.None? ==> (IsCardLayable(pickedCard, targetTop) <==> pickedCard.rank == King)
    ensures targetTop.Some? ==> (IsCardLayable(pickedCard, targetTop) <==>
      targetTop.value.faceUp && targetTop.value.rank == pickedCard.rank + 1 &&
      (targetTop.value.suit + pickedCard.suit) % 2 == 1)
  {
    match targetTop
    case None => pickedCard.rank == King
    case Some(top) =>
      var descending := top.rank - 1 == pickedCard.rank;
      var differentColor := DifferentColours(top, pickedCard);
      top.faceUp && differentColor && descending
  }

  lemma OnlyKingOnEmpty(pickedCard: Card)
    ensures IsCardLayable(pickedCard, None) <==> pickedCard.rank == King
  {
  }

  lemma LayableOnCard(pickedCard: Card, top: Card)
    ensures IsCardLayable(pickedCard, Some(top)) <==>
      top.faceUp && top.rank == pickedCard.rank + 1 &&
      (top.suit in {Diamond, Heart} <==> pickedCard.suit in {Spade, Club})
  {
  }

  lemma NothingOnFaceDown(pickedCard: Card, top: Card)
    requires !top.faceUp
    ensures !IsCardLayable(pickedCard, Some(top))
  {
  }

  lemma PickedFlagIgnored(pickedCard: Card, targetTop: Option<Card>, up: bool)
    ensures IsCardLayable(pickedCard.WithFaceUp(up), targetTop) == IsCardLayable(pickedCard, targetTop)
  {
  }

  /**
   * `CanMoveToFoundation`: the card continues its suit's foundation, which
   * holds exactly rank - 1 cards.
   */
  predicate CanMoveToFoundation(board: BoardState, card: Card)
    requires board.Valid()
    ensures CanMoveToFoundation(board, card) <==> |board.foundations[card.suit - 1]| == card.rank - 1
    ensures card.rank == Ace ==> (CanMoveToFoundation(board, card) <==> board.foundations[FoundationIndex(card.suit)] == [])
    ensures card.rank == King ==> (CanMoveToFoundation(board, card) <==> |board.foundations[FoundationIndex(card.suit)]| == 12)
  {
    var suitIndex := FoundationIndex(card.suit);
    |board.foundations[suitIndex]| + 1 == card.rank
  }
}
