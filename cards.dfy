/**
 * A playing card (Cards/Card.cs) with its rank and suit enumerations
 * (Cards/Enums/CardRank.cs, Cards/Enums/CardSuit.cs).
 */
module Cards {

  /** CardRank: the contiguous integers Ace = 1 ... King = 13. */
  type Rank = r: int | 1 <= r <= 13 witness 1

  const Ace: Rank := 1
  const King: Rank := 13

  /** CardSuit: Spade = 1, Diamond = 2, Club = 3, Heart = 4; red suits are the even ones. */
  type Suit = s: int | 1 <= s <= 4 witness 1

  const Spade: Suit := 1
  const Diamond: Suit := 2
  const Club: Suit := 3
  const Heart: Suit := 4

  /** What identifies a card in a deck: its rank and suit, whatever its face-up flag. */
  datatype CardId = CardId(rank: Rank, suit: Suit)

  /**
   * A card. Rank and suit are fixed at construction; the face-up flag is the
   * only settable property and defaults to face-down, as the primary
   * constructor's optional third argument does.
   */
  datatype Card = Card(rank: Rank, suit: Suit, faceUp: bool := false)
  {
    /** `IsRed`: the suit number is even. */
    predicate IsRed()
      ensures IsRed() <==> suit == Diamond || suit == Heart
      ensures !IsRed() <==> suit == Spade || suit == Club
    {
      suit % 2 == 0
    }

    function Id(): CardId {
      CardId(rank, suit)
    }

    /** Setting `IsFaceUp`: nothing but the flag changes. */
    function WithFaceUp(up: bool): (c: Card)
      ensures c.rank == rank && c.suit == suit && c.faceUp == up
      ensures c.Id() == Id()
    {
      this.(faceUp := up)
    }
  }

  /** `(int)Suit - 1`, the index of a suit's foundation pile. */
  function FoundationIndex(suit: Suit): (i: int)
    ensures 0 <= i < 4 && i == suit - 1
    ensures suit == Spade ==> i == 0
    ensures suit == Heart ==> i == 3
  {
    suit - 1
  }
}
