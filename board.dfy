/** The game board (Game/SolitaireBoard.cs): seven tableau columns, four foundations, stock and talon. */
module Board {
  import opened Cards
  import opened Piles

  /**
   * A value copy of a board: what the copy constructor produces and what
   * the undo history stores.
   */
  datatype BoardState = BoardState(
    tableau: seq<Pile>,
    foundations: seq<Pile>,
    stock: Pile,
    talon: Pile,
    movesCount: int)
  {
    /** Seven tableau columns and four foundations, as both constructors create them. */
    ghost predicate Valid() {
      |tableau| == 7 && |foundations| == 4
    }

    /** Every card identity on the board, wherever it lies. */
    function CardIds(): multiset<CardId> {
      AllIds(tableau) + AllIds(foundations) + Ids(stock) + Ids(talon)
    }

    /** The number of cards on the board. */
    function Size(): nat {
      TotalSize(tableau) + TotalSize(foundations) + |stock| + |talon|
    }
  }

  lemma BoardSize(b: BoardState)
    ensures |b.CardIds()| == b.Size()
  {
    AllIdsSize(b.tableau);
    AllIdsSize(b.foundations);
  }

  /** How many cards the deal gives to the columns before column i: i(i+1)/2. */
  function DealStart(i: int): (k: nat)
    requires 0 <= i <= 7
    ensures i < 7 ==> k + i < 28
  {
    if i == 0 then 0 else if i == 1 then 1 else if i == 2 then 3 else if i == 3 then 6
    else if i == 4 then 10 else if i == 5 then 15 else if i == 6 then 21 else 28
  }

  /** The deal's start positions are the triangular numbers, ending at 28 after the seventh column. */
  lemma DealStartTriangular(i: int)
    requires 0 <= i <= 7
    ensures 2 * DealStart(i) == i * (i + 1)
    ensures DealStart(7) == 28
  {
  }

  /** Column i - 1 holds i cards, so column i starts i positions after it. */
  lemma DealStartStep(i: int)
    requires 0 < i <= 7
    ensures DealStart(i) == DealStart(i - 1) + i
  {
  }

  /**
   * Tableau column i after the deal: deck positions DealStart(i) to
   * DealStart(i) + i in order, the last of them on top and turned face-up;
   * the others keep the flag they had in the deck.
   */
  function DealtColumn(deck: seq<Card>, i: int): (p: Pile)
    requires 28 <= |deck| && 0 <= i < 7
    ensures |p| == i + 1
    ensures Top(p) == deck[DealStart(i) + i].WithFaceUp(true)
    ensures forall j :: 0 <= j < i ==> p[j] == deck[DealStart(i) + j]
  {
    seq(i + 1, j requires 0 <= j <= i =>
      if j == i then deck[DealStart(i) + j].WithFaceUp(true) else deck[DealStart(i) + j])
  }

  function DealtColumns(deck: seq<Card>, n: int): (t: seq<Pile>)
    requires 28 <= |deck| && 0 <= n <= 7
    ensures |t| == n && forall i :: 0 <= i < n ==> t[i] == DealtColumn(deck, i)
  {
    seq(n, i requires 0 <= i < n => DealtColumn(deck, i))
  }

  /**
   * The board the deal constructor builds: columns of 1 to 7 cards, the rest
   * of the deck on the stock in deck order (the deck's last card on top),
   * empty foundations and talon, no moves yet.
   */
  function Dealt(deck: seq<Card>): (b: BoardState)
    requires |deck| >= 28
    ensures b.Valid()
    ensures forall i :: 0 <= i < 7 ==> |b.tableau[i]| == i + 1 && b.tableau[i][i].faceUp
    ensures forall f :: 0 <= f < 4 ==> b.foundations[f] == []
    ensures b.stock == deck[28..] && |b.stock| == |deck| - 28 && b.talon == [] && b.movesCount == 0
  {
    BoardState(DealtColumns(deck, 7), [[], [], [], []], deck[28..], [], 0)
  }

  /** Dealing a face-down deck leaves exactly each column's top card face-up. */
  lemma DealtFaces(deck: seq<Card>)
    requires |deck| >= 28
    requires forall k :: 0 <= k < |deck| ==> !deck[k].faceUp
    ensures forall i, j :: 0 <= i < 7 && 0 <= j <= i ==> (Dealt(deck).tableau[i][j].faceUp <==> j == i)
    ensures forall k :: 0 <= k < |Dealt(deck).stock| ==> !Dealt(deck).stock[k].faceUp
  {
  }

  /** A dealt column holds the identities of its slice of the deck. */
  lemma DealtColumnIds(deck: seq<Card>, i: int)
    requires 28 <= |deck| && 0 <= i < 7
    ensures Ids(DealtColumn(deck, i)) == Ids(deck[DealStart(i)..DealStart(i) + i + 1])
  {
    IdsSameFaces(DealtColumn(deck, i), deck[DealStart(i)..DealStart(i) + i + 1]);
  }

  lemma {:induction false} DealtColumnsIds(deck: seq<Card>, n: int)
    requires 28 <= |deck| && 0 <= n <= 7
    ensures AllIds(DealtColumns(deck, n)) == Ids(deck[..DealStart(n)])
  {
    if n > 0 {
      var t := DealtColumns(deck, n);
      var lo, hi := DealStart(n - 1), DealStart(n);
      DealStartStep(n);
      var prefix, column := t[..n - 1], t[n - 1];
      assert AllIds(t) == AllIds(prefix) + Ids(column);
      assert prefix == DealtColumns(deck, n - 1);
      DealtColumnsIds(deck, n - 1);
      assert column == DealtColumn(deck, n - 1);
      DealtColumnIds(deck, n - 1);
      IdsSplit(deck, lo, hi);
      var before, slice := Ids(deck[..lo]), Ids(deck[lo..hi]);
      assert AllIds(prefix) == before && Ids(column) == slice;
      assert AllIds(t) == before + slice == Ids(deck[..hi]);
    } else {
      assert DealtColumns(deck, 0) == [] && IdSeq(deck[..0]) == [];
    }
  }

  /** The deal neither drops nor duplicates a card. */
  lemma DealtKeepsCards(deck: seq<Card>)
    requires |deck| >= 28
    ensures Dealt(deck).CardIds() == Ids(deck)
    ensures Dealt(deck).Size() == |deck|
  {
    var b := Dealt(deck);
    assert DealStart(7) == 28;
    DealtColumnsIds(deck, 7);
    AllIdsOfEmpty(b.foundations);
    assert deck == deck[..28] + deck[28..];
    IdsAppend(deck[..28], deck[28..]);
    var columns, stock := Ids(deck[..28]), Ids(deck[28..]);
    assert AllIds(b.tableau) == columns && Ids(b.stock) == stock;
    assert AllIds(b.foundations) == multiset{} && Ids(b.talon) == multiset{};
    assert b.CardIds() == columns + stock == Ids(deck);
    BoardSize(b);
    assert |Ids(deck)| == |deck|;
  }

  /** `CloneStack`: enumerate top first, reverse to bottom first, and push a new card for each. */
  function CloneStack(original: Pile): (p: Pile)
    ensures p == original
  {
    ReversedTwice(original);
    var cards := Reversed(Reversed(original));
    seq(|cards|, k requires 0 <= k < |cards| => Card(cards[k].rank, cards[k].suit, cards[k].faceUp))
  }

  /** A list of piles, each cloned by `CloneStack`. */
  function CloneStacks(ps: seq<Pile>): (r: seq<Pile>)
    ensures r == ps
  {
    var r := seq(|ps|, i requires 0 <= i < |ps| => CloneStack(ps[i]));
    assert forall i :: 0 <= i < |ps| ==> r[i] == ps[i];
    r
  }

  /** The live board, whose piles and move count the game updates in place. */
  class SolitaireBoard {
    var tableau: seq<Pile>
    var foundations: seq<Pile>
    var stock: Pile
    var talon: Pile
    var movesCount: int

    ghost predicate Valid()
      reads this
    {
      |tableau| == 7 && |foundations| == 4
    }

    function State(): BoardState
      reads this
    {
      BoardState(tableau, foundations, stock, talon, movesCount)
    }

    /** The deal constructor: empty piles and no moves, then `InitializeBoard`. */
    constructor (deck: seq<Card>)
      requires |deck| >= 28
      ensures Valid()
      ensures State() == Dealt(deck)
    {
      tableau := [[], [], [], [], [], [], []];
      foundations := [[], [], [], []];
      stock := [];
      talon := [];
      movesCount := 0;
      new;
      InitializeBoard(deck);
    }

    /**
     * `InitializeBoard`: column i receives the next i + 1 cards of the deck,
     * the last of them turned face-up; the remaining cards are pushed onto
     * the stock.
     */
    method InitializeBoard(deck: seq<Card>)
      requires Valid() && |deck| >= 28
      modifies this
      ensures Valid()
      ensures tableau == DealtColumns(deck, 7)
      ensures stock == old(stock) + deck[28..]
      ensures foundations == old(foundations) && talon == old(talon) && movesCount == old(movesCount)
    {
      var cardIndex := 0;
      for i := 0 to 7
        invariant cardIndex == DealStart(i)
        invariant |tableau| == 7
        invariant forall c :: 0 <= c < i ==> tableau[c] == DealtColumn(deck, c)
        invariant stock == old(stock) && foundations == old(foundations)
        invariant talon == old(talon) && movesCount == old(movesCount)
      {
        var pile: Pile := [];
        for j := 0 to i + 1
          invariant cardIndex == DealStart(i) + j
          invariant pile == DealtColumn(deck, i)[..j]
        {
          var card := deck[cardIndex];
          if i == j {
            card := card.WithFaceUp(true);
          }
          pile := pile + [card];
          cardIndex := cardIndex + 1;
        }
        DealStartStep(i + 1);
        tableau := tableau[i := pile];
      }
      for k := cardIndex to |deck|
        invariant stock == old(stock) + deck[28..k]
        invariant tableau == DealtColumns(deck, 7)
        invariant foundations == old(foundations) && talon == old(talon) && movesCount == old(movesCount)
      {
        stock := stock + [deck[k]];
      }
    }

    /** The copy constructor: every pile cloned, in the same order with the same flags, and the move count. */
    function Clone(): (s: BoardState)
      reads this
      ensures s == State()
    {
      BoardState(CloneStacks(tableau), CloneStacks(foundations), CloneStack(stock), CloneStack(talon), movesCount)
    }
  }
}
