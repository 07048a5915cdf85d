/** Drawing from the stock and recycling the talon (Game/StockManager.cs). */
module StockManager {
  import opened Cards
  import opened Piles
  import opened Board
  import Deck

  /** How many cards one draw moves: 3 in hard mode, otherwise 1, but never more than the stock holds. */
  function DrawCount(isHardMode: bool, stockSize: nat): (n: nat)
    ensures n <= stockSize
    ensures n <= (if isHardMode then 3 else 1)
    ensures n == stockSize || n == (if isHardMode then 3 else 1)
  {
    var n := if isHardMode then 3 else 1;
    if n > stockSize then stockSize else n
  }

  /** Every card of `p`, in place, with its face flag set to `up`. */
  function Faced(p: Pile, up: bool): (r: Pile)
    ensures |r| == |p|
    ensures forall k :: 0 <= k < |p| ==> r[k] == p[k].WithFaceUp(up)
  {
    seq(|p|, k requires 0 <= k < |p| => p[k].WithFaceUp(up))
  }

  /** The board after drawing `n` cards: each popped off the stock and pushed, face-up, onto the talon. */
  function AfterDraw(b: BoardState, n: nat): (r: BoardState)
    requires n <= |b.stock|
  {
    var m := |b.stock|;
    b.(stock := b.stock[..m - n], talon := b.talon + Faced(Reversed(b.stock[m - n..]), true))
  }

  /** The board after a recycle: the talon turned face-down, listed top first, shuffled, becomes the stock. */
  ghost function AfterRecycle(b: BoardState, draws: nat -> nat): (r: BoardState)
    requires Deck.ValidDraws(draws)
  {
    b.(stock := Deck.Shuffled(Reversed(Faced(b.talon, false)), draws), talon := [])
  }

  /**
   * The board after `DrawOrShuffle`. A draw pops the drawn cards off the
   * stock one at a time and pushes each, face-up, onto the talon, so the
   * talon gains them in reverse order. With nothing to draw, the talon is
   * turned face-down, listed top-first, shuffled, and becomes the stock.
   */
  ghost function AfterDrawOrShuffle(b: BoardState, isHardMode: bool, draws: nat -> nat): (r: BoardState)
    requires Deck.ValidDraws(draws)
  {
    var n := DrawCount(isHardMode, |b.stock|);
    if n > 0 then AfterDraw(b, n) else AfterRecycle(b, draws)
  }

  /** Moving cards only between the stock and the talon keeps the board's cards when it keeps theirs. */
  lemma StockTalonIds(b: BoardState, r: BoardState)
    requires r.tableau == b.tableau && r.foundations == b.foundations
    requires Ids(r.stock) + Ids(r.talon) == Ids(b.stock) + Ids(b.talon)
    ensures r.CardIds() == b.CardIds()
  {
    var rest := AllIds(b.tableau) + AllIds(b.foundations);
    var rs, rt, bs, bt := Ids(r.stock), Ids(r.talon), Ids(b.stock), Ids(b.talon);
    assert r.CardIds() == rest + rs + rt;
    assert b.CardIds() == rest + bs + bt;
    assert rest + rs + rt == rest + (rs + rt);
    assert rest + bs + bt == rest + (bs + bt);
  }

  /** A draw moves identities from the stock to the talon and loses none. */
  lemma DrawKeepsCards(b: BoardState, n: nat)
    requires n <= |b.stock|
    ensures var r := AfterDraw(b, n);
      Ids(r.stock) + Ids(r.talon) == Ids(b.stock) + Ids(b.talon) && r.CardIds() == b.CardIds()
  {
    var r := AfterDraw(b, n);
    var m := |b.stock|;
    var kept, drawn := b.stock[..m - n], b.stock[m - n..];
    var faced := Faced(Reversed(drawn), true);
    assert r.stock == kept && r.talon == b.talon + faced;
    assert b.stock == kept + drawn;
    IdsSameFaces(Reversed(drawn), faced);
    IdsReversed(drawn);
    IdsAppend(b.talon, faced);
    IdsAppend(kept, drawn);
    var rs, bt, d := Ids(kept), Ids(b.talon), Ids(drawn);
    assert Ids(r.talon) == bt + d;
    assert Ids(b.stock) == rs + d;
    MoveAcross(rs, bt, d);
    StockTalonIds(b, r);
  }

  /** A part moved from one side of a union to the other leaves the union alone. */
  lemma MoveAcross<T>(a: multiset<T>, b: multiset<T>, d: multiset<T>)
    ensures a + (b + d) == (a + d) + b
  {
    forall e ensures (a + (b + d))[e] == ((a + d) + b)[e] {
    }
  }

  /** A recycle moves identities from the talon to the stock and loses none. */
  lemma RecycleKeepsCards(b: BoardState, draws: nat -> nat)
    requires Deck.ValidDraws(draws) && b.stock == []
    ensures var r := AfterRecycle(b, draws);
      Ids(r.stock) + Ids(r.talon) == Ids(b.stock) + Ids(b.talon) && r.CardIds() == b.CardIds()
  {
    var r := AfterRecycle(b, draws);
    var down := Faced(b.talon, false);
    IdsSameFaces(b.talon, down);
    IdsReversed(down);
    Deck.ShuffledKeepsIds(Reversed(down), draws);
    assert Ids(r.talon) == multiset{} && Ids(b.stock) == multiset{};
    assert Ids(r.stock) == Ids(b.talon);
    StockTalonIds(b, r);
  }

  /** `DrawOrShuffle` neither loses nor duplicates a card, and touches only the stock and the talon. */
  lemma DrawOrShuffleKeepsCards(b: BoardState, isHardMode: bool, draws: nat -> nat)
    requires Deck.ValidDraws(draws)
    ensures var r := AfterDrawOrShuffle(b, isHardMode, draws);
      && Ids(r.stock) + Ids(r.talon) == Ids(b.stock) + Ids(b.talon)
      && r.CardIds() == b.CardIds()
      && r.tableau == b.tableau && r.foundations == b.foundations && r.movesCount == b.movesCount
  {
    var n := DrawCount(isHardMode, |b.stock|);
    if n > 0 {
      DrawKeepsCards(b, n);
    } else {
      RecycleKeepsCards(b, draws);
    }
  }

  /**
   * A draw takes `DrawCount` cards: the stock shrinks by that many, the
   * talon grows by that many, every drawn card is face-up, and the talon's
   * new top is the deepest card drawn.
   */
  lemma DrawMovesCards(b: BoardState, isHardMode: bool, draws: nat -> nat)
    requires Deck.ValidDraws(draws)
    requires |b.stock| > 0
    ensures var r := AfterDrawOrShuffle(b, isHardMode, draws);
      var n := DrawCount(isHardMode, |b.stock|);
      && 1 <= n
      && |r.stock| == |b.stock| - n && r.stock == b.stock[..|b.stock| - n]
      && |r.talon| == |b.talon| + n && r.talon[..|b.talon|] == b.talon
      && (forall k :: |b.talon| <= k < |r.talon| ==> r.talon[k].faceUp)
      && Top(r.talon) == b.stock[|b.stock| - n].WithFaceUp(true)
      && (n == 1 ==> Top(r.talon) == Top(b.stock).WithFaceUp(true))
  {
    var r := AfterDrawOrShuffle(b, isHardMode, draws);
    assert r.talon[..|b.talon|] == b.talon;
  }

  /**
   * With the stock empty, the talon is recycled: it becomes empty, and the
   * stock holds exactly its cards, all face-down.
   */
  lemma RecycleTurnsTalonOver(b: BoardState, isHardMode: bool, draws: nat -> nat)
    requires Deck.ValidDraws(draws)
    requires |b.stock| == 0
    ensures var r := AfterDrawOrShuffle(b, isHardMode, draws);
      && r.talon == []
      && |r.stock| == |b.talon|
      && Ids(r.stock) == Ids(b.talon)
      && (forall k :: 0 <= k < |r.stock| ==> !r.stock[k].faceUp)
  {
    var r := AfterDrawOrShuffle(b, isHardMode, draws);
    var faced := Faced(b.talon, false);
    var down := Reversed(faced);
    assert r.stock == Deck.Shuffled(down, draws);
    Deck.ShuffledPermutes(down, draws);
    Deck.ShuffledKeepsIds(down, draws);
    IdsReversed(faced);
    IdsSameFaces(b.talon, faced);
    forall k | 0 <= k < |r.stock| ensures !r.stock[k].faceUp {
      assert r.stock[k] in multiset(down);
      var j :| 0 <= j < |down| && down[j] == r.stock[k];
    }
  }

  /** With both the stock and the talon empty, `DrawOrShuffle` changes nothing. */
  lemma DrawOrShuffleOnEmpty(b: BoardState, isHardMode: bool, draws: nat -> nat)
    requires Deck.ValidDraws(draws)
    requires b.stock == [] && b.talon == []
    ensures AfterDrawOrShuffle(b, isHardMode, draws) == b
  {
  }

  /** One more card drawn from `stock` (which had `i` drawn) adds it, face-up, on top of the talon. */
  lemma DrawStep(stock: Pile, i: nat)
    requires i < |stock|
    ensures stock[..|stock| - i][..|stock| - i - 1] == stock[..|stock| - (i + 1)]
    ensures Faced(Reversed(stock[|stock| - (i + 1)..]), true)
         == Faced(Reversed(stock[|stock| - i..]), true) + [stock[|stock| - i - 1].WithFaceUp(true)]
  {
    var m := |stock|;
    assert Reversed(stock[m - (i + 1)..]) == Reversed(stock[m - i..]) + [stock[m - i - 1]];
  }

  /** `DrawOrShuffle`, changing the board's stock and talon in place. */
  method DrawOrShuffle(board: SolitaireBoard, isHardMode: bool, draws: nat -> nat)
    requires board.Valid() && Deck.ValidDraws(draws)
    modifies board
    ensures board.Valid()
    ensures board.State() == AfterDrawOrShuffle(old(board.State()), isHardMode, draws)
  {
    var cardsCount := 1;
    if isHardMode {
      cardsCount := 3;
    }
    if cardsCount > |board.stock| {
      cardsCount := |board.stock|;
    }
    if cardsCount > 0 {
      Draw(board, cardsCount);
    } else {
      TurnTalonFaceDown(board);
      var cardsFromTalon := Deck.Shuffle(Reversed(board.talon), draws);
      board.stock := cardsFromTalon;
      board.talon := [];
    }
  }

  /** The drawing loop: pop `cardsCount` cards off the stock, turn each face-up and push it on the talon. */
  method Draw(board: SolitaireBoard, cardsCount: nat)
    requires board.Valid() && cardsCount <= |board.stock|
    modifies board
    ensures board.Valid()
    ensures board.State() == AfterDraw(old(board.State()), cardsCount)
  {
    ghost var b := board.State();
    ghost var m := |b.stock|;
    assert b.stock[..m] == b.stock && b.stock[m..] == [];
    for i := 0 to cardsCount
      invariant board.Valid()
      invariant board.State() == AfterDraw(b, i)
    {
      var card := Top(board.stock);
      board.stock := board.stock[..|board.stock| - 1];
      card := card.WithFaceUp(true);
      board.talon := board.talon + [card];
      DrawStep(b.stock, i);
    }
  }

  /** The face-down pass over the talon that precedes a recycle. */
  method TurnTalonFaceDown(board: SolitaireBoard)
    requires board.Valid()
    modifies board
    ensures board.Valid()
    ensures board.State() == old(board.State()).(talon := Faced(old(board.talon), false))
  {
    ghost var b := board.State();
    for k := 0 to |board.talon|
      invariant board.Valid()
      invariant board.State() == b.(talon := board.talon)
      invariant |board.talon| == |b.talon|
      invariant forall j :: 0 <= j < k ==> board.talon[j] == b.talon[j].WithFaceUp(false)
      invariant forall j :: k <= j < |b.talon| ==> board.talon[j] == b.talon[j]
    {
      board.talon := board.talon[k := board.talon[k].WithFaceUp(false)];
    }
  }
}
