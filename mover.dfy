/** Moving cards between piles of the live board (Game/CardMover.cs). */
module CardMover {
  import opened Cards
  import opened Piles
  import opened Board
  import opened Selection

  /** Indexes that name a pile for `MoveCards`'s source. */
  predicate SourceIndexOk(slot: SlotSelectionType, index: int) {
    && (slot == Foundation ==> 0 <= index < 4)
    && (slot != Foundation && slot != Talon ==> 0 <= index < 7)
  }

  /** The pile `MoveCards` pops: the talon, a foundation, or (for any other slot) a tableau column. */
  function SourcePile(b: BoardState, slot: SlotSelectionType, index: int): Pile
    requires b.Valid() && SourceIndexOk(slot, index)
  {
    match slot
    case Talon => b.talon
    case Foundation => b.foundations[index]
    case _ => b.tableau[index]
  }

  /** The board with the source pile replaced. */
  function WithSourcePile(b: BoardState, slot: SlotSelectionType, index: int, p: Pile): (r: BoardState)
    requires b.Valid() && SourceIndexOk(slot, index)
    ensures r.Valid() && SourcePile(r, slot, index) == p
  {
    match slot
    case Talon => b.(talon := p)
    case Foundation => b.(foundations := b.foundations[index := p])
    case _ => b.(tableau := b.tableau[index := p])
  }

  /** Replacing the source pile trades its cards for the new pile's. */
  lemma WithSourcePileIds(b: BoardState, slot: SlotSelectionType, index: int, p: Pile)
    requires b.Valid() && SourceIndexOk(slot, index)
    ensures WithSourcePile(b, slot, index, p).CardIds() + Ids(SourcePile(b, slot, index)) == b.CardIds() + Ids(p)
  {
    if slot == Talon {
      TalonIds(b, p);
    } else if slot == Foundation {
      FoundationIds(b, index, p);
    } else {
      ColumnIds(b, index, p);
    }
  }

  lemma TalonIds(b: BoardState, p: Pile)
    ensures b.(talon := p).CardIds() + Ids(b.talon) == b.CardIds() + Ids(p)
  {
    var rest := AllIds(b.tableau) + AllIds(b.foundations) + Ids(b.stock);
    assert b.(talon := p).CardIds() == rest + Ids(p);
    assert b.CardIds() == rest + Ids(b.talon);
  }

  lemma FoundationIds(b: BoardState, index: int, p: Pile)
    requires 0 <= index < |b.foundations|
    ensures b.(foundations := b.foundations[index := p]).CardIds() + Ids(b.foundations[index])
         == b.CardIds() + Ids(p)
  {
    var r := b.(foundations := b.foundations[index := p]);
    var rest := AllIds(b.tableau) + Ids(b.stock) + Ids(b.talon);
    AllIdsUpdate(b.foundations, index, p);
    assert r.CardIds() == AllIds(r.foundations) + rest;
    assert b.CardIds() == AllIds(b.foundations) + rest;
    ReplacePart(rest, AllIds(b.foundations), AllIds(r.foundations), Ids(b.foundations[index]), Ids(p), r.CardIds(), b.CardIds());
  }

  lemma ColumnIds(b: BoardState, index: int, p: Pile)
    requires 0 <= index < |b.tableau|
    ensures b.(tableau := b.tableau[index := p]).CardIds() + Ids(b.tableau[index])
         == b.CardIds() + Ids(p)
  {
    var r := b.(tableau := b.tableau[index := p]);
    var rest := AllIds(b.foundations) + Ids(b.stock) + Ids(b.talon);
    AllIdsUpdate(b.tableau, index, p);
    assert r.CardIds() == AllIds(r.tableau) + rest;
    assert b.CardIds() == AllIds(b.tableau) + rest;
    ReplacePart(rest, AllIds(b.tableau), AllIds(r.tableau), Ids(b.tableau[index]), Ids(p), r.CardIds(), b.CardIds());
  }

  /** Exchanging one part of a union for another whose difference is known. */
  lemma ReplacePart<T>(rest: multiset<T>, part: multiset<T>, part': multiset<T>, x: multiset<T>, y: multiset<T>, r: multiset<T>, b: multiset<T>)
    requires part' + x == part + y
    requires r == part' + rest && b == part + rest
    ensures r + x == b + y
  {
    forall e ensures (r + x)[e] == (b + y)[e] {
      assert (part' + x)[e] == (part + y)[e];
    }
  }

  /** Cancelling a common part from both sides of a union. */
  lemma Cancel<T>(a: multiset<T>, b: multiset<T>, c: multiset<T>, x: multiset<T>)
    requires a + (x + c) == b + x
    ensures a + c == b
  {
    forall e ensures (a + c)[e] == b[e] {
      assert (a + (x + c))[e] == (b + x)[e];
    }
  }

  /**
   * The board after `MoveCards`: the top `count` cards of the source pile,
   * in their order, now lie on top of tableau column `targetIndex`.
   */
  function AfterMoveCards(b: BoardState, sourceSlot: SlotSelectionType, sourceIndex: int, targetIndex: int, count: int): (r: BoardState)
    requires b.Valid() && SourceIndexOk(sourceSlot, sourceIndex) && 0 <= targetIndex < 7
    requires 0 <= count <= |SourcePile(b, sourceSlot, sourceIndex)|
    ensures r.Valid()
  {
    var src := SourcePile(b, sourceSlot, sourceIndex);
    var run := src[|src| - count..];
    var popped := WithSourcePile(b, sourceSlot, sourceIndex, src[..|src| - count]);
    WithSourcePile(popped, Tableau, targetIndex, popped.tableau[targetIndex] + run)
  }

  lemma WithOwnSourcePile(b: BoardState, slot: SlotSelectionType, index: int)
    requires b.Valid() && SourceIndexOk(slot, index)
    ensures WithSourcePile(b, slot, index, SourcePile(b, slot, index)) == b
  {
    match slot
    case Talon =>
    case Foundation =>
      assert b.foundations[index := b.foundations[index]] == b.foundations;
    case _ =>
      assert b.tableau[index := b.tableau[index]] == b.tableau;
  }

  /** Popping the top `count` cards of the source leaves the board's cards less the run. */
  lemma PopRunIds(b: BoardState, sourceSlot: SlotSelectionType, sourceIndex: int, count: int)
    requires b.Valid() && SourceIndexOk(sourceSlot, sourceIndex)
    requires 0 <= count <= |SourcePile(b, sourceSlot, sourceIndex)|
    ensures var src := SourcePile(b, sourceSlot, sourceIndex);
      WithSourcePile(b, sourceSlot, sourceIndex, src[..|src| - count]).CardIds() + Ids(src[|src| - count..]) == b.CardIds()
  {
    var src := SourcePile(b, sourceSlot, sourceIndex);
    var n := |src| - count;
    var pI := WithSourcePile(b, sourceSlot, sourceIndex, src[..n]).CardIds();
    WithSourcePileIds(b, sourceSlot, sourceIndex, src[..n]);
    IdsSplit(src, n, |src|);
    assert src[..|src|] == src && src[n..|src|] == src[n..];
    Cancel(pI, b.CardIds(), Ids(src[n..]), Ids(src[..n]));
  }

  /** Pushing a run onto a column adds the run's cards to the board's. */
  lemma PushRunIds(b: BoardState, targetIndex: int, run: Pile)
    requires b.Valid() && 0 <= targetIndex < 7
    ensures WithSourcePile(b, Tableau, targetIndex, b.tableau[targetIndex] + run).CardIds() == b.CardIds() + Ids(run)
  {
    var t := b.tableau[targetIndex];
    var r := b.(tableau := b.tableau[targetIndex := t + run]);
    assert WithSourcePile(b, Tableau, targetIndex, t + run) == r;
    ColumnIds(b, targetIndex, t + run);
    IdsAppend(t, run);
    Absorb(r.CardIds(), b.CardIds(), Ids(t), Ids(run));
  }

  /** Removing a common part that one side also extends. */
  lemma Absorb<T>(a: multiset<T>, b: multiset<T>, x: multiset<T>, c: multiset<T>)
    requires a + x == b + (x + c)
    ensures a == b + c
  {
    forall e ensures a[e] == (b + c)[e] {
      assert (a + x)[e] == (b + (x + c))[e];
    }
  }

  /** `MoveCards` neither loses nor duplicates a card. */
  lemma MoveCardsKeepsCards(b: BoardState, sourceSlot: SlotSelectionType, sourceIndex: int, targetIndex: int, count: int)
    requires b.Valid() && SourceIndexOk(sourceSlot, sourceIndex) && 0 <= targetIndex < 7
    requires 0 <= count <= |SourcePile(b, sourceSlot, sourceIndex)|
    ensures AfterMoveCards(b, sourceSlot, sourceIndex, targetIndex, count).CardIds() == b.CardIds()
  {
    var src := SourcePile(b, sourceSlot, sourceIndex);
    var run := src[|src| - count..];
    var popped := WithSourcePile(b, sourceSlot, sourceIndex, src[..|src| - count]);
    var r := WithSourcePile(popped, Tableau, targetIndex, popped.tableau[targetIndex] + run);
    assert AfterMoveCards(b, sourceSlot, sourceIndex, targetIndex, count) == r;
    PopRunIds(b, sourceSlot, sourceIndex, count);
    PushRunIds(popped, targetIndex, run);
    var pI, rI, bI := popped.CardIds(), r.CardIds(), b.CardIds();
    assert pI + Ids(run) == bI;
    assert rI == pI + Ids(run);
  }

  /**
   * The moved run keeps its order on the target: the target is its old
   * cards followed by the run, so the source's old top is the new top; the
   * stock and the move count are untouched.
   */
  lemma MoveCardsKeepsOrder(b: BoardState, sourceSlot: SlotSelectionType, sourceIndex: int, targetIndex: int, count: int)
    requires b.Valid() && SourceIndexOk(sourceSlot, sourceIndex) && 0 <= targetIndex < 7
    requires 0 < count <= |SourcePile(b, sourceSlot, sourceIndex)|
    requires !(sourceSlot !in {Talon, Foundation} && sourceIndex == targetIndex)
    ensures var r := AfterMoveCards(b, sourceSlot, sourceIndex, targetIndex, count);
      var src := SourcePile(b, sourceSlot, sourceIndex);
      && r.tableau[targetIndex] == b.tableau[targetIndex] + src[|src| - count..]
      && Top(r.tableau[targetIndex]) == Top(src)
      && SourcePile(r, sourceSlot, sourceIndex) == src[..|src| - count]
      && r.stock == b.stock && r.movesCount == b.movesCount
  {
  }

  /** Wherever the run comes from, the target column ends up holding at least the run. */
  lemma MoveCardsTargetHoldsRun(b: BoardState, sourceSlot: SlotSelectionType, sourceIndex: int, targetIndex: int, count: int)
    requires b.Valid() && SourceIndexOk(sourceSlot, sourceIndex) && 0 <= targetIndex < 7
    requires 0 <= count <= |SourcePile(b, sourceSlot, sourceIndex)|
    ensures |AfterMoveCards(b, sourceSlot, sourceIndex, targetIndex, count).tableau[targetIndex]| >= count
  {
    if sourceSlot !in {Talon, Foundation} && sourceIndex == targetIndex {
      MoveCardsSameColumn(b, sourceSlot, sourceIndex, count);
    }
  }

  /** Moving a run from a tableau column onto that same column changes nothing. */
  lemma MoveCardsSameColumn(b: BoardState, sourceSlot: SlotSelectionType, index: int, count: int)
    requires b.Valid() && sourceSlot !in {Talon, Foundation} && 0 <= index < 7
    requires 0 <= count <= |b.tableau[index]|
    ensures AfterMoveCards(b, sourceSlot, index, index, count) == b
  {
    var src := b.tableau[index];
    assert src[..|src| - count] + src[|src| - count..] == src;
  }

  /**
   * The board after `MoveToFoundation`: the card is pushed on its suit's
   * foundation and one card is popped, from tableau column `sourceIndex`
   * when the source is the tableau and from the talon for any other source.
   */
  function AfterMoveToFoundation(b: BoardState, card: Card, sourceSlot: SlotSelectionType, sourceIndex: int): (r: BoardState)
    requires b.Valid()
    requires sourceSlot == Tableau ==> 0 <= sourceIndex < 7 && |b.tableau[sourceIndex]| > 0
    requires sourceSlot != Tableau ==> |b.talon| > 0
    ensures r.Valid()
  {
    var suitIndex := FoundationIndex(card.suit);
    var pushed := b.(foundations := b.foundations[suitIndex := b.foundations[suitIndex] + [card]]);
    if sourceSlot == Tableau then
      pushed.(tableau := pushed.tableau[sourceIndex := pushed.tableau[sourceIndex][..|pushed.tableau[sourceIndex]| - 1]])
    else
      pushed.(talon := pushed.talon[..|pushed.talon| - 1])
  }

  /** The pile `MoveToFoundation` pops. */
  function FoundationSource(b: BoardState, sourceSlot: SlotSelectionType, sourceIndex: int): Pile
    requires b.Valid()
    requires sourceSlot == Tableau ==> 0 <= sourceIndex < 7
  {
    if sourceSlot == Tableau then b.tableau[sourceIndex] else b.talon
  }

  /**
   * When the card is the top of the pile it is taken from, `MoveToFoundation`
   * keeps every card on the board, and the foundation grows by that card.
   */
  lemma MoveToFoundationKeepsCards(b: BoardState, card: Card, sourceSlot: SlotSelectionType, sourceIndex: int)
    requires b.Valid()
    requires sourceSlot == Tableau ==> 0 <= sourceIndex < 7
    requires |FoundationSource(b, sourceSlot, sourceIndex)| > 0
    requires card == Top(FoundationSource(b, sourceSlot, sourceIndex))
    ensures AfterMoveToFoundation(b, card, sourceSlot, sourceIndex).CardIds() == b.CardIds()
    ensures var f := FoundationIndex(card.suit);
      AfterMoveToFoundation(b, card, sourceSlot, sourceIndex).foundations[f] == b.foundations[f] + [card]
  {
    var f := FoundationIndex(card.suit);
    var fnd := b.foundations[f];
    var src := FoundationSource(b, sourceSlot, sourceIndex);
    var from := if sourceSlot == Tableau then Tableau else Talon;
    var pushed := WithSourcePile(b, Foundation, f, fnd + [card]);
    var r := AfterMoveToFoundation(b, card, sourceSlot, sourceIndex);
    assert SourcePile(pushed, from, sourceIndex) == src;
    assert r == WithSourcePile(pushed, from, sourceIndex, src[..|src| - 1]);
    WithSourcePileIds(b, Foundation, f, fnd + [card]);
    WithSourcePileIds(pushed, from, sourceIndex, src[..|src| - 1]);
    IdsAppend(fnd, [card]);
    IdsPushPop(src);
    var one := multiset{card.Id()};
    assert Ids([card]) == one;
    var rI, pI, bI := r.CardIds(), pushed.CardIds(), b.CardIds();
    assert pI + Ids(fnd) == bI + (Ids(fnd) + one);
    assert rI + (Ids(src[..|src| - 1]) + one) == pI + Ids(src[..|src| - 1]);
    CancelPushPop(rI, pI, bI, Ids(fnd), Ids(src[..|src| - 1]), one);
  }

  lemma CancelPushPop<T>(r: multiset<T>, p: multiset<T>, b: multiset<T>, x: multiset<T>, lo: multiset<T>, one: multiset<T>)
    requires p + x == b + (x + one)
    requires r + (lo + one) == p + lo
    ensures r == b
  {
    forall e ensures r[e] == b[e] {
      assert (p + x)[e] == (b + (x + one))[e];
      assert (r + (lo + one))[e] == (p + lo)[e];
    }
  }

  /** A column after `RevealTopCards`: its top card, if any, face-up. */
  function RevealTop(p: Pile): (r: Pile)
    ensures |r| == |p|
    ensures |p| > 0 ==> Top(r).faceUp && Top(r).Id() == Top(p).Id()
    ensures forall k :: 0 <= k < |p| - 1 ==> r[k] == p[k]
  {
    if |p| > 0 then p[..|p| - 1] + [Top(p).WithFaceUp(true)] else p
  }

  /** The board after `RevealTopCards`: each tableau column's top face-up, nothing else changed. */
  function AfterReveal(b: BoardState): (r: BoardState)
    requires b.Valid()
    ensures r.Valid()
  {
    var t := b.tableau;
    b.(tableau := seq(7, i requires 0 <= i < 7 => RevealTop(t[i])))
  }

  lemma RevealKeepsCards(b: BoardState)
    requires b.Valid()
    ensures AfterReveal(b).CardIds() == b.CardIds()
    ensures forall i :: 0 <= i < 7 ==> |AfterReveal(b).tableau[i]| == |b.tableau[i]|
  {
    var t := b.tableau;
    var u := AfterReveal(b).tableau;
    forall i | 0 <= i < 7 ensures Ids(t[i]) == Ids(u[i]) {
      IdsSameFaces(t[i], u[i]);
    }
    SameIdsPiles(t, u);
  }

  lemma {:induction false} SameIdsPiles(t: seq<Pile>, u: seq<Pile>)
    requires |t| == |u|
    requires forall i :: 0 <= i < |t| ==> Ids(t[i]) == Ids(u[i])
    ensures AllIds(t) == AllIds(u)
  {
    if t != [] {
      SameIdsPiles(t[..|t| - 1], u[..|u| - 1]);
    }
  }

  /** Revealing twice is revealing once. */
  lemma RevealIdempotent(b: BoardState)
    requires b.Valid()
    ensures AfterReveal(AfterReveal(b)) == AfterReveal(b)
  {
    var t := AfterReveal(b).tableau;
    assert forall i :: 0 <= i < 7 ==> RevealTop(t[i]) == t[i];
    assert AfterReveal(AfterReveal(b)).tableau == t;
  }

  /** Replacing the source pile twice keeps only the second replacement. */
  lemma WithSourcePileTwice(b: BoardState, slot: SlotSelectionType, index: int, p: Pile, q: Pile)
    requires b.Valid() && SourceIndexOk(slot, index)
    ensures WithSourcePile(WithSourcePile(b, slot, index, p), slot, index, q) == WithSourcePile(b, slot, index, q)
  {
    if slot == Foundation {
      assert b.foundations[index := p][index := q] == b.foundations[index := q];
    } else if slot != Talon {
      assert b.tableau[index := p][index := q] == b.tableau[index := q];
    }
  }

  /** Taking one more card off the top of `s` appends it to the reversed run. */
  lemma ReversedPush<T>(s: seq<T>, m: int)
    requires 0 <= m < |s|
    ensures Reversed(s[m..]) == Reversed(s[m + 1..]) + [s[m]]
  {
    var r, q := Reversed(s[m..]), Reversed(s[m + 1..]) + [s[m]];
    assert |r| == |q|;
    forall k | 0 <= k < |r| ensures r[k] == q[k] {
    }
  }

  /** One step of `MoveCards`'s pushing loop: the next card of the run goes on the target. */
  lemma PushOne(target: Pile, run: Pile, placed: int)
    requires 0 <= placed < |run|
    ensures (target + run[..placed]) + [run[placed]] == target + run[..placed + 1]
  {
    assert run[..placed + 1] == run[..placed] + [run[placed]];
  }

  /** The mover of `SolitaireBoard`; all three operations change the board in place and check nothing. */
  class CardMover {
    const board: SolitaireBoard

    constructor (board: SolitaireBoard)
      ensures this.board == board
    {
      this.board := board;
    }

    /** `MoveToFoundation`. */
    method MoveToFoundation(card: Card, sourceSlot: SlotSelectionType, sourceIndex: int)
      requires board.Valid()
      requires sourceSlot == Tableau ==> 0 <= sourceIndex < 7 && |board.tableau[sourceIndex]| > 0
      requires sourceSlot != Tableau ==> |board.talon| > 0
      modifies board
      ensures board.Valid()
      ensures board.State() == AfterMoveToFoundation(old(board.State()), card, sourceSlot, sourceIndex)
    {
      var suitIndex := FoundationIndex(card.suit);
      board.foundations := board.foundations[suitIndex := board.foundations[suitIndex] + [card]];
      if sourceSlot == Tableau {
        var pile := board.tableau[sourceIndex];
        board.tableau := board.tableau[sourceIndex := pile[..|pile| - 1]];
      } else {
        board.talon := board.talon[..|board.talon| - 1];
      }
    }

    /**
     * `MoveCards`: pop `count` cards from the source into a buffer (which
     * reverses them), then pop the buffer onto the target column (which
     * restores their order).
     */
    /** One pop of `MoveCards`'s first loop: the top card of the talon, a foundation or a column. */
    method PopSource(sourceSlot: SlotSelectionType, sourceIndex: int) returns (card: Card)
      requires board.Valid() && SourceIndexOk(sourceSlot, sourceIndex)
      requires |SourcePile(board.State(), sourceSlot, sourceIndex)| > 0
      modifies board
      ensures board.Valid()
      ensures var p := SourcePile(old(board.State()), sourceSlot, sourceIndex);
        card == Top(p) && board.State() == WithSourcePile(old(board.State()), sourceSlot, sourceIndex, p[..|p| - 1])
    {
      if sourceSlot == Talon {
        card := Top(board.talon);
        board.talon := board.talon[..|board.talon| - 1];
      } else if sourceSlot == Foundation {
        var pile := board.foundations[sourceIndex];
        card := Top(pile);
        board.foundations := board.foundations[sourceIndex := pile[..|pile| - 1]];
      } else {
        var pile := board.tableau[sourceIndex];
        card := Top(pile);
        board.tableau := board.tableau[sourceIndex := pile[..|pile| - 1]];
      }
    }

    method MoveCards(sourceSlot: SlotSelectionType, sourceIndex: int, targetIndex: int, count: int)
      requires board.Valid() && SourceIndexOk(sourceSlot, sourceIndex) && 0 <= targetIndex < 7
      requires 0 <= count <= |SourcePile(board.State(), sourceSlot, sourceIndex)|
      modifies board
      ensures board.Valid()
      ensures board.State() == AfterMoveCards(old(board.State()), sourceSlot, sourceIndex, targetIndex, count)
    {
      ghost var b := board.State();
      ghost var src := SourcePile(b, sourceSlot, sourceIndex);
      ghost var run := src[|src| - count..];
      ghost var popped := WithSourcePile(b, sourceSlot, sourceIndex, src[..|src| - count]);
      ghost var moved := WithSourcePile(popped, Tableau, targetIndex, popped.tableau[targetIndex] + run);
      assert AfterMoveCards(b, sourceSlot, sourceIndex, targetIndex, count) == moved;
      var buffer := PopRun(sourceSlot, sourceIndex, count);
      assert board.State() == popped;
      ReversedTwice(run);
      PushBuffer(targetIndex, buffer);
      assert board.State() == moved;
    }

    /** `MoveCards`'s first loop: pop `count` cards off the source into a buffer, so the buffer lists them top first. */
    method PopRun(sourceSlot: SlotSelectionType, sourceIndex: int, count: int) returns (buffer: Pile)
      requires board.Valid() && SourceIndexOk(sourceSlot, sourceIndex)
      requires 0 <= count <= |SourcePile(board.State(), sourceSlot, sourceIndex)|
      modifies board
      ensures board.Valid()
      ensures var src := SourcePile(old(board.State()), sourceSlot, sourceIndex);
        && board.State() == WithSourcePile(old(board.State()), sourceSlot, sourceIndex, src[..|src| - count])
        && buffer == Reversed(src[|src| - count..])
    {
      ghost var b := board.State();
      ghost var src := SourcePile(b, sourceSlot, sourceIndex);
      ghost var n := |src|;
      buffer := [];
      assert src[..n] == src && src[n..] == [];
      WithOwnSourcePile(b, sourceSlot, sourceIndex);
      for i := 0 to count
        invariant board.Valid()
        invariant board.State() == WithSourcePile(b, sourceSlot, sourceIndex, src[..n - i])
        invariant buffer == Reversed(src[n - i..])
      {
        var card := PopSource(sourceSlot, sourceIndex);
        WithSourcePileTwice(b, sourceSlot, sourceIndex, src[..n - i], src[..n - i][..n - i - 1]);
        assert src[..n - i][..n - i - 1] == src[..n - (i + 1)];
        ReversedPush(src, n - i - 1);
        buffer := buffer + [card];
      }
    }

    /** `MoveCards`'s second loop: pop the buffer empty onto column `targetIndex`. */
    method PushBuffer(targetIndex: int, buffer: Pile)
      requires board.Valid() && 0 <= targetIndex < 7
      modifies board
      ensures board.Valid()
      ensures var t := old(board.tableau);
        board.State() == WithSourcePile(old(board.State()), Tableau, targetIndex, t[targetIndex] + Reversed(buffer))
    {
      ghost var b := board.State();
      ghost var target := b.tableau[targetIndex];
      ghost var run := Reversed(buffer);
      var rest := buffer;
      assert target + run[..0] == target;
      assert b.tableau[targetIndex := target] == b.tableau;
      while |rest| > 0
        invariant board.Valid()
        invariant rest == buffer[..|rest|]
        invariant board.State() == b.(tableau := b.tableau[targetIndex := target + run[..|buffer| - |rest|]])
      {
        var card := Top(rest);
        PushOne(target, run, |buffer| - |rest|);
        rest := rest[..|rest| - 1];
        board.tableau := board.tableau[targetIndex := board.tableau[targetIndex] + [card]];
      }
      assert run[..|buffer|] == run;
    }

    /** `RevealTopCards`: turn every non-empty column's top card face-up. */
    method RevealTopCards()
      requires board.Valid()
      modifies board
      ensures board.Valid()
      ensures board.State() == AfterReveal(old(board.State()))
    {
      ghost var b := board.State();
      for i := 0 to 7
        invariant board.Valid()
        invariant board.State() == b.(tableau := board.tableau)
        invariant forall c :: 0 <= c < i ==> board.tableau[c] == RevealTop(b.tableau[c])
        invariant forall c :: i <= c < 7 ==> board.tableau[c] == b.tableau[c]
      {
        var pile := board.tableau[i];
        if |pile| > 0 {
          board.tableau := board.tableau[i := pile[..|pile| - 1] + [Top(pile).WithFaceUp(true)]];
        }
      }
      assert board.tableau == AfterReveal(b).tableau;
    }
  }
}
