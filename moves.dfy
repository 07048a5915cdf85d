/** Picking, moving, placing and undoing cards (Game/MovesHandler.cs, Renderers/Enums/HighlightState.cs). */
module Moves {
  import opened Cards
  import opened Piles
  import opened Board
  import opened Selection
  import opened Input
  import Wrappers
  import Deck
  import MovesValidator
  import CardMover
  import StockManager
  import BoardsHistory

  /** The colour the renderer gives the selection. */
  datatype HighlightState = Cursor | Picked | Wrong | Good

  /**
   * Everything a move reads and writes: the board, the shared selection and
   * its picked flag, the undo history, and the handler's own fields.
   */
  datatype HandlerState = HandlerState(
    board: BoardState,
    sel: Position,
    picked: bool,
    history: seq<BoardState>,
    indexBeforeMove: int,
    slotBeforeMove: SlotSelectionType,
    last: Position,
    wasLayable: bool,
    highlight: HighlightState)

  /** The board is well formed and every snapshot in the history holds the same cards as the board. */
  ghost predicate Consistent(w: HandlerState) {
    && w.board.Valid()
    && forall k :: 0 <= k < |w.history| ==> w.history[k].Valid() && w.history[k].CardIds() == w.board.CardIds()
  }

  /**
   * The picked run lies on top of the pile at `at`: that pile is in the
   * tableau or is the pile the run was picked from (never the stock), and
   * it holds at least the selected number of cards.
   */
  ghost predicate RunHeld(w: HandlerState, at: Position)
    requires w.board.Valid() && Placed(at)
  {
    && w.slotBeforeMove != Stock
    && Placed(Position(w.slotBeforeMove, w.indexBeforeMove, at.count))
    && (at.slot == Tableau || (at.slot == w.slotBeforeMove && at.index == w.indexBeforeMove))
    && at.count <= |CardMover.SourcePile(w.board, at.slot, at.index)|
  }

  /**
   * The handler's invariant between two key presses: the selection rests
   * where it may and was saved as `lastSelection`, at most three snapshots
   * are kept (four while a card is picked, whose snapshot is not yet
   * confirmed), and a picked run lies under the selection.
   */
  ghost predicate Inv(w: HandlerState) {
    && Consistent(w)
    && Resting(w.sel, w.board)
    && w.last == w.sel
    && |w.history| <= (if w.picked then 4 else 3)
    && (w.picked ==> RunHeld(w, w.sel))
  }

  /**
   * What `Handle` may assume about a key press: the press left the board
   * alone, kept the selection resting, changed it only when it reports
   * `SelectionMoved`, moved a picked run only into the tableau with its
   * count, clicks only what `Enter` accepts, and cancels only a pick.
   */
  ghost predicate Ready(w: HandlerState, state: InputState) {
    && Consistent(w)
    && Resting(w.last, w.board)
    && Resting(w.sel, w.board)
    && |w.history| <= (if w.picked then 4 else 3)
    && (state != SelectionMoved ==> w.sel == w.last)
    && (state == Click ==> Clickable(w.sel, w.board))
    && (state == SelectionCanceled ==> w.picked)
    && (w.picked ==> RunHeld(w, w.last))
    && (w.picked && state == SelectionMoved ==> w.sel.slot == Tableau && w.sel.count == w.last.count)
  }

  /** `GetPickedCard` can read its card: the pile at the last selection holds it. */
  predicate PickedCardAvailable(w: HandlerState)
    requires w.board.Valid()
  {
    match w.last.slot
    case Talon => |w.board.talon| > 0
    case Foundation => 0 <= w.last.index < 4 && |w.board.foundations[w.last.index]| > 0
    case _ => 0 <= w.last.index < 7 && 1 <= w.sel.count <= |w.board.tableau[w.last.index]|
  }

  /**
   * `GetPickedCard`: the talon's top, a foundation's top, or in a column
   * the deepest card of the selected run, all read at the last selection.
   */
  function PickedCard(w: HandlerState): (c: Card)
    requires w.board.Valid() && PickedCardAvailable(w)
    ensures w.last.slot == Talon ==> c == Top(w.board.talon)
    ensures w.last.slot == Foundation ==> c == Top(w.board.foundations[w.last.index])
    ensures w.last.slot !in {Talon, Foundation} ==>
      var p := w.board.tableau[w.last.index];
      c == p[|p| - w.sel.count] && (w.sel.count == 1 ==> c == Top(p))
  {
    match w.last.slot
    case Talon => Top(w.board.talon)
    case Foundation => Top(w.board.foundations[w.last.index])
    case _ => ElementAt(w.board.tableau[w.last.index], w.sel.count - 1)
  }

  /** `GetTargetCard`: the top of the selected column, or none off the tableau or on an empty column. */
  function TargetCard(w: HandlerState): (t: Wrappers.Option<Card>)
    requires w.board.Valid() && (w.sel.slot == Tableau ==> 0 <= w.sel.index < 7)
    ensures t.Some? <==> w.sel.slot == Tableau && |w.board.tableau[w.sel.index]| > 0
    ensures t.Some? ==> t.value == Top(w.board.tableau[w.sel.index])
  {
    if w.sel.slot == Tableau && |w.board.tableau[w.sel.index]| > 0 then
      Wrappers.Some(Top(w.board.tableau[w.sel.index]))
    else
      Wrappers.None
  }

  /**
   * `HandleSelectionCanceled`: the cursor colour returns, the board is
   * restored from the history, and the selection goes back, unpicked, to
   * the pile the run came from (keeping its count).
   */
  function AfterSelectionCanceled(w: HandlerState): (r: HandlerState)
    ensures |w.history| > 0 ==> r.board == w.history[|w.history| - 1] && r.history == w.history[..|w.history| - 1]
    ensures |w.history| == 0 ==> r.board == w.board && r.history == w.history
    ensures !r.picked && r.highlight == Cursor
    ensures r.sel == Position(w.slotBeforeMove, w.indexBeforeMove, w.sel.count)
  {
    var restored := BoardsHistory.AfterRestoreBoard(w.history, w.board);
    w.(highlight := Cursor, history := restored.0, board := restored.1, picked := false,
       sel := w.sel.(index := w.indexBeforeMove, slot := w.slotBeforeMove))
  }

  /**
   * `HandleMoveUndone`: with a card picked, a cancel; otherwise the board is
   * restored from the history and the selection shrinks to one card.
   */
  function AfterMoveUndone(w: HandlerState): (r: HandlerState)
    ensures w.picked ==> r == AfterSelectionCanceled(w)
    ensures !w.picked ==> r.sel == w.sel.(count := 1) && r.picked == w.picked
    ensures !w.picked ==> r.board == BoardsHistory.AfterRestoreBoard(w.history, w.board).1
    ensures !w.picked ==> r.history == BoardsHistory.AfterRestoreBoard(w.history, w.board).0
    ensures !w.picked ==> r == w.(history := r.history, board := r.board, sel := r.sel)
  {
    if w.picked then
      AfterSelectionCanceled(w)
    else
      var restored := BoardsHistory.AfterRestoreBoard(w.history, w.board);
      w.(history := restored.0, board := restored.1, sel := w.sel.(count := 1))
  }

  /** `HandleSelectionMoved` can run: with a card picked, its card is readable and the run fits the move. */
  predicate MoveReady(w: HandlerState)
    requires w.board.Valid()
  {
    w.picked ==>
      && PickedCardAvailable(w)
      && CardMover.SourceIndexOk(w.last.slot, w.last.index)
      && 0 <= w.sel.index < 7
      && 0 <= w.sel.count <= |CardMover.SourcePile(w.board, w.last.slot, w.last.index)|
  }

  /**
   * `HandleSelectionMoved`: nothing when no card is picked. Otherwise judge
   * whether the picked card could be laid on the newly selected column (it
   * always can at its origin), colour the selection accordingly, and carry
   * the run from the last selection onto the selected column.
   */
  function AfterSelectionMoved(w: HandlerState): (r: HandlerState)
    requires w.board.Valid() && MoveReady(w)
    ensures !w.picked ==> r == w
    ensures w.picked && w.sel.slot == w.slotBeforeMove && w.sel.index == w.indexBeforeMove ==> r.wasLayable && r.highlight == Good
    ensures w.picked ==> r.highlight == (if r.wasLayable then Good else Wrong)
    ensures w.picked ==> r == w.(wasLayable := r.wasLayable, highlight := r.highlight, board := r.board)
  {
    if !w.picked then w
    else
      var atOrigin := w.sel.slot == w.slotBeforeMove && w.sel.index == w.indexBeforeMove;
      var layable := atOrigin || MovesValidator.IsCardLayable(PickedCard(w), TargetCard(w));
      w.(wasLayable := layable,
         highlight := if layable then Good else Wrong,
         board := CardMover.AfterMoveCards(w.board, w.last.slot, w.last.index, w.sel.index, w.sel.count))
  }

  /** `PickOrPlaceCard` can run: a pick reads its card at the current selection, which is not the stock. */
  predicate PickReady(w: HandlerState)
    requires w.board.Valid()
  {
    !w.picked ==> CanPick(w)
  }

  /** A pick reads its card at the current selection, which is saved as the last one and is not the stock. */
  predicate CanPick(w: HandlerState)
    requires w.board.Valid()
  {
    PickedCardAvailable(w) && w.last == w.sel && w.sel.slot != Stock
  }

  /** The state right after `AddBoard` in a pick: the board snapshotted and the move counted. */
  function Added(w: HandlerState): (r: HandlerState)
    ensures r.history == w.history + [w.board]
    ensures r.board == w.board.(movesCount := w.board.movesCount + 1)
    ensures r.sel == w.sel && r.last == w.last && r.picked == w.picked
  {
    var added := BoardsHistory.AfterAddBoard(w.history, w.board);
    w.(history := added.0, board := added.1)
  }

  /** The automatic move `PickOrPlaceCard` tries first: one tableau or talon card that continues its foundation. */
  predicate AutoMoves(w: HandlerState)
    requires w.board.Valid() && PickedCardAvailable(w)
  {
    w.sel.count == 1 && w.sel.slot != Foundation && MovesValidator.CanMoveToFoundation(w.board, PickedCard(w))
  }

  /**
   * `PickOrPlaceCard` with nothing picked: snapshot the board, then either
   * send a single tableau or talon card that continues its foundation
   * there (confirming the snapshot and revealing the columns' tops), or
   * pick the selection.
   */
  function AfterPick(w: HandlerState): (r: HandlerState)
    requires w.board.Valid() && CanPick(w)
  {
    var w1 := Added(w);
    if AutoMoves(w1) then
      w1.(board := CardMover.AfterReveal(CardMover.AfterMoveToFoundation(w1.board, PickedCard(w1), w.sel.slot, w.sel.index)),
          history := BoardsHistory.AfterConfirmBoard(w1.history))
    else
      w1.(highlight := Picked, picked := true, indexBeforeMove := w.sel.index, slotBeforeMove := w.sel.slot)
  }

  /**
   * `PickOrPlaceCard` with a run picked: clicking its origin cancels;
   * elsewhere, a layable run is placed (confirm and reveal), and an
   * unlayable one stays picked with nothing changed.
   */
  function AfterPlace(w: HandlerState): (r: HandlerState)
    requires w.board.Valid()
  {
    if w.sel.index == w.indexBeforeMove && w.sel.slot == w.slotBeforeMove then
      AfterSelectionCanceled(w)
    else if w.wasLayable then
      w.(highlight := Cursor, picked := false,
         history := BoardsHistory.AfterConfirmBoard(w.history), board := CardMover.AfterReveal(w.board))
    else
      w
  }

  /** `PickOrPlaceCard`: a pick when nothing is picked, otherwise a place. */
  function AfterPickOrPlace(w: HandlerState): (r: HandlerState)
    requires w.board.Valid() && PickReady(w)
  {
    if !w.picked then AfterPick(w) else AfterPlace(w)
  }

  /** `HandleClick`: on the stock, snapshot, confirm and draw (or recycle); elsewhere pick or place. */
  ghost function AfterClick(w: HandlerState, isHardMode: bool, draws: nat -> nat): (r: HandlerState)
    requires w.board.Valid() && Deck.ValidDraws(draws)
    requires w.sel.slot != Stock ==> PickReady(w)
  {
    if w.sel.slot == Stock then
      var w1 := Added(w);
      w1.(history := BoardsHistory.AfterConfirmBoard(w1.history),
          board := StockManager.AfterDrawOrShuffle(w1.board, isHardMode, draws))
    else
      AfterPickOrPlace(w)
  }

  /** The handler `Handle` dispatches the press to. */
  ghost function Dispatch(w: HandlerState, state: InputState, isHardMode: bool, draws: nat -> nat): (r: HandlerState)
    requires Ready(w, state) && Deck.ValidDraws(draws)
  {
    ReadyCanRun(w, state);
    match state
    case SelectionMoved => AfterSelectionMoved(w)
    case Click => AfterClick(w, isHardMode, draws)
    case SelectionCanceled => AfterSelectionCanceled(w)
    case MoveUndone => AfterMoveUndone(w)
    case _ => w
  }

  /** What `Handle` does after the handler: an empty talon sends the selection to the stock, which is then saved. */
  function Settle(w: HandlerState): (r: HandlerState)
    ensures r.board == w.board && r.history == w.history && r.picked == w.picked
    ensures r.last == r.sel && r.sel.index == w.sel.index && r.sel.count == w.sel.count
    ensures r.sel.slot == (if w.sel.slot == Talon && |w.board.talon| == 0 then Stock else w.sel.slot)
  {
    var w2 := if w.sel.slot == Talon && |w.board.talon| == 0 then w.(sel := w.sel.(slot := Stock)) else w;
    w2.(last := w2.sel)
  }

  /**
   * `Handle`: dispatch the press; then move the selection from an empty
   * talon to the stock, and save it as the last selection.
   */
  ghost function AfterHandle(w: HandlerState, state: InputState, isHardMode: bool, draws: nat -> nat): (r: HandlerState)
    requires Ready(w, state) && Deck.ValidDraws(draws)
  {
    Settle(Dispatch(w, state, isHardMode, draws))
  }

  /** A ready press can be handled without reading past the end of a pile. */
  lemma ReadyCanRun(w: HandlerState, state: InputState)
    requires Ready(w, state)
    ensures state == SelectionMoved ==> MoveReady(w)
    ensures state == Click && w.sel.slot != Stock ==> PickReady(w)
  {
  }

  /** What one handler leaves before the talon redirect and the save of the selection. */
  ghost predicate Handled(w: HandlerState) {
    && Consistent(w)
    && Placed(w.sel)
    && |w.history| <= (if w.picked then 4 else 3)
    && (w.picked ==> RunHeld(w, w.sel))
  }

  /** The talon redirect and the save of the selection turn a handled state into one that keeps the invariant. */
  lemma FinishKeepsInv(w: HandlerState)
    requires Handled(w)
    ensures Inv(Settle(w))
  {
  }

  /** A board with the same cards, in place of a consistent one, keeps the history consistent. */
  lemma SameCardsConsistent(w: HandlerState, b: BoardState)
    requires Consistent(w) && b.Valid() && b.CardIds() == w.board.CardIds()
    ensures Consistent(w.(board := b))
  {
  }

  /** Restoring the latest snapshot keeps the cards and the consistency, and shortens the history. */
  lemma RestoreKeepsCards(w: HandlerState)
    requires Consistent(w)
    ensures var restored := BoardsHistory.AfterRestoreBoard(w.history, w.board);
      && restored.1.CardIds() == w.board.CardIds()
      && Consistent(w.(history := restored.0, board := restored.1))
      && |restored.0| <= |w.history| && (|w.history| > 0 ==> |restored.0| == |w.history| - 1)
  {
  }

  lemma CanceledHandled(w: HandlerState)
    requires Consistent(w) && w.picked && |w.history| <= 4
    requires Placed(w.sel) && RunHeld(w, w.sel)
    ensures Handled(AfterSelectionCanceled(w))
    ensures AfterSelectionCanceled(w).board.CardIds() == w.board.CardIds()
  {
    RestoreKeepsCards(w);
  }

  lemma UndoneHandled(w: HandlerState)
    requires Ready(w, MoveUndone)
    ensures Handled(AfterMoveUndone(w))
    ensures AfterMoveUndone(w).board.CardIds() == w.board.CardIds()
  {
    RestoreKeepsCards(w);
    if w.picked {
      CanceledHandled(w);
    }
  }

  lemma MovedHandled(w: HandlerState)
    requires Ready(w, SelectionMoved)
    ensures Handled(AfterSelectionMoved(w))
    ensures AfterSelectionMoved(w).board.CardIds() == w.board.CardIds()
  {
    if w.picked {
      var r := AfterSelectionMoved(w);
      CardMover.MoveCardsKeepsCards(w.board, w.last.slot, w.last.index, w.sel.index, w.sel.count);
      CardMover.MoveCardsTargetHoldsRun(w.board, w.last.slot, w.last.index, w.sel.index, w.sel.count);
      SameCardsConsistent(w, r.board);
    }
  }

  lemma PlaceHandled(w: HandlerState)
    requires Ready(w, Click) && w.picked
    ensures Handled(AfterPickOrPlace(w))
    ensures AfterPickOrPlace(w).board.CardIds() == w.board.CardIds()
  {
    if w.sel.index == w.indexBeforeMove && w.sel.slot == w.slotBeforeMove {
      CanceledHandled(w);
    } else if w.wasLayable {
      CardMover.RevealKeepsCards(w.board);
      SameCardsConsistent(w, CardMover.AfterReveal(w.board));
    }
  }

  lemma PickHandled(w: HandlerState)
    requires Ready(w, Click) && !w.picked && w.sel.slot != Stock
    ensures Handled(AfterPickOrPlace(w))
    ensures AfterPickOrPlace(w).board.CardIds() == w.board.CardIds()
  {
    var w1 := Added(w);
    AddedConsistent(w);
    if AutoMoves(w1) {
      AutoMoveHandled(w1);
    }
  }

  /** The snapshot a pick takes keeps the history consistent and at most four long. */
  lemma AddedConsistent(w: HandlerState)
    requires Consistent(w)
    ensures Consistent(Added(w)) && Added(w).board.CardIds() == w.board.CardIds()
  {
    var w1 := Added(w);
    assert w1.board.CardIds() == w.board.CardIds();
    forall k | 0 <= k < |w1.history| ensures w1.history[k].Valid() && w1.history[k].CardIds() == w1.board.CardIds() {
      if k < |w.history| {
        assert w1.history[k] == w.history[k];
      }
    }
  }

  /** Trimming the oldest snapshot keeps the history consistent. */
  lemma ConfirmedConsistent(w: HandlerState)
    requires Consistent(w)
    ensures Consistent(w.(history := BoardsHistory.AfterConfirmBoard(w.history)))
  {
    var h := BoardsHistory.AfterConfirmBoard(w.history);
    forall k | 0 <= k < |h| ensures h[k].Valid() && h[k].CardIds() == w.board.CardIds() {
      assert h[k] == w.history[|w.history| - |h| + k];
    }
  }

  /** The automatic move to a foundation, with the reveal after it, keeps the cards. */
  lemma AutoMoveKeepsCards(w1: HandlerState)
    requires w1.board.Valid() && CanPick(w1) && AutoMoves(w1) && Placed(w1.sel)
    ensures var moved := CardMover.AfterReveal(CardMover.AfterMoveToFoundation(w1.board, PickedCard(w1), w1.sel.slot, w1.sel.index));
      moved.Valid() && moved.CardIds() == w1.board.CardIds()
  {
    var card := PickedCard(w1);
    var pushed := CardMover.AfterMoveToFoundation(w1.board, card, w1.sel.slot, w1.sel.index);
    CardMover.MoveToFoundationKeepsCards(w1.board, card, w1.sel.slot, w1.sel.index);
    CardMover.RevealKeepsCards(pushed);
  }

  /** The automatic move to a foundation keeps the cards, and its confirm keeps the history at most three long. */
  lemma AutoMoveHandled(w1: HandlerState)
    requires Consistent(w1) && !w1.picked && CanPick(w1) && AutoMoves(w1) && |w1.history| <= 4 && Placed(w1.sel)
    ensures var card := PickedCard(w1);
      var moved := CardMover.AfterReveal(CardMover.AfterMoveToFoundation(w1.board, card, w1.sel.slot, w1.sel.index));
      var r := w1.(board := moved, history := BoardsHistory.AfterConfirmBoard(w1.history));
      Handled(r) && moved.CardIds() == w1.board.CardIds()
  {
    var moved := CardMover.AfterReveal(CardMover.AfterMoveToFoundation(w1.board, PickedCard(w1), w1.sel.slot, w1.sel.index));
    AutoMoveKeepsCards(w1);
    SameCardsConsistent(w1, moved);
    var w2 := w1.(board := moved);
    ConfirmedConsistent(w2);
  }

  lemma DrawHandled(w: HandlerState, isHardMode: bool, draws: nat -> nat)
    requires Ready(w, Click) && w.sel.slot == Stock && Deck.ValidDraws(draws)
    ensures Handled(AfterClick(w, isHardMode, draws))
    ensures AfterClick(w, isHardMode, draws).board.CardIds() == w.board.CardIds()
  {
    assert !w.picked;
    var w1 := Added(w);
    AddedConsistent(w);
    var drawn := StockManager.AfterDrawOrShuffle(w1.board, isHardMode, draws);
    StockManager.DrawOrShuffleKeepsCards(w1.board, isHardMode, draws);
    SameCardsConsistent(w1, drawn);
    var w2 := w1.(board := drawn);
    ConfirmedConsistent(w2);
    var r := w2.(history := BoardsHistory.AfterConfirmBoard(w1.history));
    assert AfterClick(w, isHardMode, draws) == r;
  }

  /** Every handler `Handle` dispatches to leaves a handled state with the same cards. */
  lemma DispatchHandled(w: HandlerState, state: InputState, isHardMode: bool, draws: nat -> nat)
    requires Ready(w, state) && Deck.ValidDraws(draws)
    ensures Handled(Dispatch(w, state, isHardMode, draws))
    ensures Dispatch(w, state, isHardMode, draws).board.CardIds() == w.board.CardIds()
  {
    match state {
      case SelectionMoved => MovedHandled(w);
      case Click =>
        if w.sel.slot == Stock {
          DrawHandled(w, isHardMode, draws);
        } else if w.picked {
          PlaceHandled(w);
        } else {
          PickHandled(w);
        }
      case SelectionCanceled => CanceledHandled(w);
      case MoveUndone => UndoneHandled(w);
      case _ =>
    }
  }

  /**
   * `Handle` keeps the invariant: from any press the input handler can
   * produce, no pile is read past its end, the selection comes to rest
   * where it may, and the history stays small and consistent.
   */
  lemma HandleKeepsInv(w: HandlerState, state: InputState, isHardMode: bool, draws: nat -> nat)
    requires Ready(w, state) && Deck.ValidDraws(draws)
    ensures Inv(AfterHandle(w, state, isHardMode, draws))
    ensures AfterHandle(w, state, isHardMode, draws).board.CardIds() == w.board.CardIds()
  {
    DispatchHandled(w, state, isHardMode, draws);
    FinishKeepsInv(Dispatch(w, state, isHardMode, draws));
  }

  /** A click on a run whose last verdict was illegal, away from its origin, changes nothing. */
  lemma IllegalPlaceIsNoOp(w: HandlerState)
    requires w.board.Valid() && w.picked && !w.wasLayable
    requires !(w.sel.index == w.indexBeforeMove && w.sel.slot == w.slotBeforeMove)
    ensures AfterPickOrPlace(w) == w
  {
  }

  /**
   * Picking snapshots the board, and moving the run never touches the
   * history or the origin, so a cancel after the pick brings back the board
   * (move count included), the history and the selection as they were.
   */
  lemma CancelUndoesPick(w: HandlerState)
    requires Ready(w, Click) && !w.picked && w.sel.slot != Stock
    requires AfterPickOrPlace(w).picked
    ensures var p := AfterPickOrPlace(w);
      && p.slotBeforeMove == w.sel.slot && p.indexBeforeMove == w.sel.index
      && AfterSelectionCanceled(p).board == w.board
      && AfterSelectionCanceled(p).history == w.history
      && AfterSelectionCanceled(p).sel == w.sel
  {
  }

  /** Moving a picked run keeps the history, the origin and the pick. */
  lemma MoveKeepsPick(w: HandlerState)
    requires w.board.Valid() && MoveReady(w)
    ensures var r := AfterSelectionMoved(w);
      && r.history == w.history && r.picked == w.picked
      && r.slotBeforeMove == w.slotBeforeMove && r.indexBeforeMove == w.indexBeforeMove
      && r.sel == w.sel && r.last == w.last
  {
  }

  /**
   * The automatic move: a single card that continues its foundation goes
   * on top of it, the move is counted, and undo brings the board back.
   */
  lemma AutoMoveToFoundation(w: HandlerState)
    requires Ready(w, Click) && !w.picked && w.sel.slot != Stock
    requires w.sel.count == 1 && w.sel.slot != Foundation
    requires MovesValidator.CanMoveToFoundation(w.board, PickedCard(w))
    ensures var r := AfterPickOrPlace(w);
      var card := PickedCard(w);
      var f := FoundationIndex(card.suit);
      && !r.picked
      && r.board.foundations[f] == w.board.foundations[f] + [card]
      && r.board.movesCount == w.board.movesCount + 1
      && AfterMoveUndone(r).board == w.board
  {
    var added := BoardsHistory.AfterAddBoard(w.history, w.board);
    var w1 := w.(history := added.0, board := added.1);
    assert PickedCard(w1) == PickedCard(w);
    var card := PickedCard(w);
    CardMover.MoveToFoundationKeepsCards(w1.board, card, w.sel.slot, w.sel.index);
  }

  /** A draw from the stock is counted and undone by the next undo. */
  lemma UndoAfterDraw(w: HandlerState, isHardMode: bool, draws: nat -> nat)
    requires Ready(w, Click) && w.sel.slot == Stock && Deck.ValidDraws(draws)
    ensures var r := AfterClick(w, isHardMode, draws);
      && r.board.movesCount == w.board.movesCount + 1
      && AfterMoveUndone(r).board == w.board
  {
  }

  /**
   * The moves handler. It shares the board and the selection with the
   * input handler, owns the history and the mover, and stands in for the
   * renderer's highlight colour with a field of its own.
   */
  class MovesHandler {
    const board: SolitaireBoard
    const selection: SelectionInfo
    const history: BoardsHistory.BoardsHistoryManager
    const mover: CardMover.CardMover
    const isHardMode: bool
    var indexBeforeMove: int
    var slotBeforeMove: SlotSelectionType
    var lastSelection: Position
    var wasLayable: bool
    var highlight: HighlightState

    /** The history and the mover work on the handler's board. */
    ghost predicate Linked() {
      history.mainBoard == board && mover.board == board
    }

    ghost function State(): HandlerState
      reads this, board, selection, history
    {
      HandlerState(board.State(), selection.Current(), selection.isCardPicked, history.lastBoards,
        indexBeforeMove, slotBeforeMove, lastSelection, wasLayable, highlight)
    }

    /**
     * A new handler: an empty history, the last selection at its defaults
     * (the stock, index 0, one card), the origin fields at their defaults
     * (the first column), no verdict, and the cursor colour.
     */
    constructor (board: SolitaireBoard, selection: SelectionInfo, isHardMode: bool)
      ensures this.board == board && this.selection == selection && this.isHardMode == isHardMode
      ensures Linked() && fresh(history) && fresh(mover)
      ensures State() == HandlerState(board.State(), selection.Current(), selection.isCardPicked, [],
        0, Tableau, Position(Stock, 0, 1), false, Cursor)
    {
      this.board := board;
      this.selection := selection;
      this.isHardMode := isHardMode;
      history := new BoardsHistory.BoardsHistoryManager(board);
      mover := new CardMover.CardMover(board);
      indexBeforeMove := 0;
      slotBeforeMove := Tableau;
      lastSelection := Position(Stock, 0, 1);
      wasLayable := false;
      highlight := Cursor;
    }

    /** `Handle`, for the state the input handler reported. */
    method Handle(state: InputState, draws: nat -> nat)
      requires Linked() && Ready(State(), state) && Deck.ValidDraws(draws)
      modifies this, board, selection, history
      ensures State() == AfterHandle(old(State()), state, isHardMode, draws)
    {
      ghost var w := State();
      ReadyCanRun(w, state);
      ghost var d := Dispatch(w, state, isHardMode, draws);
      match state {
        case SelectionMoved =>
          HandleSelectionMoved();
          assert State() == AfterSelectionMoved(w);
        case Click =>
          HandleClick(draws);
          assert State() == AfterClick(w, isHardMode, draws);
        case SelectionCanceled =>
          HandleSelectionCanceled();
          assert State() == AfterSelectionCanceled(w);
        case MoveUndone =>
          HandleMoveUndone();
          assert State() == AfterMoveUndone(w);
        case _ =>
          assert State() == w;
      }
      assert State() == d;
      SettleSelection();
    }

    /** The end of `Handle`: leave an empty talon for the stock, then save the selection. */
    method SettleSelection()
      modifies this, selection
      ensures State() == Settle(old(State()))
    {
      if selection.slot == Talon && |board.talon| == 0 {
        selection.slot := Stock;
      }
      lastSelection := Position(selection.slot, selection.index, selection.count);
    }

    method HandleSelectionCanceled()
      requires Linked() && Consistent(State())
      modifies this, board, selection, history
      ensures State() == AfterSelectionCanceled(old(State()))
    {
      highlight := Cursor;
      history.RestoreBoard();
      selection.isCardPicked := false;
      selection.index := indexBeforeMove;
      selection.slot := slotBeforeMove;
    }

    method HandleMoveUndone()
      requires Linked() && Consistent(State())
      modifies this, board, selection, history
      ensures State() == AfterMoveUndone(old(State()))
    {
      if selection.isCardPicked {
        HandleSelectionCanceled();
        return;
      }
      history.RestoreBoard();
      selection.count := 1;
    }

    method HandleSelectionMoved()
      requires Linked() && board.Valid() && MoveReady(State())
      modifies this, board
      ensures State() == AfterSelectionMoved(old(State()))
    {
      if !selection.isCardPicked {
        return;
      }
      var pickedCard := GetPickedCard();
      var targetCard := GetTargetCard();
      wasLayable := MovesValidator.IsCardLayable(pickedCard, targetCard);
      if selection.slot == slotBeforeMove && selection.index == indexBeforeMove {
        wasLayable := true;
      }
      highlight := if wasLayable then Good else Wrong;
      mover.MoveCards(lastSelection.slot, lastSelection.index, selection.index, selection.count);
    }

    method HandleClick(draws: nat -> nat)
      requires Linked() && Consistent(State()) && Deck.ValidDraws(draws)
      requires selection.slot != Stock ==> PickReady(State())
      modifies this, board, selection, history
      ensures State() == AfterClick(old(State()), isHardMode, draws)
    {
      if selection.slot == Stock {
        history.AddBoard();
        history.ConfirmBoard();
        StockManager.DrawOrShuffle(board, isHardMode, draws);
      } else {
        PickOrPlaceCard();
      }
    }

    method PickOrPlaceCard()
      requires Linked() && Consistent(State()) && PickReady(State())
      modifies this, board, selection, history
      ensures State() == AfterPickOrPlace(old(State()))
    {
      if !selection.isCardPicked {
        PickCard();
      } else {
        PlaceCard();
      }
    }

    /** The pick branch of `PickOrPlaceCard`. */
    method PickCard()
      requires Linked() && Consistent(State()) && !selection.isCardPicked && CanPick(State())
      modifies this, board, selection, history
      ensures State() == AfterPick(old(State()))
    {
      ghost var w := State();
      history.AddBoard();
      ghost var w1 := Added(w);
      assert State() == w1;
      AddedConsistent(w);
      assert PickedCardAvailable(w1) && CanPick(w1);
      var card := GetPickedCard();
      if selection.count == 1 && selection.slot != Foundation && MovesValidator.CanMoveToFoundation(board.State(), card) {
        assert AutoMoves(w1);
        SendToFoundation(card);
      } else {
        highlight := Picked;
        selection.isCardPicked := true;
        indexBeforeMove := selection.index;
        slotBeforeMove := selection.slot;
      }
    }

    /** The automatic move in `PickOrPlaceCard`: the card goes to its foundation, the snapshot is confirmed, the columns' tops are revealed. */
    method SendToFoundation(card: Card)
      requires Linked() && Consistent(State())
      requires selection.slot == Tableau ==> 0 <= selection.index < 7 && |board.tableau[selection.index]| > 0
      requires selection.slot != Tableau ==> |board.talon| > 0
      modifies board, history
      ensures State() == old(State()).(
        board := CardMover.AfterReveal(CardMover.AfterMoveToFoundation(old(board.State()), card, selection.slot, selection.index)),
        history := BoardsHistory.AfterConfirmBoard(old(history.lastBoards)))
    {
      mover.MoveToFoundation(card, selection.slot, selection.index);
      history.ConfirmBoard();
      mover.RevealTopCards();
    }

    /** The place branch of `PickOrPlaceCard`. */
    method PlaceCard()
      requires Linked() && Consistent(State()) && selection.isCardPicked
      modifies this, board, selection, history
      ensures State() == AfterPlace(old(State()))
    {
      if selection.index == indexBeforeMove && selection.slot == slotBeforeMove {
        HandleSelectionCanceled();
        return;
      }
      if wasLayable {
        highlight := Cursor;
        selection.isCardPicked := false;
        history.ConfirmBoard();
        mover.RevealTopCards();
      }
    }

    /** `GetPickedCard`. */
    method GetPickedCard() returns (card: Card)
      requires board.Valid() && PickedCardAvailable(State())
      ensures card == PickedCard(State())
    {
      if lastSelection.slot == Talon {
        return Top(board.talon);
      } else if lastSelection.slot == Foundation {
        return Top(board.foundations[lastSelection.index]);
      } else {
        var pile := board.tableau[lastSelection.index];
        return ElementAt(pile, selection.count - 1);
      }
    }

    /** `GetTargetCard`. */
    method GetTargetCard() returns (target: Wrappers.Option<Card>)
      requires board.Valid() && (selection.slot == Tableau ==> 0 <= selection.index < 7)
      ensures target == TargetCard(State())
    {
      if selection.slot == Tableau && |board.tableau[selection.index]| > 0 {
        return Wrappers.Some(Top(board.tableau[selection.index]));
      }
      return Wrappers.None;
    }
  }
}
