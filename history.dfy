/** The undo history of the game board (Game/BoardsHistoryManager.cs). */
module BoardsHistory {
  import opened Piles
  import opened Board

  /** The history and the main board after `AddBoard`: a snapshot of the board is appended, then the move count rises. */
  function AfterAddBoard(boards: seq<BoardState>, main: BoardState): (r: (seq<BoardState>, BoardState))
    ensures |r.0| == |boards| + 1 && r.0[..|boards|] == boards && r.0[|boards|] == main
    ensures r.1.movesCount == main.movesCount + 1
    ensures r.1.CardIds() == main.CardIds()
  {
    (boards + [main], main.(movesCount := main.movesCount + 1))
  }

  /** The history after `ConfirmBoard`: with more than three snapshots the oldest is dropped. */
  function AfterConfirmBoard(boards: seq<BoardState>): (r: seq<BoardState>)
    ensures |boards| <= 4 ==> |r| <= 3
    ensures |boards| <= 3 ==> r == boards
    ensures |boards| - 1 <= |r| <= |boards| && r == boards[|boards| - |r|..]
    ensures |boards| > 3 ==> r == boards[1..]
  {
    if |boards| > 3 then boards[1..] else boards
  }

  /**
   * The history and the main board after `RestoreBoard`: nothing happens
   * when the history is empty; otherwise the board becomes the latest
   * snapshot, which leaves the history.
   */
  function AfterRestoreBoard(boards: seq<BoardState>, main: BoardState): (r: (seq<BoardState>, BoardState))
    ensures |boards| == 0 ==> r == (boards, main)
    ensures |boards| > 0 ==> r.1 == boards[|boards| - 1] && r.0 + [r.1] == boards
  {
    if |boards| == 0 then (boards, main) else (boards[..|boards| - 1], boards[|boards| - 1])
  }

  /** Undo after a snapshot gives back the board and the history as they were, move count included. */
  lemma UndoAfterAdd(boards: seq<BoardState>, main: BoardState)
    ensures var added := AfterAddBoard(boards, main);
      AfterRestoreBoard(added.0, added.1) == (boards, main)
  {
  }

  /**
   * Trimming the history never drops the latest snapshot, so an undo
   * after `AddBoard` and `ConfirmBoard` still restores the board as it was
   * before the move, whatever the board became in between.
   */
  lemma UndoAfterConfirm(boards: seq<BoardState>, main: BoardState, later: BoardState)
    ensures var kept := AfterConfirmBoard(AfterAddBoard(boards, main).0);
      AfterRestoreBoard(kept, later).1 == main
  {
  }

  /** While every step adds one snapshot and confirms it, the history holds at most three boards. */
  lemma HistoryStaysSmall(boards: seq<BoardState>, main: BoardState)
    requires |boards| <= 3
    ensures |AfterConfirmBoard(AfterAddBoard(boards, main).0)| <= 3
  {
  }

  class BoardsHistoryManager {
    const mainBoard: SolitaireBoard
    var lastBoards: seq<BoardState>

    /** Every snapshot, like the main board, has seven columns and four foundations. */
    ghost predicate Valid()
      reads this, mainBoard
    {
      mainBoard.Valid() && forall k :: 0 <= k < |lastBoards| ==> lastBoards[k].Valid()
    }

    constructor (mainBoard: SolitaireBoard)
      ensures this.mainBoard == mainBoard && lastBoards == []
    {
      this.mainBoard := mainBoard;
      lastBoards := [];
    }

    /** `AddBoard`: push a copy of the main board, then count the move. */
    method AddBoard()
      requires Valid()
      modifies this, mainBoard
      ensures Valid()
      ensures (lastBoards, mainBoard.State()) == AfterAddBoard(old(lastBoards), old(mainBoard.State()))
    {
      lastBoards := lastBoards + [mainBoard.Clone()];
      mainBoard.movesCount := mainBoard.movesCount + 1;
    }

    /** `ConfirmBoard`: keep only the last three snapshots. */
    method ConfirmBoard()
      requires Valid()
      modifies this
      ensures Valid()
      ensures lastBoards == AfterConfirmBoard(old(lastBoards))
    {
      if |lastBoards| > 3 {
        lastBoards := lastBoards[1..];
      }
    }

    /**
     * `RestoreBoard`: the main board takes the latest snapshot's piles (the
     * stock and the talon re-pushed in their enumeration order, which
     * rebuilds them unchanged) and move count; the snapshot is removed.
     */
    method RestoreBoard()
      requires Valid()
      modifies this, mainBoard
      ensures Valid()
      ensures (lastBoards, mainBoard.State()) == AfterRestoreBoard(old(lastBoards), old(mainBoard.State()))
    {
      if |lastBoards| == 0 {
        return;
      }
      var board := lastBoards[|lastBoards| - 1];
      mainBoard.tableau := board.tableau;
      mainBoard.foundations := board.foundations;
      ReversedTwice(board.stock);
      ReversedTwice(board.talon);
      mainBoard.stock := Reversed(Reversed(board.stock));
      mainBoard.talon := Reversed(Reversed(board.talon));
      mainBoard.movesCount := board.movesCount;
      lastBoards := lastBoards[..|lastBoards| - 1];
    }
  }
}
