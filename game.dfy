/** The game: the deal, one turn of the main loop, and the win test (Game/GameHandler.cs). */
module Game {
  import opened Cards
  import opened Piles
  import opened Board
  import opened Selection
  import opened Input
  import opened Moves
  import Deck

  /** What one turn of `Run` ends with: keep playing, or return a code (-1 on quit, the move count on a win). */
  datatype StepResult = Continue | Finished(code: int)

  /** The game is won when all four foundations hold thirteen cards. */
  predicate Won(b: BoardState) {
    forall i :: 0 <= i < |b.foundations| ==> |b.foundations[i]| == 13
  }

  /**
   * What a turn of `Run` does with the state the input handler reported:
   * nothing when it asks for nothing, -1 on a confirmed quit, otherwise
   * the moves handler handles it and a won game ends with its move count.
   */
  ghost function AfterPress(w: HandlerState, state: InputState, quitConfirmed: bool, isHardMode: bool, draws: nat -> nat): (r: (HandlerState, StepResult))
    requires Ready(w, state) && Deck.ValidDraws(draws)
  {
    if state == None then (w, Continue)
    else if state == QuitGame && quitConfirmed then (w, Finished(-1))
    else
      var w2 := AfterHandle(w, state, isHardMode, draws);
      (w2, if Won(w2.board) then Finished(w2.board.movesCount) else Continue)
  }

  /** One turn of `Run`: the input handler reads the key and updates the selection, then the press is answered. */
  ghost function AfterStep(w: HandlerState, key: ConsoleKey, ctrl: bool, quitConfirmed: bool, isHardMode: bool, draws: nat -> nat): (r: (HandlerState, StepResult))
    requires Inv(w) && Deck.ValidDraws(draws)
  {
    var o := HandledInput(key, ctrl, w.sel, w.picked, w.board);
    InputMakesReady(w, key, ctrl);
    AfterPress(w.(sel := o.pos), o.state, quitConfirmed, isHardMode, draws)
  }

  /**
   * The answers a turn can give: nothing happens on `None`; a confirmed
   * quit returns -1 and leaves the game alone; an unconfirmed quit only
   * settles the selection; any handled press ends the game exactly when it
   * is won, returning the board's move count.
   */
  lemma PressResults(w: HandlerState, state: InputState, quitConfirmed: bool, isHardMode: bool, draws: nat -> nat)
    requires Ready(w, state) && Deck.ValidDraws(draws)
    ensures var p := AfterPress(w, state, quitConfirmed, isHardMode, draws);
      && (state == None ==> p == (w, Continue))
      && (state == QuitGame && quitConfirmed ==> p == (w, Finished(-1)))
      && (state == QuitGame && !quitConfirmed ==> p.0 == Settle(w))
      && (state != None && !(state == QuitGame && quitConfirmed) ==>
            p.0 == AfterHandle(w, state, isHardMode, draws)
            && (p.1.Finished? <==> Won(p.0.board))
            && (p.1.Finished? ==> p.1.code == p.0.board.movesCount))
  {
  }

  /** Whatever key is pressed between two turns, the moves handler may take what the input handler reports. */
  lemma InputMakesReady(w: HandlerState, key: ConsoleKey, ctrl: bool)
    requires Inv(w)
    ensures var o := HandledInput(key, ctrl, w.sel, w.picked, w.board);
      Ready(w.(sel := o.pos), o.state)
  {
    InputKeepsResting(key, ctrl, w.sel, w.picked, w.board);
    OnlyMovesChangeSelection(key, ctrl, w.sel, w.picked, w.board);
    InputStates(key, ctrl, w.sel, w.picked, w.board);
    if w.picked {
      PickedMovesStayInTableau(key, ctrl, w.sel, w.board);
    }
  }

  /** Answering a ready press keeps the moves handler's invariant and the cards. */
  lemma PressKeepsInv(w: HandlerState, state: InputState, quitConfirmed: bool, isHardMode: bool, draws: nat -> nat)
    requires Ready(w, state) && Deck.ValidDraws(draws)
    ensures var r := AfterPress(w, state, quitConfirmed, isHardMode, draws).0;
      Inv(r) && r.board.CardIds() == w.board.CardIds()
  {
    if state != None && !(state == QuitGame && quitConfirmed) {
      HandleKeepsInv(w, state, isHardMode, draws);
    }
  }

  /** Every turn keeps the moves handler's invariant and every card of the deal. */
  lemma StepKeepsInv(w: HandlerState, key: ConsoleKey, ctrl: bool, quitConfirmed: bool, isHardMode: bool, draws: nat -> nat)
    requires Inv(w) && Deck.ValidDraws(draws)
    ensures var r := AfterStep(w, key, ctrl, quitConfirmed, isHardMode, draws).0;
      Inv(r) && r.board.CardIds() == w.board.CardIds()
  {
    var o := HandledInput(key, ctrl, w.sel, w.picked, w.board);
    OnlyMovesChangeSelection(key, ctrl, w.sel, w.picked, w.board);
    InputMakesReady(w, key, ctrl);
    PressKeepsInv(w.(sel := o.pos), o.state, quitConfirmed, isHardMode, draws);
  }

  /** Columns whose sizes add up to nothing are all empty. */
  lemma {:induction false} NoCardsAllEmpty(ps: seq<Pile>)
    requires TotalSize(ps) == 0
    ensures forall i :: 0 <= i < |ps| ==> ps[i] == []
  {
    if ps != [] {
      NoCardsAllEmpty(ps[..|ps| - 1]);
      assert forall i :: 0 <= i < |ps| - 1 ==> ps[..|ps| - 1][i] == ps[i];
    }
  }

  /** Four full foundations hold the whole deck. */
  lemma FullFoundationsSize(fs: seq<Pile>)
    requires |fs| == 4 && forall i :: 0 <= i < 4 ==> |fs[i]| == 13
    ensures TotalSize(fs) == 52
  {
    var f3 := fs[..3];
    var f2 := f3[..2];
    var f1 := f2[..1];
    assert f1[..0] == [];
    assert TotalSize(f1) == 13;
    assert TotalSize(f2) == 26;
    assert TotalSize(f3) == 39;
  }

  /** In a won game of 52 cards, every card is on a foundation: the tableau, the stock and the talon are empty. */
  lemma WonMeansEverythingOnFoundations(b: BoardState)
    requires b.Valid() && b.CardIds() == Ids(Deck.StandardDeck()) && Won(b)
    ensures forall i :: 0 <= i < 7 ==> b.tableau[i] == []
    ensures b.stock == [] && b.talon == []
  {
    BoardSize(b);
    FullFoundationsSize(b.foundations);
    assert |Ids(Deck.StandardDeck())| == 52;
    NoCardsAllEmpty(b.tableau);
  }

  /** The moves handler's state right after the constructors: nothing picked, no history, both selections on the stock. */
  function Initial(b: BoardState): (w: HandlerState)
    ensures w.board == b && w.history == [] && !w.picked
  {
    HandlerState(b, Position(Stock, 0, 1), false, [], 0, Tableau, Position(Stock, 0, 1), false, Cursor)
  }

  /** A new game starts in the moves handler's invariant. */
  lemma InitialInv(b: BoardState)
    requires b.Valid()
    ensures Inv(Initial(b))
  {
  }

  class GameHandler {
    const board: SolitaireBoard
    const selection: SelectionInfo
    const inputHandler: InputHandler
    const movesHandler: MovesHandler

    /** Both handlers share the board and the selection. */
    ghost predicate Wired() {
      && inputHandler.board == board && inputHandler.selection == selection
      && movesHandler.board == board && movesHandler.selection == selection
      && movesHandler.Linked()
    }

    /** Between turns: the handlers are wired, the moves handler's invariant holds, and the board holds the 52 cards of a deck. */
    ghost predicate Valid()
      reads this, board, selection, movesHandler, movesHandler.history
    {
      && Wired()
      && Inv(movesHandler.State())
      && board.State().CardIds() == Ids(Deck.StandardDeck())
    }

    /** The game's constructor: a fresh deck, shuffled, dealt onto a new board, with a fresh selection and handlers. */
    constructor (isHardMode: bool, draws: nat -> nat)
      requires Deck.ValidDraws(draws)
      ensures Valid()
      ensures |Deck.Shuffled(Deck.StandardDeck(), draws)| == 52
      ensures board.State() == Dealt(Deck.Shuffled(Deck.StandardDeck(), draws))
      ensures selection.Current() == Position(Stock, 0, 1) && !selection.isCardPicked
    {
      var deck := Deck.Create();
      deck := Deck.Shuffle(deck, draws);
      var b := new SolitaireBoard(deck);
      var s := new SelectionInfo();
      board := b;
      selection := s;
      inputHandler := new InputHandler(b, s);
      movesHandler := new MovesHandler(b, s, isHardMode);
      new;
      Deck.ShuffledPermutes(Deck.StandardDeck(), draws);
      Deck.ShuffledKeepsIds(Deck.StandardDeck(), draws);
      DealtKeepsCards(deck);
      assert board.State().CardIds() == Ids(Deck.StandardDeck());
      InitialInv(board.State());
      assert movesHandler.State() == Initial(board.State());
    }

    /** `IsGameWon`: every foundation is full. */
    method IsGameWon() returns (won: bool)
      requires board.Valid()
      ensures won <==> Won(board.State())
    {
      for i := 0 to 4
        invariant forall k :: 0 <= k < i ==> |board.foundations[k]| == 13
      {
        if |board.foundations[i]| != 13 {
          return false;
        }
      }
      return true;
    }

    /** The rest of a turn of `Run`, once the input handler has reported `state`. */
    method Respond(state: InputState, quitConfirmed: bool, draws: nat -> nat) returns (result: StepResult)
      requires Wired() && Ready(movesHandler.State(), state) && Deck.ValidDraws(draws)
      modifies board, selection, movesHandler, movesHandler.history
      ensures movesHandler.State() == AfterPress(old(movesHandler.State()), state, quitConfirmed, movesHandler.isHardMode, draws).0
      ensures result == AfterPress(old(movesHandler.State()), state, quitConfirmed, movesHandler.isHardMode, draws).1
    {
      ghost var w := movesHandler.State();
      if state == None {
        result := Continue;
      } else if state == QuitGame && quitConfirmed {
        result := Finished(-1);
      } else {
        ghost var w2 := AfterHandle(w, state, movesHandler.isHardMode, draws);
        assert AfterPress(w, state, quitConfirmed, movesHandler.isHardMode, draws)
          == (w2, if Won(w2.board) then Finished(w2.board.movesCount) else Continue);
        result := Play(state, draws);
      }
    }

    /** A turn of `Run` that reaches the moves handler: handle the press, then test for a win. */
    method Play(state: InputState, draws: nat -> nat) returns (result: StepResult)
      requires Wired() && Ready(movesHandler.State(), state) && Deck.ValidDraws(draws)
      modifies board, selection, movesHandler, movesHandler.history
      ensures movesHandler.State() == AfterHandle(old(movesHandler.State()), state, movesHandler.isHardMode, draws)
      ensures result == if Won(board.State()) then Finished(board.movesCount) else Continue
    {
      HandleKeepsInv(movesHandler.State(), state, movesHandler.isHardMode, draws);
      movesHandler.Handle(state, draws);
      assert board.State() == movesHandler.State().board;
      var won := IsGameWon();
      result := if won then Finished(board.movesCount) else Continue;
    }

    /** One turn of `Run`, for the key read and the answer to the quit confirmation. */
    method Step(key: ConsoleKey, ctrl: bool, quitConfirmed: bool, draws: nat -> nat) returns (result: StepResult)
      requires Valid() && Deck.ValidDraws(draws)
      modifies board, selection, movesHandler, movesHandler.history
      ensures Valid()
      ensures (movesHandler.State(), result)
        == AfterStep(old(movesHandler.State()), key, ctrl, quitConfirmed, movesHandler.isHardMode, draws)
    {
      ghost var w := movesHandler.State();
      StepKeepsInv(w, key, ctrl, quitConfirmed, movesHandler.isHardMode, draws);
      InputMakesReady(w, key, ctrl);
      ghost var o := HandledInput(key, ctrl, w.sel, w.picked, w.board);
      var state := inputHandler.HandleInput(key, ctrl);
      assert movesHandler.State() == w.(sel := o.pos) && state == o.state;
      result := Respond(state, quitConfirmed, draws);
    }
  }
}
