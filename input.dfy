/** Keyboard input turned into selection changes (Game/InputHandler.cs, Game/Enums/InputState.cs). */
module Input {
  import opened Piles
  import opened Board
  import opened Selection

  /**
   * The keys the handler distinguishes. `Digit(n)` is the key for digit n
   * on the main row and `NumPad(n)` the one on the keypad; every other key
   * is `OtherKey`.
   */
  datatype ConsoleKey =
    | LeftArrow | A | RightArrow | D | UpArrow | W | DownArrow | S
    | Digit(n: int) | NumPad(n: int)
    | Enter | Spacebar | Q | Escape | Z | Tab | OtherKey

  /** What a key press asks the game to do. */
  datatype InputState = SelectionMoved | Click | SelectionCanceled | QuitGame | MoveUndone | None

  /** The selection after a key press, and what the press asks for. */
  datatype Outcome = Outcome(pos: Position, state: InputState)

  /** The fields of the selection a handler reads: a column, a foundation, and a non-negative count in the tableau. */
  predicate Addressable(p: Position) {
    && (p.slot == Tableau ==> 0 <= p.index < 7 && 0 <= p.count)
    && (p.slot == Foundation ==> 0 <= p.index < 4)
  }

  /**
   * Left arrow: cycle the tableau columns leftwards (resetting the count
   * unless a card is picked); talon to stock; foundations leftwards, then
   * to the talon if it has cards or else to the stock; stock to the last
   * foundation. With a card picked, the upper row does not move.
   */
  function LeftArrowMove(sel: Position, picked: bool, b: BoardState): Outcome {
    match sel.slot
    case Tableau =>
      var index := if sel.index > 0 then sel.index - 1 else 6;
      Outcome(Position(Tableau, index, if !picked then 1 else sel.count), SelectionMoved)
    case Talon =>
      if !picked then Outcome(sel.(slot := Stock), SelectionMoved) else Outcome(sel, None)
    case Foundation =>
      if !picked then
        if sel.index > 0 then Outcome(sel.(index := sel.index - 1), SelectionMoved)
        else if sel.index == 0 && |b.talon| > 0 then Outcome(sel.(slot := Talon), SelectionMoved)
        else if sel.index == 0 && |b.talon| == 0 then Outcome(sel.(slot := Stock), SelectionMoved)
        else Outcome(sel, None)
      else Outcome(sel, None)
    case Stock =>
      Outcome(sel.(slot := Foundation, index := 3), SelectionMoved)
  }

  /**
   * Right arrow: cycle the tableau columns rightwards; stock to the talon
   * if it has cards or else to the first foundation; talon to the first
   * foundation; foundations rightwards and from the last back to the stock.
   */
  function RightArrowMove(sel: Position, picked: bool, b: BoardState): Outcome {
    match sel.slot
    case Tableau =>
      var index := if sel.index < 6 then sel.index + 1 else 0;
      Outcome(Position(Tableau, index, if !picked then 1 else sel.count), SelectionMoved)
    case Stock =>
      if |b.talon| > 0 then Outcome(sel.(slot := Talon), SelectionMoved)
      else Outcome(sel.(slot := Foundation, index := 0), SelectionMoved)
    case Talon =>
      if !picked then Outcome(sel.(slot := Foundation, index := 0), SelectionMoved) else Outcome(sel, None)
    case Foundation =>
      if !picked then
        if sel.index < 3 then Outcome(sel.(index := sel.index + 1), SelectionMoved)
        else Outcome(sel.(slot := Stock), SelectionMoved)
      else Outcome(sel, None)
  }

  /**
   * Up arrow, only in the tableau: extend the selection by one card when
   * the next card down the column is face-up and nothing is picked;
   * otherwise, when nothing is picked, jump to the stock.
   */
  function UpArrowMove(sel: Position, picked: bool, b: BoardState): Outcome
    requires b.Valid() && Addressable(sel)
  {
    match sel.slot
    case Tableau =>
      var column := b.tableau[sel.index];
      if |column| > sel.count && ElementAt(column, sel.count).faceUp && !picked then
        Outcome(sel.(count := sel.count + 1), SelectionMoved)
      else if !picked then
        Outcome(sel.(slot := Stock, count := 1), SelectionMoved)
      else
        Outcome(sel, None)
    case _ => Outcome(sel, None)
  }

  /** Down arrow: from the upper row to the first column with one card; in the tableau, shrink an unpicked selection. */
  function DownArrowMove(sel: Position, picked: bool): Outcome {
    if sel.slot != Tableau then
      Outcome(Position(Tableau, 0, 1), SelectionMoved)
    else if sel.slot == Tableau && sel.count > 1 && !picked then
      Outcome(sel.(count := sel.count - 1), SelectionMoved)
    else
      Outcome(sel, None)
  }

  /**
   * Enter or space is a click when there is something to click: a stock or
   * talon with cards (on the stock), the talon always, a non-empty
   * foundation, or a column with at least the selected number of cards.
   */
  predicate Clickable(sel: Position, b: BoardState)
    requires b.Valid() && Addressable(sel)
  {
    match sel.slot
    case Stock => |b.stock| > 0 || |b.talon| > 0
    case Talon => true
    case Foundation => |b.foundations[sel.index]| != 0
    case Tableau => |b.tableau[sel.index]| >= sel.count
  }

  /**
   * `HandleEnter`: the four cases of a click, one per slot. The last clause
   * sums them up as `Clickable`, the form the moves handler relies on.
   */
  function EnterPress(sel: Position, b: BoardState): (o: Outcome)
    requires b.Valid() && Addressable(sel)
    ensures o.pos == sel
    ensures o.state == Click || o.state == None
    ensures sel.slot == Stock ==> (o.state == Click <==> |b.stock| > 0 || |b.talon| > 0)
    ensures sel.slot == Talon ==> o.state == Click
    ensures sel.slot == Foundation ==> (o.state == Click <==> |b.foundations[sel.index]| > 0)
    ensures sel.slot == Tableau ==> (o.state == Click <==> |b.tableau[sel.index]| >= sel.count)
    ensures o.state == Click <==> Clickable(sel, b)
  {
    match sel.slot
    case Stock => if |b.stock| > 0 || |b.talon| > 0 then Outcome(sel, Click) else Outcome(sel, None)
    case Talon => Outcome(sel, Click)
    case Foundation => if |b.foundations[sel.index]| != 0 then Outcome(sel, Click) else Outcome(sel, None)
    case Tableau => if |b.tableau[sel.index]| >= sel.count then Outcome(sel, Click) else Outcome(sel, None)
  }

  /** A number key selects tableau column `number`, resetting the count unless a card is picked. */
  function NumberPress(sel: Position, picked: bool, number: int): (o: Outcome)
    ensures o.state == SelectionMoved
    ensures o.pos.slot == Tableau && o.pos.index == number - 1
    ensures o.pos.count == (if picked then sel.count else 1)
  {
    Outcome(Position(Tableau, number - 1, if !picked then 1 else sel.count), SelectionMoved)
  }

  /** `HandleInput`: the key, with Ctrl held or not, dispatched to its handler. */
  function HandledInput(key: ConsoleKey, ctrl: bool, sel: Position, picked: bool, b: BoardState): Outcome
    requires b.Valid() && Addressable(sel)
  {
    match key
    case LeftArrow => LeftArrowMove(sel, picked, b)
    case A => LeftArrowMove(sel, picked, b)
    case RightArrow => RightArrowMove(sel, picked, b)
    case D => RightArrowMove(sel, picked, b)
    case UpArrow => UpArrowMove(sel, picked, b)
    case W => UpArrowMove(sel, picked, b)
    case DownArrow => DownArrowMove(sel, picked)
    case S => DownArrowMove(sel, picked)
    case Digit(n) => if 1 <= n <= 7 then NumberPress(sel, picked, n) else Outcome(sel, None)
    case NumPad(n) => if 1 <= n <= 7 then NumberPress(sel, picked, n) else Outcome(sel, None)
    case Enter => EnterPress(sel, b)
    case Spacebar => EnterPress(sel, b)
    case Q => Outcome(sel, QuitGame)
    case Escape => if picked then Outcome(sel, SelectionCanceled) else Outcome(sel, None)
    case Z => if ctrl then Outcome(sel, MoveUndone) else Outcome(sel, None)
    case Tab => if !picked then Outcome(sel.(count := 1, slot := Stock), SelectionMoved) else Outcome(sel, None)
    case OtherKey => Outcome(sel, None)
  }

  /** The selection rests on a pile it may rest on; on the talon only while the talon has cards. */
  predicate Resting(p: Position, b: BoardState) {
    Placed(p) && (p.slot == Talon ==> |b.talon| > 0)
  }

  /** No key takes the selection off the board, or onto an empty talon. */
  lemma InputKeepsResting(key: ConsoleKey, ctrl: bool, sel: Position, picked: bool, b: BoardState)
    requires b.Valid() && Resting(sel, b)
    ensures Resting(HandledInput(key, ctrl, sel, picked, b).pos, b)
  {
  }

  /** Only a press that reports `SelectionMoved` changes the selection. */
  lemma OnlyMovesChangeSelection(key: ConsoleKey, ctrl: bool, sel: Position, picked: bool, b: BoardState)
    requires b.Valid() && Addressable(sel)
    ensures var o := HandledInput(key, ctrl, sel, picked, b);
      o.state != SelectionMoved ==> o.pos == sel
  {
  }

  /**
   * While a card is picked (never from the stock), the selection can only
   * move into the tableau, and it keeps its count.
   */
  lemma PickedMovesStayInTableau(key: ConsoleKey, ctrl: bool, sel: Position, b: BoardState)
    requires b.Valid() && Placed(sel) && sel.slot != Stock
    ensures var o := HandledInput(key, ctrl, sel, true, b);
      o.state == SelectionMoved ==> o.pos.slot == Tableau && o.pos.count == sel.count
  {
  }

  /** What each of the remaining answers means, in both directions. */
  lemma InputStates(key: ConsoleKey, ctrl: bool, sel: Position, picked: bool, b: BoardState)
    requires b.Valid() && Addressable(sel)
    ensures var o := HandledInput(key, ctrl, sel, picked, b);
      && (o.state == Click <==> (key == Enter || key == Spacebar) && Clickable(sel, b))
      && (o.state == QuitGame <==> key == Q)
      && (o.state == MoveUndone <==> key == Z && ctrl)
      && (o.state == SelectionCanceled <==> key == Escape && picked)
  {
  }

  /**
   * Right undoes Left in the upper row with nothing picked: every pile comes
   * back, and so does the index everywhere but on the stock, whose index the
   * handler does not read.
   */
  lemma RightUndoesLeft(sel: Position, b: BoardState)
    requires b.Valid() && Resting(sel, b) && sel.slot != Tableau
    ensures var back := RightArrowMove(LeftArrowMove(sel, false, b).pos, false, b).pos;
      back.slot == sel.slot && back.count == sel.count && (sel.slot != Stock ==> back == sel)
  {
  }

  /**
   * Left undoes Right in the upper row with nothing picked: every pile comes
   * back, and on the foundations the index too (the stock and the talon
   * come back at the index the path left there).
   */
  lemma LeftUndoesRight(sel: Position, b: BoardState)
    requires b.Valid() && Resting(sel, b) && sel.slot != Tableau
    ensures var back := LeftArrowMove(RightArrowMove(sel, false, b).pos, false, b).pos;
      back.slot == sel.slot && back.count == sel.count && (sel.slot == Foundation ==> back == sel)
  {
  }

  /** In the tableau the two arrows cycle the seven columns and undo each other. */
  lemma ArrowsCycleColumns(sel: Position, picked: bool, b: BoardState)
    requires sel.slot == Tableau && 0 <= sel.index < 7
    ensures var left := LeftArrowMove(sel, picked, b).pos;
      var right := RightArrowMove(sel, picked, b).pos;
      && left.index == (sel.index + 6) % 7 && right.index == (sel.index + 1) % 7
      && RightArrowMove(left, picked, b).pos.index == sel.index
      && LeftArrowMove(right, picked, b).pos.index == sel.index
  {
  }

  /** The input handler, which reads the board and moves the shared selection. */
  class InputHandler {
    const board: SolitaireBoard
    const selection: SelectionInfo

    constructor (board: SolitaireBoard, selection: SelectionInfo)
      ensures this.board == board && this.selection == selection
    {
      this.board := board;
      this.selection := selection;
    }

    /** `HandleInput`, for the key just read. */
    method HandleInput(key: ConsoleKey, ctrl: bool) returns (state: InputState)
      requires board.Valid() && Addressable(selection.Current())
      modifies selection
      ensures selection.isCardPicked == old(selection.isCardPicked)
      ensures Outcome(selection.Current(), state)
        == HandledInput(key, ctrl, old(selection.Current()), selection.isCardPicked, board.State())
    {
      match key {
      case LeftArrow => state := HandleLeftArrow();
      case A => state := HandleLeftArrow();
      case RightArrow => state := HandleRightArrow();
      case D => state := HandleRightArrow();
      case UpArrow => state := HandleUpArrow();
      case W => state := HandleUpArrow();
      case DownArrow => state := HandleDownArrow();
      case S => state := HandleDownArrow();
      case Digit(n) =>
        if 1 <= n <= 7 {
          state := HandleNumbers(n);
        } else {
          state := None;
        }
      case NumPad(n) =>
        if 1 <= n <= 7 {
          state := HandleNumbers(n);
        } else {
          state := None;
        }
      case Enter => state := HandleEnter();
      case Spacebar => state := HandleEnter();
      case Q => state := QuitGame;
      case Escape =>
        if selection.isCardPicked {
          state := SelectionCanceled;
        } else {
          state := None;
        }
      case Z =>
        if ctrl {
          state := MoveUndone;
        } else {
          state := None;
        }
      case Tab =>
        if !selection.isCardPicked {
          selection.count := 1;
          selection.slot := Stock;
          state := SelectionMoved;
        } else {
          state := None;
        }
      case OtherKey => state := None;
      }
    }

    method HandleLeftArrow() returns (state: InputState)
      modifies selection
      ensures selection.isCardPicked == old(selection.isCardPicked)
      ensures Outcome(selection.Current(), state) == LeftArrowMove(old(selection.Current()), selection.isCardPicked, board.State())
    {
      match selection.slot {
      case Tableau =>
        if selection.index > 0 {
          selection.index := selection.index - 1;
        } else {
          selection.index := 6;
        }
        if !selection.isCardPicked {
          selection.count := 1;
        }
      case Talon =>
        if !selection.isCardPicked {
          selection.slot := Stock;
        } else {
          return None;
        }
      case Foundation =>
        if !selection.isCardPicked {
          if selection.index > 0 {
            selection.index := selection.index - 1;
          } else if selection.index == 0 && |board.talon| > 0 {
            selection.slot := Talon;
          } else if selection.index == 0 && |board.talon| == 0 {
            selection.slot := Stock;
          } else {
            return None;
          }
        } else {
          return None;
        }
      case Stock =>
        selection.slot := Foundation;
        selection.index := 3;
      }
      return SelectionMoved;
    }

    method HandleRightArrow() returns (state: InputState)
      modifies selection
      ensures selection.isCardPicked == old(selection.isCardPicked)
      ensures Outcome(selection.Current(), state) == RightArrowMove(old(selection.Current()), selection.isCardPicked, board.State())
    {
      match selection.slot {
      case Tableau =>
        if selection.index < 6 {
          selection.index := selection.index + 1;
        } else {
          selection.index := 0;
        }
        if !selection.isCardPicked {
          selection.count := 1;
        }
      case Stock =>
        if |board.talon| > 0 {
          selection.slot := Talon;
        } else {
          selection.slot := Foundation;
          selection.index := 0;
        }
      case Talon =>
        if !selection.isCardPicked {
          selection.slot := Foundation;
          selection.index := 0;
        } else {
          return None;
        }
      case Foundation =>
        if !selection.isCardPicked {
          if selection.index < 3 {
            selection.index := selection.index + 1;
          } else {
            selection.slot := Stock;
          }
        } else {
          return None;
        }
      }
      return SelectionMoved;
    }

    method HandleUpArrow() returns (state: InputState)
      requires board.Valid() && Addressable(selection.Current())
      modifies selection
      ensures selection.isCardPicked == old(selection.isCardPicked)
      ensures Outcome(selection.Current(), state) == UpArrowMove(old(selection.Current()), selection.isCardPicked, board.State())
    {
      match selection.slot {
      case Tableau =>
        var columnCards := Reversed(board.tableau[selection.index]);
        if |columnCards| > selection.count && columnCards[selection.count].faceUp && !selection.isCardPicked {
          selection.count := selection.count + 1;
        } else if !selection.isCardPicked {
          selection.slot := Stock;
          selection.count := 1;
        } else {
          return None;
        }
      case _ =>
        return None;
      }
      return SelectionMoved;
    }

    method HandleDownArrow() returns (state: InputState)
      modifies selection
      ensures selection.isCardPicked == old(selection.isCardPicked)
      ensures Outcome(selection.Current(), state) == DownArrowMove(old(selection.Current()), selection.isCardPicked)
    {
      if selection.slot != Tableau {
        selection.slot := Tableau;
        selection.index := 0;
        selection.count := 1;
      } else if selection.slot == Tableau && selection.count > 1 && !selection.isCardPicked {
        selection.count := selection.count - 1;
      } else {
        return None;
      }
      return SelectionMoved;
    }

    method HandleEnter() returns (state: InputState)
      requires board.Valid() && Addressable(selection.Current())
      ensures Outcome(selection.Current(), state) == EnterPress(selection.Current(), board.State())
    {
      match selection.slot {
      case Stock =>
        if |board.stock| > 0 || |board.talon| > 0 {
          return Click;
        }
      case Talon =>
        return Click;
      case Foundation =>
        if |board.foundations[selection.index]| != 0 {
          return Click;
        }
      case Tableau =>
        var pile := board.tableau[selection.index];
        if |pile| >= selection.count {
          return Click;
        } else {
          return None;
        }
      }
      return None;
    }

    method HandleNumbers(number: int) returns (state: InputState)
      modifies selection
      ensures selection.isCardPicked == old(selection.isCardPicked)
      ensures Outcome(selection.Current(), state) == NumberPress(old(selection.Current()), selection.isCardPicked, number)
    {
      selection.slot := Tableau;
      selection.index := number - 1;
      if !selection.isCardPicked {
        selection.count := 1;
      }
      return SelectionMoved;
    }
  }
}
