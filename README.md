# Klondike solitaire engine, modelled in Dafny

This project models the game engine of a console Klondike solitaire written
in C#. It covers:

- the cards and the 52-card deck, with its Fisher–Yates shuffle;
- the board: seven tableau columns, four foundations, the stock and the talon;
- the deal, and the deep copy used for undo;
- the two placement rules;
- the card mover and the stock manager;
- the bounded undo history;
- the selection cursor and the keyboard handler that moves it;
- the moves handler, which handles pick, live preview, verdict, commit, cancel and undo;
- one turn of the game loop, with its win test.

Each part of the model follows the form of its source:

- **Value-level parts become datatypes and functions.** Cards are values. Piles are sequences with the top card last. A board snapshot is a `BoardState` value.
- **Live objects become classes updated in place.** This covers the live board, the selection, the history, the mover, both handlers and the game. Their methods are proved against functions on values. A method promises `State() == AfterX(old(State()))`, and the lemmas about `AfterX` carry the properties.
- **Card conservation.** Every operation keeps the multiset of card identities (rank and suit) across tableau, foundations, stock and talon. Each snapshot in the history holds the same cards as the board. A whole turn keeps the moves handler's invariant (`Moves.Inv`), so no pile is ever read past its end. A game started from a shuffled deck therefore always holds the 52 cards of that deck.

Randomness is a parameter. `draws(i)` stands for `random.Next(i + 1)` at loop step `i`, and `Deck.ValidDraws` requires `draws(i) <= i`. The key read by `Console.ReadKey` is a `ConsoleKey` value, and the answer to the quit prompt is a `bool` argument.

The model keeps these unusual behaviours of the code:

- `MoveCards` pops `count` cards from whichever pile it is given, the talon included.
- `MoveToFoundation` pops the talon for any source outside the tableau.
- A recycle turns the talon face-down, lists it top first and shuffles it.
- A click on a picked run away from its origin does nothing when the last verdict was illegal.

## Model

| member | source | states |
|---|---|---|
| Cards.Card.IsRed | Cards/Card.cs:14 | red exactly for Diamond and Heart, black exactly for Spade and Club |
| Cards.Card.WithFaceUp | Cards/Card.cs:10-12 | setting the face-up flag changes neither rank nor suit, nor the card's identity |
| Cards.FoundationIndex | Cards/Enums/CardSuit.cs:8-11 | the index is `(int)Suit - 1`, which lies in 0..3 for every suit (Spade 0, Heart 3) |
| Deck.Create | Cards/Deck.cs:13-23 | 52 cards, suit-major then Ace..King, all face-down, each suit and rank at its position |
| Deck.StandardDeckDistinct | Cards/Deck.cs:18-20 | no two cards of the created deck share a suit and a rank |
| Deck.StandardDeckExactlyOnce | Cards/Deck.cs:18-20 | every suit and rank occurs exactly once, at its suit-major position |
| Deck.Swap | Cards/Deck.cs:36 | the tuple swap exchanges positions i and j and keeps every other position |
| Deck.SwapPermutes | Cards/Deck.cs:36 | a swap keeps the multiset of elements |
| Deck.ShuffledPermutes | Cards/Deck.cs:30-39 | the shuffle keeps the length and the multiset of its input |
| Deck.ShuffledKeepsIds | Cards/Deck.cs:30-39 | the shuffle keeps the multiset of card identities |
| Deck.Shuffle | Cards/Deck.cs:28-40 | Fisher–Yates on a copy: the result is the specified shuffle, a permutation of the argument, unchanged for 0 or 1 cards; every swap partner is in bounds |
| Piles.ElementAt | Game/MovesHandler.cs:175 | `ElementAt(k)` on a stack is the k-th card from the top, and index 0 is the top |
| Board.DealStart | Game/SolitaireBoard.cs:50-64 | for each column the deal's start position leaves room for the column inside the first 28 cards |
| Board.DealStartTriangular | Game/SolitaireBoard.cs:53-64 | column i starts at position i(i+1)/2, and the columns take 28 cards in all |
| Board.DealtColumn | Game/SolitaireBoard.cs:55-67 | column i holds i + 1 cards: its slice of the deck in order, with the last card on top and face-up |
| Board.Dealt | Game/SolitaireBoard.cs:19-28 | 7 columns of 1..7 cards, each with its top face-up; empty foundations and talon; the stock is `deck[28..]`; no moves yet |
| Board.DealtFaces | Game/SolitaireBoard.cs:59-61 | from a face-down deck, exactly each column's top card is face-up, and the stock is face-down |
| Board.DealtKeepsCards | Game/SolitaireBoard.cs:48-73 | the deal neither drops nor duplicates a card; the pile sizes sum to the deck size |
| Board.SolitaireBoard.constructor | Game/SolitaireBoard.cs:19-28 | the deal constructor builds exactly the dealt board |
| Board.SolitaireBoard.InitializeBoard | Game/SolitaireBoard.cs:48-73 | the nested loops fill the columns with the dealt columns and push `deck[28..]` onto the stock, leaving the rest alone |
| Board.CloneStack | Game/SolitaireBoard.cs:78-83 | the clone of a stack has the same cards in the same order with the same flags |
| Board.CloneStacks | Game/SolitaireBoard.cs:35-41 | cloning each pile of a list gives back the list |
| Board.SolitaireBoard.Clone | Game/SolitaireBoard.cs:33-46 | the copy constructor reproduces every pile and the move count |
| Selection.SelectionInfo.constructor | Renderers/SelectionInfo.cs:8-13 | slot, index and count are copied (defaults: stock, 0, 1), and a new selection is never picked |
| MovesValidator.IsCardLayable | Game/MovesValidator.cs:14-24 | on an empty column exactly a King; on a card, iff the target is face-up, one rank higher, and of the other suit parity |
| MovesValidator.DifferentColours | Game/MovesValidator.cs:21 | two cards differ in colour exactly when their suit numbers differ in parity |
| MovesValidator.OnlyKingOnEmpty | Game/MovesValidator.cs:17-18 | on an empty column, exactly a King is layable |
| MovesValidator.LayableOnCard | Game/MovesValidator.cs:20-23 | on a card: layable iff the target is face-up, one rank higher, and of the other colour |
| MovesValidator.NothingOnFaceDown | Game/MovesValidator.cs:23 | nothing may be laid on a face-down card |
| MovesValidator.PickedFlagIgnored | Game/MovesValidator.cs:14-23 | the picked card's own face-up flag does not change the verdict |
| MovesValidator.CanMoveToFoundation | Game/MovesValidator.cs:29-33 | eligible iff the suit's foundation holds rank - 1 cards: an Ace onto an empty one, a King onto 12 |
| CardMover.PopRunIds | Game/CardMover.cs:33-45 | popping the top `count` cards of the source leaves the board's cards less exactly that run |
| CardMover.PushRunIds | Game/CardMover.cs:47-49 | pushing a run onto a column adds exactly the run's cards to the board's |
| CardMover.MoveCardsKeepsCards | Game/CardMover.cs:29-50 | moving a run neither loses nor duplicates a card |
| CardMover.MoveCardsKeepsOrder | Game/CardMover.cs:31-49 | the target gains the run in its order, so the source's old top becomes the new top; the source loses it; the stock and move count stay |
| CardMover.MoveCardsTargetHoldsRun | Game/CardMover.cs:31-49 | the target column ends up with at least `count` cards, wherever the run comes from |
| CardMover.MoveCardsSameColumn | Game/CardMover.cs:29-50 | moving a run from a column onto that same column changes nothing |
| CardMover.MoveToFoundationKeepsCards | Game/CardMover.cs:14-24 | when the card is the top of its source, the move keeps every card and the foundation grows by exactly that card |
| CardMover.RevealTop | Game/CardMover.cs:57-59 | a column keeps its size, its cards below the top, and its top's identity; the top is face-up |
| CardMover.RevealKeepsCards | Game/CardMover.cs:55-60 | revealing keeps every card and every column size |
| CardMover.RevealIdempotent | Game/CardMover.cs:55-60 | revealing twice is revealing once |
| CardMover.CardMover.constructor | Game/CardMover.cs:9 | the mover works on the board it is given |
| CardMover.CardMover.MoveToFoundation | Game/CardMover.cs:14-24 | pushes the card on its suit's foundation and pops the tableau column, or the talon for any other source |
| CardMover.CardMover.PopSource | Game/CardMover.cs:37-42 | one pop returns the source's top, taken from the talon, a foundation or a column |
| CardMover.CardMover.PopRun | Game/CardMover.cs:31-45 | the first loop leaves the source without its top `count` cards and the buffer holding them reversed |
| CardMover.CardMover.PushBuffer | Game/CardMover.cs:47-49 | the second loop puts the buffer back in run order on the target column |
| CardMover.CardMover.MoveCards | Game/CardMover.cs:29-50 | the board becomes the specified move of the top `count` cards onto the target column |
| CardMover.CardMover.RevealTopCards | Game/CardMover.cs:55-60 | every non-empty column's top turns face-up, and nothing else changes |
| StockManager.DrawCount | Game/StockManager.cs:15-23 | 3 in hard mode and 1 otherwise, but never more than the stock holds |
| StockManager.Faced | Game/StockManager.cs:37-38 | the same cards in the same places, with the flag set |
| StockManager.DrawStep | Game/StockManager.cs:27-33 | one more card drawn leaves the stock one shorter and lands face-up on the talon |
| StockManager.DrawKeepsCards | Game/StockManager.cs:25-34 | a draw moves cards from the stock to the talon and loses none |
| StockManager.RecycleKeepsCards | Game/StockManager.cs:35-44 | a recycle moves the talon's cards to the stock and loses none |
| StockManager.DrawOrShuffleKeepsCards | Game/StockManager.cs:13-45 | the stock and talon together keep their cards; the tableau, foundations and move count are untouched |
| StockManager.DrawMovesCards | Game/StockManager.cs:25-33 | exactly `DrawCount` cards leave the stock top and arrive face-up on the talon; the deepest drawn card ends on top |
| StockManager.RecycleTurnsTalonOver | Game/StockManager.cs:35-44 | with an empty stock, the talon empties and the stock holds its cards, all face-down |
| StockManager.DrawOrShuffleOnEmpty | Game/StockManager.cs:22-44 | with stock and talon both empty nothing changes |
| StockManager.DrawOrShuffle | Game/StockManager.cs:13-45 | the board becomes the specified draw, or the specified recycle |
| StockManager.Draw | Game/StockManager.cs:25-34 | the pop/flip/push loop performs the specified draw of `cardsCount` cards |
| StockManager.TurnTalonFaceDown | Game/StockManager.cs:37-38 | every talon card turns face-down, in place |
| BoardsHistory.AfterAddBoard | Game/BoardsHistoryManager.cs:15-20 | one snapshot equal to the board is appended, then the move count rises by one, and the cards stay |
| BoardsHistory.AfterConfirmBoard | Game/BoardsHistoryManager.cs:25-29 | the result is a suffix of the list one shorter at most: with more than three snapshots exactly the oldest goes, otherwise nothing; at most 3 stay out of 4 |
| BoardsHistory.AfterRestoreBoard | Game/BoardsHistoryManager.cs:34-49 | empty history: nothing happens; otherwise the board becomes the newest snapshot, which leaves the history |
| BoardsHistory.UndoAfterAdd | Game/BoardsHistoryManager.cs:15-48 | add then restore gives back the board, move count included, and the history |
| BoardsHistory.UndoAfterConfirm | Game/BoardsHistoryManager.cs:15-48 | after add and confirm, a restore still brings back the board from before the move |
| BoardsHistory.HistoryStaysSmall | Game/BoardsHistoryManager.cs:15-29 | at most three snapshots before add and confirm, at most three after |
| BoardsHistory.BoardsHistoryManager.constructor | Game/BoardsHistoryManager.cs:8-10 | an empty history over the given board |
| BoardsHistory.BoardsHistoryManager.AddBoard | Game/BoardsHistoryManager.cs:15-20 | the history and board become the specified add |
| BoardsHistory.BoardsHistoryManager.ConfirmBoard | Game/BoardsHistoryManager.cs:25-29 | the history becomes the specified trim |
| BoardsHistory.BoardsHistoryManager.RestoreBoard | Game/BoardsHistoryManager.cs:34-49 | the history and board become the specified restore |
| Input.EnterPress | Game/InputHandler.cs:258-286 | Click or None, with the selection kept: on the stock iff stock or talon has cards, on the talon always, on a foundation iff it has cards, on a column iff it holds the selected count |
| Input.NumberPress | Game/InputHandler.cs:288-297 | digit n selects column n - 1, resetting the count unless a card is picked |
| Input.InputKeepsResting | Game/InputHandler.cs:88-297 | no key takes the selection off the board: count at least 1, valid column and foundation index, talon only when non-empty |
| Input.OnlyMovesChangeSelection | Game/InputHandler.cs:17-86 | only a press that reports SelectionMoved changes the selection |
| Input.PickedMovesStayInTableau | Game/InputHandler.cs:88-256 | while a card is picked, the selection only moves into the tableau and keeps its count |
| Input.InputStates | Game/InputHandler.cs:58-71 | Click iff Enter/Space on something clickable; QuitGame iff Q; MoveUndone iff Ctrl+Z; SelectionCanceled iff Escape while picked |
| Input.RightUndoesLeft | Game/InputHandler.cs:88-203 | in the upper row with nothing picked, Right after Left returns to the same pile |
| Input.LeftUndoesRight | Game/InputHandler.cs:88-203 | in the upper row with nothing picked, Left after Right returns to the same pile |
| Input.ArrowsCycleColumns | Game/InputHandler.cs:92-158 | in the tableau, Left and Right cycle the seven columns and undo each other |
| Input.InputHandler.constructor | Game/InputHandler.cs:11 | the handler works on the given board and selection |
| Input.InputHandler.HandleInput | Game/InputHandler.cs:17-86 | the selection and the answer become the specified dispatch of the key; the picked flag stays |
| Input.InputHandler.HandleLeftArrow | Game/InputHandler.cs:88-143 | the selection and answer become the specified Left move |
| Input.InputHandler.HandleRightArrow | Game/InputHandler.cs:145-203 | the selection and answer become the specified Right move |
| Input.InputHandler.HandleUpArrow | Game/InputHandler.cs:205-234 | the selection and answer become the specified Up move |
| Input.InputHandler.HandleDownArrow | Game/InputHandler.cs:236-256 | the selection and answer become the specified Down move |
| Input.InputHandler.HandleEnter | Game/InputHandler.cs:258-286 | the answer is the specified Enter press, and the selection stays |
| Input.InputHandler.HandleNumbers | Game/InputHandler.cs:288-297 | the selection and answer become the specified number press |
| Moves.PickedCard | Game/MovesHandler.cs:165-177 | the talon's top, a foundation's top, or the deepest card of the selected run in a column |
| Moves.TargetCard | Game/MovesHandler.cs:179-185 | the selected column's top, present exactly when the selection is on a non-empty column |
| Moves.AfterSelectionCanceled | Game/MovesHandler.cs:56-65 | the cursor colour returns, the newest snapshot is restored and leaves the history, and the selection goes back unpicked to the origin |
| Moves.AfterMoveUndone | Game/MovesHandler.cs:67-79 | a cancel while picked; otherwise the newest snapshot is restored and leaves the history, the count resets to 1, and every other field stays |
| Moves.Added | Game/MovesHandler.cs:118 | the pick's snapshot is appended and the move counted; the selection stays |
| Moves.Settle | Game/MovesHandler.cs:47-53 | the selection leaves an empty talon for the stock and is saved as the last selection; nothing else changes |
| Moves.ReadyCanRun | Game/MovesHandler.cs:87-98 | a press the input handler can give reads no pile past its end |
| Moves.FinishKeepsInv | Game/MovesHandler.cs:47-53 | settling a handled state restores the handler's invariant |
| Moves.RestoreKeepsCards | Game/MovesHandler.cs:56-79 | a restore keeps the cards and the history consistent, and shortens a non-empty history by one |
| Moves.CanceledHandled | Game/MovesHandler.cs:56-65 | a cancel keeps the cards and leaves a well-formed state |
| Moves.UndoneHandled | Game/MovesHandler.cs:67-79 | an undo keeps the cards and leaves a well-formed state |
| Moves.MovedHandled | Game/MovesHandler.cs:81-99 | a live-preview move keeps the cards, and the picked run stays under the selection |
| Moves.PlaceHandled | Game/MovesHandler.cs:140-158 | a click while picked keeps the cards and leaves a well-formed state |
| Moves.PickHandled | Game/MovesHandler.cs:116-138 | a first click keeps the cards and leaves a well-formed state |
| Moves.AddedConsistent | Game/MovesHandler.cs:118 | the pick's snapshot holds the board's cards, so the history stays consistent |
| Moves.ConfirmedConsistent | Game/MovesHandler.cs:128 | trimming the history keeps it consistent |
| Moves.AutoMoveKeepsCards | Game/MovesHandler.cs:123-131 | the automatic move to a foundation, with the reveal after it, keeps the cards |
| Moves.AutoMoveHandled | Game/MovesHandler.cs:123-131 | after the automatic move, the history holds at most three snapshots and stays consistent |
| Moves.DrawHandled | Game/MovesHandler.cs:103-109 | a click on the stock keeps the cards and leaves a well-formed state |
| Moves.DispatchHandled | Game/MovesHandler.cs:28-45 | every handler `Handle` dispatches to keeps the cards and leaves a well-formed state |
| Moves.HandleKeepsInv | Game/MovesHandler.cs:26-54 | `Handle` keeps the handler's invariant and every card |
| Moves.IllegalPlaceIsNoOp | Game/MovesHandler.cs:149-157 | a click away from the origin after an illegal verdict changes nothing |
| Moves.CancelUndoesPick | Game/MovesHandler.cs:114-147 | after a pick, a cancel brings back the board (move count included), the history and the selection |
| Moves.AfterSelectionMoved | Game/MovesHandler.cs:81-99 | nothing changes with nothing picked; otherwise only the verdict, the colour (Good iff legal) and the board change, and the verdict is legal at the origin |
| Moves.MoveKeepsPick | Game/MovesHandler.cs:81-99 | a live-preview move keeps the history, the origin, the pick and the selection |
| Moves.AutoMoveToFoundation | Game/MovesHandler.cs:122-131 | the single card goes on top of its foundation, the move is counted, nothing stays picked, and undo brings the board back |
| Moves.UndoAfterDraw | Game/MovesHandler.cs:103-109 | a click on the stock counts a move, and the next undo brings the board back |
| Moves.MovesHandler.constructor | Game/MovesHandler.cs:11-21 | empty history, a default last selection, default origin, no verdict, cursor colour |
| Moves.MovesHandler.Handle | Game/MovesHandler.cs:26-54 | the handler's state becomes the specified dispatch followed by the settle |
| Moves.MovesHandler.SettleSelection | Game/MovesHandler.cs:47-53 | the state becomes the specified settle |
| Moves.MovesHandler.HandleSelectionCanceled | Game/MovesHandler.cs:56-65 | the state becomes the specified cancel |
| Moves.MovesHandler.HandleMoveUndone | Game/MovesHandler.cs:67-79 | the state becomes the specified undo |
| Moves.MovesHandler.HandleSelectionMoved | Game/MovesHandler.cs:81-99 | the state becomes the specified live-preview move and verdict |
| Moves.MovesHandler.HandleClick | Game/MovesHandler.cs:101-112 | the state becomes the specified stock click, or the specified pick or place |
| Moves.MovesHandler.PickOrPlaceCard | Game/MovesHandler.cs:114-159 | the state becomes the specified pick or place |
| Moves.MovesHandler.PickCard | Game/MovesHandler.cs:116-138 | the state becomes the specified pick: the automatic move, or a pick that remembers its origin |
| Moves.MovesHandler.SendToFoundation | Game/MovesHandler.cs:126-129 | the board gets the move to the foundation, then the reveal; the history is trimmed; nothing else changes |
| Moves.MovesHandler.PlaceCard | Game/MovesHandler.cs:140-158 | the state becomes the specified place |
| Moves.MovesHandler.GetPickedCard | Game/MovesHandler.cs:165-177 | returns the specified picked card |
| Moves.MovesHandler.GetTargetCard | Game/MovesHandler.cs:179-185 | returns the specified target card |
| Game.InputMakesReady | Game/GameHandler.cs:43-57 | whatever key is pressed, the moves handler can take what the input handler reports |
| Game.PressKeepsInv | Game/GameHandler.cs:49-62 | answering a press keeps the handler's invariant and every card |
| Game.PressResults | Game/GameHandler.cs:49-62 | None is skipped; a confirmed quit gives -1; an unconfirmed quit only settles; a handled press ends the game iff it is won, with the move count |
| Game.StepKeepsInv | Game/GameHandler.cs:41-64 | every turn keeps the handler's invariant and every card |
| Game.FullFoundationsSize | Game/GameHandler.cs:66-77 | four full foundations hold 52 cards |
| Game.WonMeansEverythingOnFoundations | Game/GameHandler.cs:66-77 | in a won game of one deck, the tableau, stock and talon are empty |
| Game.Initial | Game/GameHandler.cs:21-33 | the handler starts with the dealt board, no history and nothing picked |
| Game.InitialInv | Game/GameHandler.cs:21-33 | a new game starts in the handler's invariant |
| Game.GameHandler.constructor | Game/GameHandler.cs:21-33 | the board is dealt from the shuffle of a created deck, holds its 52 cards, and the selection starts on the stock |
| Game.GameHandler.IsGameWon | Game/GameHandler.cs:66-77 | won iff all four foundations hold exactly 13 cards |
| Game.GameHandler.Respond | Game/GameHandler.cs:49-62 | the state and the result become the specified answer to the press |
| Game.GameHandler.Play | Game/GameHandler.cs:57-62 | the press is handled, and the result is the move count exactly when the game is won |
| Game.GameHandler.Step | Game/GameHandler.cs:41-64 | one turn: the state and result are the specified turn, and the invariant and the 52 cards stay |

## Left out

- Console input: `Console.ReadKey` and its modifier flags are not modelled. A turn takes the key as a `ConsoleKey` value and a Ctrl flag.
- Rendering is not modelled. This covers the renderer, the card and slot builders, the converter and the UI helpers, all of it glyph and colour output. Each `ChangeHighlightState` call becomes an assignment to the moves handler's `highlight` field, and `Render` is dropped.
- Menus, the option pickers, `Program.cs` and score persistence are not modelled. They are interactive console loops and file I/O.
- `UIHandler.ConfirmQuitGame` is a console prompt. Its answer is the `quitConfirmed` argument of a turn.
- Deck.Shuffle: the random source is the `draws` argument, so uniformity of the shuffle is not stated.
- Game.GameHandler.constructor: `GC.KeepAlive` is not modelled.
- Game.GameHandler.Step: models one iteration of `Run`'s `while (true)` loop, not the unbounded loop itself.
- Board.SolitaireBoard.InitializeBoard: the C# deal sets `IsFaceUp` on the caller's own `Card` objects. Cards here are values, so the caller's deck is unchanged and the sharing of `Card` objects between piles is not modelled.
- Board.SolitaireBoard.Clone: "the copy shares no `Card` object with the original" follows from value semantics and is not stated as an object-identity fact.
- BoardsHistory.BoardsHistoryManager.RestoreBoard: the list copies of the snapshot's stacks, and `Remove` by reference, are modelled as taking the newest snapshot's value and dropping the last entry. Each entry is a fresh object, so `Remove` finds that one.
- BoardsHistory.AfterAddBoard: does not model 32-bit wrap-around of `MovesCount`, which is an unbounded integer here.
- Input.LeftUndoesRight: states that the index comes back only on the foundations. From the stock and the talon, the path may leave a different index, which the handlers do not read there.
- Input.RightUndoesLeft: states that the index comes back everywhere but on the stock, for the same reason.
- Some source methods are split into helper methods, each proved against its own part of the specification:
  - `MoveCards` into PopSource, PopRun and PushBuffer;
  - `DrawOrShuffle` into Draw and TurnTalonFaceDown;
  - `PickOrPlaceCard` into PickCard, SendToFoundation and PlaceCard;
  - the end of `Handle` into SettleSelection;
  - `Run`'s turn into Step, Respond and Play.
