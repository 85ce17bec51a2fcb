# Tic-tac-toe Telegram bot: a Dafny model of its rules engine and session store

The bot lets two Telegram users play a generalised tic-tac-toe against each
other: a board of `Height` rows and `Width` columns on which a line of
`WinLength` equal marks (down, right, down-right or up-right) wins, and a
full board without such a line is a draw. Two parts of the bot are modelled.

- **The rules engine** (`game.dfy`, module `Game`) is the `GameState` type.
  `ResetGame` lays out an all-Empty board. `MakeMove` checks and applies one
  move, runs `CheckEnd` and hands the turn over. `CheckEnd` scans the board
  in row-major order for the first cell that starts a winning line, or
  declares a draw. `ShowBoardToString` renders the board row by row.
  The class `Game.GameState` keeps the board in a two-dimensional array that
  its methods update in place. Each method is proved to implement a pure
  function on the abstract value `Snapshot`: `Reset`, `AfterCheckEnd`,
  `TryMove` or `Rendered`. The properties of the engine are lemmas about
  those functions.
- **The session store and matchmaking** (`bot.dfy`, module `Bot`) is the
  `TicTacToeBotStorage` type. It holds a map from user id to a per-user
  record, and the set of users waiting for an opponent.
  Records are Go struct values: a lookup hands out a copy, and a change to
  any field other than the board only takes effect when the copy is stored
  back (the copy shares its board with the stored record; see "## Left out"). The model therefore keeps them
  as a datatype (`Bot.UserState`), and each user's board is a `Snapshot`.
  Each player of a match has a private copy of the board. A move is made on
  the mover's copy and then replayed on the opponent's.
  The class `Bot.Storage` holds the two collections. Its methods follow the
  handlers step by step (lookup, update, store), and each is proved to
  implement a pure function of the old store:
  - `Touch`, for a lookup;
  - `SearchStep` and `AfterSearch`, for a search;
  - `EndGameSpec` and `ResignSpec`, for the end of a match;
  - `PressButton`, for a board button.

Cells are the enumeration `X | O | Empty` rather than the emoji strings of the
source. `ShowBoardToString` yields a sequence of tokens (a cell or a line
break) rather than a string.

Four choices in the code shape the model:
- resigning moves both players to EndGame without naming a winner; the
  game's end flag stays false, and since the turn gate ignores the dialogue
  state, board presses are still accepted afterwards;
- a rejected move is a plain `false`, with no reason code;
- the turn gate compares the user's mark with the mark to move and does not
  look at whether the game has ended;
- each player keeps a private copy of the board.

## Model

| member | source | states |
|---|---|---|
| Game.GameState.constructor | main.go:90-94 | a `GameState` literal with only the shape set: no board yet, turn and winner at the zero value, not ended |
| Game.ValidateParamsMeansDiagonalFits | game/tic_tac_toe.go:91-93 | for a win length of at least 1, the parameters are valid exactly when a full diagonal line from the top-left corner lies on the board |
| Game.EmptyGrid | game/tic_tac_toe.go:79-85 | the new board has `Height` rows of `Width` cells, all Empty |
| Game.ResetClearsBoard | game/tic_tac_toe.go:78-89 | after a reset the board is well formed and all Empty, holds `Height*Width` Empty cells and no winning cell; X moves next and the game is open; shape, win length and recorded winner are unchanged |
| Game.ValidateParams | game/tic_tac_toe.go:91-93 | the parameters are valid when both the width and the height are at least the win length; for a win length of at least 1, valid parameters put the far end of the main diagonal line, `(WinLength-1, WinLength-1)`, on the board |
| Game.Reset | game/tic_tac_toe.go:78-89 | the abstract effect of ResetGame: an all-Empty board of the same shape, X to move, the game open, everything else kept; its contract states that the result is well formed, X moves and the game is open |
| Game.GameState.ResetGame | game/tic_tac_toe.go:78-89 | returns true and leaves exactly the state `Reset` describes, on a newly allocated array |
| Game.FirstWinningCell | game/tic_tac_toe.go:36-51 | the row-major scan for a winning cell; any cell it returns is on the board |
| Game.FirstWinningCellSpec | game/tic_tac_toe.go:36-51 | the scan returns a winning cell exactly when one exists at or after the start, and the one it returns is the earliest in row-major order |
| Game.WinningLineFits | game/tic_tac_toe.go:39-45 | every cell of a winning line lies on the board: a line running off the edge never counts |
| Game.ShortWinLength | game/tic_tac_toe.go:39-46 | with a win length of at most 1, every occupied cell wins |
| Game.GameState.ProbeLines | game/tic_tac_toe.go:39-45 | the four flags of the inner loop are true exactly when the next `WinLength-1` cells down, right, down-right and up-right are on the board and carry the cell's mark |
| Game.AfterCheckEnd | game/tic_tac_toe.go:34-62 | CheckEnd writes only the end flag and the winner, and never reopens an ended game |
| Game.CheckEndWin | game/tic_tac_toe.go:46-51 | when a cell is the first winning cell in row-major order, the game ends and its mark, never Empty, is the winner |
| Game.CheckEndNoWin | game/tic_tac_toe.go:52-61 | with no winning cell, a full board ends the game as a draw (winner Empty), and a board with an Empty cell leaves the state unchanged |
| Game.DiagonalWinExample | game/tic_tac_toe.go:43-49 | on a 3 by 3 board with lines of 3, X on the main diagonal wins although Empty cells remain |
| Game.GameState.CheckEnd | game/tic_tac_toe.go:34-62 | the in-place scan with early exit leaves exactly the state `AfterCheckEnd` describes |
| Game.TryMove | game/tic_tac_toe.go:64-76 | a move, accepted or rejected, leaves a well-formed board |
| Game.MoveEffect | game/tic_tac_toe.go:68-75 | an accepted move writes the pre-move turn into `(i, j)` and nowhere else, keeps the shape, and flips the turn (X to O, anything else to X) even when the move ends the game; when the turn is a mark, as it always is after a reset (`Game.TurnStaysAMark`), the move uses up exactly one Empty cell |
| Game.TurnStaysAMark | game/tic_tac_toe.go:70-75 | a reset hands the turn to X, and a move from a state whose turn is a mark leaves the turn a mark, so the turn is never Empty once the board has been reset |
| Game.MoveNeverClearsCell | game/tic_tac_toe.go:64-69 | no move turns an occupied cell back into Empty |
| Game.GameState.MakeMove | game/tic_tac_toe.go:64-76 | returns false and changes nothing when the game has ended, `(i, j)` is off the board or the cell is occupied; otherwise returns true and leaves exactly the state `TryMove` describes |
| Game.RenderedShape | game/tic_tac_toe.go:95-105 | the rendering lists the cells in row-major order and holds `Height+1` line breaks |
| Game.RenderedLayout | game/tic_tac_toe.go:97-103 | position by position, for a board `Width` cells wide: row `r` takes positions `r*(Width+1)` to `r*(Width+1)+Width`, its cells in order followed by a line break, and one more line break ends the text, whose length is `Height*(Width+1)+1` |
| Game.GameState.ShowBoardToString | game/tic_tac_toe.go:95-105 | the loop's result is the rendering of the current board |
| Bot.CanMeMakeMove | main.go:49-53 | the turn gate: a user may move exactly when the user's mark is the mark to move; the dialogue state and the end flag are not consulted |
| Bot.ResetUser | main.go:62-73 | resetting a user's record leaves a well-formed board |
| Bot.NewUser | main.go:88-110 | a new user has an 8 by 8 all-Empty board with lines of 5 (valid parameters), X to move, the game open, plays X, is at Start, and has no last move (-1, -1) |
| Bot.Lookup | main.go:132-141 | the record handed out is the stored one when the id is known and a new user's otherwise; it has a well-formed board whenever all stored boards are |
| Bot.Touch | main.go:132-141 | after a lookup the id is a key holding the record handed out; a known id leaves the map unchanged, and an unknown one adds only the new user's record under that id |
| Bot.Storage.constructor | main.go:121-126 | the store starts with no users and nobody waiting |
| Bot.Storage.GetUserState | main.go:132-141 | returns the record `Lookup` gives and stores it, as `Touch` describes |
| Bot.Storage.SetUserState | main.go:143-147 | stores the record under the id and changes nothing else |
| Bot.SearchStep | main.go:164-179 | one search: with nobody waiting the requester is enqueued and `(0, false)` returned; otherwise the key the map iteration yields is looked at, the requester itself leaving the set unchanged with `(0, false)`, anybody else being removed and returned with `true` |
| Bot.SearchNeverPairsWithSelf | main.go:168-175 | a successful search returns someone other than the requester who was waiting, removes them, and does not enqueue the requester |
| Bot.SearchNotFound | main.go:169-178 | a search that finds nobody answers `(0, false)` and leaves the requester waiting, enqueued if it was not already |
| Bot.SearchKeepsAtMostOne | main.go:164-179 | if at most one user was waiting before a search, at most one is waiting after it |
| Bot.SearchDeterministic | main.go:168-175 | with at most one user waiting, the outcome does not depend on the random map order |
| Bot.SearchRepeated | main.go:169-171 | asking again while waiting leaves the set unchanged and still finds nobody |
| Bot.ThreeRequesters | main.go:164-179 | three users asking in turn: the first waits, the second is paired with the first, the third waits alone |
| Bot.Storage.SearchOpponents | main.go:164-179 | each call is one `SearchStep`, and the waiting set keeps at most one user |
| Bot.MarksFor | main.go:395-396 | the shuffled marks are X and O in some order |
| Bot.Pair | main.go:395-414 | the store after a successful pairing: the requester, then the opponent looked up afresh, enter InGame, point at each other and take the two shuffled marks; its contract states that exactly the two ids are added as keys and that the opponent ends up InGame pointing at the requester |
| Bot.PairingLinksBoth | main.go:398-414 | pairing moves both users to InGame, points each one at the other and gives them distinct marks; it touches neither board nor any other user |
| Bot.AfterSearch | main.go:382-424 | the store after a search: without an opponent only the requester is added, its record is the looked-up one with state SearchingGame, and every other record is kept; with one, the requester and the opponent are added and the opponent is InGame |
| Bot.Storage.StartSearchingOpponent | main.go:382-424 | the requester is marked as searching, one `SearchStep` is taken, and on success the two users are paired as `Pair` describes |
| Bot.EndGameSpec | main.go:279-287 | the store after makeEndGame: the user and then the user's opponent are looked up, so both ids are keys afterwards, and the opponent's state is EndGame |
| Bot.EndGameEffect | main.go:279-287 | ending a match moves the user and the user's opponent to EndGame; it changes no board, no winner and no other user |
| Bot.Storage.MakeEndGame | main.go:279-287 | leaves exactly the store `EndGameSpec` describes |
| Bot.ResignSpec | main.go:492-501 | the store after /resign (the lookup alone when the user is not InGame, the lookup followed by makeEndGame otherwise) keeps every stored id and holds the user's |
| Bot.ResignEffect | main.go:492-501 | resigning outside a match changes no record; inside a match it ends the match for both players and leaves the winner as it was |
| Bot.Storage.Resign | main.go:492-501 | leaves exactly the store `ResignSpec` describes |
| Bot.Verdicts | main.go:363-374 | the results for the mover and the opponent: one side is told of a draw exactly when the other is, and the mover wins exactly when the opponent loses |
| Bot.VerdictsCases | main.go:360-374 | both players are told "draw" exactly when the winner is Empty; otherwise the mover is told "won" exactly when the winning mark is the mover's, and the opponent gets the opposite |
| Bot.VerdictsAgree | main.go:360-374 | the opponent's result is the one the opponent would work out from its own mark |
| Bot.ButtonData | main.go:81 | the callback data of button `(i, j)` is `i*Width+j` |
| Bot.ButtonDataDistinct | main.go:75-86 | on a keyboard of `Height` rows of `Width` buttons, the data `i*Width+j` are distinct for distinct buttons and lie in `[0, Width*Height)` |
| Bot.ResetSynced | main.go:62-73 | two boards of the same shape are in step after a reset, whatever they held before |
| Bot.ScanReadsBoardOnly | game/tic_tac_toe.go:36-51 | the winning scan depends only on the board, its shape and the win length |
| Bot.ReplayKeepsSync | main.go:316-334 | replaying a move on an opponent's copy that is in step with the mover's accepts or rejects it on both, and leaves the copies in step, including the winner when the move ends the game |
| Bot.PressButton | main.go:302-380 | the store after a board button press holds the presser and keeps every board well formed, and results are only announced for an accepted move |
| Bot.Replay | main.go:330-354 | after an accepted move the mover's and the opponent's ids are both keys, the mover's record is the mover's copy, the opponent's record holds `(i, j)` as its last seen move, and every other record is kept |
| Bot.ButtonAcceptance | main.go:304-325 | a press is accepted exactly when it is the presser's turn and the move is legal on the presser's copy, whatever the dialogue state; a refused press changes no record; results are announced exactly when the accepted move ended the game, and they are the ones `Verdicts` gives |
| Bot.ButtonKeepsCopiesInStep | main.go:316-376 | after an accepted press the mover's copy holds the move, the two copies are still in step, the turn has passed to the other mark, and the opponent's last move is `(i, j)`; the two players keep their marks and links and change state only to EndGame when the move ended the game, the opponent's copy is its own copy with the move replayed, and every other record is kept |
| Bot.TurnPassesToOpponent | main.go:307-334 | in a match where the marks are X and O, after an accepted press the presser may not move and the opponent may |
| Bot.Storage.HandleButton | main.go:302-380 | leaves exactly the store `PressButton` describes, and returns whether the move was accepted and the results announced |
| Bot.Storage.PressYes | main.go:461-472 | resets the user's board and last move; a user at Start or EndGame then starts a search, and any other user's store entry is only the reset |

## Left out

- Telegram I/O is not modelled: sending, editing and deleting messages, the message texts, `BadMoveMessages`, `LastBotMsg` and `LastBotText`. Every send is taken to succeed, so the `log.Fatal` and early-return paths on a failed send are absent. Where `SendEditable` stores the user's record again, the model stores it too.
- The `User` field and `RegisterUser`'s filling of it are not modelled. Its store effect is the same as a lookup, and `Bot.Storage.Resign` uses `GetUserState` for it.
- The "no" button and the `/hello`, `/start` and `/help` handlers are not modelled. Apart from storing the record through a lookup, they only send messages.
- Keyboard customisation is not modelled: `Customization`, `Selector`, the button texts set in `UserState.ResetGame` and the last-move highlighting. Of `constructSelectorBoard` only the button data `i*width+j` is kept.
- Persistence (`Save`, `Load`, `Marshal`, `Unmarshal`) is file I/O and is not modelled. The store starts empty, never from a saved file.
- Locks: each storage method is one atomic step; concurrent handlers are not modelled.
- Randomness: `rand.Seed` is left out, and the shuffle of the two marks is the parameter `coin`.
- Map order: Go's random map iteration in `searchOpponents` is a nondeterministic choice of key.
- The console mode (game/tic_tac_toe.go:107-161) is stdin/stdout and is not modelled.
- The `State` field of `GameState` is not modelled, since neither the engine nor the bot reads or writes it.
- The turn of a `GameState` is Go's zero value `""` until its first reset, and its winner stays `""` until a game first ends. The model writes both as Empty. No handler reads the turn before a reset, and the winner is read only once the game has ended, when `CheckEnd` has written it.
- Game.GameState.ResetGame: requires `Width >= 0` and `Height >= 0`. Go panics on a negative height, and on a negative width when the height is positive; with height 0 and a negative width it succeeds. The model requires both to be non-negative.
- Game.GameState.ProbeLines: the inner `k` loop of `CheckEnd` is a method of its own, called by `CheckEnd`. It is the same loop.
- Aliasing is not modelled. In Go, the copy from `getUserState` shares its board slices with the stored record, so a move on the copy is visible in the map before the copy is stored back. The bot stores the copy back on every path, so the model treats records as values, and boards inside records move by `TryMove`, which `Game.GameState.MakeMove` is proved to implement.
- Bot.Storage.SetUserState: requires the stored board to be well formed. Every caller stores such a board, and the store's invariant (at most one waiting user, every board well formed) rests on it.
- Ids are Go `int64` and board indices Go `int`. Both are modelled as unbounded integers; nothing in the modelled code comes near overflow.
