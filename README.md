# Networked tic-tac-toe: grid, turn loop, line protocol, client dispatcher

A model of a two-player tic-tac-toe game played over TCP. The system has two Python
programs, `TicTacToe_server.py` and `TicTacToe_client.py`.

The server accepts two connections and seats them as "Player 1" (mark X) and
"Player 2" (mark O). It then drives the game alone. Each pass of its loop sends
YOUR_TURN to the player whose turn it is and WAIT_TURN to the other. It then reads
one `MOVE|row|col` line from the active player. It places that player's mark,
broadcasts the new BOARD, and checks for a win, then for a draw. If neither holds, it
passes the turn on. The client reacts to each line by its first `|`-separated field.

The model has five modules:

- `Text` (text.dfy): the Python string operations the protocol relies on.
  These are `strip`, `rstrip`, `split(sep)`, `split()`, `sep.join`, `str(n)` and `int(s)`.
- `Grid` (grid.dfy): the `Board` class, which both programs define identically.
  It is a class over an n-by-n `seq<seq<string>>`, with `place` updating the grid in
  place and `check_win` and `full` as loops proved against the predicates `Wins` and
  `NoEmpty`.
- `Protocol` (protocol.dfy): how every line is built and read.
  - The line builders are `Frame`, `BoardLine`, `PlayerInfoLine` and `MoveLine`. What
    each means is stated by the lemma that reads it back: `FramedFields`,
    `BoardLineFields`, `PlayerInfoFields` and `MoveFields`.
  - The server's reading of a MOVE line is `ParseMove`.
  - The client's `make_move` check on one typed line is `MakeMove`.
  - `handle_message` as a function of the fields is `Dispatch`.
  - The round trips between these are proved as lemmas.
- `Server` (server.dfy): the turn loop.
  - The specification functions are `Respond`, `StepSpec` and `Run`.
  - The class `NetworkGame` holds the board, the parallel `players`/`clients` lists,
    `currentTurn` and an `outbox` of every line handed to a socket as
    (client index, line). Its methods `Step` and `PlayNetworked` are proved equal to
    those functions.
  - Also in this module: the accept loop (`SeatPlayers`), the console `Game`, and two
    whole games: a top-row win and the X O X / X O O / O X X draw.
- `Client` (client.dfy): `NetworkClient` with its fields `board`, `playerInfo` and
  `gameActive`. `HandleMessage` and `WaitForMessage` are proved against `Dispatch`.

The client's `Board` (TicTacToe_client.py:3-44) has the same `__init__`, `place`,
`check_win` and `full` as the server's (TicTacToe_server.py:3-42), and `Grid.Board`
models both. The two `display()` methods differ: the client's also prints a frame of
`=` signs (TicTacToe_client.py:9 and 14). What the model keeps of `display()` is common
to both: it reads `grid[r]` for every r below the board's own n, so it raises
IndexError on a grid with fewer rows (`Client.RedrawFails`). The client's console
`Player`/`Game` (TicTacToe_client.py:46-84) is the same code as the server's, and
`Server.Game` models both. `Game` and `NetworkGame` take the board size n, which
defaults to 3, as in the code.

## Behaviour of the code that the model keeps

These are places where the code does something other than what a reader of the
protocol might expect. The model follows the code.

- A MOVE line whose coordinates `int()` rejects raises inside the `try`, so the turn
  loop ends. `StepSpec` gives status `Aborted` in that case; it is not an
  INVALID_MOVE.
- A line that is not three fields starting with `MOVE` gets no reply. The loop starts
  a new pass, so both prompts are sent again. This includes the empty text that a
  closed connection yields.
- After INVALID_MOVE the next pass sends YOUR_TURN and WAIT_TURN again.
- Only the active player's socket is read, and a failed read ends the loop. The other
  player is not told that the game ended.
- The client strips the whole received text before splitting it. When the
  bottom-right cell is `" "`, that cell reaches the client as `""`
  (`Protocol.BlankCornerLost`).
- The client keeps the board it created on the first BOARD message, and with it that
  message's n. A later BOARD that carries fewer rows replaces the grid, and then
  `display()` raises IndexError. `wait_for_message` turns the error into false
  (`Client.RedrawFails`, `Client.NetworkClient.HandleMessage`).
- With n = 0, `check_win` reports a line, because the empty diagonal equals the empty
  target (`Grid.EmptyBoardHasLine`).

## Model

| member | source | states |
|---|---|---|
| Text.TrimLeft | TicTacToe_server.py:127 | the result is the suffix of the text left after the leading whitespace, and it does not start with whitespace |
| Text.TrimRight | TicTacToe_client.py:105 | the result is the prefix of the text left before the trailing whitespace, and it does not end with whitespace |
| Text.RStrip | TicTacToe_server.py:100 | rstrip on the separator removes exactly the run of trailing separator characters and keeps the prefix before it |
| Text.Split | TicTacToe_server.py:128 | split gives at least one piece, no piece holds the separator, and joining the pieces with the separator gives the text back |
| Text.Words | TicTacToe_server.py:52 | split() gives non-empty pieces without whitespace; text starting with a non-space character gives a first piece starting with that character |
| Text.WordsFirstRun | TicTacToe_server.py:52 | split() is empty exactly when the text is all whitespace; otherwise its first piece is the longest run of non-whitespace characters after the leading whitespace, and the other pieces are the split() of what follows that run |
| Text.WordsOfRun | TicTacToe_server.py:52 | the same, for text that starts with a non-space character: the first piece is the run it starts with |
| Text.WordsSkipLeading | TicTacToe_client.py:171-172 | split() ignores leading whitespace |
| Text.WordsSkipTrailing | TicTacToe_client.py:171-172 | appending whitespace to a text does not change its split() |
| Text.WordsOfStrip | TicTacToe_client.py:171-172 | move_input.strip().split() equals move_input.split() for every text |
| Text.Strip | TicTacToe_client.py:105 | strip() gives "" exactly when the text is all whitespace, and otherwise a text with no whitespace at either end; a text with none at its ends comes back unchanged |
| Text.SplitOfJoin | TicTacToe_client.py:134 | splitting a joined text on its separator gives back the pieces when none holds the separator |
| Text.StripTrailing | TicTacToe_client.py:105 | strip() on a line whose text has no whitespace at either end removes only the line terminator |
| Text.ParseInt | TicTacToe_server.py:130-131 | int() succeeds exactly on an optional sign followed by decimal digits, so never on text holding whitespace; plain digits and digits after '+' give their decimal value, and digits after '-' its negation |
| Text.TwoInts | TicTacToe_server.py:52 | unpacking map(int, words) into row, col succeeds iff there are exactly two words and int() accepts both, and gives their two values |
| Text.NatToString | TicTacToe_server.py:97 | str(n) is a non-empty string of decimal digits with no leading zero |
| Text.DigitsValueOfNatToString | TicTacToe_server.py:97 | the digits of str(n) have the value n |
| Text.ParseIntOfNatToString | TicTacToe_server.py:130-131 | int(str(n)) == n for every n >= 0 |
| Grid.Blank | TicTacToe_server.py:6 | the initial grid is n rows of n cells, each " " |
| Grid.Placed | TicTacToe_server.py:16 | writing s into (row, col) changes that cell to s and keeps every other cell |
| Grid.Board.constructor | TicTacToe_server.py:4-6 | Board(n) has size n and the blank grid, with no rows when n < 0 |
| Grid.Board.Place | TicTacToe_server.py:14-18 | place (the client's copy is the same code) returns true iff 0 <= row < n, 0 <= col < n and the cell is " "; on success only that cell becomes s, on failure the grid is unchanged |
| Grid.Board.CheckWin | TicTacToe_server.py:20-35 | check_win(s), in both programs, is true iff some row, some column, the main diagonal or the anti-diagonal is entirely s |
| Grid.Board.Full | TicTacToe_server.py:37-42 | full(), in both programs, is true iff no cell is " " |
| Grid.LineMatchesTarget | TicTacToe_server.py:23-28 | a line equals [s] * n iff each of its n cells is s |
| Grid.BlankHasNoLine | TicTacToe_server.py:20-35 | for n >= 1 and s != " ", check_win(s) is false on the blank grid |
| Grid.EmptyBoardHasLine | TicTacToe_server.py:31-32 | with n = 0 check_win reports a line for every s |
| Grid.NoLineOf | TicTacToe_server.py:20-35 | a grid with a non-s cell in every row, in every column and on both diagonals has no line of s |
| Grid.PlacedIs | TicTacToe_server.py:16 | the write gives a grid h exactly when h differs from the old grid only in that cell, which holds s |
| Grid.PlacedKeepsMarks | TicTacToe_server.py:14-18 | a successful place never overwrites a mark |
| Protocol.ParseMove | TicTacToe_server.py:127-131 | a line is ignored iff its stripped fields are not three starting with MOVE; a three-field MOVE line is NotANumber iff int() rejects a coordinate, and otherwise a move with exactly the two int() values |
| Protocol.ReadCoordinates | TicTacToe_client.py:171-172 | the typed line gives coordinates iff its split() has exactly two words that int() accepts, and they are those two values |
| Protocol.MakeMove | TicTacToe_client.py:171-179 | no MOVE line unless the line holds two integers; a MOVE line iff both, less one, are in 0..n-1; that line is exactly MOVE, row - 1 and col - 1 framed as the client sends them, and the server reads it back as exactly that 0-based cell |
| Protocol.ClientRows | TicTacToe_client.py:132-135 | the BOARD loop succeeds iff n <= 0 or the message has the fields 2 .. n + 1; it then gives max(n, 0) rows, and row k holds no ',' in any cell and joins back to parts[2 + k], so it is parts[2 + k].split(",") |
| Protocol.Dispatch | TicTacToe_client.py:115-166 | GAME_OVER ends the game iff it has its fields (and, for WIN, a winner and a known player); unknown tags are ignored; PLAYER_INFO stores (int(parts[1]), parts[2], parts[3]); BOARD stores n and the rows, or fails after creating the board when rows are missing; YOUR_TURN with three fields and INVALID_MOVE with two prompt for a move, WAIT_TURN with two waits; it fails exactly where a field is missing, int() raises or a WIN arrives before PLAYER_INFO |
| Protocol.FieldsOfLine | TicTacToe_server.py:127-128 | a line of separator-free fields with no whitespace at either end is read back as those fields |
| Protocol.MoveRoundTrip | TicTacToe_client.py:177 | the server parses make_move's MOVE line back to the same row and column |
| Protocol.MoveFields | TicTacToe_server.py:127-128 | the server's strip and split of a MOVE line the client built gives exactly MOVE and the two numbers |
| Protocol.PlayerInfoRoundTrip | TicTacToe_server.py:176 | the client stores exactly the number, mark and name the accept loop announced |
| Protocol.PlayerInfoFields | TicTacToe_server.py:176-177 | the client's strip and split of the PLAYER_INFO line gives the tag, the number, the mark and the name, in that order |
| Protocol.FramedFields | TicTacToe_server.py:107-108 | a line send_to_client frames, once the receiver strips it and splits it on the field separator, is the message type followed by the pieces of the data, when the type has no separator and no whitespace in front and the data ends in none |
| Protocol.BoardLineFields | TicTacToe_server.py:96-100 | the receiver's strip and split of the BOARD line gives exactly its fields (BOARD, str(n) and each row joined by ','), when no cell holds ',' or the field separator and the bottom-right cell does not end in whitespace |
| Protocol.BoardFieldsArePlain | TicTacToe_server.py:97-99 | with plain cells no BOARD field holds the field separator |
| Protocol.BoardRoundTrip | TicTacToe_client.py:127-136 | the BOARD text split into its fields makes the client rebuild the server's n and grid, for every n and every grid of plain cells |
| Protocol.CornerIsLast | TicTacToe_server.py:96-100 | the BOARD text starts with 'B' and ends with the bottom-right cell, preceded by a comma or the field separator |
| Protocol.BoardLineRoundTrip | TicTacToe_client.py:105 | after the client's strip the round trip still holds when the bottom-right cell does not end in whitespace |
| Protocol.BlankCornerLost | TicTacToe_client.py:105 | when the bottom-right cell is " ", the client's grid holds "" there instead, so it differs from the server's |
| Server.Respond | TicTacToe_server.py:133-148 | an occupied or off-board cell sends INVALID_MOVE to the active player alone and changes nothing else; a legal cell gets the active mark, the board goes to both, then WIN to both iff the mark has a line, else DRAW to both iff the board is full, else the turn goes up by exactly one |
| Server.StepSpec | TicTacToe_server.py:118-152 | each pass opens with YOUR_TURN to players[turn % 2] and WAIT_TURN to the other; it aborts iff the read fails or int() rejects a coordinate; a received line that is not a MOVE only re-prompts and the loop goes on; a MOVE continues as Respond; marks are never overwritten and the turn advances by at most one, only when the game goes on |
| Server.Run | TicTacToe_server.py:117-152 | the loop over the lines read keeps every mark, and the turn grows by at most one per line |
| Server.OpensPass | TicTacToe_server.py:118-124 | in a run of passes, lines 4k and 4k+1 are the prompts for turn + k |
| Server.AcceptedMovesAlternate | TicTacToe_server.py:118-146 | when every pass advances the turn, the game goes on and pass k prompts player (turn + k) % 2 and tells the other to wait: the turn alternates 0, 1, 0, 1 |
| Server.FirstPassAccepted | TicTacToe_server.py:146 | in such a run the first pass advances the turn, sends four lines, and the rest of the run does the same |
| Server.ClientReadsYourTurn | TicTacToe_server.py:121 | for any mark and any name that travel unchanged (non-empty, no field separator, no whitespace at the end), the client reads the server's YOUR_TURN line as a prompt for a move |
| Server.ClientReadsWaitTurn | TicTacToe_server.py:124 | for any such name the client reads the server's WAIT_TURN line as "wait" |
| Server.ClientReadsInvalidMove | TicTacToe_server.py:148 | the client reads INVALID_MOVE as a prompt for another move |
| Server.ClientReadsDraw | TicTacToe_server.py:143 | the client ends its game on the DRAW form of GAME_OVER |
| Server.ClientReadsWin | TicTacToe_server.py:138 | for any such winner's name the client ends its game on the WIN form of GAME_OVER, naming any player, once it knows its own name, and fails before PLAYER_INFO |
| Server.IndexOf | TicTacToe_server.py:138 | clients.index(c) is the first index holding c |
| Server.NetworkGame.constructor | TicTacToe_server.py:85-89 | a new game has a blank board of size n (3 by default), no players, no clients and turn 0 |
| Server.NetworkGame.AddClient | TicTacToe_server.py:91-94 | the player and its socket are appended at the same index of the two lists |
| Server.NetworkGame.EncodeBoard | TicTacToe_server.py:96-100 | the loop's string with its trailing separator stripped is exactly the BOARD line |
| Server.NetworkGame.BroadcastBoard | TicTacToe_server.py:96-105 | the BOARD line goes to every client in list order and nothing else is sent |
| Server.NetworkGame.SendToClient | TicTacToe_server.py:107-112 | one framed line (type, separator, data, newline) to that client; nothing for an index with no client |
| Server.NetworkGame.AnnounceGameOver | TicTacToe_server.py:137-143 | the GAME_OVER line goes to every client once, in list order, since the sockets are distinct |
| Server.NetworkGame.PlayMove | TicTacToe_server.py:133-148 | the grid, turn, outbox and status after a parsed move are those Respond gives |
| Server.NetworkGame.Conclude | TicTacToe_server.py:134-146 | after a mark is placed the board goes to both; then WIN to both and a stop iff the mover has a line, else DRAW to both and a stop iff the board is full, else the turn goes up by one |
| Server.NetworkGame.HandleLine | TicTacToe_server.py:126-152 | a MOVE line with two numbers is played exactly as Respond says; one whose numbers int() rejects ends the loop with nothing changed; any other line changes nothing and the loop goes on |
| Server.NetworkGame.SendPrompts | TicTacToe_server.py:118-124 | appends YOUR_TURN to the active player and WAIT_TURN to the other |
| Server.NetworkGame.Step | TicTacToe_server.py:117-152 | the grid, turn, outbox and status after one pass are those StepSpec gives |
| Server.NetworkGame.PlayNetworked | TicTacToe_server.py:114-152 | the initial board to both, then the passes until one ends the loop; the final state is Run's |
| Server.SeatPlayers | TicTacToe_server.py:169-179 | the i-th connection gets a PLAYER_INFO line with i, its mark and the name Player i, and is seated as "Player i" with X for the first and O for the second |
| Server.Seated | TicTacToe_server.py:173-179 | the seated players have marks X and O |
| Server.Game.constructor | TicTacToe_server.py:63-65 | the console game has a blank board of size n (3 by default) and Player 1 (X) and Player 2 (O) |
| Server.Game.Move | TicTacToe_server.py:49-60 | lines are read from `from` on until one names an empty cell in 1-based terms; every line before it names none, and only that cell gets the mark; when none does, all lines are used up and the grid is unchanged |
| Server.Game.Play | TicTacToe_server.py:67-82 | the outcome, the final turn and the final grid are exactly those ConsoleRun gives over the typed lines from turn 0 |
| Server.TypedCell | TicTacToe_server.py:52-54 | a typed line names a cell iff its split() is two words int() accepts, and the cell is those two numbers less one |
| Server.NextAccepted | TicTacToe_server.py:50-60 | from line i on, move() stops at the first line that names an empty cell, every line before it naming none; the index is the number of lines when none does |
| Server.FirstAccepted | TicTacToe_server.py:50-60 | a line that names an empty cell, with none before it from i on, is the one move() stops at |
| Server.ConsoleRun | TicTacToe_server.py:67-82 | the console game never overwrites a mark; a win names the mover of the last turn, whose mark has a line; a draw ends on a full board with no line of the mover's mark |
| Server.ConsoleExhausted | TicTacToe_server.py:50-60 | the typed lines run out before a move iff none of them from i on names an empty cell, and the grid is then the starting one |
| Server.ConsoleUnfold | TicTacToe_server.py:71-82 | the first acceptable line places the mover's mark; the game then ends as a win if that mark has a line, else as a draw if the board is full, else goes on at the next turn from the line after |
| Server.ConsoleTurn | TicTacToe_server.py:71-82 | the same step, for the grid and the position Player.move leaves behind after placing a mark |
| Server.ConsoleDecidesAsNetwork | TicTacToe_server.py:73-81 | for the same accepted cell, the console game wins, draws or goes on to the next turn on the same grid exactly as Respond decides for the networked loop (TicTacToe_server.py:133-146) |
| Server.AcceptedStep | TicTacToe_server.py:133-146 | a MOVE to a cell where the game goes on sends the prompts and the board and passes the turn on |
| Server.WinningStep | TicTacToe_server.py:133-139 | a MOVE that completes the mover's row sends the prompts, the board and WIN to both, and stops |
| Server.AcceptedRun | TicTacToe_server.py:117-146 | a run that starts with such a move is that pass followed by the run from the next turn |
| Server.WinningRun | TicTacToe_server.py:136-139 | a run that starts with a winning move stops there with WIN to both |
| Server.DrawingRun | TicTacToe_server.py:141-144 | a run whose first move fills the board without a line stops there with DRAW to both |
| Server.TopRowWin | TicTacToe_server.py:114-152 | from any even turn (the server starts at 0), moves (0,0), (1,1), (0,1), (1,0), (0,2) on the blank 3x3 board end the loop four turns later with X X X / O O " " / " " " " " ", X's top row complete, and WIN for Player 1 to both players as the last two lines |
| Server.TopRowWinOnWire | TicTacToe_server.py:114-152 | the same game, received as the five MOVE lines the client sends, ends the same way |
| Server.FullBoardDraw | TicTacToe_server.py:114-152 | from any even turn, the nine moves filling X O X / X O O / O X X end the loop eight turns later on that board, full, with no line for X or O, and DRAW to both players as the last two lines |
| Server.FullBoardDrawOnWire | TicTacToe_server.py:114-152 | the same game, received as nine MOVE lines, ends in the same draw on the same board |
| Server.DrawnBoard | TicTacToe_server.py:136-144 | the board X O X / X O O / O X X is full and has no line of X and no line of O, so the loop reports a draw and not a win |
| Client.NetworkClient.constructor | TicTacToe_client.py:87-91 | a new client has no board, no player info, and an active game |
| Client.NetworkClient.HandleMessage | TicTacToe_client.py:115-166 | returns false exactly on GAME_OVER, which alone clears gameActive; raises where a field is missing or int() fails, and when a later BOARD has fewer rows than the board's n, so that display() reads past the grid; PLAYER_INFO changes only playerInfo; the first BOARD creates Board(n), later ones replace the grid and keep the board and its n |
| Client.NetworkClient.HandleBoard | TicTacToe_client.py:127-138 | BOARD raises when n is missing or not a number, when a row field is missing, and when display() reaches past a grid shorter than the board's n; the first one creates Board(n) even when it then raises, and a complete one stores the n rows split on ',' |
| Client.NetworkClient.WaitForMessage | TicTacToe_client.py:103-113 | empty text is skipped and answers true; a failed read or a raising handler (including the IndexError display() raises) answers false, and so does GAME_OVER; anything else is handled as its stripped, split fields; the first BOARD creates Board(n) even when it then raises, and a later one keeps the board and its n |

## Left out

- Sockets: binding, listening, accepting, connecting and closing (TicTacToe_server.py:154-168 and 181-191, TicTacToe_client.py:93-101). A socket is an opaque number, and what recv yields is a parameter (`Incoming`): some text, or an exception.
- recv(1024) framing: one recv is taken to be exactly one message, as the code assumes.
- Send failures: `send` inside a bare `except: pass` is modelled as appending to the outbox; a socket error is not modelled.
- `display()`'s output and all other `print` output; of `display()` only the IndexError it raises on a grid shorter than the board's n is modelled.
- `input()`: the console `Player.move` reads from a given list of typed lines; the client's `make_move` is modelled for one already-read line (`MakeMove`), not as its retry loop, and its "Error sending move" branch is not modelled.
- The client's `play` loop (TicTacToe_client.py:189-200) and `main` (TicTacToe_client.py:202-208); `main` plays on a second `NetworkClient` that has no socket, which is not reproduced.
- The client's calls to `make_move` from the YOUR_TURN and INVALID_MOVE branches: `Dispatch` reports them as `Prompt`.
- ParseInt: accepts an optional sign followed by ASCII digits; Python's int() also accepts surrounding whitespace, '_' between digits and non-ASCII digits, so the model aborts on a few MOVE lines the code would accept.
- Server.Run: a game that never ends is modelled by the list of received lines running out.
- Server.NetworkGame.Valid: requires the marks to be non-empty and free of ',' and '|', so that a BOARD line can carry them; the code only ever uses X and O.
- Server.Game.Play: when the typed lines run out the model returns `InputExhausted`, where the program would block on input() or raise EOFError.
