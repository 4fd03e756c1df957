/** The server (TicTacToe_server.py): the turn loop of NetworkGame.play_networked, the
    lines it sends, the accept loop that seats two players, and the console twin Game.play. */
module Server {
  import opened Text
  import opened Grid
  import opened Protocol

  datatype Player = Player(name: string, symbol: string)

  /** A connected socket, known only by its identity. */
  type Socket = nat

  /** One line handed to the client at index `to` of the clients list. */
  datatype Sent = Sent(to: nat, line: string)

  /** Whether the turn loop goes on, or why it stopped. */
  datatype Status = Continue | Won | Drawn | Aborted

  /** A player's mark: something other than " " that travels in a BOARD line unchanged. */
  predicate IsMark(s: string)
  {
    s != [] && s != Empty && PlainCell(s)
  }

  /** Every cell is " " or a mark, so each is non-empty and plain. */
  predicate WireCells(g: Cells, n: int)
    requires IsSquare(g, n)
  {
    forall r, c :: 0 <= r < n && 0 <= c < n ==> g[r][c] != [] && PlainCell(g[r][c])
  }

  const InvalidMoveText: string := "Invalid move, try again"

  /** A name a line can carry as its last field: non-empty, no separator, and no
      whitespace at its end for the receiving strip to remove. */
  predicate WireName(name: string)
  {
    name != [] && '|' !in name && !EndsInSpace(name)
  }

  /** YOUR_TURN, naming the mark and the player. */
  function YourTurnLine(p: Player): string
  {
    Frame("YOUR_TURN", p.symbol + "|" + p.name)
  }

  /** WAIT_TURN, naming the player whose turn it is. */
  function WaitTurnLine(p: Player): string
  {
    Frame("WAIT_TURN", p.name)
  }

  function InvalidMoveLine(): string
  {
    Frame("INVALID_MOVE", InvalidMoveText)
  }

  /** GAME_OVER|WIN, naming the winner. */
  function WinLine(p: Player): string
  {
    Frame("GAME_OVER", "WIN|" + p.name)
  }

  function DrawLine(): string
  {
    Frame("GAME_OVER", "DRAW")
  }

  /** The same line to each of the first m clients, in list order. */
  function ToEach(line: string, m: nat): seq<Sent>
  {
    seq(m, k requires 0 <= k < m => Sent(k, line))
  }

  /** The two lines that open every pass of the loop: YOUR_TURN to the player whose turn
      it is, WAIT_TURN (naming that player) to the other. */
  function Prompts(players: seq<Player>, turn: nat): seq<Sent>
    requires |players| == 2
  {
    [Sent(turn % 2, YourTurnLine(players[turn % 2])), Sent((turn + 1) % 2, WaitTurnLine(players[turn % 2]))]
  }

  predicate Marks(players: seq<Player>)
  {
    forall k :: 0 <= k < |players| ==> IsMark(players[k].symbol)
  }

  datatype StepResult = StepResult(grid: Cells, turn: nat, sent: seq<Sent>, status: Status)

  /** What the loop does with "MOVE|row|col" once both prompts are out: an empty cell gets
      the active mark, the new board goes to both, then the win check, then the draw check;
      any other cell gets INVALID_MOVE to the active player alone. */
  function Respond(g: Cells, n: nat, turn: nat, players: seq<Player>, row: int, col: int): (r: StepResult)
    requires IsSquare(g, n) && |players| == 2 && Marks(players)
    ensures IsSquare(r.grid, n) && KeepsMarks(g, r.grid, n) && r.status != Aborted
    ensures r.turn == turn || r.turn == turn + 1
    ensures !CanPlace(g, n, row, col) ==> r == StepResult(g, turn, [Sent(turn % 2, InvalidMoveLine())], Continue)
    ensures CanPlace(g, n, row, col) ==>
              && r.grid == Placed(g, n, row, col, players[turn % 2].symbol) && r.grid != g
              && |r.sent| >= 2 && r.sent[..2] == ToEach(BoardLine(n, r.grid), 2)
    ensures r.status == Won <==> CanPlace(g, n, row, col) && Wins(r.grid, n, players[turn % 2].symbol)
    ensures r.status == Won ==> r.sent[2..] == ToEach(WinLine(players[turn % 2]), 2)
    ensures r.status == Drawn <==> CanPlace(g, n, row, col) && !Wins(r.grid, n, players[turn % 2].symbol) && NoEmpty(r.grid, n)
    ensures r.status == Drawn ==> r.sent[2..] == ToEach(DrawLine(), 2)
    ensures r.turn == turn + 1 <==> CanPlace(g, n, row, col) && r.status == Continue
    ensures r.turn == turn + 1 ==> |r.sent| == 2
  {
    var p := players[turn % 2];
    if !CanPlace(g, n, row, col) then
      StepResult(g, turn, [Sent(turn % 2, InvalidMoveLine())], Continue)
    else
      var h := Placed(g, n, row, col, p.symbol);
      assert h[row][col] != g[row][col];
      var board := ToEach(BoardLine(n, h), 2);
      if Wins(h, n, p.symbol) then StepResult(h, turn, board + ToEach(WinLine(p), 2), Won)
      else if NoEmpty(h, n) then StepResult(h, turn, board + ToEach(DrawLine(), 2), Drawn)
      else StepResult(h, turn + 1, board, Continue)
  }

  /** One pass of play_networked's loop on what recv gave on the active player's socket. */
  function StepSpec(g: Cells, n: nat, turn: nat, players: seq<Player>, incoming: Incoming): (r: StepResult)
    requires IsSquare(g, n) && |players| == 2 && Marks(players)
    ensures IsSquare(r.grid, n) && KeepsMarks(g, r.grid, n)
    // every pass first prompts the player whose turn it is and tells the other to wait
    ensures |r.sent| >= 2 && r.sent[..2] == Prompts(players, turn)
    // the turn only moves on by one, and only when the game goes on
    ensures r.turn == turn || (r.turn == turn + 1 && r.status == Continue)
    ensures r.turn == turn + 1 ==> |r.sent| == 4
    // a failed recv or coordinates int() rejects end the loop with nothing changed
    ensures r.status == Aborted <==> incoming.Broken? || ParseMove(incoming.data).NotANumber?
    // a line that is not three fields starting with MOVE changes nothing and re-prompts
    ensures r.status == Aborted || ParseMove(incoming.data).Ignored? ==>
              r.grid == g && r.turn == turn && r.sent == Prompts(players, turn)
    ensures incoming.Received? && ParseMove(incoming.data).Ignored? ==> r.status == Continue
    ensures incoming.Received? && ParseMove(incoming.data).Move? ==>
              var t := Respond(g, n, turn, players, ParseMove(incoming.data).row, ParseMove(incoming.data).col);
              r == StepResult(t.grid, t.turn, Prompts(players, turn) + t.sent, t.status)
  {
    var prompts := Prompts(players, turn);
    assert |prompts| == 2 && prompts[..2] == prompts;
    match incoming
    case Broken => StepResult(g, turn, prompts, Aborted)
    case Received(data) =>
      match ParseMove(data)
      case Ignored => StepResult(g, turn, prompts, Continue)
      case NotANumber => StepResult(g, turn, prompts, Aborted)
      case Move(row, col) =>
        var t := Respond(g, n, turn, players, row, col);
        assert t.status != Aborted && (t.turn == turn || t.turn == turn + 1);
        assert t.turn == turn + 1 ==> t.status == Continue && |t.sent| == 2;
        assert (prompts + t.sent)[..2] == prompts;
        StepResult(t.grid, t.turn, prompts + t.sent, t.status)
  }

  /** The turn loop over the successive things recv gives, up to the pass that ends it
      (or until they run out). */
  function Run(g: Cells, n: nat, turn: nat, players: seq<Player>, inputs: seq<Incoming>): (r: StepResult)
    requires IsSquare(g, n) && |players| == 2 && Marks(players)
    ensures IsSquare(r.grid, n) && KeepsMarks(g, r.grid, n)
    ensures turn <= r.turn <= turn + |inputs|
    ensures inputs == [] ==> r == StepResult(g, turn, [], Continue)
    decreases |inputs|
  {
    if inputs == [] then StepResult(g, turn, [], Continue)
    else
      var s := StepSpec(g, n, turn, players, inputs[0]);
      if s.status != Continue then s
      else
        var rest := Run(s.grid, n, s.turn, players, inputs[1..]);
        StepResult(rest.grid, rest.turn, s.sent + rest.sent, rest.status)
  }

  /** sent is m passes of four lines each, and pass k opens with the prompts for turn + k. */
  predicate OpensEachPass(sent: seq<Sent>, players: seq<Player>, turn: nat, m: nat)
    requires |players| == 2
    decreases m
  {
    |sent| == 4 * m && (m == 0 || (sent[..2] == Prompts(players, turn) && OpensEachPass(sent[4..], players, turn + 1, m - 1)))
  }

  /** The same, read at one pass: lines 4k and 4k + 1 are the prompts for turn + k. */
  lemma {:induction false} OpensPass(sent: seq<Sent>, players: seq<Player>, turn: nat, m: nat, k: nat)
    requires |players| == 2 && OpensEachPass(sent, players, turn, m) && k < m
    ensures 4 * k + 2 <= |sent| && sent[4 * k..4 * k + 2] == Prompts(players, turn + k)
    decreases k
  {
    if k > 0 {
      OpensPass(sent[4..], players, turn + 1, m - 1, k - 1);
      assert sent[4..][4 * (k - 1)..4 * (k - 1) + 2] == sent[4 * k..4 * k + 2];
    }
  }

  /** When every pass places a mark and the game goes on, the turn alternates from the
      starting player: pass k opens by prompting player (turn + k) % 2 and telling the
      other to wait, and sends nothing else but the new board to both. */
  lemma {:induction false} AcceptedMovesAlternate(g: Cells, n: nat, turn: nat, players: seq<Player>, inputs: seq<Incoming>)
    requires IsSquare(g, n) && |players| == 2 && Marks(players)
    requires Run(g, n, turn, players, inputs).turn == turn + |inputs|
    ensures var r := Run(g, n, turn, players, inputs);
            r.status == Continue && OpensEachPass(r.sent, players, turn, |inputs|)
    decreases |inputs|
  {
    if inputs != [] {
      var s := StepSpec(g, n, turn, players, inputs[0]);
      FirstPassAccepted(g, n, turn, players, inputs);
      var rest := Run(s.grid, n, s.turn, players, inputs[1..]);
      AcceptedMovesAlternate(s.grid, n, s.turn, players, inputs[1..]);
      OpensOneMorePass(s.sent, rest.sent, players, turn, |inputs| - 1);
    }
  }

  /** A pass of four lines that opens with the prompts for turn, followed by m passes from
      the next turn on, is m + 1 passes from turn. */
  lemma OpensOneMorePass(first: seq<Sent>, sent: seq<Sent>, players: seq<Player>, turn: nat, m: nat)
    requires |players| == 2 && |first| == 4 && first[..2] == Prompts(players, turn)
    requires OpensEachPass(sent, players, turn + 1, m)
    ensures OpensEachPass(first + sent, players, turn, m + 1)
  {
    assert (first + sent)[..2] == first[..2] && (first + sent)[4..] == sent;
  }

  /** In a run whose every pass advances the turn, the first pass does, and the rest of
      the run is a run that advances the turn on every pass as well. */
  lemma FirstPassAccepted(g: Cells, n: nat, turn: nat, players: seq<Player>, inputs: seq<Incoming>)
    requires IsSquare(g, n) && |players| == 2 && Marks(players) && inputs != []
    requires Run(g, n, turn, players, inputs).turn == turn + |inputs|
    ensures var s := StepSpec(g, n, turn, players, inputs[0]);
            var rest := Run(s.grid, n, s.turn, players, inputs[1..]);
            && s.status == Continue && s.turn == turn + 1 && |s.sent| == 4
            && rest.turn == s.turn + |inputs[1..]|
            && Run(g, n, turn, players, inputs) == StepResult(rest.grid, rest.turn, s.sent + rest.sent, rest.status)
  {
    var s := StepSpec(g, n, turn, players, inputs[0]);
    assert s.status == Continue;
  }

  lemma RunUnfold(g: Cells, n: nat, turn: nat, players: seq<Player>, inputs: seq<Incoming>)
    requires IsSquare(g, n) && |players| == 2 && Marks(players) && inputs != []
    ensures var s := StepSpec(g, n, turn, players, inputs[0]);
            Run(g, n, turn, players, inputs) ==
              if s.status != Continue then s
              else
                var rest := Run(s.grid, n, s.turn, players, inputs[1..]);
                StepResult(rest.grid, rest.turn, s.sent + rest.sent, rest.status)
  {
  }

  /** What is left of a run from grid g and turn `turn`, after the lines in `sent`. */
  function Resume(sent: seq<Sent>, g: Cells, n: nat, turn: nat, players: seq<Player>, inputs: seq<Incoming>): StepResult
    requires IsSquare(g, n) && |players| == 2 && Marks(players)
  {
    var r := Run(g, n, turn, players, inputs);
    StepResult(r.grid, r.turn, sent + r.sent, r.status)
  }

  lemma ResumeStep(sent: seq<Sent>, g: Cells, n: nat, turn: nat, players: seq<Player>, inputs: seq<Incoming>)
    requires IsSquare(g, n) && |players| == 2 && Marks(players) && inputs != []
    ensures var s := StepSpec(g, n, turn, players, inputs[0]);
            Resume(sent, g, n, turn, players, inputs) ==
              if s.status != Continue then StepResult(s.grid, s.turn, sent + s.sent, s.status)
              else Resume(sent + s.sent, s.grid, n, s.turn, players, inputs[1..])
  {
    var s := StepSpec(g, n, turn, players, inputs[0]);
    var r := Run(g, n, turn, players, inputs);
    if s.status == Continue {
      var rest := Run(s.grid, n, s.turn, players, inputs[1..]);
      assert r == StepResult(rest.grid, rest.turn, s.sent + rest.sent, rest.status);
      assert sent + r.sent == (sent + s.sent) + rest.sent;
    } else {
      assert r == s;
    }
  }

  /** ResumeStep at position i of the received lines. */
  lemma ResumeAfterStep(sent: seq<Sent>, g: Cells, n: nat, turn: nat, players: seq<Player>, inputs: seq<Incoming>, i: nat)
    requires IsSquare(g, n) && |players| == 2 && Marks(players) && i < |inputs|
    ensures var s := StepSpec(g, n, turn, players, inputs[i]);
            Resume(sent, g, n, turn, players, inputs[i..]) ==
              if s.status != Continue then StepResult(s.grid, s.turn, sent + s.sent, s.status)
              else Resume(sent + s.sent, s.grid, n, s.turn, players, inputs[i + 1..])
  {
    ResumeStep(sent, g, n, turn, players, inputs[i..]);
    assert inputs[i..][0] == inputs[i] && inputs[i..][1..] == inputs[i + 1..];
  }

  /** The client reads YOUR_TURN as a request for its move. */
  lemma ClientReadsYourTurn(p: Player, knowsSelf: bool)
    requires IsMark(p.symbol) && WireName(p.name)
    ensures Dispatch(Fields(YourTurnLine(p)), knowsSelf) == Prompt
  {
    Join3("YOUR_TURN", p.symbol, p.name, '|');
    assert YourTurnLine(p) == Join(["YOUR_TURN", p.symbol, p.name], '|') + "\n";
    FieldsOfLine(["YOUR_TURN", p.symbol, p.name]);
    var parts := Fields(YourTurnLine(p));
    assert |parts| == 3 && parts[0] == "YOUR_TURN";
  }

  /** The client reads WAIT_TURN as "wait". */
  lemma ClientReadsWaitTurn(p: Player, knowsSelf: bool)
    requires WireName(p.name)
    ensures Dispatch(Fields(WaitTurnLine(p)), knowsSelf) == Wait
  {
    JoinCons("WAIT_TURN", [p.name], '|');
    assert WaitTurnLine(p) == Join(["WAIT_TURN", p.name], '|') + "\n";
    FieldsOfLine(["WAIT_TURN", p.name]);
    var parts := Fields(WaitTurnLine(p));
    assert |parts| == 2 && parts[0] == "WAIT_TURN";
  }

  /** The client reads INVALID_MOVE as a request for another move. */
  lemma ClientReadsInvalidMove(knowsSelf: bool)
    ensures Dispatch(Fields(InvalidMoveLine()), knowsSelf) == Prompt
  {
    JoinCons("INVALID_MOVE", [InvalidMoveText], '|');
    assert InvalidMoveLine() == Join(["INVALID_MOVE", InvalidMoveText], '|') + "\n";
    FieldsOfLine(["INVALID_MOVE", InvalidMoveText]);
    var parts := Fields(InvalidMoveLine());
    assert |parts| == 2 && parts[0] == "INVALID_MOVE";
  }

  /** The client ends its game on GAME_OVER|DRAW. */
  lemma ClientReadsDraw(knowsSelf: bool)
    ensures Dispatch(Fields(DrawLine()), knowsSelf) == Finish
  {
    JoinCons("GAME_OVER", ["DRAW"], '|');
    assert DrawLine() == Join(["GAME_OVER", "DRAW"], '|') + "\n";
    FieldsOfLine(["GAME_OVER", "DRAW"]);
    var parts := Fields(DrawLine());
    assert |parts| == 2 && parts[0] == "GAME_OVER" && parts[1] == "DRAW";
  }

  /** The client ends its game on GAME_OVER|WIN|name once it knows its own name; before
      PLAYER_INFO it fails on its missing player_info. */
  lemma ClientReadsWin(p: Player, knowsSelf: bool)
    requires WireName(p.name)
    ensures Dispatch(Fields(WinLine(p)), knowsSelf) == if knowsSelf then Finish else Fails
  {
    Join3("GAME_OVER", "WIN", p.name, '|');
    assert "WIN|" + p.name == "WIN" + "|" + p.name;
    Regroup("GAME_OVER" + "|", "WIN" + "|", p.name);
    assert WinLine(p) == Join(["GAME_OVER", "WIN", p.name], '|') + "\n";
    FieldsOfLine(["GAME_OVER", "WIN", p.name]);
    var parts := Fields(WinLine(p));
    assert |parts| == 3 && parts[0] == "GAME_OVER" && parts[1] == "WIN";
    assert parts[0] != "PLAYER_INFO" && parts[0] != "BOARD" && parts[0] != "YOUR_TURN";
    assert parts[0] != "WAIT_TURN" && parts[0] != "INVALID_MOVE";
  }

  /** The first index at which x occurs (Python's list.index). */
  function IndexOf(xs: seq<Socket>, x: Socket): (i: nat)
    requires x in xs
    ensures i < |xs| && xs[i] == x && forall j :: 0 <= j < i ==> xs[j] != x
  {
    if xs[0] == x then 0 else 1 + IndexOf(xs[1..], x)
  }

  class NetworkGame {
    const board: Board
    var players: seq<Player>
    var clients: seq<Socket>
    var currentTurn: nat
    /** Every line handed to a socket, in order, with the index of its client. */
    var outbox: seq<Sent>

    ghost predicate Valid()
      reads this, board
    {
      && board.Valid()
      && |players| == |clients|
      && (forall i, j :: 0 <= i < j < |clients| ==> clients[i] != clients[j])
      && Marks(players)
      && WireCells(board.grid, board.n)
    }

    /** NetworkGame(n=3) */
    constructor (n: nat := 3)
      ensures Valid() && fresh(board)
      ensures board.n == n && board.grid == Blank(n)
      ensures players == [] && clients == [] && currentTurn == 0 && outbox == []
    {
      board := new Board(n);
      players := [];
      clients := [];
      currentTurn := 0;
      outbox := [];
    }

    /** add_client: the player and its socket go at the same index of the two lists. */
    method AddClient(socket: Socket, name: string, symbol: string)
      requires Valid() && socket !in clients && IsMark(symbol)
      modifies this`players, this`clients
      ensures Valid()
      ensures players == old(players) + [Player(name, symbol)]
      ensures clients == old(clients) + [socket]
    {
      players := players + [Player(name, symbol)];
      clients := clients + [socket];
    }

    /** The line broadcast_board builds: "BOARD|n|", each row comma-joined followed by '|',
        then the trailing '|' stripped and a newline added. */
    method EncodeBoard() returns (message: string)
      requires Valid()
      ensures message == BoardLine(board.n, board.grid)
    {
      var g := board.grid;
      var boardStr := "BOARD|" + NatToString(board.n) + "|";
      JoinCons("BOARD", [NatToString(board.n)], '|');
      assert BoardFields(board.n, g[..0]) == ["BOARD", NatToString(board.n)];
      var i := 0;
      while i < |g|
        invariant 0 <= i <= |g|
        invariant boardStr == Join(BoardFields(board.n, g[..i]), '|') + "|"
      {
        assert BoardFields(board.n, g[..i + 1]) == BoardFields(board.n, g[..i]) + [Join(g[i], ',')];
        JoinSnoc(BoardFields(board.n, g[..i]), Join(g[i], ','), '|');
        boardStr := boardStr + Join(g[i], ',') + "|";
        i := i + 1;
      }
      assert g[..i] == g;
      var text := BoardText(board.n, g);
      var fs := BoardFields(board.n, g);
      if |g| > 0 {
        var last := g[|g| - 1];
        JoinEnds(last, ',');
        assert fs[|fs| - 1] == Join(last, ',');
      }
      JoinEnds(fs, '|');
      assert text[|text| - 1] != '|';
      var stripped := RStrip(boardStr, '|');
      assert boardStr[|text| - 1] == text[|text| - 1];
      assert |stripped| == |text|;
      message := stripped + "\n";
    }

    /** broadcast_board: the encoded board to every client, in list order. */
    method BroadcastBoard()
      requires Valid()
      modifies this`outbox
      ensures outbox == old(outbox) + ToEach(BoardLine(board.n, board.grid), |clients|)
    {
      var message := EncodeBoard();
      var k := 0;
      while k < |clients|
        invariant 0 <= k <= |clients|
        invariant outbox == old(outbox) + ToEach(message, k)
      {
        outbox := outbox + [Sent(k, message)];
        k := k + 1;
      }
    }

    /** send_to_client: f"{message_type}|{data}\n" to one client; an index with no client
        raises inside the try and nothing is sent. */
    method SendToClient(index: nat, messageType: string, data: string)
      modifies this`outbox
      ensures outbox == old(outbox) + if index < |clients| then [Sent(index, Frame(messageType, data))] else []
    {
      if index < |clients| {
        outbox := outbox + [Sent(index, Frame(messageType, data))];
      }
    }

    /** The GAME_OVER loops: send_to_client(clients.index(client), ...) for each client;
        the sockets are distinct, so each index is the client's own. */
    method AnnounceGameOver(data: string)
      requires Valid()
      modifies this`outbox
      ensures outbox == old(outbox) + ToEach(Frame("GAME_OVER", data), |clients|)
    {
      var k := 0;
      while k < |clients|
        invariant 0 <= k <= |clients|
        invariant outbox == old(outbox) + ToEach(Frame("GAME_OVER", data), k)
      {
        var index := IndexOf(clients, clients[k]);
        assert index == k;
        SendToClient(index, "GAME_OVER", data);
        k := k + 1;
      }
    }

    /** After a mark is placed: the board to both, then the win check, then the draw
        check, and otherwise the turn passes on. */
    method Conclude() returns (status: Status)
      requires Valid() && |players| == 2
      modifies this`currentTurn, this`outbox
      ensures var p := players[old(currentTurn) % 2];
              var sent := ToEach(BoardLine(board.n, board.grid), 2);
              if Wins(board.grid, board.n, p.symbol) then
                status == Won && currentTurn == old(currentTurn) && outbox == old(outbox) + (sent + ToEach(WinLine(p), 2))
              else if NoEmpty(board.grid, board.n) then
                status == Drawn && currentTurn == old(currentTurn) && outbox == old(outbox) + (sent + ToEach(DrawLine(), 2))
              else
                status == Continue && currentTurn == old(currentTurn) + 1 && outbox == old(outbox) + sent
    {
      var current := players[currentTurn % 2];
      ghost var sent := ToEach(BoardLine(board.n, board.grid), 2);
      BroadcastBoard();
      var won := board.CheckWin(current.symbol);
      if won {
        AnnounceGameOver("WIN|" + current.name);
        Regroup(old(outbox), sent, ToEach(WinLine(current), 2));
        return Won;
      }
      var full := board.Full();
      if full {
        AnnounceGameOver("DRAW");
        Regroup(old(outbox), sent, ToEach(DrawLine(), 2));
        return Drawn;
      }
      currentTurn := currentTurn + 1;
      return Continue;
    }

    /** The body of the loop after int() has read both coordinates. */
    method PlayMove(row: int, col: int) returns (status: Status)
      requires Valid() && |players| == 2
      modifies this`currentTurn, this`outbox, board`grid
      ensures Valid()
      ensures var r := Respond(old(board.grid), board.n, old(currentTurn), players, row, col);
              board.grid == r.grid && currentTurn == r.turn && outbox == old(outbox) + r.sent && status == r.status
    {
      var current := players[currentTurn % 2];
      var placed := board.Place(row, col, current.symbol);
      if !placed {
        SendToClient(currentTurn % 2, "INVALID_MOVE", InvalidMoveText);
        return Continue;
      }
      status := Conclude();
    }

    /** The two send_to_client calls that open each pass of the loop. */
    method SendPrompts()
      requires Valid() && |players| == 2
      modifies this`outbox
      ensures outbox == old(outbox) + Prompts(players, currentTurn)
    {
      var current := players[currentTurn % 2];
      SendToClient(currentTurn % 2, "YOUR_TURN", current.symbol + "|" + current.name);
      var otherIndex := (currentTurn + 1) % 2;
      SendToClient(otherIndex, "WAIT_TURN", current.name);
    }

    /** What the loop does with one received line once the prompts are out: a MOVE with
        two numbers is played, one whose numbers int() rejects ends the loop, anything
        else is dropped. */
    method HandleLine(raw: string) returns (status: Status)
      requires Valid() && |players| == 2
      modifies this`currentTurn, this`outbox, board`grid
      ensures Valid()
      ensures ParseMove(raw).Move? ==>
                var t := Respond(old(board.grid), board.n, old(currentTurn), players, ParseMove(raw).row, ParseMove(raw).col);
                board.grid == t.grid && currentTurn == t.turn && outbox == old(outbox) + t.sent && status == t.status
      ensures !ParseMove(raw).Move? ==>
                && board.grid == old(board.grid) && currentTurn == old(currentTurn) && outbox == old(outbox)
                && status == if ParseMove(raw).NotANumber? then Aborted else Continue
    {
      var parts := Split(Strip(raw), '|');
      assert parts == Fields(raw);
      if |parts| == 3 && parts[0] == "MOVE" {
        var row := ParseInt(parts[1]);
        var col := ParseInt(parts[2]);
        if row.None? || col.None? {
          return Aborted;
        }
        status := PlayMove(row.value, col.value);
      } else {
        status := Continue;
      }
    }

    /** One pass of play_networked's loop. */
    method Step(incoming: Incoming) returns (status: Status)
      requires Valid() && |players| == 2
      modifies this`currentTurn, this`outbox, board`grid
      ensures Valid()
      ensures var r := StepSpec(old(board.grid), board.n, old(currentTurn), players, incoming);
              board.grid == r.grid && currentTurn == r.turn && outbox == old(outbox) + r.sent && status == r.status
    {
      ghost var g, turn := board.grid, currentTurn;
      SendPrompts();
      ghost var prompted := outbox;
      match incoming {
        case Broken =>
          status := Aborted;
        case Received(raw) =>
          status := HandleLine(raw);
          if ParseMove(raw).Move? {
            ghost var t := Respond(g, board.n, turn, players, ParseMove(raw).row, ParseMove(raw).col);
            Regroup(old(outbox), Prompts(players, turn), t.sent);
          }
      }
    }

    /** play_networked: the board to both, then passes of the loop until one ends it or the
        lines run out. */
    method PlayNetworked(inputs: seq<Incoming>) returns (status: Status)
      requires Valid() && |players| == 2
      modifies this`currentTurn, this`outbox, board`grid
      ensures Valid()
      ensures var r := Run(old(board.grid), board.n, old(currentTurn), players, inputs);
              && board.grid == r.grid && currentTurn == r.turn && status == r.status
              && outbox == old(outbox) + ToEach(BoardLine(board.n, old(board.grid)), 2) + r.sent
    {
      BroadcastBoard();
      ghost var start := outbox;
      ghost var total := Run(board.grid, board.n, currentTurn, players, inputs);
      ghost var sent: seq<Sent> := [];
      status := Continue;
      var i := 0;
      assert inputs[0..] == inputs;
      while i < |inputs| && status == Continue
        invariant 0 <= i <= |inputs|
        invariant Valid() && outbox == start + sent
        invariant status == Continue ==> total == Resume(sent, board.grid, board.n, currentTurn, players, inputs[i..])
        invariant status != Continue ==> total == StepResult(board.grid, currentTurn, sent, status)
      {
        ghost var s := StepSpec(board.grid, board.n, currentTurn, players, inputs[i]);
        ResumeAfterStep(sent, board.grid, board.n, currentTurn, players, inputs, i);
        status := Step(inputs[i]);
        Regroup(start, sent, s.sent);
        sent := sent + s.sent;
        i := i + 1;
      }
      if status == Continue {
        assert inputs[i..] == [];
      }
    }
  }

  /** The accept loop of start_server: the i-th connection gets its PLAYER_INFO line and is
      added as "Player i" with mark X (first) or O (second). */
  method SeatPlayers(game: NetworkGame, sockets: seq<Socket>)
    requires game.Valid() && game.players == [] && |sockets| == 2 && sockets[0] != sockets[1]
    modifies game`players, game`clients, game`outbox
    ensures game.Valid()
    ensures game.players == [Player(PlayerName(1), PlayerSymbol(1)), Player(PlayerName(2), PlayerSymbol(2))]
    ensures game.clients == sockets
    ensures game.outbox == old(game.outbox) + [Sent(0, PlayerInfoLine(1)), Sent(1, PlayerInfoLine(2))]
  {
    var i := 0;
    while i < 2
      invariant 0 <= i <= 2 && game.Valid()
      invariant game.players == seq(i, k requires 0 <= k < i => Player(PlayerName(k + 1), PlayerSymbol(k + 1)))
      invariant game.clients == sockets[..i]
      invariant game.outbox == old(game.outbox) + seq(i, k requires 0 <= k < i => Sent(k, PlayerInfoLine(k + 1)))
    {
      var playerNum := i + 1;
      // sent on the new socket, which becomes clients[i] just below
      game.outbox := game.outbox + [Sent(i, PlayerInfoLine(playerNum))];
      game.AddClient(sockets[i], PlayerName(playerNum), PlayerSymbol(playerNum));
      i := i + 1;
    }
  }

  /** The cell a line typed at the console names, 0-based: two integers, each less one. */
  function TypedCell(line: string): (cell: Option<(int, int)>)
    ensures var ws := Words(line);
            && (cell.Some? <==> |ws| == 2 && ParseInt(ws[0]).Some? && ParseInt(ws[1]).Some?)
            && (cell.Some? ==> ParseInt(ws[0]) == Some(cell.value.0 + 1) && ParseInt(ws[1]) == Some(cell.value.1 + 1))
  {
    match TwoInts(Words(line))
    case None => None
    case Some((row, col)) => Some((row - 1, col - 1))
  }

  /** The typed lines, each read as the cell it names. */
  function Typed(lines: seq<string>): (cells: seq<Option<(int, int)>>)
    ensures |cells| == |lines|
  {
    if lines == [] then [] else [TypedCell(lines[0])] + Typed(lines[1..])
  }

  /** Line k of the input reads as the cell at index k of Typed. */
  lemma {:induction false} TypedAt(lines: seq<string>, k: nat)
    requires k < |lines|
    ensures Typed(lines)[k] == TypedCell(lines[k])
  {
    if k > 0 {
      TypedAt(lines[1..], k - 1);
    }
  }

  /** Player.move stops at a line that names an empty cell of the board. */
  predicate Acceptable(g: Cells, n: int, cell: Option<(int, int)>)
    requires IsSquare(g, n)
  {
    cell.Some? && CanPlace(g, n, cell.value.0, cell.value.1)
  }

  datatype ConsoleOutcome = Winner(index: nat) | Draw | InputExhausted

  /** The first typed cell from `from` on that Player.move stops at, or |cells| when none
      is. */
  function NextAccepted(g: Cells, n: int, cells: seq<Option<(int, int)>>, from: nat): (k: nat)
    requires IsSquare(g, n) && from <= |cells|
    ensures from <= k <= |cells|
    ensures k < |cells| ==> Acceptable(g, n, cells[k])
    ensures forall j :: from <= j < k ==> !Acceptable(g, n, cells[j])
    decreases |cells| - from
  {
    if from == |cells| then from
    else if Acceptable(g, n, cells[from]) then from
    else NextAccepted(g, n, cells, from + 1)
  }

  /** What ConsoleRun needs: a square grid, two players and a position in the typed cells. */
  predicate ConsoleArgs(g: Cells, n: int, players: seq<Player>, cells: seq<Option<(int, int)>>, i: nat)
  {
    IsSquare(g, n) && |players| == 2 && i <= |cells|
  }

  /** Player.move, reading from i on, passes over the cells before k and stops at k,
      which names the empty cell (row, col). */
  predicate AcceptedAt(g: Cells, n: int, cells: seq<Option<(int, int)>>, i: nat, k: nat, row: int, col: int)
    requires IsSquare(g, n)
  {
    && i <= k < |cells| && cells[k] == Some((row, col)) && Acceptable(g, n, cells[k])
    && forall j :: i <= j < k ==> !Acceptable(g, n, cells[j])
  }

  /** How Game.play ends: the outcome, the turn it ended on and the final grid. */
  datatype ConsoleEnd = ConsoleEnd(outcome: ConsoleOutcome, turn: nat, grid: Cells)

  /** Game.play from grid g at turn `turn`, on the typed cells from index i on: the player
      at turn % 2 moves; a line of that player's mark ends the game, else a full board ends
      it as a draw, else the turn passes on. */
  function ConsoleRun(g: Cells, n: int, turn: nat, players: seq<Player>, cells: seq<Option<(int, int)>>, i: nat): (e: ConsoleEnd)
    requires ConsoleArgs(g, n, players, cells, i)
    ensures IsSquare(e.grid, n) && turn <= e.turn
    // no mark is overwritten
    ensures KeepsMarks(g, e.grid, n)
    // a win names the mover of the last turn, whose mark has a line
    ensures e.outcome.Winner? ==> e.outcome.index == e.turn % 2 && Wins(e.grid, n, players[e.turn % 2].symbol)
    // a draw has a full board with no line of that mark
    ensures e.outcome.Draw? ==> NoEmpty(e.grid, n) && !Wins(e.grid, n, players[e.turn % 2].symbol)
    decreases |cells| - i
  {
    var k := NextAccepted(g, n, cells, i);
    if k == |cells| then ConsoleEnd(InputExhausted, turn, g)
    else
      var p := players[turn % 2];
      var h := Placed(g, n, cells[k].value.0, cells[k].value.1, p.symbol);
      PlacedKeepsMarks(g, n, cells[k].value.0, cells[k].value.1, p.symbol);
      if Wins(h, n, p.symbol) then ConsoleEnd(Winner(turn % 2), turn, h)
      else if NoEmpty(h, n) then ConsoleEnd(Draw, turn, h)
      else ConsoleRun(h, n, turn + 1, players, cells, k + 1)
  }

  /** The typed lines run out before any move exactly when none of them names an empty
      cell; the grid is then the one the game started with. */
  lemma ConsoleExhausted(g: Cells, n: int, turn: nat, players: seq<Player>, cells: seq<Option<(int, int)>>, i: nat)
    requires ConsoleArgs(g, n, players, cells, i)
    ensures (forall j :: i <= j < |cells| ==> !Acceptable(g, n, cells[j])) <==>
            ConsoleRun(g, n, turn, players, cells, i) == ConsoleEnd(InputExhausted, turn, g)
  {
    var k := NextAccepted(g, n, cells, i);
    if k < |cells| {
      ConsoleUnfold(g, n, turn, players, cells, i, k, cells[k].value.0, cells[k].value.1);
    }
  }

  /** Reading from i on, Player.move stops at the first cell it can accept. */
  lemma {:induction false} FirstAccepted(g: Cells, n: int, cells: seq<Option<(int, int)>>, i: nat, k: nat)
    requires IsSquare(g, n) && i <= k < |cells| && Acceptable(g, n, cells[k])
    requires forall j :: i <= j < k ==> !Acceptable(g, n, cells[j])
    ensures NextAccepted(g, n, cells, i) == k
    decreases k - i
  {
    if i < k {
      FirstAccepted(g, n, cells, i + 1, k);
    }
  }

  /** One move of the console game: the accepted cell gets the mover's mark, then the win
      check, then the draw check, and otherwise the next turn. */
  lemma ConsoleUnfold(g: Cells, n: int, turn: nat, players: seq<Player>, cells: seq<Option<(int, int)>>, i: nat,
                      k: nat, row: int, col: int)
    requires ConsoleArgs(g, n, players, cells, i)
    requires AcceptedAt(g, n, cells, i, k, row, col)
    ensures CanPlace(g, n, row, col)
    ensures var s := players[turn % 2].symbol;
            var h := Placed(g, n, row, col, s);
            ConsoleRun(g, n, turn, players, cells, i) ==
              if Wins(h, n, s) then ConsoleEnd(Winner(turn % 2), turn, h)
              else if NoEmpty(h, n) then ConsoleEnd(Draw, turn, h)
              else ConsoleRun(h, n, turn + 1, players, cells, k + 1)
  {
    FirstAccepted(g, n, cells, i, k);
  }

  /** The console game decides each move as the networked server does: the accepted cell
      gets the mover's mark, a win is checked before a draw, and otherwise play goes on
      from the next turn, on the grid Respond gives. */
  lemma ConsoleDecidesAsNetwork(g: Cells, n: nat, turn: nat, players: seq<Player>, cells: seq<Option<(int, int)>>, i: nat,
                                k: nat, row: int, col: int)
    requires ConsoleArgs(g, n, players, cells, i) && Marks(players)
    requires AcceptedAt(g, n, cells, i, k, row, col)
    ensures var t := Respond(g, n, turn, players, row, col);
            var e := ConsoleRun(g, n, turn, players, cells, i);
            && (t.status == Won ==> e == ConsoleEnd(Winner(turn % 2), turn, t.grid))
            && (t.status == Drawn ==> e == ConsoleEnd(Draw, turn, t.grid))
            && (t.status == Continue ==> t.turn == turn + 1 && e == ConsoleRun(t.grid, n, t.turn, players, cells, k + 1))
  {
    var s := players[turn % 2].symbol;
    var h := Placed(g, n, row, col, s);
    ConsoleUnfold(g, n, turn, players, cells, i, k, row, col);
    var t := Respond(g, n, turn, players, row, col);
    assert t.grid == h && (t.status == Won <==> Wins(h, n, s)) by {
      assert CanPlace(g, n, row, col);
    }
  }

  /** What one call of Player.move that placed a mark (reading from line i on, stopping
      before line next, turning grid g into h) tells about the rest of the console game. */
  lemma ConsoleTurn(g: Cells, h: Cells, n: int, turn: nat, players: seq<Player>, cells: seq<Option<(int, int)>>,
                    i: nat, next: nat)
    requires ConsoleArgs(g, n, players, cells, i) && i < next <= |cells|
    requires forall j :: i <= j < next - 1 ==> !Acceptable(g, n, cells[j])
    requires Acceptable(g, n, cells[next - 1])
    requires h == Placed(g, n, cells[next - 1].value.0, cells[next - 1].value.1, players[turn % 2].symbol)
    ensures IsSquare(h, n)
    ensures var s := players[turn % 2].symbol;
            ConsoleRun(g, n, turn, players, cells, i) ==
              if Wins(h, n, s) then ConsoleEnd(Winner(turn % 2), turn, h)
              else if NoEmpty(h, n) then ConsoleEnd(Draw, turn, h)
              else ConsoleRun(h, n, turn + 1, players, cells, next)
  {
    var k := next - 1;
    var cell := cells[k].value;
    assert AcceptedAt(g, n, cells, i, k, cell.0, cell.1);
    ConsoleUnfold(g, n, turn, players, cells, i, k, cell.0, cell.1);
  }

  /** The console game: two players on one terminal. */
  class Game {
    const board: Board
    const players: seq<Player>

    /** Game(n=3) */
    constructor (n: nat := 3)
      ensures fresh(board) && board.Valid() && board.n == n && board.grid == Blank(n)
      ensures players == [Player("Player 1", "X"), Player("Player 2", "O")]
    {
      board := new Board(n);
      players := [Player("Player 1", "X"), Player("Player 2", "O")];
    }

    /** Player.move: reads typed lines, from index `from` on, until one names an empty cell
        of the board; that cell gets the player's mark. */
    method Move(p: Player, lines: seq<string>, from: nat) returns (next: nat, placed: bool)
      requires board.Valid() && from <= |lines|
      modifies board`grid
      ensures board.Valid() && from <= next <= |lines|
      // every line passed over names no empty cell
      ensures forall j :: from <= j < (if placed then next - 1 else next) ==> !Acceptable(old(board.grid), board.n, Typed(lines)[j])
      // the line it stops at does, and only that cell gets the mark
      ensures placed ==> from < next && Acceptable(old(board.grid), board.n, Typed(lines)[next - 1])
                         && var cell := Typed(lines)[next - 1].value;
                            board.grid == Placed(old(board.grid), board.n, cell.0, cell.1, p.symbol)
      ensures !placed ==> next == |lines| && board.grid == old(board.grid)
    {
      ghost var cells := Typed(lines);
      next := from;
      placed := false;
      while next < |lines|
        invariant from <= next <= |lines| && board.Valid()
        invariant forall j :: from <= j < next ==> !Acceptable(old(board.grid), board.n, cells[j])
        invariant board.grid == old(board.grid)
      {
        var typed := TwoInts(Words(lines[next]));
        TypedAt(lines, next);
        if typed.Some? {
          var (row, col) := typed.value;
          assert cells[next] == TypedCell(lines[next]) == Some((row - 1, col - 1));
          placed := board.Place(row - 1, col - 1, p.symbol);
          if placed {
            next := next + 1;
            return;
          }
        }
        next := next + 1;
      }
    }

    /** Game.play: the player at turn % 2 moves; then a line of that player's mark ends the
        game, else a full board ends it as a draw, else the turn passes on. */
    method Play(lines: seq<string>) returns (outcome: ConsoleOutcome, turn: nat)
      requires board.Valid() && |players| == 2
      modifies board`grid
      ensures board.Valid()
      ensures ConsoleRun(old(board.grid), board.n, 0, players, Typed(lines), 0) == ConsoleEnd(outcome, turn, board.grid)
    {
      ghost var cells := Typed(lines);
      turn := 0;
      var i := 0;
      while true
        invariant board.Valid() && i <= |lines|
        invariant ConsoleRun(old(board.grid), board.n, 0, players, cells, 0) == ConsoleRun(board.grid, board.n, turn, players, cells, i)
        decreases |lines| - i
      {
        var current := players[turn % 2];
        ghost var before := board.grid;
        ghost var from := i;
        var placed;
        i, placed := Move(current, lines, i);
        if !placed {
          ConsoleExhausted(before, board.n, turn, players, cells, from);
          return InputExhausted, turn;
        }
        ConsoleTurn(before, board.grid, board.n, turn, players, cells, from, i);
        var won := board.CheckWin(current.symbol);
        if won {
          return Winner(turn % 2), turn;
        }
        var full := board.Full();
        if full {
          return Draw, turn;
        }
        turn := turn + 1;
      }
    }
  }

  // ---------------------------------------------------------------- whole games

  /** The players as the accept loop seats them. */
  function Seated(): (players: seq<Player>)
    ensures |players| == 2 && Marks(players)
    ensures players[0].symbol == "X" && players[1].symbol == "O"
  {
    [Player(PlayerName(1), PlayerSymbol(1)), Player(PlayerName(2), PlayerSymbol(2))]
  }

  /** Mark s goes into an empty cell of g, giving h, and the game goes on: no line of s,
      and an empty cell left. */
  predicate GoesOn(g: Cells, h: Cells, n: nat, row: int, col: int, s: string)
    requires IsSquare(g, n) && IsSquare(h, n)
  {
    CanPlace(g, n, row, col) && Placed(g, n, row, col, s) == h && !Wins(h, n, s) && !NoEmpty(h, n)
  }

  /** A line read as MOVE for a cell where the active mark goes on passes the turn on,
      after the prompts and the new board. */
  lemma AcceptedStep(g: Cells, h: Cells, n: nat, turn: nat, players: seq<Player>, data: string, row: int, col: int)
    requires IsSquare(g, n) && IsSquare(h, n) && |players| == 2 && Marks(players)
    requires ParseMove(data) == Move(row, col) && GoesOn(g, h, n, row, col, players[turn % 2].symbol)
    ensures StepSpec(g, n, turn, players, Received(data))
              == StepResult(h, turn + 1, Prompts(players, turn) + ToEach(BoardLine(n, h), 2), Continue)
  {
  }

  /** A line read as MOVE for an empty cell whose mark completes that cell's row ends the
      game: after the prompts and the new board, both clients hear of the mover's win. */
  lemma WinningStep(g: Cells, h: Cells, n: nat, turn: nat, players: seq<Player>, data: string, row: int, col: int)
    requires IsSquare(g, n) && IsSquare(h, n) && |players| == 2 && Marks(players)
    requires ParseMove(data) == Move(row, col) && CanPlace(g, n, row, col)
    requires Placed(g, n, row, col, players[turn % 2].symbol) == h && RowIs(h, n, row, players[turn % 2].symbol)
    ensures StepSpec(g, n, turn, players, Received(data))
              == StepResult(h, turn, Prompts(players, turn) + ToEach(BoardLine(n, h), 2) + ToEach(WinLine(players[turn % 2]), 2), Won)
  {
  }

  /** A run whose first line is an accepted move that lets the game go on is the prompts
      and the new board followed by the run from the next turn on the new grid. */
  lemma AcceptedRun(g: Cells, h: Cells, n: nat, turn: nat, players: seq<Player>, inputs: seq<Incoming>, row: int, col: int)
    requires IsSquare(g, n) && IsSquare(h, n) && |players| == 2 && Marks(players)
    requires |inputs| >= 1 && inputs[0].Received? && ParseMove(inputs[0].data) == Move(row, col)
    requires GoesOn(g, h, n, row, col, players[turn % 2].symbol)
    ensures var r := Run(g, n, turn, players, inputs);
            var rest := Run(h, n, turn + 1, players, inputs[1..]);
            && r.grid == rest.grid && r.turn == rest.turn && r.status == rest.status
            && r.sent == Prompts(players, turn) + ToEach(BoardLine(n, h), 2) + rest.sent
  {
    AcceptedStep(g, h, n, turn, players, inputs[0].data, row, col);
    RunUnfold(g, n, turn, players, inputs);
  }

  /** A run whose first line is a winning move stops after that line. */
  lemma WinningRun(g: Cells, h: Cells, n: nat, turn: nat, players: seq<Player>, inputs: seq<Incoming>, row: int, col: int)
    requires IsSquare(g, n) && IsSquare(h, n) && |players| == 2 && Marks(players)
    requires |inputs| >= 1 && inputs[0].Received? && ParseMove(inputs[0].data) == Move(row, col) && CanPlace(g, n, row, col)
    requires Placed(g, n, row, col, players[turn % 2].symbol) == h && RowIs(h, n, row, players[turn % 2].symbol)
    ensures Run(g, n, turn, players, inputs)
              == StepResult(h, turn, Prompts(players, turn) + ToEach(BoardLine(n, h), 2) + ToEach(WinLine(players[turn % 2]), 2), Won)
  {
    WinningStep(g, h, n, turn, players, inputs[0].data, row, col);
    RunUnfold(g, n, turn, players, inputs);
  }

  /** Dropping one more received line; the whole-game lemmas (TopRowWin, DrawEarlyMoves,
      DrawLateMoves) use it to move from one pass to the next. */
  lemma DropOne<T>(s: seq<T>, k: nat)
    requires k < |s|
    ensures s[k..][1..] == s[k + 1..]
  {
  }

  /** The last two lines of a run are those of its tail; AcceptedRunEndsAs, TopRowLastMove
      and DrawLastMove use it. */
  lemma LastTwo<T>(a: seq<T>, b: seq<T>)
    requires |b| >= 2
    ensures (a + b)[|a + b| - 2..] == b[|b| - 2..]
  {
  }

  /** How a run ends: its status, its turn and grid, and its last two lines. */
  predicate Ends(r: StepResult, status: Status, turn: nat, grid: Cells, last: seq<Sent>)
  {
    && r.status == status && r.turn == turn && r.grid == grid
    && |r.sent| >= 2 && r.sent[|r.sent| - 2..] == last
  }

  /** Two runs that end alike: same grid, turn and status, and the same last two lines. */
  predicate EndsAs(r: StepResult, rest: StepResult)
  {
    && r.grid == rest.grid && r.turn == rest.turn && r.status == rest.status
    && |r.sent| >= 2 && |rest.sent| >= 2 && r.sent[|r.sent| - 2..] == rest.sent[|rest.sent| - 2..]
  }

  /** A run whose first line is an accepted move that lets the game go on ends as the run
      after it does. */
  lemma AcceptedRunEndsAs(g: Cells, h: Cells, n: nat, turn: nat, players: seq<Player>, inputs: seq<Incoming>, row: int, col: int)
    requires IsSquare(g, n) && IsSquare(h, n) && |players| == 2 && Marks(players)
    requires |inputs| >= 1 && inputs[0].Received? && ParseMove(inputs[0].data) == Move(row, col)
    requires GoesOn(g, h, n, row, col, players[turn % 2].symbol)
    requires |Run(h, n, turn + 1, players, inputs[1..]).sent| >= 2
    ensures EndsAs(Run(g, n, turn, players, inputs), Run(h, n, turn + 1, players, inputs[1..]))
  {
    AcceptedRun(g, h, n, turn, players, inputs, row, col);
    LastTwo(Prompts(players, turn) + ToEach(BoardLine(n, h), 2), Run(h, n, turn + 1, players, inputs[1..]).sent);
  }

  /** Counting on from a turn where X moves, X and O alternate; TopRowWin, FullBoardDraw,
      DrawEarlyMoves and DrawLateMoves use it. */
  lemma EvenTurns(t: nat)
    requires t % 2 == 0
    ensures (t + 1) % 2 == 1 && (t + 2) % 2 == 0 && (t + 3) % 2 == 1 && (t + 4) % 2 == 0
    ensures (t + 5) % 2 == 1 && (t + 6) % 2 == 0 && (t + 7) % 2 == 1 && (t + 8) % 2 == 0
  {
  }

  /** The boards of the game X (0,0), O (1,1), X (0,1), O (1,0), X (0,2), one per move. */
  function TopRowBoards(): (gs: seq<Cells>)
    ensures |gs| == 6 && forall k :: 0 <= k < 6 ==> IsSquare(gs[k], 3)
  {
    [Blank(3),
     [["X", " ", " "], [" ", " ", " "], [" ", " ", " "]],
     [["X", " ", " "], [" ", "O", " "], [" ", " ", " "]],
     [["X", "X", " "], [" ", "O", " "], [" ", " ", " "]],
     [["X", "X", " "], ["O", "O", " "], [" ", " ", " "]],
     [["X", "X", "X"], ["O", "O", " "], [" ", " ", " "]]]
  }

  lemma TopRowMove1()
    ensures GoesOn(TopRowBoards()[0], TopRowBoards()[1], 3, 0, 0, "X")
  {
    var gs := TopRowBoards();
    PlacedIs(gs[0], 3, 0, 0, "X", gs[1]);
    NoLineOf(gs[1], 3, "X", [1, 0, 0], [1, 0, 0], 1, 0);
    assert gs[1][2][2] == Empty;
  }

  lemma TopRowMove2()
    ensures GoesOn(TopRowBoards()[1], TopRowBoards()[2], 3, 1, 1, "O")
  {
    var gs := TopRowBoards();
    PlacedIs(gs[1], 3, 1, 1, "O", gs[2]);
    NoLineOf(gs[2], 3, "O", [0, 0, 0], [1, 0, 0], 0, 0);
    assert gs[2][2][2] == Empty;
  }

  lemma TopRowMove3()
    ensures GoesOn(TopRowBoards()[2], TopRowBoards()[3], 3, 0, 1, "X")
  {
    var gs := TopRowBoards();
    PlacedIs(gs[2], 3, 0, 1, "X", gs[3]);
    NoLineOf(gs[3], 3, "X", [2, 0, 0], [1, 2, 0], 1, 0);
    assert gs[3][2][2] == Empty;
  }

  lemma TopRowMove4()
    ensures GoesOn(TopRowBoards()[3], TopRowBoards()[4], 3, 1, 0, "O")
  {
    var gs := TopRowBoards();
    PlacedIs(gs[3], 3, 1, 0, "O", gs[4]);
    NoLineOf(gs[4], 3, "O", [0, 2, 0], [0, 0, 0], 0, 0);
    assert gs[4][2][2] == Empty;
  }

  lemma TopRowMove5()
    ensures CanPlace(TopRowBoards()[4], 3, 0, 2) && Placed(TopRowBoards()[4], 3, 0, 2, "X") == TopRowBoards()[5]
    ensures RowIs(TopRowBoards()[5], 3, 0, "X")
  {
    var gs := TopRowBoards();
    PlacedIs(gs[4], 3, 0, 2, "X", gs[5]);
  }

  /** The first four moves of that game each let it go on, so the run ends as the rest does. */
  lemma TopRowStep1(u: nat, w: nat, inputs: seq<Incoming>)
    requires u % 2 == 0
    requires |inputs| >= 1 && inputs[0].Received? && ParseMove(inputs[0].data) == Move(0, 0)
    requires Ends(Run(TopRowBoards()[1], 3, u + 1, Seated(), inputs[1..]), Won, w, TopRowBoards()[5], ToEach(WinLine(Seated()[0]), 2))
    ensures Ends(Run(Blank(3), 3, u, Seated(), inputs), Won, w, TopRowBoards()[5], ToEach(WinLine(Seated()[0]), 2))
  {
    TopRowMove1();
    AcceptedRunEndsAs(TopRowBoards()[0], TopRowBoards()[1], 3, u, Seated(), inputs, 0, 0);
  }

  lemma TopRowStep2(u: nat, w: nat, inputs: seq<Incoming>)
    requires u % 2 == 1
    requires |inputs| >= 1 && inputs[0].Received? && ParseMove(inputs[0].data) == Move(1, 1)
    requires Ends(Run(TopRowBoards()[2], 3, u + 1, Seated(), inputs[1..]), Won, w, TopRowBoards()[5], ToEach(WinLine(Seated()[0]), 2))
    ensures Ends(Run(TopRowBoards()[1], 3, u, Seated(), inputs), Won, w, TopRowBoards()[5], ToEach(WinLine(Seated()[0]), 2))
  {
    TopRowMove2();
    AcceptedRunEndsAs(TopRowBoards()[1], TopRowBoards()[2], 3, u, Seated(), inputs, 1, 1);
  }

  lemma TopRowStep3(u: nat, w: nat, inputs: seq<Incoming>)
    requires u % 2 == 0
    requires |inputs| >= 1 && inputs[0].Received? && ParseMove(inputs[0].data) == Move(0, 1)
    requires Ends(Run(TopRowBoards()[3], 3, u + 1, Seated(), inputs[1..]), Won, w, TopRowBoards()[5], ToEach(WinLine(Seated()[0]), 2))
    ensures Ends(Run(TopRowBoards()[2], 3, u, Seated(), inputs), Won, w, TopRowBoards()[5], ToEach(WinLine(Seated()[0]), 2))
  {
    TopRowMove3();
    AcceptedRunEndsAs(TopRowBoards()[2], TopRowBoards()[3], 3, u, Seated(), inputs, 0, 1);
  }

  lemma TopRowStep4(u: nat, w: nat, inputs: seq<Incoming>)
    requires u % 2 == 1
    requires |inputs| >= 1 && inputs[0].Received? && ParseMove(inputs[0].data) == Move(1, 0)
    requires Ends(Run(TopRowBoards()[4], 3, u + 1, Seated(), inputs[1..]), Won, w, TopRowBoards()[5], ToEach(WinLine(Seated()[0]), 2))
    ensures Ends(Run(TopRowBoards()[3], 3, u, Seated(), inputs), Won, w, TopRowBoards()[5], ToEach(WinLine(Seated()[0]), 2))
  {
    TopRowMove4();
    AcceptedRunEndsAs(TopRowBoards()[3], TopRowBoards()[4], 3, u, Seated(), inputs, 1, 0);
  }

  /** The fifth move, X at (0, 2), completes the top row and ends the run with X's win. */
  lemma TopRowLastMove(u: nat, inputs: seq<Incoming>)
    requires u % 2 == 0
    requires |inputs| >= 1 && inputs[0].Received? && ParseMove(inputs[0].data) == Move(0, 2)
    ensures Ends(Run(TopRowBoards()[4], 3, u, Seated(), inputs), Won, u, TopRowBoards()[5], ToEach(WinLine(Seated()[0]), 2))
  {
    var ps := Seated();
    var gs := TopRowBoards();
    TopRowMove5();
    WinningRun(gs[4], gs[5], 3, u, ps, inputs, 0, 2);
    LastTwo(Prompts(ps, u) + ToEach(BoardLine(3, gs[5]), 2), ToEach(WinLine(ps[0]), 2));
  }

  /** The game from a blank board, at a turn where X moves (the server starts at turn 0),
      for any five lines the server reads as those moves: four passes go on, the fifth
      completes X's top row, and the run ends there with X's win announced to both clients. */
  lemma TopRowWin(t: nat, inputs: seq<Incoming>)
    requires t % 2 == 0 && |inputs| == 5
    requires inputs[0].Received? && ParseMove(inputs[0].data) == Move(0, 0)
    requires inputs[1].Received? && ParseMove(inputs[1].data) == Move(1, 1)
    requires inputs[2].Received? && ParseMove(inputs[2].data) == Move(0, 1)
    requires inputs[3].Received? && ParseMove(inputs[3].data) == Move(1, 0)
    requires inputs[4].Received? && ParseMove(inputs[4].data) == Move(0, 2)
    ensures var r := Run(Blank(3), 3, t, Seated(), inputs);
            && Ends(r, Won, t + 4, TopRowBoards()[5], ToEach(WinLine(Seated()[0]), 2))
            && RowIs(r.grid, 3, 0, "X")
  {
    var r := Run(Blank(3), 3, t, Seated(), inputs);
    assert Ends(r, Won, t + 4, TopRowBoards()[5], ToEach(WinLine(Seated()[0]), 2)) by {
      var gs, ps, won := TopRowBoards(), Seated(), ToEach(WinLine(Seated()[0]), 2);
      EvenTurns(t);
      assert Ends(Run(gs[4], 3, t + 4, ps, inputs[4..]), Won, t + 4, gs[5], won) by {
        TopRowLastMove(t + 4, inputs[4..]);
      }
      assert Ends(Run(gs[3], 3, t + 3, ps, inputs[3..]), Won, t + 4, gs[5], won) by {
        DropOne(inputs, 3);
        TopRowStep4(t + 3, t + 4, inputs[3..]);
      }
      assert Ends(Run(gs[2], 3, t + 2, ps, inputs[2..]), Won, t + 4, gs[5], won) by {
        DropOne(inputs, 2);
        TopRowStep3(t + 2, t + 4, inputs[2..]);
      }
      assert Ends(Run(gs[1], 3, t + 1, ps, inputs[1..]), Won, t + 4, gs[5], won) by {
        DropOne(inputs, 1);
        TopRowStep2(t + 1, t + 4, inputs[1..]);
      }
      TopRowStep1(t, t + 4, inputs);
    }
    TopRowMove5();
  }

  /** The same game as the clients send it: five MOVE lines. */
  lemma TopRowWinOnWire(t: nat, inputs: seq<Incoming>)
    requires t % 2 == 0 && |inputs| == 5
    requires inputs[0] == Received(MoveLine(0, 0)) && inputs[1] == Received(MoveLine(1, 1))
    requires inputs[2] == Received(MoveLine(0, 1)) && inputs[3] == Received(MoveLine(1, 0))
    requires inputs[4] == Received(MoveLine(0, 2))
    ensures Ends(Run(Blank(3), 3, t, Seated(), inputs), Won, t + 4, TopRowBoards()[5], ToEach(WinLine(Seated()[0]), 2))
  {
    MoveRoundTrip(0, 0);
    MoveRoundTrip(1, 1);
    MoveRoundTrip(0, 1);
    MoveRoundTrip(1, 0);
    MoveRoundTrip(0, 2);
    TopRowWin(t, inputs);
  }

  /** The boards of the game X (0,0), O (0,1), X (0,2), O (1,1), X (1,0), O (2,0),
      X (2,1), O (1,2), X (2,2), one per move. */
  function DrawBoards(): (gs: seq<Cells>)
    ensures |gs| == 10 && forall k :: 0 <= k < 10 ==> IsSquare(gs[k], 3)
  {
    [Blank(3),
     [["X", " ", " "], [" ", " ", " "], [" ", " ", " "]],
     [["X", "O", " "], [" ", " ", " "], [" ", " ", " "]],
     [["X", "O", "X"], [" ", " ", " "], [" ", " ", " "]],
     [["X", "O", "X"], [" ", "O", " "], [" ", " ", " "]],
     [["X", "O", "X"], ["X", "O", " "], [" ", " ", " "]],
     [["X", "O", "X"], ["X", "O", " "], ["O", " ", " "]],
     [["X", "O", "X"], ["X", "O", " "], ["O", "X", " "]],
     [["X", "O", "X"], ["X", "O", "O"], ["O", "X", " "]],
     [["X", "O", "X"], ["X", "O", "O"], ["O", "X", "X"]]]
  }

  lemma DrawMove1()
    ensures GoesOn(DrawBoards()[0], DrawBoards()[1], 3, 0, 0, "X")
  {
    var gs := DrawBoards();
    PlacedIs(gs[0], 3, 0, 0, "X", gs[1]);
    NoLineOf(gs[1], 3, "X", [1, 0, 0], [1, 0, 0], 1, 0);
    assert gs[1][2][2] == Empty;
  }

  lemma DrawMove2()
    ensures GoesOn(DrawBoards()[1], DrawBoards()[2], 3, 0, 1, "O")
  {
    var gs := DrawBoards();
    PlacedIs(gs[1], 3, 0, 1, "O", gs[2]);
    NoLineOf(gs[2], 3, "O", [0, 0, 0], [0, 1, 0], 0, 0);
    assert gs[2][2][2] == Empty;
  }

  lemma DrawMove3()
    ensures GoesOn(DrawBoards()[2], DrawBoards()[3], 3, 0, 2, "X")
  {
    var gs := DrawBoards();
    PlacedIs(gs[2], 3, 0, 2, "X", gs[3]);
    NoLineOf(gs[3], 3, "X", [1, 0, 0], [1, 0, 1], 1, 1);
    assert gs[3][2][2] == Empty;
  }

  lemma DrawMove4()
    ensures GoesOn(DrawBoards()[3], DrawBoards()[4], 3, 1, 1, "O")
  {
    var gs := DrawBoards();
    PlacedIs(gs[3], 3, 1, 1, "O", gs[4]);
    NoLineOf(gs[4], 3, "O", [0, 0, 0], [0, 2, 0], 0, 0);
    assert gs[4][2][2] == Empty;
  }

  lemma DrawMove5()
    ensures GoesOn(DrawBoards()[4], DrawBoards()[5], 3, 1, 0, "X")
  {
    var gs := DrawBoards();
    PlacedIs(gs[4], 3, 1, 0, "X", gs[5]);
    NoLineOf(gs[5], 3, "X", [1, 1, 0], [2, 0, 1], 1, 1);
    assert gs[5][2][2] == Empty;
  }

  lemma DrawMove6()
    ensures GoesOn(DrawBoards()[5], DrawBoards()[6], 3, 2, 0, "O")
  {
    var gs := DrawBoards();
    PlacedIs(gs[5], 3, 2, 0, "O", gs[6]);
    NoLineOf(gs[6], 3, "O", [0, 0, 1], [0, 2, 0], 0, 0);
    assert gs[6][2][2] == Empty;
  }

  lemma DrawMove7()
    ensures GoesOn(DrawBoards()[6], DrawBoards()[7], 3, 2, 1, "X")
  {
    var gs := DrawBoards();
    PlacedIs(gs[6], 3, 2, 1, "X", gs[7]);
    NoLineOf(gs[7], 3, "X", [1, 1, 0], [2, 0, 1], 1, 1);
    assert gs[7][2][2] == Empty;
  }

  lemma DrawMove8()
    ensures GoesOn(DrawBoards()[7], DrawBoards()[8], 3, 1, 2, "O")
  {
    var gs := DrawBoards();
    PlacedIs(gs[7], 3, 1, 2, "O", gs[8]);
    NoLineOf(gs[8], 3, "O", [0, 0, 1], [0, 2, 0], 0, 0);
    assert gs[8][2][2] == Empty;
  }

  lemma DrawMove9()
    ensures CanPlace(DrawBoards()[8], 3, 2, 2) && Placed(DrawBoards()[8], 3, 2, 2, "X") == DrawBoards()[9]
  {
    var gs := DrawBoards();
    PlacedIs(gs[8], 3, 2, 2, "X", gs[9]);
  }

  /** The last board is full and holds no line of X and no line of O. */
  lemma DrawnBoard()
    ensures NoEmpty(DrawBoards()[9], 3) && !Wins(DrawBoards()[9], 3, "X") && !Wins(DrawBoards()[9], 3, "O")
  {
    var g := DrawBoards()[9];
    assert !Wins(g, 3, "X") by {
      NoLineOf(g, 3, "X", [1, 1, 0], [2, 0, 1], 1, 1);
    }
    assert !Wins(g, 3, "O") by {
      NoLineOf(g, 3, "O", [0, 0, 1], [0, 2, 0], 0, 0);
    }
  }


  /** A line read as MOVE for the last empty cell, where the mover makes no line, ends the
      game: after the prompts and the new board, both clients hear of the draw. */
  lemma DrawingRun(g: Cells, h: Cells, n: nat, turn: nat, players: seq<Player>, inputs: seq<Incoming>, row: int, col: int)
    requires IsSquare(g, n) && IsSquare(h, n) && |players| == 2 && Marks(players)
    requires |inputs| >= 1 && inputs[0].Received? && ParseMove(inputs[0].data) == Move(row, col) && CanPlace(g, n, row, col)
    requires Placed(g, n, row, col, players[turn % 2].symbol) == h
    requires !Wins(h, n, players[turn % 2].symbol) && NoEmpty(h, n)
    ensures Run(g, n, turn, players, inputs)
              == StepResult(h, turn, Prompts(players, turn) + ToEach(BoardLine(n, h), 2) + ToEach(DrawLine(), 2), Drawn)
  {
    RunUnfold(g, n, turn, players, inputs);
  }

  /** The first eight moves of that game each let it go on, so the run ends as the rest does. */
  lemma DrawStep1(u: nat, w: nat, inputs: seq<Incoming>)
    requires u % 2 == 0
    requires |inputs| >= 1 && inputs[0].Received? && ParseMove(inputs[0].data) == Move(0, 0)
    requires Ends(Run(DrawBoards()[1], 3, u + 1, Seated(), inputs[1..]), Drawn, w, DrawBoards()[9], ToEach(DrawLine(), 2))
    ensures Ends(Run(Blank(3), 3, u, Seated(), inputs), Drawn, w, DrawBoards()[9], ToEach(DrawLine(), 2))
  {
    DrawMove1();
    AcceptedRunEndsAs(DrawBoards()[0], DrawBoards()[1], 3, u, Seated(), inputs, 0, 0);
  }

  lemma DrawStep2(u: nat, w: nat, inputs: seq<Incoming>)
    requires u % 2 == 1
    requires |inputs| >= 1 && inputs[0].Received? && ParseMove(inputs[0].data) == Move(0, 1)
    requires Ends(Run(DrawBoards()[2], 3, u + 1, Seated(), inputs[1..]), Drawn, w, DrawBoards()[9], ToEach(DrawLine(), 2))
    ensures Ends(Run(DrawBoards()[1], 3, u, Seated(), inputs), Drawn, w, DrawBoards()[9], ToEach(DrawLine(), 2))
  {
    DrawMove2();
    AcceptedRunEndsAs(DrawBoards()[1], DrawBoards()[2], 3, u, Seated(), inputs, 0, 1);
  }

  lemma DrawStep3(u: nat, w: nat, inputs: seq<Incoming>)
    requires u % 2 == 0
    requires |inputs| >= 1 && inputs[0].Received? && ParseMove(inputs[0].data) == Move(0, 2)
    requires Ends(Run(DrawBoards()[3], 3, u + 1, Seated(), inputs[1..]), Drawn, w, DrawBoards()[9], ToEach(DrawLine(), 2))
    ensures Ends(Run(DrawBoards()[2], 3, u, Seated(), inputs), Drawn, w, DrawBoards()[9], ToEach(DrawLine(), 2))
  {
    DrawMove3();
    AcceptedRunEndsAs(DrawBoards()[2], DrawBoards()[3], 3, u, Seated(), inputs, 0, 2);
  }

  lemma DrawStep4(u: nat, w: nat, inputs: seq<Incoming>)
    requires u % 2 == 1
    requires |inputs| >= 1 && inputs[0].Received? && ParseMove(inputs[0].data) == Move(1, 1)
    requires Ends(Run(DrawBoards()[4], 3, u + 1, Seated(), inputs[1..]), Drawn, w, DrawBoards()[9], ToEach(DrawLine(), 2))
    ensures Ends(Run(DrawBoards()[3], 3, u, Seated(), inputs), Drawn, w, DrawBoards()[9], ToEach(DrawLine(), 2))
  {
    DrawMove4();
    AcceptedRunEndsAs(DrawBoards()[3], DrawBoards()[4], 3, u, Seated(), inputs, 1, 1);
  }

  lemma DrawStep5(u: nat, w: nat, inputs: seq<Incoming>)
    requires u % 2 == 0
    requires |inputs| >= 1 && inputs[0].Received? && ParseMove(inputs[0].data) == Move(1, 0)
    requires Ends(Run(DrawBoards()[5], 3, u + 1, Seated(), inputs[1..]), Drawn, w, DrawBoards()[9], ToEach(DrawLine(), 2))
    ensures Ends(Run(DrawBoards()[4], 3, u, Seated(), inputs), Drawn, w, DrawBoards()[9], ToEach(DrawLine(), 2))
  {
    DrawMove5();
    AcceptedRunEndsAs(DrawBoards()[4], DrawBoards()[5], 3, u, Seated(), inputs, 1, 0);
  }

  lemma DrawStep6(u: nat, w: nat, inputs: seq<Incoming>)
    requires u % 2 == 1
    requires |inputs| >= 1 && inputs[0].Received? && ParseMove(inputs[0].data) == Move(2, 0)
    requires Ends(Run(DrawBoards()[6], 3, u + 1, Seated(), inputs[1..]), Drawn, w, DrawBoards()[9], ToEach(DrawLine(), 2))
    ensures Ends(Run(DrawBoards()[5], 3, u, Seated(), inputs), Drawn, w, DrawBoards()[9], ToEach(DrawLine(), 2))
  {
    DrawMove6();
    AcceptedRunEndsAs(DrawBoards()[5], DrawBoards()[6], 3, u, Seated(), inputs, 2, 0);
  }

  lemma DrawStep7(u: nat, w: nat, inputs: seq<Incoming>)
    requires u % 2 == 0
    requires |inputs| >= 1 && inputs[0].Received? && ParseMove(inputs[0].data) == Move(2, 1)
    requires Ends(Run(DrawBoards()[7], 3, u + 1, Seated(), inputs[1..]), Drawn, w, DrawBoards()[9], ToEach(DrawLine(), 2))
    ensures Ends(Run(DrawBoards()[6], 3, u, Seated(), inputs), Drawn, w, DrawBoards()[9], ToEach(DrawLine(), 2))
  {
    DrawMove7();
    AcceptedRunEndsAs(DrawBoards()[6], DrawBoards()[7], 3, u, Seated(), inputs, 2, 1);
  }

  lemma DrawStep8(u: nat, w: nat, inputs: seq<Incoming>)
    requires u % 2 == 1
    requires |inputs| >= 1 && inputs[0].Received? && ParseMove(inputs[0].data) == Move(1, 2)
    requires Ends(Run(DrawBoards()[8], 3, u + 1, Seated(), inputs[1..]), Drawn, w, DrawBoards()[9], ToEach(DrawLine(), 2))
    ensures Ends(Run(DrawBoards()[7], 3, u, Seated(), inputs), Drawn, w, DrawBoards()[9], ToEach(DrawLine(), 2))
  {
    DrawMove8();
    AcceptedRunEndsAs(DrawBoards()[7], DrawBoards()[8], 3, u, Seated(), inputs, 1, 2);
  }

  /** The ninth move, X at (2, 2), fills the board without a line and ends the run with
      the draw. */
  lemma DrawLastMove(u: nat, inputs: seq<Incoming>)
    requires u % 2 == 0
    requires |inputs| >= 1 && inputs[0].Received? && ParseMove(inputs[0].data) == Move(2, 2)
    ensures Ends(Run(DrawBoards()[8], 3, u, Seated(), inputs), Drawn, u, DrawBoards()[9], ToEach(DrawLine(), 2))
  {
    var ps := Seated();
    var gs := DrawBoards();
    DrawMove9();
    DrawnBoard();
    DrawingRun(gs[8], gs[9], 3, u, ps, inputs, 2, 2);
    LastTwo(Prompts(ps, u) + ToEach(BoardLine(3, gs[9]), 2), ToEach(DrawLine(), 2));
  }

  /** The last five moves of that game, from the board after four moves. */
  lemma DrawLateMoves(u: nat, inputs: seq<Incoming>)
    requires u % 2 == 0 && |inputs| == 9
    requires inputs[4].Received? && ParseMove(inputs[4].data) == Move(1, 0)
    requires inputs[5].Received? && ParseMove(inputs[5].data) == Move(2, 0)
    requires inputs[6].Received? && ParseMove(inputs[6].data) == Move(2, 1)
    requires inputs[7].Received? && ParseMove(inputs[7].data) == Move(1, 2)
    requires inputs[8].Received? && ParseMove(inputs[8].data) == Move(2, 2)
    ensures Ends(Run(DrawBoards()[4], 3, u, Seated(), inputs[4..]), Drawn, u + 4, DrawBoards()[9], ToEach(DrawLine(), 2))
  {
    var gs, ps, drawn := DrawBoards(), Seated(), ToEach(DrawLine(), 2);
    EvenTurns(u);
    assert Ends(Run(gs[8], 3, u + 4, ps, inputs[8..]), Drawn, u + 4, gs[9], drawn) by {
      DrawLastMove(u + 4, inputs[8..]);
    }
    assert Ends(Run(gs[7], 3, u + 3, ps, inputs[7..]), Drawn, u + 4, gs[9], drawn) by {
      DropOne(inputs, 7);
      DrawStep8(u + 3, u + 4, inputs[7..]);
    }
    assert Ends(Run(gs[6], 3, u + 2, ps, inputs[6..]), Drawn, u + 4, gs[9], drawn) by {
      DropOne(inputs, 6);
      DrawStep7(u + 2, u + 4, inputs[6..]);
    }
    assert Ends(Run(gs[5], 3, u + 1, ps, inputs[5..]), Drawn, u + 4, gs[9], drawn) by {
      DropOne(inputs, 5);
      DrawStep6(u + 1, u + 4, inputs[5..]);
    }
    DropOne(inputs, 4);
    DrawStep5(u, u + 4, inputs[4..]);
  }

  /** The first four moves of that game, from a blank board, end as the rest of the run. */
  lemma DrawEarlyMoves(t: nat, w: nat, inputs: seq<Incoming>)
    requires t % 2 == 0 && |inputs| == 9
    requires inputs[0].Received? && ParseMove(inputs[0].data) == Move(0, 0)
    requires inputs[1].Received? && ParseMove(inputs[1].data) == Move(0, 1)
    requires inputs[2].Received? && ParseMove(inputs[2].data) == Move(0, 2)
    requires inputs[3].Received? && ParseMove(inputs[3].data) == Move(1, 1)
    requires Ends(Run(DrawBoards()[4], 3, t + 4, Seated(), inputs[4..]), Drawn, w, DrawBoards()[9], ToEach(DrawLine(), 2))
    ensures Ends(Run(Blank(3), 3, t, Seated(), inputs), Drawn, w, DrawBoards()[9], ToEach(DrawLine(), 2))
  {
    var gs, ps, drawn := DrawBoards(), Seated(), ToEach(DrawLine(), 2);
    EvenTurns(t);
    assert Ends(Run(gs[3], 3, t + 3, ps, inputs[3..]), Drawn, w, gs[9], drawn) by {
      DropOne(inputs, 3);
      DrawStep4(t + 3, w, inputs[3..]);
    }
    assert Ends(Run(gs[2], 3, t + 2, ps, inputs[2..]), Drawn, w, gs[9], drawn) by {
      DropOne(inputs, 2);
      DrawStep3(t + 2, w, inputs[2..]);
    }
    assert Ends(Run(gs[1], 3, t + 1, ps, inputs[1..]), Drawn, w, gs[9], drawn) by {
      DropOne(inputs, 1);
      DrawStep2(t + 1, w, inputs[1..]);
    }
    DrawStep1(t, w, inputs);
  }

  /** The game that fills the board as X O X / X O O / O X X from a blank board, at a turn
      where X moves (the server starts at turn 0), for any nine lines the server reads as
      those moves: eight passes go on, the ninth fills the last cell without a line for
      either mark, and the run ends with the draw announced to both clients. */
  lemma FullBoardDraw(t: nat, inputs: seq<Incoming>)
    requires t % 2 == 0 && |inputs| == 9
    requires inputs[0].Received? && ParseMove(inputs[0].data) == Move(0, 0)
    requires inputs[1].Received? && ParseMove(inputs[1].data) == Move(0, 1)
    requires inputs[2].Received? && ParseMove(inputs[2].data) == Move(0, 2)
    requires inputs[3].Received? && ParseMove(inputs[3].data) == Move(1, 1)
    requires inputs[4].Received? && ParseMove(inputs[4].data) == Move(1, 0)
    requires inputs[5].Received? && ParseMove(inputs[5].data) == Move(2, 0)
    requires inputs[6].Received? && ParseMove(inputs[6].data) == Move(2, 1)
    requires inputs[7].Received? && ParseMove(inputs[7].data) == Move(1, 2)
    requires inputs[8].Received? && ParseMove(inputs[8].data) == Move(2, 2)
    ensures var r := Run(Blank(3), 3, t, Seated(), inputs);
            && Ends(r, Drawn, t + 8, DrawBoards()[9], ToEach(DrawLine(), 2))
            && NoEmpty(r.grid, 3) && !Wins(r.grid, 3, "X") && !Wins(r.grid, 3, "O")
  {
    var r := Run(Blank(3), 3, t, Seated(), inputs);
    assert Ends(r, Drawn, t + 8, DrawBoards()[9], ToEach(DrawLine(), 2)) by {
      EvenTurns(t);
      DrawLateMoves(t + 4, inputs);
      DrawEarlyMoves(t, t + 8, inputs);
    }
    DrawnBoard();
  }

  /** The drawn game as the clients send it: nine MOVE lines. */
  lemma FullBoardDrawOnWire(t: nat, inputs: seq<Incoming>)
    requires t % 2 == 0 && |inputs| == 9
    requires inputs[0] == Received(MoveLine(0, 0))
    requires inputs[1] == Received(MoveLine(0, 1))
    requires inputs[2] == Received(MoveLine(0, 2))
    requires inputs[3] == Received(MoveLine(1, 1))
    requires inputs[4] == Received(MoveLine(1, 0))
    requires inputs[5] == Received(MoveLine(2, 0))
    requires inputs[6] == Received(MoveLine(2, 1))
    requires inputs[7] == Received(MoveLine(1, 2))
    requires inputs[8] == Received(MoveLine(2, 2))
    ensures Ends(Run(Blank(3), 3, t, Seated(), inputs), Drawn, t + 8, DrawBoards()[9], ToEach(DrawLine(), 2))
  {
    MoveRoundTrip(0, 0);
    MoveRoundTrip(0, 1);
    MoveRoundTrip(0, 2);
    MoveRoundTrip(1, 1);
    MoveRoundTrip(1, 0);
    MoveRoundTrip(2, 0);
    MoveRoundTrip(2, 1);
    MoveRoundTrip(1, 2);
    MoveRoundTrip(2, 2);
    FullBoardDraw(t, inputs);
  }
}
