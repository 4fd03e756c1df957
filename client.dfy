/** The client (TicTacToe_client.py): how NetworkClient's fields change with each message
    from the server (handle_message), and wait_for_message around it. */
module Client {
  import opened Text
  import opened Grid
  import opened Protocol

  /** How handle_message ends: it returns a value, or it raises. */
  datatype Handled = Returned(keep: bool) | Raised

  /** The value wait_for_message hands back once handle_message has run on a reaction:
      false when the message raised or ended the game. */
  predicate Keeps(r: Reaction)
  {
    !(r.Fails? || r.BoardRowsMissing? || r.Finish?)
  }

  /** The client's display() prints rows 0 .. n - 1 of the grid, n being the board's own
      size, which the first BOARD fixed: a later BOARD with fewer rows than that makes it
      raise IndexError, after the grid has been replaced. */
  predicate RedrawFails(r: Reaction, shown: Board?)
  {
    r.StoreBoard? && shown != null && |r.rows| < shown.n
  }

  class NetworkClient {
    var board: Board?
    var playerInfo: Option<PlayerInfo>
    var gameActive: bool

    constructor ()
      ensures board == null && playerInfo == None && gameActive
    {
      board := null;
      playerInfo := None;
      gameActive := true;
    }

    /** handle_message on the fields of one message. */
    method HandleMessage(parts: seq<string>) returns (h: Handled)
      modifies this, board
      ensures var r := Dispatch(parts, old(playerInfo).Some?);
              && h == (if r.Fails? || r.BoardRowsMissing? || RedrawFails(r, old(board)) then Raised else Returned(Keeps(r)))
              && gameActive == (old(gameActive) && !r.Finish?)
              && playerInfo == (if r.StorePlayer? then Some(r.info) else old(playerInfo))
      // the first BOARD message creates the board with its n; later ones keep the board (and its n)
      ensures var r := Dispatch(parts, old(playerInfo).Some?);
              if (r.StoreBoard? || r.BoardRowsMissing?) && old(board) == null then fresh(board) && board.n == r.n
              else board == old(board)
      ensures var r := Dispatch(parts, old(playerInfo).Some?);
              r.StoreBoard? ==> board != null && board.grid == r.rows
      ensures var r := Dispatch(parts, old(playerInfo).Some?);
              r.BoardRowsMissing? && old(board) == null ==> r.n > 0 && board.grid == Blank(r.n)
      ensures var r := Dispatch(parts, old(playerInfo).Some?);
              !r.StoreBoard? && old(board) != null ==> board.grid == old(board.grid)
    {
      if |parts| == 0 {
        return Raised;
      }
      var msgType := parts[0];
      if msgType == "PLAYER_INFO" {
        if |parts| < 2 {
          return Raised;
        }
        var playerNum := ParseInt(parts[1]);
        if playerNum.None? || |parts| < 4 {
          return Raised;
        }
        playerInfo := Some(PlayerInfo(playerNum.value, parts[2], parts[3]));
        return Returned(true);
      } else if msgType == "BOARD" {
        h := HandleBoard(parts);
        return;
      } else if msgType == "YOUR_TURN" {
        if |parts| < 3 {
          return Raised;
        }
        return Returned(true);
      } else if msgType == "WAIT_TURN" || msgType == "INVALID_MOVE" {
        if |parts| < 2 {
          return Raised;
        }
        return Returned(true);
      } else if msgType == "GAME_OVER" {
        if |parts| < 2 {
          return Raised;
        }
        if parts[1] == "WIN" && (|parts| < 3 || playerInfo.None?) {
          return Raised;
        }
        gameActive := false;
        return Returned(false);
      }
      return Returned(true);
    }

    /** The BOARD branch of handle_message: the board is created on the first one, then
        its n rows are read from the fields that follow. */
    method HandleBoard(parts: seq<string>) returns (h: Handled)
      requires |parts| >= 1 && parts[0] == "BOARD"
      modifies this, board
      ensures playerInfo == old(playerInfo) && gameActive == old(gameActive)
      ensures var r := Dispatch(parts, old(playerInfo).Some?);
              && (r.Fails? || r.StoreBoard? || r.BoardRowsMissing?)
              && h == (if r.StoreBoard? && !RedrawFails(r, old(board)) then Returned(true) else Raised)
      // the first BOARD message creates the board with its n; later ones keep the board (and its n)
      ensures var r := Dispatch(parts, old(playerInfo).Some?);
              if !r.Fails? && old(board) == null then fresh(board) && board.n == r.n
              else board == old(board)
      ensures var r := Dispatch(parts, old(playerInfo).Some?);
              r.StoreBoard? ==> board != null && board.grid == r.rows
      ensures var r := Dispatch(parts, old(playerInfo).Some?);
              r.BoardRowsMissing? && old(board) == null ==> r.n > 0 && board.grid == Blank(r.n)
      ensures var r := Dispatch(parts, old(playerInfo).Some?);
              !r.StoreBoard? && old(board) != null ==> board.grid == old(board.grid)
    {
      if |parts| < 2 {
        return Raised;
      }
      var parsed := ParseInt(parts[1]);
      if parsed.None? {
        return Raised;
      }
      var n := parsed.value;
      if board == null {
        board := new Board(n);
      }
      var grid: Cells := [];
      var i := 2;
      while i < 2 + n
        invariant 2 <= i <= |parts| && (n >= 0 ==> i <= 2 + n) && (n <= 0 ==> i == 2)
        invariant |grid| == i - 2 && forall k :: 0 <= k < i - 2 ==> grid[k] == Split(parts[2 + k], ',')
        decreases 2 + n - i
      {
        if i >= |parts| {
          return Raised;
        }
        grid := grid + [Split(parts[i], ',')];
        i := i + 1;
      }
      if n > 0 {
        assert i == 2 + n && |parts| >= 2 + n;
        assert ClientRows(parts, n).Some?;
        var rows := ClientRows(parts, n).value;
        assert |rows| == n;
        assert forall k :: 0 <= k < n ==> rows[k] == Split(parts[2 + k], ',');
        assert rows == grid;
      }
      assert Dispatch(parts, old(playerInfo).Some?) == StoreBoard(n, grid);
      board.grid := grid;
      if |grid| < board.n {
        // display() reaches grid[|grid|]
        return Raised;
      }
      return Returned(true);
    }

    /** wait_for_message: strips what recv gave; empty text is skipped, anything else is
        split on '|' and handled, and an exception from either becomes false. */
    method WaitForMessage(incoming: Incoming) returns (keep: bool)
      modifies this, board
      ensures incoming.Broken? || Strip(incoming.data) == [] ==>
                && keep == incoming.Received?
                && board == old(board) && playerInfo == old(playerInfo) && gameActive == old(gameActive)
                && (board != null ==> board.grid == old(board.grid))
      ensures incoming.Received? && Strip(incoming.data) != [] ==>
                var r := Dispatch(Fields(incoming.data), old(playerInfo).Some?);
                && keep == (Keeps(r) && !RedrawFails(r, old(board)))
                && gameActive == (old(gameActive) && !r.Finish?)
                && playerInfo == (if r.StorePlayer? then Some(r.info) else old(playerInfo))
                && (r.StoreBoard? ==> board != null && board.grid == r.rows)
                && (!r.StoreBoard? && !r.BoardRowsMissing? ==> board == old(board) && (board != null ==> board.grid == old(board.grid)))
      // the first BOARD message creates the board with its n, even when it then raises;
      // later ones keep the board (and its n)
      ensures incoming.Received? && Strip(incoming.data) != [] ==>
                var r := Dispatch(Fields(incoming.data), old(playerInfo).Some?);
                && ((r.StoreBoard? || r.BoardRowsMissing?) && old(board) == null ==> fresh(board) && board.n == r.n)
                && (old(board) != null ==> board == old(board))
                && (r.BoardRowsMissing? && old(board) == null ==> r.n > 0 && board.grid == Blank(r.n))
                && (!r.StoreBoard? && old(board) != null ==> board.grid == old(board.grid))
    {
      match incoming {
        case Broken =>
          return false;
        case Received(raw) =>
          var data := Strip(raw);
          if data != [] {
            var parts := Split(data, '|');
            var h := HandleMessage(parts);
            return h == Returned(true);
          }
          return true;
      }
    }
  }
}
