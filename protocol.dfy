/** The line protocol between the server and its two clients: one message per line,
    fields separated by '|', the tag first. The server builds PLAYER_INFO, BOARD and the
    framed messages of send_to_client; the client builds MOVE; each end strips the text it
    receives and splits it on '|' before looking at the fields. */
module Protocol {
  import opened Text
  import opened Grid

  /** A cell that can travel in a BOARD line unchanged: it holds neither ',' nor '|'. */
  predicate PlainCell(x: string)
  {
    ',' !in x && '|' !in x
  }

  predicate PlainCells(g: Cells, n: int)
    requires IsSquare(g, n)
  {
    forall r, c :: 0 <= r < n && 0 <= c < n ==> PlainCell(g[r][c])
  }

  predicate EndsInSpace(x: string)
  {
    x != [] && IsSpace(x[|x| - 1])
  }

  // ---------------------------------------------------------------- server to client

  /** send_to_client's framing: f"{message_type}|{data}\n"; FramedFields says how the
      receiving end reads it. */
  function Frame(tag: string, data: string): string
  {
    tag + "|" + data + "\n"
  }

  /** The fields of a BOARD line: the tag, str(n), then each row comma-joined. */
  function BoardFields(n: nat, rows: Cells): seq<string>
  {
    ["BOARD", NatToString(n)] + seq(|rows|, k requires 0 <= k < |rows| => Join(rows[k], ','))
  }

  /** The BOARD line without its newline. */
  function BoardText(n: nat, g: Cells): string
  {
    Join(BoardFields(n, g), '|')
  }

  /** The line broadcast_board sends: the fields joined by '|' (no trailing '|'), then "\n". */
  function BoardLine(n: nat, g: Cells): string
  {
    BoardText(n, g) + "\n"
  }

  function PlayerSymbol(num: nat): string
  {
    if num == 1 then "X" else "O"
  }

  function PlayerName(num: nat): string
  {
    "Player " + NatToString(num)
  }

  /** The line the accept loop sends to the num-th player to connect. */
  function PlayerInfoLine(num: nat): string
  {
    "PLAYER_INFO" + "|" + NatToString(num) + "|" + PlayerSymbol(num) + "|" + PlayerName(num) + "\n"
  }

  // ---------------------------------------------------------------- client to server

  /** The line make_move sends for a 0-based cell. */
  function MoveLine(row: nat, col: nat): string
  {
    "MOVE" + "|" + NatToString(row) + "|" + NatToString(col) + "\n"
  }

  /** What both ends do with received text: strip it and split it on '|'. */
  function Fields(data: string): (parts: seq<string>)
    ensures |parts| >= 1
  {
    Split(Strip(data), '|')
  }

  /** How the server's turn loop reads one received line. */
  datatype MoveRequest =
    | Ignored                     // not three fields starting with MOVE: the loop prompts again
    | NotANumber                  // int() raised: the loop ends
    | Move(row: int, col: int)

  function ParseMove(data: string): (m: MoveRequest)
    ensures m.Ignored? <==> !(|Fields(data)| == 3 && Fields(data)[0] == "MOVE")
    ensures m.Move? ==> ParseInt(Fields(data)[1]) == Some(m.row) && ParseInt(Fields(data)[2]) == Some(m.col)
    // a three-field MOVE line is a move iff int() accepts both coordinates
    ensures m.NotANumber? <==>
              && |Fields(data)| == 3 && Fields(data)[0] == "MOVE"
              && (ParseInt(Fields(data)[1]).None? || ParseInt(Fields(data)[2]).None?)
  {
    var parts := Fields(data);
    if |parts| == 3 && parts[0] == "MOVE" then
      match (ParseInt(parts[1]), ParseInt(parts[2]))
      case (Some(row), Some(col)) => Move(row, col)
      case _ => NotANumber
    else Ignored
  }

  /** The two numbers typed at the client's prompt, as map(int, line.strip().split())
      unpacks them into row, col; None where that raises ValueError. */
  function ReadCoordinates(input: string): (r: Option<(int, int)>)
    ensures var ws := Words(input);
            && (r.Some? <==> |ws| == 2 && ParseInt(ws[0]).Some? && ParseInt(ws[1]).Some?)
            && (r.Some? ==> Some(r.value.0) == ParseInt(ws[0]) && Some(r.value.1) == ParseInt(ws[1]))
  {
    WordsOfStrip(input);
    TwoInts(Words(Strip(input)))
  }

  datatype MoveEntry = NotTwoNumbers | OutOfRange | SendMove(line: string)

  /** One pass of make_move's loop on an already-read line: 1-based input, range check
      against the board size, then the MOVE line; the server parses that line back to the
      same 0-based cell. */
  function MakeMove(input: string, n: int): (e: MoveEntry)
    ensures ReadCoordinates(input).None? ==> e == NotTwoNumbers
    ensures ReadCoordinates(input).Some? ==>
              var (r, c) := ReadCoordinates(input).value;
              (e.SendMove? <==> 1 <= r <= n && 1 <= c <= n) && (!e.SendMove? ==> e == OutOfRange)
    ensures e.SendMove? ==>
              var (r, c) := ReadCoordinates(input).value;
              e.line == MoveLine(r - 1, c - 1) && ParseMove(e.line) == Move(r - 1, c - 1)
  {
    match ReadCoordinates(input)
    case None => NotTwoNumbers
    case Some((r, c)) =>
      var row, col := r - 1, c - 1;
      if 0 <= row < n && 0 <= col < n then
        MoveRoundTrip(row, col);
        SendMove(MoveLine(row, col))
      else OutOfRange
  }

  // ---------------------------------------------------------------- client dispatch

  /** What one recv yields on a connection: some text, or an exception. */
  datatype Incoming = Received(data: string) | Broken

  datatype PlayerInfo = PlayerInfo(num: int, symbol: string, name: string)

  /** What handle_message does with the fields of one message. */
  datatype Reaction =
    | StorePlayer(info: PlayerInfo)       // PLAYER_INFO: remember who we are
    | StoreBoard(n: int, rows: Cells)     // BOARD: replace the grid
    | BoardRowsMissing(n: int)            // BOARD with fewer rows than n: the board is created, then IndexError
    | Prompt                              // YOUR_TURN or INVALID_MOVE: make_move runs
    | Wait                                // WAIT_TURN
    | Finish                              // GAME_OVER: the game ends
    | Unknown                             // any other tag: ignored
    | Fails                               // IndexError, ValueError or TypeError

  const Tags: set<string> := {"PLAYER_INFO", "BOARD", "YOUR_TURN", "WAIT_TURN", "INVALID_MOVE", "GAME_OVER"}

  /** The grid the BOARD branch builds: parts[i].split(",") for i in range(2, 2 + n);
      None where an index runs past the fields. */
  function ClientRows(parts: seq<string>, n: int): (rows: Option<Cells>)
    ensures rows.Some? <==> n <= 0 || 2 + n <= |parts|
    ensures rows.Some? ==> |rows.value| == (if n <= 0 then 0 else n)
    ensures rows.Some? ==> forall k :: 0 <= k < |rows.value| ==> Join(rows.value[k], ',') == parts[2 + k]
    // with the join above, this pins row k to parts[2 + k].split(",")
    ensures rows.Some? ==> forall k, j :: 0 <= k < |rows.value| && 0 <= j < |rows.value[k]| ==> ',' !in rows.value[k][j]
  {
    if n <= 0 then Some([])
    else if |parts| < 2 + n then None
    else Some(seq(n, k requires 0 <= k < n => Split(parts[2 + k], ',')))
  }

  /** handle_message, keyed on the first field. knowsSelf says whether PLAYER_INFO has
      arrived: a winning GAME_OVER compares the winner with our own name. */
  function Dispatch(parts: seq<string>, knowsSelf: bool): (r: Reaction)
    ensures r.Finish? <==>
              |parts| >= 2 && parts[0] == "GAME_OVER" && (parts[1] == "WIN" ==> |parts| >= 3 && knowsSelf)
    ensures r.Unknown? <==> |parts| >= 1 && parts[0] !in Tags
    ensures r.StorePlayer? <==> |parts| >= 4 && parts[0] == "PLAYER_INFO" && ParseInt(parts[1]).Some?
    ensures r.StorePlayer? ==> r.info == PlayerInfo(ParseInt(parts[1]).value, parts[2], parts[3])
    ensures r.StoreBoard? || r.BoardRowsMissing? <==> |parts| >= 2 && parts[0] == "BOARD" && ParseInt(parts[1]).Some?
    ensures r.StoreBoard? ==> Some(r.n) == ParseInt(parts[1]) && Some(r.rows) == ClientRows(parts, r.n)
    ensures r.BoardRowsMissing? ==> Some(r.n) == ParseInt(parts[1]) && ClientRows(parts, r.n).None?
    // a missing field or a number int() rejects raises, and so does a winner before PLAYER_INFO
    ensures r.Fails? <==>
              || |parts| == 0
              || (parts[0] == "PLAYER_INFO" && (|parts| < 4 || ParseInt(parts[1]).None?))
              || (parts[0] == "BOARD" && (|parts| < 2 || ParseInt(parts[1]).None?))
              || (parts[0] == "YOUR_TURN" && |parts| < 3)
              || ((parts[0] == "WAIT_TURN" || parts[0] == "INVALID_MOVE") && |parts| < 2)
              || (parts[0] == "GAME_OVER" && (|parts| < 2 || (parts[1] == "WIN" && (|parts| < 3 || !knowsSelf))))
    ensures r.Prompt? <==>
              || (|parts| >= 3 && parts[0] == "YOUR_TURN")
              || (|parts| >= 2 && parts[0] == "INVALID_MOVE")
    ensures r.Wait? <==> |parts| >= 2 && parts[0] == "WAIT_TURN"
  {
    if |parts| == 0 then Fails
    else if parts[0] == "PLAYER_INFO" then
      if |parts| < 4 || ParseInt(parts[1]).None? then Fails
      else StorePlayer(PlayerInfo(ParseInt(parts[1]).value, parts[2], parts[3]))
    else if parts[0] == "BOARD" then
      if |parts| < 2 || ParseInt(parts[1]).None? then Fails
      else
        var n := ParseInt(parts[1]).value;
        match ClientRows(parts, n)
        case None => BoardRowsMissing(n)
        case Some(rows) => StoreBoard(n, rows)
    else if parts[0] == "YOUR_TURN" then
      if |parts| < 3 then Fails else Prompt
    else if parts[0] == "WAIT_TURN" then
      if |parts| < 2 then Fails else Wait
    else if parts[0] == "INVALID_MOVE" then
      if |parts| < 2 then Fails else Prompt
    else if parts[0] == "GAME_OVER" then
      if |parts| < 2 then Fails
      else if parts[1] == "WIN" then
        if |parts| < 3 || !knowsSelf then Fails else Finish
      else Finish
    else Unknown
  }

  // ---------------------------------------------------------------- round trips

  lemma {:induction false} JoinAvoids(ps: seq<string>, d: char, c: char)
    requires c != d
    requires forall k :: 0 <= k < |ps| ==> c !in ps[k]
    ensures c !in Join(ps, d)
    decreases |ps|
  {
    if |ps| > 1 {
      JoinAvoids(ps[1..], d, c);
    }
  }

  /** A joined text starts with the first piece's first character. */
  lemma JoinStarts(ps: seq<string>, d: char)
    requires |ps| >= 1 && ps[0] != []
    ensures Join(ps, d) != [] && Join(ps, d)[0] == ps[0][0]
  {
  }

  /** A joined text ends with the last piece's last character. */
  lemma JoinEnds(ps: seq<string>, d: char)
    requires |ps| >= 1 && ps[|ps| - 1] != []
    ensures Join(ps, d) != []
    ensures Join(ps, d)[|Join(ps, d)| - 1] == ps[|ps| - 1][|ps[|ps| - 1]| - 1]
  {
    if |ps| > 1 {
      var init := ps[..|ps| - 1];
      assert ps == init + [ps[|ps| - 1]];
      JoinSnoc(init, ps[|ps| - 1], d);
    }
  }

  /** A line made of '|'-free fields, starting and ending with a non-space character,
      comes back as the same fields once stripped and split. */
  lemma FieldsOfLine(fields: seq<string>)
    requires |fields| >= 1 && forall k :: 0 <= k < |fields| ==> '|' !in fields[k]
    requires fields[0] != [] && !IsSpace(fields[0][0])
    requires !EndsInSpace(fields[|fields| - 1]) && fields[|fields| - 1] != []
    ensures Fields(Join(fields, '|') + "\n") == fields
  {
    JoinStarts(fields, '|');
    JoinEnds(fields, '|');
    StripTrailing(Join(fields, '|'), "\n");
    SplitOfJoin(fields, '|');
  }

  /** Three joined fields, written out; ThreeFields and the ClientReads lemmas use it. */
  lemma Join3(a: string, b: string, c: string, d: char)
    ensures Join([a, b, c], d) == a + [d] + b + [d] + c
  {
    JoinCons(a, [b, c], d);
    JoinCons(b, [c], d);
  }

  /** Four joined fields, written out; FourFields uses it. */
  lemma Join4(a: string, b: string, c: string, e: string, d: char)
    ensures Join([a, b, c, e], d) == a + [d] + b + [d] + c + [d] + e
  {
    JoinCons(a, [b, c, e], d);
    Join3(b, c, e, d);
  }

  /** The server reads make_move's line back as the same cell. */
  lemma MoveRoundTrip(row: nat, col: nat)
    ensures ParseMove(MoveLine(row, col)) == Move(row, col)
  {
    MoveFields(row, col);
    ParseIntOfNatToString(row);
    ParseIntOfNatToString(col);
  }

  /** The fields of a MOVE line are the tag and the two numbers. */
  lemma MoveFields(row: nat, col: nat)
    ensures Fields(MoveLine(row, col)) == ["MOVE", NatToString(row), NatToString(col)]
  {
    PlainDigits(NatToString(row));
    PlainDigits(NatToString(col));
    ThreeFields("MOVE", NatToString(row), NatToString(col));
  }

  lemma ThreeFields(a: string, b: string, c: string)
    requires '|' !in a && '|' !in b && '|' !in c
    requires a != [] && !IsSpace(a[0]) && c != [] && !EndsInSpace(c)
    ensures Fields(a + "|" + b + "|" + c + "\n") == [a, b, c]
  {
    var parts := [a, b, c];
    assert forall k :: 0 <= k < 3 ==> '|' !in parts[k];
    assert a + "|" + b + "|" + c == Join(parts, '|') by {
      Join3(a, b, c, '|');
    }
    FieldsOfLine(parts);
  }

  lemma FourFields(a: string, b: string, c: string, e: string)
    requires '|' !in a && '|' !in b && '|' !in c && '|' !in e
    requires a != [] && !IsSpace(a[0]) && e != [] && !EndsInSpace(e)
    ensures Fields(a + "|" + b + "|" + c + "|" + e + "\n") == [a, b, c, e]
  {
    var parts := [a, b, c, e];
    assert forall k :: 0 <= k < 4 ==> '|' !in parts[k];
    assert a + "|" + b + "|" + c + "|" + e == Join(parts, '|') by {
      Join4(a, b, c, e, '|');
    }
    FieldsOfLine(parts);
  }

  /** A decimal number has no separator and no white space at either end. */
  lemma PlainDigits(s: string)
    requires AllDigits(s)
    ensures s != [] && '|' !in s && !IsSpace(s[0]) && !EndsInSpace(s)
  {
    assert IsDigit(s[0]) && IsDigit(s[|s| - 1]);
  }

  /** The client stores exactly what the accept loop announced: its number, mark and name. */
  lemma PlayerInfoRoundTrip(num: nat, knowsSelf: bool)
    ensures Dispatch(Fields(PlayerInfoLine(num)), knowsSelf)
            == StorePlayer(PlayerInfo(num, PlayerSymbol(num), PlayerName(num)))
  {
    PlayerInfoFields(num);
    ParseIntOfNatToString(num);
  }

  /** The fields of a PLAYER_INFO line are the tag, the number, the mark and the name. */
  lemma PlayerInfoFields(num: nat)
    ensures Fields(PlayerInfoLine(num)) == ["PLAYER_INFO", NatToString(num), PlayerSymbol(num), PlayerName(num)]
  {
    var a := NatToString(num);
    var name := PlayerName(num);
    PlainDigits(a);
    assert '|' !in name && name != [] && !EndsInSpace(name) by {
      assert name == "Player " + a;
      assert name[|name| - 1] == a[|a| - 1];
    }
    FourFields("PLAYER_INFO", a, PlayerSymbol(num), name);
  }

  /** A framed line, stripped and split: the tag, then the pieces of the data. */
  lemma FramedFields(tag: string, data: string)
    requires tag != [] && !IsSpace(tag[0]) && '|' !in tag && !EndsInSpace(data)
    ensures Fields(Frame(tag, data)) == [tag] + Split(data, '|')
  {
    var t := tag + "|" + data;
    assert t[0] == tag[0] && !IsSpace(t[|t| - 1]);
    StripTrailing(t, "\n");
    assert Split("|" + data, '|') == [""] + Split(data, '|') by {
      assert ("|" + data)[1..] == data;
    }
    SplitAfter(tag, "|" + data, '|');
    assert tag + "" == tag;
    assert t == tag + ("|" + data);
  }

  /** The BOARD line, stripped and split on '|', gives back its fields: the tag, str(n)
      and the comma-joined rows, when no cell holds ',' or '|' and the bottom-right cell
      does not end in whitespace. */
  lemma BoardLineFields(n: nat, g: Cells)
    requires IsSquare(g, n) && PlainCells(g, n) && (n >= 1 ==> !EndsInSpace(g[n - 1][n - 1]))
    ensures Fields(BoardLine(n, g)) == BoardFields(n, g)
  {
    var t := BoardText(n, g);
    var fs := BoardFields(n, g);
    JoinStarts(fs, '|');
    if n == 0 {
      JoinEnds(fs, '|');
    } else {
      CornerIsLast(n, g);
    }
    assert !IsSpace(t[|t| - 1]);
    StripTrailing(t, "\n");
    BoardFieldsArePlain(n, g);
    SplitOfJoin(fs, '|');
  }

  lemma BoardFieldsArePlain(n: nat, g: Cells)
    requires IsSquare(g, n) && PlainCells(g, n)
    ensures forall k :: 0 <= k < |BoardFields(n, g)| ==> '|' !in BoardFields(n, g)[k]
  {
    var fs := BoardFields(n, g);
    forall k | 0 <= k < |fs| ensures '|' !in fs[k] {
      if k >= 2 {
        assert fs[k] == Join(g[k - 2], ',');
        JoinAvoids(g[k - 2], ',', '|');
      }
    }
  }

  /** At the level of fields the BOARD encoding is lossless: split on '|', the client
      rebuilds the server's grid, for every size and every grid of plain cells. */
  lemma BoardRoundTrip(n: nat, g: Cells, knowsSelf: bool)
    requires IsSquare(g, n) && PlainCells(g, n)
    ensures Dispatch(Split(BoardText(n, g), '|'), knowsSelf) == StoreBoard(n, g)
  {
    var fs := BoardFields(n, g);
    BoardFieldsArePlain(n, g);
    SplitOfJoin(fs, '|');
    ParseIntOfNatToString(n);
    var rows := ClientRows(fs, n);
    assert rows.Some?;
    forall k | 0 <= k < n ensures rows.value[k] == g[k] {
      assert fs[2 + k] == Join(g[k], ',');
      SplitOfJoin(g[k], ',');
    }
    assert rows.value == g;
  }

  /** The BOARD text ends with the bottom-right cell; with that cell emptied it ends
      with the ',' or '|' before it. */
  lemma CornerIsLast(n: nat, g: Cells)
    requires IsSquare(g, n) && n >= 1
    ensures var t' := BoardText(n, Placed(g, n, n - 1, n - 1, ""));
            BoardText(n, g) == t' + g[n - 1][n - 1] && t' != [] && (t'[|t'| - 1] == ',' || t'[|t'| - 1] == '|')
    ensures BoardText(n, g)[0] == 'B'
  {
    var h := Placed(g, n, n - 1, n - 1, "");
    var c := g[n - 1][n - 1];
    var text, text' := Join(g[n - 1], ','), Join(h[n - 1], ',');
    assert text == text' + c && (text' == "" || text'[|text'| - 1] == ',') by {
      RowCornerIsLast(g[n - 1], h[n - 1], n);
    }
    var fs, fs' := BoardFields(n, g), BoardFields(n, h);
    var init := fs[..|fs| - 1];
    assert fs == init + [text] && fs' == init + [text'];
    var head := Join(init, '|') + "|";
    assert BoardText(n, g) == head + text by {
      JoinSnoc(init, text, '|');
    }
    assert BoardText(n, h) == head + text' by {
      JoinSnoc(init, text', '|');
    }
    Regroup(head, text', c);
    JoinStarts(fs, '|');
  }

  /** A row's text is the text of the same row with its last cell emptied, then that cell. */
  lemma RowCornerIsLast(row: seq<string>, row': seq<string>, n: nat)
    requires n >= 1 && |row| == n && row' == row[..n - 1] + [""]
    ensures Join(row, ',') == Join(row', ',') + row[n - 1]
    ensures Join(row', ',') == "" || Join(row', ',')[|Join(row', ',')| - 1] == ','
  {
    assert row == row[..n - 1] + [row[n - 1]];
    JoinLast(row[..n - 1], row[n - 1], ',');
  }

  /** After wait_for_message's strip the round trip still holds whenever the bottom-right
      cell does not end in whitespace. */
  lemma BoardLineRoundTrip(n: nat, g: Cells, knowsSelf: bool)
    requires IsSquare(g, n) && PlainCells(g, n)
    requires n >= 1 ==> !EndsInSpace(g[n - 1][n - 1])
    ensures Dispatch(Fields(BoardLine(n, g)), knowsSelf) == StoreBoard(n, g)
  {
    BoardLineFields(n, g);
    BoardRoundTrip(n, g, knowsSelf);
  }

  /** The stripped text loses a blank bottom-right cell: the client's grid then holds ""
      where the server's holds " ". */
  lemma BlankCornerLost(n: nat, g: Cells, knowsSelf: bool)
    requires IsSquare(g, n) && PlainCells(g, n) && n >= 1
    requires g[n - 1][n - 1] == Empty
    ensures Dispatch(Fields(BoardLine(n, g)), knowsSelf) == StoreBoard(n, Placed(g, n, n - 1, n - 1, ""))
    ensures Placed(g, n, n - 1, n - 1, "") != g
  {
    var h := Placed(g, n, n - 1, n - 1, "");
    var t' := BoardText(n, h);
    assert BoardText(n, g) == t' + Empty && t' != [] && (t'[|t'| - 1] == ',' || t'[|t'| - 1] == '|') by {
      CornerIsLast(n, g);
    }
    assert BoardLine(n, g) == t' + " \n";
    assert t'[0] == 'B' by {
      CornerIsLast(n, h);
    }
    assert Strip(BoardLine(n, g)) == t' by {
      StripTrailing(t', " \n");
    }
    BoardRoundTrip(n, h, knowsSelf);
    assert h[n - 1][n - 1] != g[n - 1][n - 1];
  }
}
