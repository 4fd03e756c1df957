/** The n-by-n board of the game (class Board, defined the same way in both
    TicTacToe_server.py and TicTacToe_client.py). A cell holds a string; " " means empty. */
module Grid {

  type Cells = seq<seq<string>>

  const Empty: string := " "

  /** n rows of n cells each. */
  predicate IsSquare(g: Cells, n: int)
  {
    0 <= n && |g| == n && forall r :: 0 <= r < n ==> |g[r]| == n
  }

  /** [[" " for _ in range(n)] for _ in range(n)] */
  function Blank(n: nat): (g: Cells)
    ensures IsSquare(g, n)
    ensures forall r, c :: 0 <= r < n && 0 <= c < n ==> g[r][c] == Empty
  {
    seq(n, _ => seq(n, _ => Empty))
  }

  /** The guard of place: the cell is on the board and empty. */
  predicate CanPlace(g: Cells, n: int, row: int, col: int)
    requires IsSquare(g, n)
  {
    0 <= row < n && 0 <= col < n && g[row][col] == Empty
  }

  /** The grid after writing s into one cell. */
  function Placed(g: Cells, n: int, row: int, col: int, s: string): (h: Cells)
    requires IsSquare(g, n) && 0 <= row < n && 0 <= col < n
    ensures IsSquare(h, n)
    ensures forall r, c :: 0 <= r < n && 0 <= c < n ==> h[r][c] == if r == row && c == col then s else g[r][c]
  {
    g[row := g[row][col := s]]
  }

  predicate RowIs(g: Cells, n: int, r: int, s: string)
    requires IsSquare(g, n) && 0 <= r < n
  {
    forall c :: 0 <= c < n ==> g[r][c] == s
  }

  predicate ColumnIs(g: Cells, n: int, c: int, s: string)
    requires IsSquare(g, n) && 0 <= c < n
  {
    forall r :: 0 <= r < n ==> g[r][c] == s
  }

  predicate DiagonalIs(g: Cells, n: int, s: string)
    requires IsSquare(g, n)
  {
    forall i :: 0 <= i < n ==> g[i][i] == s
  }

  predicate AntiDiagonalIs(g: Cells, n: int, s: string)
    requires IsSquare(g, n)
  {
    forall i :: 0 <= i < n ==> g[i][n - 1 - i] == s
  }

  /** Some row, some column, the main diagonal or the anti-diagonal holds s in every cell. */
  predicate Wins(g: Cells, n: int, s: string)
    requires IsSquare(g, n)
  {
    || (exists r :: 0 <= r < n && RowIs(g, n, r, s))
    || (exists c :: 0 <= c < n && ColumnIs(g, n, c, s))
    || DiagonalIs(g, n, s)
    || AntiDiagonalIs(g, n, s)
  }

  /** No cell is empty. */
  predicate NoEmpty(g: Cells, n: int)
    requires IsSquare(g, n)
  {
    forall r, c :: 0 <= r < n && 0 <= c < n ==> g[r][c] != Empty
  }

  /** Every cell that held a mark still holds it in h. */
  predicate KeepsMarks(g: Cells, h: Cells, n: int)
    requires IsSquare(g, n) && IsSquare(h, n)
  {
    forall r, c :: 0 <= r < n && 0 <= c < n && g[r][c] != Empty ==> h[r][c] == g[r][c]
  }

  class Board {
    const n: int
    var grid: Cells

    ghost predicate Valid()
      reads this
    {
      IsSquare(grid, n)
    }

    /** Board(n); a negative n gives an empty grid, as range(n) is empty. */
    constructor (n: int)
      ensures this.n == n
      ensures grid == Blank(if n < 0 then 0 else n)
      ensures n >= 0 ==> Valid()
    {
      this.n := n;
      grid := Blank(if n < 0 then 0 else n);
    }

    /** place: writes s into (row, col) only if the cell is on the board and empty. */
    method Place(row: int, col: int, s: string) returns (ok: bool)
      requires Valid()
      modifies this`grid
      ensures Valid()
      ensures ok <==> CanPlace(old(grid), n, row, col)
      ensures forall r, c :: 0 <= r < n && 0 <= c < n ==>
                grid[r][c] == if ok && r == row && c == col then s else old(grid)[r][c]
      ensures grid == if ok then Placed(old(grid), n, row, col, s) else old(grid)
    {
      if 0 <= row < n && 0 <= col < n && grid[row][col] == Empty {
        grid := grid[row := grid[row][col := s]];
        ok := true;
      } else {
        ok := false;
      }
    }

    /** check_win: compares every row, every column and both diagonals with [s] * n. */
    method CheckWin(s: string) returns (won: bool)
      requires Valid()
      ensures won <==> Wins(grid, n, s)
    {
      var g := grid;
      var target := seq(n, _ => s);
      var i := 0;
      while i < n
        invariant 0 <= i <= n
        invariant forall k :: 0 <= k < i ==> !RowIs(g, n, k, s) && !ColumnIs(g, n, k, s)
      {
        LineMatchesTarget(g[i], n, s);
        if g[i] == target {
          assert RowIs(g, n, i, s);
          return true;
        }
        var column := seq(n, r requires 0 <= r < n => g[r][i]);
        assert forall r :: 0 <= r < n ==> column[r] == g[r][i];
        LineMatchesTarget(column, n, s);
        if column == target {
          assert ColumnIs(g, n, i, s);
          return true;
        }
        i := i + 1;
      }
      var diagonal := seq(n, k requires 0 <= k < n => g[k][k]);
      assert forall k :: 0 <= k < n ==> diagonal[k] == g[k][k];
      LineMatchesTarget(diagonal, n, s);
      if diagonal == target {
        return true;
      }
      var anti := seq(n, k requires 0 <= k < n => g[k][n - 1 - k]);
      assert forall k :: 0 <= k < n ==> anti[k] == g[k][n - 1 - k];
      LineMatchesTarget(anti, n, s);
      if anti == target {
        return true;
      }
      return false;
    }

    /** full: scans the cells row by row for an empty one. */
    method Full() returns (full: bool)
      requires Valid()
      ensures full <==> NoEmpty(grid, n)
    {
      var r := 0;
      while r < n
        invariant 0 <= r <= n
        invariant forall i, j :: 0 <= i < r && 0 <= j < n ==> grid[i][j] != Empty
      {
        var c := 0;
        while c < n
          invariant 0 <= c <= n
          invariant forall j :: 0 <= j < c ==> grid[r][j] != Empty
        {
          if grid[r][c] == Empty {
            return false;
          }
          c := c + 1;
        }
        r := r + 1;
      }
      return true;
    }
  }

  /** A line of n cells equals [s] * n exactly when each of its cells is s. */
  lemma LineMatchesTarget(line: seq<string>, n: nat, s: string)
    requires |line| == n
    ensures line == seq(n, _ => s) <==> forall k :: 0 <= k < n ==> line[k] == s
  {
    if forall k :: 0 <= k < n ==> line[k] == s {
      assert line == seq(n, _ => s);
    }
  }

  /** On a board with at least one cell, no mark other than " " has a line of the empty board. */
  lemma BlankHasNoLine(n: nat, s: string)
    requires n >= 1 && s != Empty
    ensures !Wins(Blank(n), n, s)
  {
    var g := Blank(n);
    forall r | 0 <= r < n ensures !RowIs(g, n, r, s) && !ColumnIs(g, n, r, s) {
      assert g[r][0] != s && g[0][r] != s;
    }
    assert g[0][0] != s && g[0][n - 1 - 0] != s;
  }

  /** A board has no line of s when every row, every column and both diagonals hold some
      other cell: rowGap[r] is such a column in row r, colGap[c] such a row in column c. */
  lemma NoLineOf(g: Cells, n: nat, s: string, rowGap: seq<int>, colGap: seq<int>, d: int, a: int)
    requires IsSquare(g, n) && |rowGap| == n && |colGap| == n
    requires forall r :: 0 <= r < n ==> 0 <= rowGap[r] < n && g[r][rowGap[r]] != s
    requires forall c :: 0 <= c < n ==> 0 <= colGap[c] < n && g[colGap[c]][c] != s
    requires 0 <= d < n && g[d][d] != s
    requires 0 <= a < n && g[a][n - 1 - a] != s
    ensures !Wins(g, n, s)
  {
    forall r | 0 <= r < n ensures !RowIs(g, n, r, s) && !ColumnIs(g, n, r, s) {
      assert g[r][rowGap[r]] != s && g[colGap[r]][r] != s;
    }
  }

  /** Placed gives h when h differs from g in exactly that cell, which holds s. */
  lemma PlacedIs(g: Cells, n: nat, row: int, col: int, s: string, h: Cells)
    requires IsSquare(g, n) && IsSquare(h, n) && 0 <= row < n && 0 <= col < n
    requires forall r, c :: 0 <= r < n && 0 <= c < n ==> h[r][c] == if r == row && c == col then s else g[r][c]
    ensures Placed(g, n, row, col, s) == h
  {
    var p := Placed(g, n, row, col, s);
    forall r | 0 <= r < n ensures p[r] == h[r] {
      assert forall c :: 0 <= c < n ==> p[r][c] == h[r][c];
    }
  }

  /** With n = 0 the empty diagonal already equals [s] * 0, so check_win reports a line. */
  lemma EmptyBoardHasLine(s: string)
    ensures Wins(Blank(0), 0, s)
  {
  }

  /** Placing a mark into an empty cell keeps every mark already on the board. */
  lemma PlacedKeepsMarks(g: Cells, n: int, row: int, col: int, s: string)
    requires IsSquare(g, n) && CanPlace(g, n, row, col)
    ensures KeepsMarks(g, Placed(g, n, row, col, s), n)
  {
  }
}
