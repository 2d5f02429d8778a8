/** The tic-tac-toe game of main.py: a square grid updated in place, guarded
    placement, win and full-board detection, two alternating players, and
    the parse/bounds step of reading a move. */
module TicTacToe {
  import opened Wrappers
  import opened Text
  import Lists

  datatype Piece = Empty | X | O

  datatype Player = Player(name: string, piece: Piece)

  /** The grid as a list of rows. */
  type Grid = seq<seq<Piece>>

  ghost predicate Square(g: Grid, n: nat) {
    |g| == n && forall r :: 0 <= r < n ==> |g[r]| == n
  }

  function EmptyGrid(n: nat): (g: Grid)
    ensures Square(g, n)
  {
    seq(n, _ => seq(n, _ => Empty))
  }

  /** g with the cell (r, c) set to p. */
  function Place(g: Grid, r: nat, c: nat, p: Piece): (g': Grid)
    requires r < |g| && c < |g[r]|
  {
    g[r := g[r][c := p]]
  }

  // ---- Lines of the board (check_win) ----

  predicate RowOf(g: Grid, n: nat, r: nat, p: Piece)
    requires Square(g, n) && r < n
  {
    forall c :: 0 <= c < n ==> g[r][c] == p
  }

  predicate ColumnOf(g: Grid, n: nat, c: nat, p: Piece)
    requires Square(g, n) && c < n
  {
    forall r :: 0 <= r < n ==> g[r][c] == p
  }

  predicate DiagonalOf(g: Grid, n: nat, p: Piece)
    requires Square(g, n)
  {
    forall i :: 0 <= i < n ==> g[i][i] == p
  }

  predicate AntiDiagonalOf(g: Grid, n: nat, p: Piece)
    requires Square(g, n)
  {
    forall i :: 0 <= i < n ==> g[i][n - i - 1] == p
  }

  /** Some row, some column, the main diagonal or the anti-diagonal is all p.
      On a 0 x 0 grid the (empty) diagonal counts, as Python's `all` of
      nothing is true. */
  predicate HasLine(g: Grid, n: nat, p: Piece)
    requires Square(g, n)
  {
    || (exists r :: 0 <= r < n && RowOf(g, n, r, p))
    || (exists c :: 0 <= c < n && ColumnOf(g, n, c, p))
    || DiagonalOf(g, n, p)
    || AntiDiagonalOf(g, n, p)
  }

  // ---- Occupancy (is_full) ----

  predicate Full(g: Grid) {
    forall r, c :: 0 <= r < |g| && 0 <= c < |g[r]| ==> g[r][c] != Empty
  }

  function RowCount(row: seq<Piece>): (k: nat)
    ensures k <= |row|
  {
    if row == [] then 0 else (if row[0] != Empty then 1 else 0) + RowCount(row[1..])
  }

  /** The number of non-empty cells. */
  function Occupied(g: Grid): nat {
    if g == [] then 0 else RowCount(g[0]) + Occupied(g[1..])
  }

  function Cells(g: Grid): nat {
    if g == [] then 0 else |g[0]| + Cells(g[1..])
  }

  lemma {:induction false} RowCountFull(row: seq<Piece>)
    ensures RowCount(row) == |row| <==> forall c :: 0 <= c < |row| ==> row[c] != Empty
  {
    if row != [] {
      RowCountFull(row[1..]);
      assert forall c :: 1 <= c < |row| ==> row[c] == row[1..][c - 1];
    }
  }

  lemma {:induction false} OccupiedBound(g: Grid)
    ensures Occupied(g) <= Cells(g)
    ensures Occupied(g) == Cells(g) <==> Full(g)
  {
    if g != [] {
      OccupiedBound(g[1..]);
      RowCountFull(g[0]);
      assert forall r :: 1 <= r < |g| ==> g[r] == g[1..][r - 1];
      if Full(g[1..]) && forall c :: 0 <= c < |g[0]| ==> g[0][c] != Empty {
        forall r, c | 0 <= r < |g| && 0 <= c < |g[r]| ensures g[r][c] != Empty {
          if r > 0 { assert g[r] == g[1..][r - 1]; }
        }
      }
      if Full(g) {
        forall r, c | 0 <= r < |g[1..]| && 0 <= c < |g[1..][r]| ensures g[1..][r][c] != Empty {
          assert g[1..][r] == g[r + 1];
        }
      }
    }
  }

  lemma {:induction false} SquareCells(g: Grid, n: nat)
    requires Square(g, n)
    ensures Cells(g) == n * n
  {
    ColumnsCells(g, n, |g|);
  }

  lemma {:induction false} ColumnsCells(g: Grid, n: nat, k: nat)
    requires |g| == k && forall r :: 0 <= r < k ==> |g[r]| == n
    ensures Cells(g) == k * n
  {
    if k > 0 {
      ColumnsCells(g[1..], n, k - 1);
    }
  }

  /** The board is full exactly when all n * n cells are occupied. */
  lemma FullIffAllOccupied(g: Grid, n: nat)
    requires Square(g, n)
    ensures Full(g) <==> Occupied(g) == n * n
  {
    OccupiedBound(g);
    SquareCells(g, n);
  }

  lemma {:induction false} RowCountSet(row: seq<Piece>, c: nat, p: Piece)
    requires c < |row| && row[c] == Empty && p != Empty
    ensures RowCount(row[c := p]) == RowCount(row) + 1
  {
    if c > 0 {
      RowCountSet(row[1..], c - 1, p);
      assert row[c := p][1..] == row[1..][c - 1 := p];
    } else {
      assert row[c := p][1..] == row[1..];
    }
  }

  /** Filling one empty cell with a piece raises the count of occupied cells
      by exactly one. */
  lemma {:induction false} PlaceRaisesOccupied(g: Grid, r: nat, c: nat, p: Piece)
    requires r < |g| && c < |g[r]| && g[r][c] == Empty && p != Empty
    ensures Occupied(Place(g, r, c, p)) == Occupied(g) + 1
  {
    if r > 0 {
      PlaceRaisesOccupied(g[1..], r - 1, c, p);
      assert Place(g, r, c, p)[1..] == Place(g[1..], r - 1, c, p);
    } else {
      RowCountSet(g[0], c, p);
      assert Place(g, r, c, p)[1..] == g[1..];
    }
  }

  lemma {:induction false} EmptyGridUnoccupied(n: nat)
    ensures Occupied(EmptyGrid(n)) == 0
  {
    var g := EmptyGrid(n);
    EmptyRows(g, n);
  }

  lemma {:induction false} EmptyRows(g: Grid, n: nat)
    requires forall r :: 0 <= r < |g| ==> g[r] == seq(n, _ => Empty)
    ensures Occupied(g) == 0
  {
    if g != [] {
      EmptyRowCount(g[0]);
      EmptyRows(g[1..], n);
    }
  }

  lemma {:induction false} EmptyRowCount(row: seq<Piece>)
    requires forall c :: 0 <= c < |row| ==> row[c] == Empty
    ensures RowCount(row) == 0
  {
    if row != [] {
      EmptyRowCount(row[1..]);
    }
  }

  // ---- The board object ----

  class Board {
    const size: nat
    var grid: Grid

    ghost predicate Valid()
      reads this
    {
      Square(grid, size)
    }

    /** A size x size board with every cell empty. */
    constructor (size: nat)
      ensures Valid() && this.size == size
      ensures forall r, c :: 0 <= r < size && 0 <= c < size ==> grid[r][c] == Empty
      ensures grid == EmptyGrid(size) && Occupied(grid) == 0
    {
      this.size := size;
      grid := EmptyGrid(size);
      EmptyGridUnoccupied(size);
    }

    /** Places the piece when the cell is empty; an occupied cell is never
        overwritten and no other cell changes. */
    method PlacePiece(row: nat, col: nat, piece: Piece) returns (placed: bool)
      requires Valid() && row < size && col < size
      modifies this
      ensures Valid()
      ensures placed <==> old(grid)[row][col] == Empty
      ensures placed ==> grid == Place(old(grid), row, col, piece)
      ensures !placed ==> grid == old(grid)
      ensures forall r, c :: 0 <= r < size && 0 <= c < size && (r, c) != (row, col) ==>
                grid[r][c] == old(grid)[r][c]
      ensures placed && piece != Empty ==> Occupied(grid) == Occupied(old(grid)) + 1
    {
      if grid[row][col] == Empty {
        if piece != Empty {
          PlaceRaisesOccupied(grid, row, col, piece);
        }
        grid := Place(grid, row, col, piece);
        return true;
      } else {
        return false;
      }
    }

    method RowAll(r: nat, piece: Piece) returns (all: bool)
      requires Valid() && r < size
      ensures all == RowOf(grid, size, r, piece)
    {
      all := true;
      var c := 0;
      while c < size
        invariant c <= size
        invariant all == forall c' :: 0 <= c' < c ==> grid[r][c'] == piece
      {
        all := all && grid[r][c] == piece;
        c := c + 1;
      }
    }

    method ColumnAll(c: nat, piece: Piece) returns (all: bool)
      requires Valid() && c < size
      ensures all == ColumnOf(grid, size, c, piece)
    {
      all := true;
      var r := 0;
      while r < size
        invariant r <= size
        invariant all == forall r' :: 0 <= r' < r ==> grid[r'][c] == piece
      {
        all := all && grid[r][c] == piece;
        r := r + 1;
      }
    }

    method DiagonalAll(piece: Piece, anti: bool) returns (all: bool)
      requires Valid()
      ensures !anti ==> all == DiagonalOf(grid, size, piece)
      ensures anti ==> all == AntiDiagonalOf(grid, size, piece)
    {
      all := true;
      var i := 0;
      while i < size
        invariant i <= size
        invariant !anti ==> all == forall j :: 0 <= j < i ==> grid[j][j] == piece
        invariant anti ==> all == forall j :: 0 <= j < i ==> grid[j][size - j - 1] == piece
      {
        var cell := if anti then grid[i][size - i - 1] else grid[i][i];
        all := all && cell == piece;
        i := i + 1;
      }
    }

    /** True iff some row, some column or one of the two diagonals is all
        `piece`; rows are tried first, then columns, then the diagonals. */
    method CheckWin(piece: Piece) returns (won: bool)
      requires Valid()
      ensures won == HasLine(grid, size, piece)
    {
      for r := 0 to size
        invariant forall r' :: 0 <= r' < r ==> !RowOf(grid, size, r', piece)
      {
        var all := RowAll(r, piece);
        if all { return true; }
      }
      for c := 0 to size
        invariant forall c' :: 0 <= c' < c ==> !ColumnOf(grid, size, c', piece)
      {
        var all := ColumnAll(c, piece);
        if all { return true; }
      }
      var diagonal := DiagonalAll(piece, false);
      if diagonal { return true; }
      var anti := DiagonalAll(piece, true);
      if anti { return true; }
      return false;
    }

    /** No cell is empty. */
    predicate IsFull()
      reads this
      requires Valid()
      ensures IsFull() <==> Occupied(grid) == size * size
    {
      FullIffAllOccupied(grid, size);
      Full(grid)
    }
  }

  // ---- The game ----

  /** What one turn of `play` ends in. */
  datatype TurnOutcome = Rejected | Won | Drawn | Continues

  class Game {
    const board: Board
    const players: seq<Player>
    var currentPlayerIndex: int

    ghost predicate Valid()
      reads this, board
    {
      board.Valid() && board.size == 3 && |players| == 2 && 0 <= currentPlayerIndex <= 1
    }

    constructor (player1: Player, player2: Player)
      ensures Valid() && fresh(board)
      ensures players == [player1, player2] && currentPlayerIndex == 0
      ensures board.grid == EmptyGrid(3)
    {
      board := new Board(3);
      players := [player1, player2];
      currentPlayerIndex := 0;
    }

    /** Hands the turn to the other player; doing it twice restores the
        original player. */
    method SwitchPlayer()
      requires Valid()
      modifies this
      ensures Valid()
      ensures currentPlayerIndex != old(currentPlayerIndex)
      ensures currentPlayerIndex == 1 - old(currentPlayerIndex)
    {
      currentPlayerIndex := 1 - currentPlayerIndex;
    }

    function CurrentPlayer(): (p: Player)
      reads this, board
      requires Valid()
      ensures p in players
    {
      players[currentPlayerIndex]
    }

    /** One iteration of `play` for a move already read: a rejected placement
        keeps the same player; a placement that neither wins nor fills the
        board passes the turn; a win or a draw ends the game with the same
        player current. */
    method Turn(row: nat, col: nat) returns (outcome: TurnOutcome)
      requires Valid() && row < board.size && col < board.size
      modifies this, board
      ensures Valid()
      ensures outcome == Rejected <==> old(board.grid)[row][col] != Empty
      ensures outcome == Rejected ==> board.grid == old(board.grid)
      ensures outcome != Rejected ==>
                board.grid == Place(old(board.grid), row, col, old(CurrentPlayer()).piece)
      ensures outcome != Rejected ==>
                (outcome == Won <==> HasLine(board.grid, 3, old(CurrentPlayer()).piece))
      ensures outcome == Drawn <==>
                outcome != Rejected && !HasLine(board.grid, 3, old(CurrentPlayer()).piece)
                && board.IsFull()
      ensures currentPlayerIndex ==
                if outcome == Continues then 1 - old(currentPlayerIndex) else old(currentPlayerIndex)
    {
      var player := CurrentPlayer();
      var placed := board.PlacePiece(row, col, player.piece);
      if placed {
        var won := board.CheckWin(player.piece);
        if won {
          outcome := Won;
        } else if board.IsFull() {
          outcome := Drawn;
        } else {
          SwitchPlayer();
          outcome := Continues;
        }
      } else {
        outcome := Rejected;
      }
    }
  }

  // ---- Reading a move (get_move without the input loop) ----

  /** The characters Python's `str.isspace` accepts, which `strip()` and
      `int()` remove: tab to carriage return, the four separator controls
      and the space, NEL, no-break space and the Unicode space separators. */
  predicate IsSpace(ch: char) {
    || ('\t' <= ch <= '\r')
    || ('\U{001C}' <= ch <= ' ')
    || ch == '\U{0085}' || ch == '\U{00A0}' || ch == '\U{1680}'
    || ('\U{2000}' <= ch <= '\U{200A}')
    || ch == '\U{2028}' || ch == '\U{2029}' || ch == '\U{202F}' || ch == '\U{205F}' || ch == '\U{3000}'
  }

  /** Drops the leading whitespace: what is left is a suffix of s that does
      not start with whitespace, and everything dropped was whitespace. */
  function StripLeft(s: string): (r: string)
    ensures |r| <= |s| && r == s[|s| - |r|..]
    ensures |r| > 0 ==> !IsSpace(r[0])
    ensures forall i :: 0 <= i < |s| - |r| ==> IsSpace(s[i])
  {
    if |s| > 0 && IsSpace(s[0]) then StripLeft(s[1..]) else s
  }

  /** Drops the trailing whitespace: what is left is a prefix of s that does
      not end with whitespace, and everything dropped was whitespace. */
  function StripRight(s: string): (r: string)
    ensures |r| <= |s| && r == s[..|r|]
    ensures |r| > 0 ==> !IsSpace(r[|r| - 1])
    ensures forall i :: |r| <= i < |s| ==> IsSpace(s[i])
  {
    if |s| > 0 && IsSpace(s[|s| - 1]) then StripRight(s[..|s| - 1]) else s
  }

  /** Python `str.strip()`: neither end of the result is whitespace. */
  function Strip(s: string): (r: string)
    ensures |r| <= |s|
    ensures |r| > 0 ==> !IsSpace(r[0]) && !IsSpace(r[|r| - 1])
  {
    StripRight(StripLeft(s))
  }

  /** Python `str.split(sep)`: the pieces between separators, always at least one. */
  function Split(s: string, sep: char): (parts: seq<string>)
    ensures |parts| >= 1
    ensures sep !in s ==> parts == [s]
    decreases |s|
  {
    if sep !in s then [s]
    else
      var i := Lists.IndexOf(s, sep);
      [s[..i]] + Split(s[i + 1..], sep)
  }

  /** The digits of a decimal literal as `int()` reads it: ASCII digits,
      where a single underscore may stand between two digits. */
  predicate IsDigitGroup(s: string) {
    && |s| > 0 && IsDigit(s[0]) && IsDigit(s[|s| - 1])
    && (forall i :: 0 <= i < |s| ==> IsDigit(s[i]) || s[i] == '_')
    && (forall i, j :: 0 <= i < |s| && 0 <= j < |s| && j == i + 1 ==> !(s[i] == '_' && s[j] == '_'))
  }

  /** The value of a digit group: each digit shifts in, underscores are
      skipped. */
  function GroupValue(s: string): nat
    requires forall i :: 0 <= i < |s| ==> IsDigit(s[i]) || s[i] == '_'
  {
    if s == [] then 0
    else if s[|s| - 1] == '_' then GroupValue(s[..|s| - 1])
    else 10 * GroupValue(s[..|s| - 1]) + DigitValue(s[|s| - 1])
  }

  /** Without underscores a group is worth its plain decimal value. */
  lemma {:induction false} GroupValueOfDigits(d: string)
    requires |d| > 0 && AllDigits(d)
    ensures GroupValue(d) == ParseDigits(d)
  {
    if |d| > 1 {
      GroupValueOfDigits(d[..|d| - 1]);
    }
  }

  /** Python `int(text)` in base 10: surrounding whitespace, an optional
      sign and a digit group; anything else is a ValueError. Non-ASCII
      decimal digits are not modelled. */
  function ParseInt(text: string): Result<int> {
    var t := Strip(text);
    var signed := |t| > 0 && (t[0] == '+' || t[0] == '-');
    var body := if signed then t[1..] else t;
    if IsDigitGroup(body) then
      var magnitude: int := GroupValue(body);
      Ok(if signed && t[0] == '-' then -magnitude else magnitude)
    else Err(ValueError)
  }

  datatype MoveInput = Accepted(row: nat, col: nat) | OutOfBounds | BadFormat

  /** One pass of get_move's loop body: "r,c" with 1-based coordinates
      becomes the 0-based cell (r - 1, c - 1) when it lies on the board. */
  function ParseMove(input: string, size: nat): (m: MoveInput)
    ensures m.Accepted? ==> m.row < size && m.col < size
  {
    var parts := Split(Strip(input), ',');
    if |parts| != 2 then BadFormat else Cell(ParseInt(parts[0]), ParseInt(parts[1]), size)
  }

  /** The bounds check on the two parsed coordinates. */
  function Cell(row: Result<int>, col: Result<int>, size: nat): (m: MoveInput)
    ensures m.Accepted? ==> m.row < size && m.col < size
  {
    match (row, col)
    case (Ok(r), Ok(c)) =>
      if 0 <= r - 1 < size && 0 <= c - 1 < size then Accepted(r - 1, c - 1) else OutOfBounds
    case _ => BadFormat
  }

  /** A move whose stripped text is two comma-free parts is decided by
      the two parts alone. */
  lemma ParseMoveParts(input: string, a: string, b: string, size: nat)
    requires Strip(input) == a + "," + b && ',' !in a && ',' !in b
    ensures ParseMove(input, size) == Cell(ParseInt(a), ParseInt(b), size)
  {
    SplitPair(a, b);
  }

  lemma StripUntouched(s: string)
    requires |s| > 0 && !IsSpace(s[0]) && !IsSpace(s[|s| - 1])
    ensures Strip(s) == s
  {
  }

  /** Empty or all-whitespace text is not a number. */
  lemma ParseIntRejectsBlank(text: string)
    requires forall i :: 0 <= i < |text| ==> IsSpace(text[i])
    ensures ParseInt(text) == Err(ValueError)
  {
    assert |Strip(text)| == 0;
  }

  /** A run of ASCII digits, with or without a minus sign, is read as its
      value. */
  lemma ParseDigitRun(d: string, negative: bool)
    requires |d| > 0 && AllDigits(d)
    ensures ParseInt(if negative then "-" + d else d) == Ok(if negative then -(ParseDigits(d) as int) else ParseDigits(d))
  {
    var t := if negative then "-" + d else d;
    assert Strip(t) == t by {
      assert IsDigit(d[0]) && IsDigit(d[|d| - 1]);
      assert !IsSpace(t[0]) && !IsSpace(t[|t| - 1]);
      StripUntouched(t);
    }
    if negative {
      assert t[0] == '-' && t[1..] == d;
      ParseIntNegative(t, d);
    } else {
      ParseIntUnsigned(t, d);
    }
  }

  /** `int` of text that strips to an unsigned digit group. */
  lemma ParseIntGroup(text: string, g: string)
    requires Strip(text) == g && IsDigitGroup(g)
    ensures ParseInt(text) == Ok(GroupValue(g))
  {
    assert g[0] != '+' && g[0] != '-';
  }

  /** `int` of text that strips to a run of ASCII digits. */
  lemma ParseIntUnsigned(text: string, d: string)
    requires Strip(text) == d && |d| > 0 && AllDigits(d)
    ensures ParseInt(text) == Ok(ParseDigits(d))
  {
    DigitsAreGroup(d);
    ParseIntGroup(text, d);
  }

  /** `int` of text that strips to a minus sign and a run of ASCII digits. */
  lemma ParseIntNegative(text: string, d: string)
    requires |Strip(text)| > 0 && Strip(text)[0] == '-' && Strip(text)[1..] == d
    requires |d| > 0 && AllDigits(d)
    ensures ParseInt(text) == Ok(-(ParseDigits(d) as int))
  {
    DigitsAreGroup(d);
  }

  /** A run of ASCII digits is a digit group worth its plain value. */
  lemma DigitsAreGroup(d: string)
    requires |d| > 0 && AllDigits(d)
    ensures IsDigitGroup(d) && GroupValue(d) == ParseDigits(d)
  {
    GroupValueOfDigits(d);
  }

  lemma ParseShowInt(i: int)
    ensures ParseInt(ShowInt(i)) == Ok(i)
  {
    var digits := ShowNat(if i < 0 then -i else i);
    ParseShowNat(if i < 0 then -i else i);
    ParseDigitRun(digits, i < 0);
  }

  lemma SplitPair(a: string, b: string)
    requires ',' !in a && ',' !in b
    ensures Split(a + "," + b, ',') == [a, b]
  {
    var s := a + "," + b;
    assert s[|a|] == ',';
    var i := Lists.IndexOf(s, ',');
    assert s[..i] == a;
    assert s[i + 1..] == b;
  }

  lemma NoCommaInShowInt(i: int)
    ensures ',' !in ShowInt(i)
  {
    var digits := ShowNat(if i < 0 then -i else i);
    if i < 0 {
      assert ShowInt(i) == "-" + digits;
      assert forall k :: 0 <= k < |ShowInt(i)| ==> ShowInt(i)[k] == '-' || IsDigit(ShowInt(i)[k]);
    }
  }

  /** "r,c" is accepted exactly when both coordinates lie in 1..size, and
      then it becomes the zero-based pair (r - 1, c - 1). */
  lemma {:induction false} ParseMoveRoundTrip(r: int, c: int, size: nat)
    ensures 1 <= r <= size && 1 <= c <= size ==>
              ParseMove(ShowInt(r) + "," + ShowInt(c), size) == Accepted(r - 1, c - 1)
    ensures !(1 <= r <= size && 1 <= c <= size) ==>
              ParseMove(ShowInt(r) + "," + ShowInt(c), size) == OutOfBounds
  {
    var a, b := ShowInt(r), ShowInt(c);
    ShowPairStrips(r, c);
    ParseMoveParts(a + "," + b, a, b, size);
    ParseShowInt(r);
    ParseShowInt(c);
  }

  /** The text of two integers around a comma strips to itself and has no
      other comma. */
  lemma ShowPairStrips(r: int, c: int)
    ensures Strip(ShowInt(r) + "," + ShowInt(c)) == ShowInt(r) + "," + ShowInt(c)
    ensures ',' !in ShowInt(r) && ',' !in ShowInt(c)
  {
    var a, b := ShowInt(r), ShowInt(c);
    var s := a + "," + b;
    ShowIntEnds(r);
    ShowIntEnds(c);
    assert s[0] == a[0] && s[|s| - 1] == b[|b| - 1];
    StripUntouched(s);
    NoCommaInShowInt(r);
    NoCommaInShowInt(c);
  }

  /** Neither end of an integer's text is whitespace. */
  lemma ShowIntEnds(i: int)
    ensures !IsSpace(ShowInt(i)[0]) && !IsSpace(ShowInt(i)[|ShowInt(i)| - 1])
  {
    var digits := ShowNat(if i < 0 then -i else i);
    assert IsDigit(digits[0]) && IsDigit(digits[|digits| - 1]);
    if i < 0 {
      assert ShowInt(i) == "-" + digits;
    }
  }

  /** An underscore adds nothing to a group's value: "1_000" is worth what
      "1000" is. */
  lemma {:induction false} GroupValueSkipsUnderscore(s: string, t: string)
    requires forall i :: 0 <= i < |s| ==> IsDigit(s[i]) || s[i] == '_'
    requires forall i :: 0 <= i < |t| ==> IsDigit(t[i]) || t[i] == '_'
    ensures GroupValue(s + ['_'] + t) == GroupValue(s + t)
  {
    var u := s + ['_'] + t;
    if t == [] {
      assert u[..|u| - 1] == s;
      assert s + t == s;
    } else {
      var t' := t[..|t| - 1];
      assert u[..|u| - 1] == s + ['_'] + t';
      assert (s + t)[..|s + t| - 1] == s + t';
      assert u[|u| - 1] == t[|t| - 1] == (s + t)[|s + t| - 1];
      GroupValueSkipsUnderscore(s, t');
    }
  }

  /** `strip()` also removes a trailing no-break space (U+00A0). */
  lemma StripNoBreakSpace(t: string)
    requires |t| > 0 && !IsSpace(t[0]) && !IsSpace(t[|t| - 1])
    ensures Strip(t + ['\U{00A0}']) == t
  {
    var s := t + ['\U{00A0}'];
    assert s[0] == t[0] && IsSpace(s[|s| - 1]);
    assert s[..|s| - 1] == t;
    StripUntouched(t);
  }

  /** A trailing no-break space does not change how a move is read, so
      "1,2" followed by U+00A0 is the same move as "1,2". */
  lemma NoBreakSpaceMove(input: string, size: nat)
    requires |input| > 0 && !IsSpace(input[0]) && !IsSpace(input[|input| - 1])
    ensures ParseMove(input + ['\U{00A0}'], size) == ParseMove(input, size)
  {
    StripNoBreakSpace(input);
    StripUntouched(input);
  }

  /** Two digit groups around a comma are read as their values, underscores
      included: "0_1,2" is read as row 1, column 2. */
  lemma GroupsMove(row: string, col: string, size: nat)
    requires IsDigitGroup(row) && IsDigitGroup(col)
    ensures ParseMove(row + "," + col, size) == Cell(Ok(GroupValue(row)), Ok(GroupValue(col)), size)
  {
    GroupPairStrips(row, col);
    ParseMoveParts(row + "," + col, row, col, size);
    GroupParsed(row);
    GroupParsed(col);
  }

  /** Two digit groups around a comma strip to themselves, and neither holds
      a comma. */
  lemma GroupPairStrips(row: string, col: string)
    requires IsDigitGroup(row) && IsDigitGroup(col)
    ensures Strip(row + "," + col) == row + "," + col
    ensures ',' !in row && ',' !in col
  {
    var input := row + "," + col;
    assert input[0] == row[0] && input[|input| - 1] == col[|col| - 1];
    StripUntouched(input);
    assert forall i :: 0 <= i < |row| ==> row[i] != ',';
    assert forall i :: 0 <= i < |col| ==> col[i] != ',';
  }

  /** A digit group on its own is read as its value. */
  lemma GroupParsed(g: string)
    requires IsDigitGroup(g)
    ensures ParseInt(g) == Ok(GroupValue(g))
  {
    StripUntouched(g);
    ParseIntGroup(g, g);
  }

  /** Two underscores in a row, or one in front of the digits, are a
      ValueError. */
  lemma BadUnderscores(a: char, b: char)
    requires IsDigit(a) && IsDigit(b)
    ensures ParseInt([a, '_', '_', b]) == Err(ValueError)
    ensures ParseInt(['_', a]) == Err(ValueError)
  {
    var doubled := [a, '_', '_', b];
    StripUntouched(doubled);
    assert doubled[1] == '_' && doubled[2] == '_';
    StripUntouched(['_', a]);
  }
}
