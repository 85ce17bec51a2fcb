/**
 * The rules engine of the bot: a generalised tic-tac-toe board of
 * `height` rows and `width` columns on which a line of `winLength`
 * equal marks wins.
 *
 * The first half of the module is the abstract value of a game
 * (`Snapshot`) and the pure functions that say what each operation does
 * to it; the second half is the class `GameState`, whose methods update
 * a two-dimensional array in place and are proved to implement those
 * functions.
 */
module Game {

  /** A cell of the board: one of the two marks, or unoccupied. */
  datatype Cell = X | O | Empty

  datatype Option<T> = None | Some(value: T)

  /** One rendered token of `ShowBoardToString`: a cell, or a line break. */
  datatype Token = Mark(cell: Cell) | Newline

  /** The abstract value of a `GameState`. */
  datatype Snapshot = Snapshot(
    board: seq<seq<Cell>>,
    width: int,
    height: int,
    winLength: int,
    whoTurn: Cell,
    isGameEnded: bool,
    whoWin: Cell)

  /** `b` has `height` rows of `width` cells each. */
  predicate IsGrid(b: seq<seq<Cell>>, height: int, width: int)
  {
    |b| == height && width >= 0 && forall r :: 0 <= r < |b| ==> |b[r]| == width
  }

  predicate WellFormed(s: Snapshot)
  {
    IsGrid(s.board, s.height, s.width)
  }

  predicate InBounds(s: Snapshot, i: int, j: int)
  {
    0 <= i < s.height && 0 <= j < s.width
  }

  /** The value of the struct literal `GameState{Width: w, Height: h, WinLength: l}`:
    * no board yet, and the turn and winner at Go's zero value (written here as Empty). */
  function Fresh(width: int, height: int, winLength: int): (s: Snapshot)
    ensures s.board == [] && !s.isGameEnded
  {
    Snapshot([], width, height, winLength, Empty, false, Empty)
  }

  /** Whether a board of this shape can hold a line of `winLength` cells. */
  function ValidateParams(s: Snapshot): (r: bool)
    ensures r && s.winLength >= 1 ==> InBounds(s, s.winLength - 1, s.winLength - 1)
  {
    s.width >= s.winLength && s.height >= s.winLength
  }

  // ---------------------------------------------------------------------
  // ResetGame
  // ---------------------------------------------------------------------

  function EmptyGrid(height: nat, width: nat): (b: seq<seq<Cell>>)
    ensures IsGrid(b, height, width)
    ensures forall r, c :: 0 <= r < height && 0 <= c < width ==> b[r][c] == Empty
  {
    seq(height, _ => seq(width, _ => Empty))
  }

  /** ResetGame: a fresh all-Empty board, X to move, game not ended.
    * Width, height, win length and the recorded winner are kept. */
  function Reset(s: Snapshot): (r: Snapshot)
    requires s.height >= 0 && s.width >= 0
    ensures WellFormed(r) && r.whoTurn == X && !r.isGameEnded
  {
    s.(board := EmptyGrid(s.height, s.width), whoTurn := X, isGameEnded := false)
  }

  /** The number of Empty cells in a row. */
  function CountRow(row: seq<Cell>): nat
  {
    if row == [] then 0 else (if row[0] == Empty then 1 else 0) + CountRow(row[1..])
  }

  /** The number of Empty cells on a board. */
  function CountEmpty(b: seq<seq<Cell>>): nat
  {
    if b == [] then 0 else CountRow(b[0]) + CountEmpty(b[1..])
  }

  lemma {:induction false} CountRowAllEmpty(row: seq<Cell>)
    requires forall c :: 0 <= c < |row| ==> row[c] == Empty
    ensures CountRow(row) == |row|
  {
    if row != [] {
      CountRowAllEmpty(row[1..]);
    }
  }

  lemma {:induction false} CountEmptyAllEmpty(b: seq<seq<Cell>>, width: nat)
    requires IsGrid(b, |b|, width)
    requires forall r, c :: 0 <= r < |b| && 0 <= c < width ==> b[r][c] == Empty
    ensures CountEmpty(b) == |b| * width
  {
    if b != [] {
      CountRowAllEmpty(b[0]);
      CountEmptyAllEmpty(b[1..], width);
      assert |b| * width == width + (|b| - 1) * width;
    }
  }

  /** ResetGame leaves a board of `height` rows of `width` Empty cells, X to
    * move, the game open and no winning cell; the shape, the win length and
    * the recorded winner are untouched. */
  lemma ResetClearsBoard(s: Snapshot)
    requires s.height >= 0 && s.width >= 0
    ensures var r := Reset(s);
      && WellFormed(r)
      && (forall p, q :: InBounds(r, p, q) ==> r.board[p][q] == Empty)
      && CountEmpty(r.board) == s.height * s.width
      && FirstWinningCell(r, 0, 0) == None
      && r.whoTurn == X && !r.isGameEnded
      && r.width == s.width && r.height == s.height && r.winLength == s.winLength && r.whoWin == s.whoWin
  {
    var r := Reset(s);
    CountEmptyAllEmpty(r.board, s.width);
    FirstWinningCellSpec(r, 0, 0);
  }

  // ---------------------------------------------------------------------
  // CheckEnd
  // ---------------------------------------------------------------------

  /** The four directions CheckEnd probes from a cell. The source names its
    * flags `row` (which probes Down), `col` (Right), `diag1` (DownRight)
    * and `diag2` (UpRight). */
  datatype Direction = Down | Right | DownRight | UpRight

  /** The cell `k` steps from `(i, j)` in direction `d`. */
  function Probe(d: Direction, i: int, j: int, k: int): (int, int)
  {
    match d
    case Down => (i + k, j)
    case Right => (i, j + k)
    case DownRight => (i + k, j + k)
    case UpRight => (i - k, j + k)
  }

  /** The cell `k` steps away in direction `d` is on the board and carries
    * the same mark as `(i, j)`. */
  predicate Matches(s: Snapshot, i: int, j: int, d: Direction, k: int)
    requires WellFormed(s) && InBounds(s, i, j)
  {
    var c := Probe(d, i, j, k);
    InBounds(s, c.0, c.1) && s.board[c.0][c.1] == s.board[i][j]
  }

  /** The next `winLength - 1` cells in direction `d` all match `(i, j)`;
    * vacuously true when `winLength <= 1`. */
  predicate Line(s: Snapshot, i: int, j: int, d: Direction)
    requires WellFormed(s) && InBounds(s, i, j)
  {
    forall k :: 1 <= k < s.winLength ==> Matches(s, i, j, d, k)
  }

  /** An occupied cell that starts a winning line in one of the four directions. */
  predicate WinsAt(s: Snapshot, i: int, j: int)
    requires WellFormed(s) && InBounds(s, i, j)
  {
    s.board[i][j] != Empty &&
    (Line(s, i, j, Down) || Line(s, i, j, Right) || Line(s, i, j, DownRight) || Line(s, i, j, UpRight))
  }

  /** `(p, q)` comes strictly before `(i, j)` in row-major order. */
  predicate Before(p: int, q: int, i: int, j: int)
  {
    p < i || (p == i && q < j)
  }

  /** The first winning cell at or after `(i, j)` in row-major order. */
  function FirstWinningCell(s: Snapshot, i: int, j: int): (r: Option<(int, int)>)
    requires WellFormed(s) && 0 <= i <= s.height && 0 <= j <= s.width
    ensures r.Some? ==> InBounds(s, r.value.0, r.value.1)
    decreases s.height - i, s.width - j
  {
    if i == s.height then None
    else if j == s.width then FirstWinningCell(s, i + 1, 0)
    else if WinsAt(s, i, j) then Some((i, j))
    else FirstWinningCell(s, i, j + 1)
  }

  /** FirstWinningCell finds a winning cell exactly when there is one at or
    * after `(i, j)`, and the one it finds is the earliest in row-major order. */
  lemma {:induction false} FirstWinningCellSpec(s: Snapshot, i: int, j: int)
    requires WellFormed(s) && 0 <= i <= s.height && 0 <= j <= s.width
    ensures var r := FirstWinningCell(s, i, j);
      && (r.Some? ==> InBounds(s, r.value.0, r.value.1) && !Before(r.value.0, r.value.1, i, j))
      && (r.Some? ==> WinsAt(s, r.value.0, r.value.1))
      && (r.Some? ==>
            forall p, q :: InBounds(s, p, q) && !Before(p, q, i, j) && Before(p, q, r.value.0, r.value.1) ==> !WinsAt(s, p, q))
      && (r.None? ==> forall p, q :: InBounds(s, p, q) && !Before(p, q, i, j) ==> !WinsAt(s, p, q))
    decreases s.height - i, s.width - j
  {
    if i == s.height {
    } else if j == s.width {
      FirstWinningCellSpec(s, i + 1, 0);
    } else if WinsAt(s, i, j) {
    } else {
      FirstWinningCellSpec(s, i, j + 1);
    }
  }

  predicate HasEmpty(s: Snapshot)
    requires WellFormed(s)
  {
    exists p, q :: 0 <= p < s.height && 0 <= q < s.width && s.board[p][q] == Empty
  }

  /** Some Empty cell comes strictly before `(i, j)` in row-major order. */
  ghost predicate EmptyBefore(s: Snapshot, i: int, j: int)
    requires WellFormed(s)
  {
    exists p, q :: InBounds(s, p, q) && Before(p, q, i, j) && s.board[p][q] == Empty
  }

  lemma EmptyBeforeNext(s: Snapshot, i: int, j: int)
    requires WellFormed(s) && InBounds(s, i, j)
    ensures EmptyBefore(s, i, j + 1) <==> EmptyBefore(s, i, j) || s.board[i][j] == Empty
  {
    if EmptyBefore(s, i, j + 1) && s.board[i][j] != Empty {
      var p, q :| InBounds(s, p, q) && Before(p, q, i, j + 1) && s.board[p][q] == Empty;
      assert Before(p, q, i, j);
    }
  }

  lemma EmptyBeforeNextRow(s: Snapshot, i: int)
    requires WellFormed(s) && 0 <= i < s.height
    ensures EmptyBefore(s, i, s.width) <==> EmptyBefore(s, i + 1, 0)
  {
    if EmptyBefore(s, i + 1, 0) {
      var p, q :| InBounds(s, p, q) && Before(p, q, i + 1, 0) && s.board[p][q] == Empty;
      assert Before(p, q, i, s.width);
    }
  }

  lemma EmptyBeforeEnd(s: Snapshot)
    requires WellFormed(s)
    ensures EmptyBefore(s, s.height, 0) <==> HasEmpty(s)
  {
    if HasEmpty(s) {
      var p, q :| 0 <= p < s.height && 0 <= q < s.width && s.board[p][q] == Empty;
      assert InBounds(s, p, q) && Before(p, q, s.height, 0);
    }
  }

  /** A run of matches up to `k` is the run up to `k - 1` plus the match at `k`. */
  lemma ExtendRun(s: Snapshot, i: int, j: int, d: Direction, k: int)
    requires WellFormed(s) && InBounds(s, i, j) && k >= 1
    ensures (forall t :: 1 <= t < k + 1 ==> Matches(s, i, j, d, t)) <==>
            (forall t :: 1 <= t < k ==> Matches(s, i, j, d, t)) && Matches(s, i, j, d, k)
  {
  }

  /** Matches spelled out per direction, as CheckEnd's inner loop tests it. */
  lemma MatchesSpelledOut(s: Snapshot, i: int, j: int, k: int)
    requires WellFormed(s) && InBounds(s, i, j) && k >= 1
    ensures Matches(s, i, j, Down, k) <==> i + k < s.height && s.board[i + k][j] == s.board[i][j]
    ensures Matches(s, i, j, Right, k) <==> j + k < s.width && s.board[i][j + k] == s.board[i][j]
    ensures Matches(s, i, j, DownRight, k) <==>
              i + k < s.height && j + k < s.width && s.board[i + k][j + k] == s.board[i][j]
    ensures Matches(s, i, j, UpRight, k) <==>
              i - k >= 0 && j + k < s.width && s.board[i - k][j + k] == s.board[i][j]
  {
  }

  /** The cells of a line of `winLength` starting at `(i, j)` in direction `d` all lie on the board. */
  predicate Fits(s: Snapshot, i: int, j: int, d: Direction)
  {
    InBounds(s, i, j) && forall k :: 1 <= k < s.winLength ==> InBounds(s, Probe(d, i, j, k).0, Probe(d, i, j, k).1)
  }

  /** ValidateParams accepts exactly the boards on which a full diagonal line fits. */
  lemma ValidateParamsMeansDiagonalFits(s: Snapshot)
    requires s.winLength >= 1
    ensures ValidateParams(s) <==> Fits(s, 0, 0, DownRight)
  {
    if Fits(s, 0, 0, DownRight) && s.winLength > 1 {
      var c := Probe(DownRight, 0, 0, s.winLength - 1);
      assert InBounds(s, c.0, c.1);
    }
  }

  /** A winning line lies entirely on the board. */
  lemma WinningLineFits(s: Snapshot, i: int, j: int, d: Direction)
    requires WellFormed(s) && InBounds(s, i, j) && Line(s, i, j, d)
    ensures Fits(s, i, j, d)
  {
    forall k | 1 <= k < s.winLength
      ensures InBounds(s, Probe(d, i, j, k).0, Probe(d, i, j, k).1)
    {
      assert Matches(s, i, j, d, k);
    }
  }

  /** With a win length of at most 1 every occupied cell wins. */
  lemma ShortWinLength(s: Snapshot, i: int, j: int)
    requires WellFormed(s) && InBounds(s, i, j) && s.winLength <= 1
    ensures WinsAt(s, i, j) <==> s.board[i][j] != Empty
  {
  }

  /** When `(p, q)` is the first winning cell in row-major order, CheckEnd
    * ends the game and names the mark on that cell as the winner. */
  lemma CheckEndWin(s: Snapshot, p: int, q: int)
    requires WellFormed(s) && InBounds(s, p, q) && WinsAt(s, p, q)
    requires forall p', q' :: InBounds(s, p', q') && Before(p', q', p, q) ==> !WinsAt(s, p', q')
    ensures AfterCheckEnd(s).isGameEnded
    ensures AfterCheckEnd(s).whoWin == s.board[p][q] != Empty
  {
    FirstWinningCellSpec(s, 0, 0);
    var c := FirstWinningCell(s, 0, 0).value;
    assert !Before(c.0, c.1, p, q);
  }

  /** Without a winning cell, CheckEnd declares a draw on a full board and
    * leaves the state alone otherwise. */
  lemma CheckEndNoWin(s: Snapshot)
    requires WellFormed(s)
    requires forall p, q :: InBounds(s, p, q) ==> !WinsAt(s, p, q)
    ensures !HasEmpty(s) ==> AfterCheckEnd(s).isGameEnded && AfterCheckEnd(s).whoWin == Empty
    ensures HasEmpty(s) ==> AfterCheckEnd(s) == s
  {
    FirstWinningCellSpec(s, 0, 0);
  }

  /** A 3 by 3 game with lines of 3: X on the main diagonal wins, even with
    * Empty cells left. */
  lemma DiagonalWinExample()
    ensures var s := Snapshot([[X, O, Empty], [O, X, Empty], [Empty, Empty, X]], 3, 3, 3, O, false, Empty);
      AfterCheckEnd(s).isGameEnded && AfterCheckEnd(s).whoWin == X
  {
    var s := Snapshot([[X, O, Empty], [O, X, Empty], [Empty, Empty, X]], 3, 3, 3, O, false, Empty);
    assert Matches(s, 0, 0, DownRight, 1) && Matches(s, 0, 0, DownRight, 2);
    CheckEndWin(s, 0, 0);
  }

  /** CheckEnd: the first winning cell in row-major order decides the winner;
    * with no winner and no Empty cell the game is a draw (winner Empty);
    * otherwise nothing changes. Only `isGameEnded` and `whoWin` are written,
    * and an ended game is never reopened. */
  function AfterCheckEnd(s: Snapshot): (r: Snapshot)
    requires WellFormed(s)
    ensures r == s.(isGameEnded := r.isGameEnded, whoWin := r.whoWin)
    ensures s.isGameEnded ==> r.isGameEnded
  {
    match FirstWinningCell(s, 0, 0)
    case Some(c) => s.(isGameEnded := true, whoWin := s.board[c.0][c.1])
    case None => if !HasEmpty(s) then s.(isGameEnded := true, whoWin := Empty) else s
  }

  // ---------------------------------------------------------------------
  // MakeMove
  // ---------------------------------------------------------------------

  /** The guard of MakeMove: game not ended, `(i, j)` on the board and Empty. */
  predicate Legal(s: Snapshot, i: int, j: int)
    requires WellFormed(s)
  {
    !s.isGameEnded && 0 <= i < s.height && 0 <= j < s.width && s.board[i][j] == Empty
  }

  /** The mark to move after `c`: X becomes O, anything else becomes X. */
  function Other(c: Cell): Cell
  {
    if c == X then O else X
  }

  /** Writes the mark whose turn it is into `(i, j)`. */
  function Place(s: Snapshot, i: int, j: int): (r: Snapshot)
    requires WellFormed(s) && InBounds(s, i, j)
    ensures WellFormed(r)
  {
    s.(board := s.board[i := s.board[i][j := s.whoTurn]])
  }

  datatype MoveResult = MoveResult(ok: bool, after: Snapshot)

  /** MakeMove: a rejected move changes nothing; an accepted one places the
    * mark, runs CheckEnd and then hands the turn over. */
  function TryMove(s: Snapshot, i: int, j: int): (r: MoveResult)
    requires WellFormed(s)
    ensures WellFormed(r.after)
  {
    if Legal(s, i, j) then
      var t := AfterCheckEnd(Place(s, i, j));
      MoveResult(true, t.(whoTurn := Other(s.whoTurn)))
    else
      MoveResult(false, s)
  }

  lemma {:induction false} CountRowUpdate(row: seq<Cell>, j: int, c: Cell)
    requires 0 <= j < |row| && row[j] == Empty && c != Empty
    ensures CountRow(row[j := c]) + 1 == CountRow(row)
  {
    if j == 0 {
      assert row[j := c][1..] == row[1..];
    } else {
      assert row[j := c][1..] == row[1..][j - 1 := c];
      CountRowUpdate(row[1..], j - 1, c);
    }
  }

  lemma {:induction false} CountEmptyUpdate(b: seq<seq<Cell>>, i: int, row: seq<Cell>)
    requires 0 <= i < |b| && CountRow(row) + 1 == CountRow(b[i])
    ensures CountEmpty(b[i := row]) + 1 == CountEmpty(b)
  {
    if i == 0 {
      assert b[i := row][1..] == b[1..];
    } else {
      assert b[i := row][1..] == b[1..][i - 1 := row];
      CountEmptyUpdate(b[1..], i - 1, row);
    }
  }

  /** An accepted move writes the mover's mark into `(i, j)` and nowhere
    * else, uses up exactly one Empty cell, and hands the turn over even when
    * it ends the game. */
  lemma MoveEffect(s: Snapshot, i: int, j: int)
    requires WellFormed(s) && Legal(s, i, j)
    ensures var r := TryMove(s, i, j);
      && r.ok
      && r.after.board[i][j] == s.whoTurn
      && (forall p, q :: InBounds(s, p, q) && (p != i || q != j) ==> r.after.board[p][q] == s.board[p][q])
      && r.after.whoTurn == Other(s.whoTurn)
      && r.after.width == s.width && r.after.height == s.height && r.after.winLength == s.winLength
      && (s.whoTurn != Empty ==> CountEmpty(r.after.board) + 1 == CountEmpty(s.board))
  {
    if s.whoTurn != Empty {
      CountRowUpdate(s.board[i], j, s.whoTurn);
      CountEmptyUpdate(s.board, i, s.board[i][j := s.whoTurn]);
    }
  }

  /** The turn is always a mark once the board has been reset: a reset hands
    * it to X, a rejected move keeps it, and an accepted move hands it to
    * `Other` of the mover, which is never Empty. */
  lemma TurnStaysAMark(s: Snapshot, i: int, j: int)
    requires WellFormed(s) && s.whoTurn != Empty
    ensures TryMove(s, i, j).after.whoTurn != Empty
    ensures s.height >= 0 && s.width >= 0 ==> Reset(s).whoTurn == X
  {
  }

  /** No move, accepted or not, turns an occupied cell back into an Empty one. */
  lemma MoveNeverClearsCell(s: Snapshot, i: int, j: int, p: int, q: int)
    requires WellFormed(s) && InBounds(s, p, q) && s.board[p][q] != Empty
    ensures TryMove(s, i, j).after.board[p][q] == s.board[p][q]
  {
  }

  // ---------------------------------------------------------------------
  // ShowBoardToString
  // ---------------------------------------------------------------------

  function RowTokens(row: seq<Cell>): (ts: seq<Token>)
    ensures |ts| == |row|
  {
    seq(|row|, k requires 0 <= k < |row| => Mark(row[k]))
  }

  /** Each row's cells followed by a line break, rows in order. */
  function RenderRows(rows: seq<seq<Cell>>): seq<Token>
  {
    if rows == [] then []
    else RenderRows(rows[..|rows| - 1]) + RowTokens(rows[|rows| - 1]) + [Newline]
  }

  /** The text of ShowBoardToString: every row and its line break, then one more line break. */
  function Rendered(b: seq<seq<Cell>>): seq<Token>
  {
    RenderRows(b) + [Newline]
  }

  /** The number of line breaks among `ts`. */
  function NewlineCount(ts: seq<Token>): nat
  {
    if ts == [] then 0 else NewlineCount(ts[..|ts| - 1]) + (if ts[|ts| - 1] == Newline then 1 else 0)
  }

  /** The cells among `ts`, in order. */
  function MarksOf(ts: seq<Token>): seq<Cell>
  {
    if ts == [] then [] else MarksOf(ts[..|ts| - 1]) + (if ts[|ts| - 1].Mark? then [ts[|ts| - 1].cell] else [])
  }

  /** The cells of a board in row-major order. */
  function Flatten(rows: seq<seq<Cell>>): seq<Cell>
  {
    if rows == [] then [] else Flatten(rows[..|rows| - 1]) + rows[|rows| - 1]
  }

  lemma {:induction false} TokensAppend(a: seq<Token>, b: seq<Token>)
    ensures NewlineCount(a + b) == NewlineCount(a) + NewlineCount(b)
    ensures MarksOf(a + b) == MarksOf(a) + MarksOf(b)
    decreases |b|
  {
    if b == [] {
      assert a + b == a;
    } else {
      var n := |b| - 1;
      assert (a + b)[..|a + b| - 1] == a + b[..n];
      assert (a + b)[|a + b| - 1] == b[n];
      TokensAppend(a, b[..n]);
    }
  }

  lemma {:induction false} RowTokensShape(row: seq<Cell>)
    ensures NewlineCount(RowTokens(row)) == 0 && MarksOf(RowTokens(row)) == row
  {
    if row != [] {
      var n := |row| - 1;
      assert RowTokens(row)[..n] == RowTokens(row[..n]);
      RowTokensShape(row[..n]);
      assert row[..n] + [row[n]] == row;
    }
  }

  /** The rendered board holds the cells in row-major order and `|b| + 1`
    * line breaks. */
  lemma {:induction false} RenderedShape(b: seq<seq<Cell>>)
    ensures NewlineCount(Rendered(b)) == |b| + 1
    ensures MarksOf(Rendered(b)) == Flatten(b)
  {
    RenderRowsShape(b);
    TokensAppend(RenderRows(b), [Newline]);
    assert MarksOf([Newline]) == [] && NewlineCount([Newline]) == 1 by {
      assert [Newline][..0] == [];
    }
  }

  /** The position of cell `(r, c)` in the rendering of a board `w` cells
    * wide, that is `r * (w + 1) + c`: every earlier row takes its `w` cells
    * and a line break. Position `(r, w)` holds the line break ending row `r`. */
  function Slot(w: nat, r: nat, c: int): (p: int)
    ensures p >= c
  {
    if r == 0 then c else Slot(w, r - 1, c) + w + 1
  }

  lemma {:induction false} SlotIsProduct(w: nat, r: nat, c: int)
    ensures Slot(w, r, c) == r * (w + 1) + c
  {
    if r > 0 {
      SlotIsProduct(w, r - 1, c);
    }
  }

  lemma {:induction false} SlotOffset(w: nat, r: nat, c: int)
    ensures Slot(w, r, c) == Slot(w, r, 0) + c
  {
    if r > 0 {
      SlotOffset(w, r - 1, c);
    }
  }

  lemma {:induction false} SlotInEarlierRow(w: nat, r: nat, c: int, n: nat)
    requires r < n && 0 <= c <= w
    ensures 0 <= Slot(w, r, c) < Slot(w, n, 0)
    decreases n
  {
    SlotOffset(w, r, c);
    SlotOffset(w, n - 1, 0);
    if r < n - 1 {
      SlotInEarlierRow(w, r, w, n - 1);
      SlotOffset(w, r, w);
    }
  }

  /** The rendering of a board `w` cells wide, position by position: row `r`
    * occupies positions `Slot(w, r, 0)` to `Slot(w, r, w)`, its cells in
    * order and then a line break, and one more line break ends the text. */
  lemma RenderedLayout(b: seq<seq<Cell>>, w: nat)
    requires IsGrid(b, |b|, w)
    ensures |Rendered(b)| == |b| * (w + 1) + 1
    ensures forall r: nat, c :: r < |b| && 0 <= c <= w ==> 0 <= Slot(w, r, c) < |Rendered(b)| - 1
    ensures forall r: nat, c :: r < |b| && 0 <= c < w ==> Rendered(b)[Slot(w, r, c)] == Mark(b[r][c])
    ensures forall r: nat :: r < |b| ==> Rendered(b)[Slot(w, r, w)] == Newline
    ensures Rendered(b)[|b| * (w + 1)] == Newline
  {
    RenderRowsLayout(b, w);
    SlotIsProduct(w, |b|, 0);
  }

  lemma {:induction false} RenderRowsLayout(rows: seq<seq<Cell>>, w: nat)
    requires IsGrid(rows, |rows|, w)
    ensures |RenderRows(rows)| == Slot(w, |rows|, 0)
    ensures forall r: nat, c :: r < |rows| && 0 <= c <= w ==> 0 <= Slot(w, r, c) < |RenderRows(rows)|
    ensures forall r: nat, c :: r < |rows| && 0 <= c < w ==> RenderRows(rows)[Slot(w, r, c)] == Mark(rows[r][c])
    ensures forall r: nat :: r < |rows| ==> RenderRows(rows)[Slot(w, r, w)] == Newline
  {
    if rows != [] {
      var n := |rows| - 1;
      var pre := RenderRows(rows[..n]);
      RenderRowsLayout(rows[..n], w);
      var out := RenderRows(rows);
      assert out == pre + RowTokens(rows[n]) + [Newline];
      forall r: nat, c | r < |rows| && 0 <= c <= w
        ensures Slot(w, r, c) < |out|
        ensures c < w ==> out[Slot(w, r, c)] == Mark(rows[r][c])
        ensures c == w ==> out[Slot(w, r, c)] == Newline
      {
        SlotOffset(w, r, c);
        if r < n {
          SlotInEarlierRow(w, r, c, n);
          assert rows[..n][r] == rows[r];
        } else {
          assert Slot(w, r, c) == |pre| + c;
        }
      }
    }
  }

  lemma {:induction false} RenderRowsShape(rows: seq<seq<Cell>>)
    ensures NewlineCount(RenderRows(rows)) == |rows|
    ensures MarksOf(RenderRows(rows)) == Flatten(rows)
  {
    if rows != [] {
      var n := |rows| - 1;
      RenderRowsShape(rows[..n]);
      RowTokensShape(rows[n]);
      TokensAppend(RenderRows(rows[..n]), RowTokens(rows[n]));
      TokensAppend(RenderRows(rows[..n]) + RowTokens(rows[n]), [Newline]);
      assert MarksOf([Newline]) == [] && NewlineCount([Newline]) == 1 by {
        assert [Newline][..0] == [];
      }
    }
  }

  // ---------------------------------------------------------------------
  // The board as a class updated in place
  // ---------------------------------------------------------------------

  class GameState {
    var board: array2<Cell>
    var width: int
    var height: int
    var winLength: int
    var whoTurn: Cell
    var isGameEnded: bool
    var whoWin: Cell

    /** The board as rows of cells, kept equal to `board` by every method. */
    ghost var cells: seq<seq<Cell>>

    /** The board has been allocated with the declared dimensions and `cells` mirrors it. */
    ghost predicate Valid()
      reads this, board
    {
      && board.Length0 == height && board.Length1 == width
      && IsGrid(cells, height, width)
      && forall r, c :: 0 <= r < height && 0 <= c < width ==> cells[r][c] == board[r, c]
    }

    ghost function Value(): (s: Snapshot)
      reads this
    {
      Snapshot(cells, width, height, winLength, whoTurn, isGameEnded, whoWin)
    }

    /** The struct literal with Width, Height and WinLength set; the board is not yet allocated. */
    constructor (width: int, height: int, winLength: int)
      ensures Value() == Fresh(width, height, winLength)
    {
      this.board := new Cell[0, 0];
      this.cells := [];
      this.width := width;
      this.height := height;
      this.winLength := winLength;
      this.whoTurn := Empty;
      this.isGameEnded := false;
      this.whoWin := Empty;
    }

    method ResetGame() returns (ok: bool)
      requires width >= 0 && height >= 0
      modifies this`board, this`cells, this`whoTurn, this`isGameEnded
      ensures Valid() && fresh(board)
      ensures ok && Value() == Reset(old(Value()))
    {
      var b := new Cell[height, width];
      var i := 0;
      while i < height
        modifies b
        invariant 0 <= i <= height
        invariant forall p, q :: 0 <= p < i && 0 <= q < width ==> b[p, q] == Empty
      {
        var j := 0;
        while j < width
          modifies b
          invariant 0 <= j <= width
          invariant forall p, q :: 0 <= p < i && 0 <= q < width ==> b[p, q] == Empty
          invariant forall q :: 0 <= q < j ==> b[i, q] == Empty
        {
          b[i, j] := Empty;
          j := j + 1;
        }
        i := i + 1;
      }
      board := b;
      cells := EmptyGrid(height, width);
      whoTurn := X;
      isGameEnded := false;
      ok := true;
    }

    /** The inner loop of CheckEnd: for the occupied cell `(i, j)`, whether the
      * next `winLength - 1` cells down, right, down-right and up-right all
      * carry its mark. */
    method ProbeLines(i: int, j: int) returns (down: bool, right: bool, downRight: bool, upRight: bool)
      requires Valid() && InBounds(Value(), i, j)
      ensures down == Line(Value(), i, j, Down) && right == Line(Value(), i, j, Right)
      ensures downRight == Line(Value(), i, j, DownRight) && upRight == Line(Value(), i, j, UpRight)
    {
      ghost var s := Value();
      var who := board[i, j];
      down, right, downRight, upRight := true, true, true, true;
      var k := 1;
      while k < winLength
        invariant 1 <= k && (k <= winLength || k == 1)
        invariant down <==> forall t :: 1 <= t < k ==> Matches(s, i, j, Down, t)
        invariant right <==> forall t :: 1 <= t < k ==> Matches(s, i, j, Right, t)
        invariant downRight <==> forall t :: 1 <= t < k ==> Matches(s, i, j, DownRight, t)
        invariant upRight <==> forall t :: 1 <= t < k ==> Matches(s, i, j, UpRight, t)
      {
        MatchesSpelledOut(s, i, j, k);
        var down' := down && i + k < height && board[i + k, j] == who;
        assert down' <==> forall t :: 1 <= t < k + 1 ==> Matches(s, i, j, Down, t) by {
          ExtendRun(s, i, j, Down, k);
        }
        var right' := right && j + k < width && board[i, j + k] == who;
        assert right' <==> forall t :: 1 <= t < k + 1 ==> Matches(s, i, j, Right, t) by {
          ExtendRun(s, i, j, Right, k);
        }
        var downRight' := downRight && i + k < height && j + k < width && board[i + k, j + k] == who;
        assert downRight' <==> forall t :: 1 <= t < k + 1 ==> Matches(s, i, j, DownRight, t) by {
          ExtendRun(s, i, j, DownRight, k);
        }
        var upRight' := upRight && i - k >= 0 && j + k < width && board[i - k, j + k] == who;
        assert upRight' <==> forall t :: 1 <= t < k + 1 ==> Matches(s, i, j, UpRight, t) by {
          ExtendRun(s, i, j, UpRight, k);
        }
        down, right, downRight, upRight := down', right', downRight', upRight';
        k := k + 1;
      }
    }

    method CheckEnd()
      requires Valid()
      modifies this`isGameEnded, this`whoWin
      ensures Valid()
      ensures Value() == AfterCheckEnd(old(Value()))
    {
      ghost var s := Value();
      var hasEmpty := false;
      var i := 0;
      while i < height
        invariant 0 <= i <= height
        invariant isGameEnded == s.isGameEnded && whoWin == s.whoWin
        invariant FirstWinningCell(s, 0, 0) == FirstWinningCell(s, i, 0)
        invariant hasEmpty <==> EmptyBefore(s, i, 0)
      {
        var j := 0;
        while j < width
          invariant 0 <= j <= width
          invariant isGameEnded == s.isGameEnded && whoWin == s.whoWin
          invariant FirstWinningCell(s, 0, 0) == FirstWinningCell(s, i, j)
          invariant hasEmpty <==> EmptyBefore(s, i, j)
        {
          var who := board[i, j];
          EmptyBeforeNext(s, i, j);
          if who != Empty {
            var down, right, downRight, upRight := ProbeLines(i, j);
            if down || right || downRight || upRight {
              assert WinsAt(s, i, j);
              isGameEnded := true;
              whoWin := who;
              return;
            }
            assert !WinsAt(s, i, j);
          } else {
            hasEmpty := true;
          }
          j := j + 1;
        }
        assert FirstWinningCell(s, i, width) == FirstWinningCell(s, i + 1, 0);
        EmptyBeforeNextRow(s, i);
        i := i + 1;
      }
      EmptyBeforeEnd(s);
      if !hasEmpty {
        isGameEnded := true;
        whoWin := Empty;
      }
    }

    method MakeMove(i: int, j: int) returns (ok: bool)
      requires Valid()
      modifies board, this`cells, this`whoTurn, this`isGameEnded, this`whoWin
      ensures Valid()
      ensures MoveResult(ok, Value()) == TryMove(old(Value()), i, j)
    {
      if isGameEnded || i < 0 || i >= height || j < 0 || j >= width || board[i, j] != Empty {
        return false;
      }
      board[i, j] := whoTurn;
      cells := cells[i := cells[i][j := whoTurn]];
      CheckEnd();
      if whoTurn == X {
        whoTurn := O;
      } else {
        whoTurn := X;
      }
      ok := true;
    }

    method ShowBoardToString() returns (result: seq<Token>)
      requires Valid()
      ensures result == Rendered(cells)
    {
      result := [];
      var i := 0;
      while i < height
        invariant 0 <= i <= height
        invariant result == RenderRows(cells[..i])
      {
        var j := 0;
        while j < width
          invariant 0 <= j <= width
          invariant result == RenderRows(cells[..i]) + RowTokens(cells[i][..j])
        {
          assert RowTokens(cells[i][..j + 1]) == RowTokens(cells[i][..j]) + [Mark(board[i, j])];
          result := result + [Mark(board[i, j])];
          j := j + 1;
        }
        assert cells[..i + 1][..i] == cells[..i];
        assert cells[i][..width] == cells[i];
        result := result + [Newline];
        i := i + 1;
      }
      assert cells[..height] == cells;
      result := result + [Newline];
    }
  }
}
