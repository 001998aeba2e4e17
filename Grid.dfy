/**
 * The Caro board and its win detector: a fixed 20 x 20 grid of cells holding
 * 0 (empty), 1 (X) or 2 (O), the scan that counts a line of equal marks
 * through the cell just played, and the scan for a full board.
 */
module Grid {

  const Size: int := 20
  const Empty: int := 0
  const MarkX: int := 1
  const MarkO: int := 2
  /** A line of this many equal marks (or more) wins. */
  const WinLength: int := 5

  /** Rows of cells; `b[row][col]`. */
  type Board = seq<seq<int>>

  predicate InBounds(row: int, col: int) {
    0 <= row < Size && 0 <= col < Size
  }

  predicate WellFormed(b: Board) {
    |b| == Size && forall i :: 0 <= i < Size ==> |b[i]| == Size
  }

  /** The board a new game starts with. */
  function EmptyBoard(): (b: Board)
    ensures WellFormed(b)
    ensures forall i, j :: 0 <= i < Size && 0 <= j < Size ==> b[i][j] == Empty
  {
    seq(Size, _ => seq(Size, _ => Empty))
  }

  /** The board with one cell overwritten by `v`. */
  function Place(b: Board, row: int, col: int, v: int): (b': Board)
    requires WellFormed(b) && InBounds(row, col)
    ensures WellFormed(b')
    ensures b'[row][col] == v
    ensures forall i, j :: 0 <= i < Size && 0 <= j < Size && (i != row || j != col) ==> b'[i][j] == b[i][j]
  {
    b[row := b[row][col := v]]
  }

  /** True iff no cell of the board is empty. */
  ghost predicate Full(b: Board)
    requires WellFormed(b)
  {
    forall i, j :: 0 <= i < Size && 0 <= j < Size ==> b[i][j] != Empty
  }

  // ---------------------------------------------------------------------------
  // Lines through a cell

  /** The four lines through a cell that the win detector looks at. */
  datatype Axis = Horizontal | Vertical | Diagonal | AntiDiagonal

  /**
   * The cell `k` steps away from (row, col) along `a`; a negative `k` walks
   * the other way.  Diagonal runs from top-left to bottom-right, AntiDiagonal
   * from bottom-left to top-right.
   */
  function Along(row: int, col: int, a: Axis, k: int): (int, int) {
    match a
    case Horizontal => (row, col + k)
    case Vertical => (row + k, col)
    case Diagonal => (row + k, col + k)
    case AntiDiagonal => (row - k, col + k)
  }

  /** The cell `k` steps along `a` is on the board and holds `p`. */
  predicate Holds(b: Board, row: int, col: int, a: Axis, p: int, k: int)
    requires WellFormed(b)
  {
    var cell := Along(row, col, a, k);
    InBounds(cell.0, cell.1) && b[cell.0][cell.1] == p
  }

  /** Number of consecutive cells holding `p` at steps k, k+1, ... along `a`. */
  function Forward(b: Board, row: int, col: int, a: Axis, p: int, k: nat): nat
    requires WellFormed(b) && InBounds(row, col)
    decreases Size - k
  {
    if Holds(b, row, col, a, p, k) then 1 + Forward(b, row, col, a, p, k + 1) else 0
  }

  /** Number of consecutive cells holding `p` at steps -k, -k-1, ... along `a`. */
  function Backward(b: Board, row: int, col: int, a: Axis, p: int, k: nat): nat
    requires WellFormed(b) && InBounds(row, col)
    decreases Size - k
  {
    if Holds(b, row, col, a, p, -(k as int)) then 1 + Backward(b, row, col, a, p, k + 1) else 0
  }

  /** The pivot plus the equal marks counted outward from it in both directions. */
  function LineCount(b: Board, row: int, col: int, a: Axis, p: int): nat
    requires WellFormed(b) && InBounds(row, col)
  {
    1 + Backward(b, row, col, a, p, 1) + Forward(b, row, col, a, p, 1)
  }

  /** Some line through (row, col) counts at least WinLength marks `p`. */
  predicate Wins(b: Board, row: int, col: int, p: int)
    requires WellFormed(b) && InBounds(row, col)
  {
    || LineCount(b, row, col, Horizontal, p) >= WinLength
    || LineCount(b, row, col, Vertical, p) >= WinLength
    || LineCount(b, row, col, Diagonal, p) >= WinLength
    || LineCount(b, row, col, AntiDiagonal, p) >= WinLength
  }

  /** The WinLength cells at steps s .. s+WinLength-1 along `a` all hold `p`. */
  predicate WindowAt(b: Board, row: int, col: int, a: Axis, p: int, s: int)
    requires WellFormed(b)
  {
    forall k :: s <= k < s + WinLength ==> Holds(b, row, col, a, p, k)
  }

  /**
   * Independent reading of a win: a window of WinLength consecutive cells on
   * line `a` that contains the pivot and holds only `p`.
   */
  ghost predicate FiveThrough(b: Board, row: int, col: int, a: Axis, p: int)
    requires WellFormed(b)
  {
    exists s :: -(WinLength - 1) <= s <= 0 && WindowAt(b, row, col, a, p, s)
  }

  // ---------------------------------------------------------------------------
  // Lemmas

  lemma {:induction false} ForwardRun(b: Board, row: int, col: int, a: Axis, p: int, k: nat)
    requires WellFormed(b) && InBounds(row, col)
    ensures forall j :: k <= j < k + Forward(b, row, col, a, p, k) ==> Holds(b, row, col, a, p, j)
    ensures !Holds(b, row, col, a, p, k + Forward(b, row, col, a, p, k))
    decreases Size - k
  {
    if Holds(b, row, col, a, p, k) {
      ForwardRun(b, row, col, a, p, k + 1);
    }
  }

  lemma {:induction false} BackwardRun(b: Board, row: int, col: int, a: Axis, p: int, k: nat)
    requires WellFormed(b) && InBounds(row, col)
    ensures forall j :: -(k + Backward(b, row, col, a, p, k)) < j <= -(k as int) ==> Holds(b, row, col, a, p, j)
    ensures !Holds(b, row, col, a, p, -(k + Backward(b, row, col, a, p, k)))
    decreases Size - k
  {
    if Holds(b, row, col, a, p, -(k as int)) {
      BackwardRun(b, row, col, a, p, k + 1);
    }
  }

  /**
   * When the pivot holds `p`, LineCount is the length of the maximal run of
   * `p` through the pivot: every step from -back to fwd holds `p`, and the
   * steps just beyond either end do not.
   */
  lemma MaximalRunThroughPivot(b: Board, row: int, col: int, a: Axis, p: int)
    requires WellFormed(b) && InBounds(row, col) && b[row][col] == p
    ensures var back: int, fwd: int := Backward(b, row, col, a, p, 1), Forward(b, row, col, a, p, 1);
            && LineCount(b, row, col, a, p) == back + 1 + fwd
            && (forall k :: -back <= k <= fwd ==> Holds(b, row, col, a, p, k))
            && !Holds(b, row, col, a, p, fwd + 1)
            && !Holds(b, row, col, a, p, -(back + 1))
  {
    ForwardRun(b, row, col, a, p, 1);
    BackwardRun(b, row, col, a, p, 1);
  }

  /** One line: counting outward reaches WinLength iff a window of five through the pivot is filled. */
  lemma LineWinsIffFive(b: Board, row: int, col: int, a: Axis, p: int)
    requires WellFormed(b) && InBounds(row, col) && b[row][col] == p
    ensures LineCount(b, row, col, a, p) >= WinLength <==> FiveThrough(b, row, col, a, p)
  {
    MaximalRunThroughPivot(b, row, col, a, p);
    var back: int, fwd: int := Backward(b, row, col, a, p, 1), Forward(b, row, col, a, p, 1);
    if LineCount(b, row, col, a, p) >= WinLength {
      var s := if back <= WinLength - 1 then -back else -(WinLength - 1);
      assert WindowAt(b, row, col, a, p, s);
    }
    if FiveThrough(b, row, col, a, p) {
      var s :| -(WinLength - 1) <= s <= 0 && WindowAt(b, row, col, a, p, s);
      assert s + WinLength - 1 <= fwd;
      assert -back <= s;
    }
  }

  /**
   * The win detector's count agrees with the geometric rule: the placed mark
   * wins iff some line through it holds five consecutive equal marks that
   * include it.  A run of exactly four on every line does not win; a run of
   * six or more does.
   */
  lemma WinsIffFive(b: Board, row: int, col: int, p: int)
    requires WellFormed(b) && InBounds(row, col) && b[row][col] == p
    ensures Wins(b, row, col, p) <==> exists a :: FiveThrough(b, row, col, a, p)
  {
    LineWinsIffFive(b, row, col, Horizontal, p);
    LineWinsIffFive(b, row, col, Vertical, p);
    LineWinsIffFive(b, row, col, Diagonal, p);
    LineWinsIffFive(b, row, col, AntiDiagonal, p);
    if exists a :: FiveThrough(b, row, col, a, p) {
      var a :| FiveThrough(b, row, col, a, p);
      match a
      case Horizontal =>
      case Vertical =>
      case Diagonal =>
      case AntiDiagonal =>
    }
  }

  // ---------------------------------------------------------------------------
  // The scans

  /**
   * Counts the marks `player` contiguous with (row, col) along the four lines
   * through it and reports a win as soon as one line reaches WinLength.
   */
  method CheckWin(b: Board, row: int, col: int, player: int) returns (win: bool)
    requires WellFormed(b) && InBounds(row, col)
    ensures win == Wins(b, row, col, player)
    ensures b[row][col] == player ==> (win <==> exists a :: FiveThrough(b, row, col, a, player))
  {
    if b[row][col] == player {
      WinsIffFive(b, row, col, player);
    }
    var count := CountHorizontal(b, row, col, player);
    if count >= WinLength {
      return true;
    }
    count := CountVertical(b, row, col, player);
    if count >= WinLength {
      return true;
    }
    count := CountDiagonal(b, row, col, player);
    if count >= WinLength {
      return true;
    }
    count := CountAntiDiagonal(b, row, col, player);
    if count >= WinLength {
      return true;
    }
    return false;
  }

  /** The pivot plus the marks `player` met walking left, then right, from it. */
  method CountHorizontal(b: Board, row: int, col: int, player: int) returns (count: int)
    requires WellFormed(b) && InBounds(row, col)
    ensures count == LineCount(b, row, col, Horizontal, player)
  {
    var cols := |b[0]|;
    count := 1;
    var i := col - 1;
    while i >= 0 && b[row][i] == player
      invariant -1 <= i < col
      invariant count + Backward(b, row, col, Horizontal, player, col - i)
                == 1 + Backward(b, row, col, Horizontal, player, 1)
      decreases i
    {
      count := count + 1;
      i := i - 1;
    }
    i := col + 1;
    while i < cols && b[row][i] == player
      invariant col < i <= cols
      invariant count + Forward(b, row, col, Horizontal, player, i - col)
                == LineCount(b, row, col, Horizontal, player)
      decreases cols - i
    {
      count := count + 1;
      i := i + 1;
    }
  }

  /** The pivot plus the marks `player` met walking up, then down, from it. */
  method CountVertical(b: Board, row: int, col: int, player: int) returns (count: int)
    requires WellFormed(b) && InBounds(row, col)
    ensures count == LineCount(b, row, col, Vertical, player)
  {
    var rows := |b|;
    count := 1;
    var i := row - 1;
    while i >= 0 && b[i][col] == player
      invariant -1 <= i < row
      invariant count + Backward(b, row, col, Vertical, player, row - i)
                == 1 + Backward(b, row, col, Vertical, player, 1)
      decreases i
    {
      count := count + 1;
      i := i - 1;
    }
    i := row + 1;
    while i < rows && b[i][col] == player
      invariant row < i <= rows
      invariant count + Forward(b, row, col, Vertical, player, i - row)
                == LineCount(b, row, col, Vertical, player)
      decreases rows - i
    {
      count := count + 1;
      i := i + 1;
    }
  }

  /** The pivot plus the marks `player` met walking up-left, then down-right, from it. */
  method CountDiagonal(b: Board, row: int, col: int, player: int) returns (count: int)
    requires WellFormed(b) && InBounds(row, col)
    ensures count == LineCount(b, row, col, Diagonal, player)
  {
    var rows, cols := |b|, |b[0]|;
    count := 1;
    var i := 1;
    while row - i >= 0 && col - i >= 0 && b[row - i][col - i] == player
      invariant 1 <= i <= row + 1 && i <= col + 1
      invariant count + Backward(b, row, col, Diagonal, player, i)
                == 1 + Backward(b, row, col, Diagonal, player, 1)
      decreases row - i
    {
      count := count + 1;
      i := i + 1;
    }
    i := 1;
    while row + i < rows && col + i < cols && b[row + i][col + i] == player
      invariant 1 <= i && row + i <= rows && col + i <= cols
      invariant count + Forward(b, row, col, Diagonal, player, i)
                == LineCount(b, row, col, Diagonal, player)
      decreases rows - i
    {
      count := count + 1;
      i := i + 1;
    }
  }

  /** The pivot plus the marks `player` met walking up-right, then down-left, from it. */
  method CountAntiDiagonal(b: Board, row: int, col: int, player: int) returns (count: int)
    requires WellFormed(b) && InBounds(row, col)
    ensures count == LineCount(b, row, col, AntiDiagonal, player)
  {
    var rows, cols := |b|, |b[0]|;
    count := 1;
    var i := 1;
    while row - i >= 0 && col + i < cols && b[row - i][col + i] == player
      invariant 1 <= i <= row + 1 && col + i <= cols
      invariant count + Forward(b, row, col, AntiDiagonal, player, i)
                == 1 + Forward(b, row, col, AntiDiagonal, player, 1)
      decreases row - i
    {
      count := count + 1;
      i := i + 1;
    }
    i := 1;
    while row + i < rows && col - i >= 0 && b[row + i][col - i] == player
      invariant 1 <= i && row + i <= rows && i <= col + 1
      invariant count + Backward(b, row, col, AntiDiagonal, player, i)
                == LineCount(b, row, col, AntiDiagonal, player)
      decreases rows - i
    {
      count := count + 1;
      i := i + 1;
    }
  }

  /** Scans the board row by row and reports whether no cell is empty. */
  method IsBoardFull(b: Board) returns (full: bool)
    requires WellFormed(b)
    ensures full <==> Full(b)
  {
    var rows, cols := |b|, |b[0]|;
    var i := 0;
    while i < rows
      invariant 0 <= i <= rows
      invariant forall r, c :: 0 <= r < i && 0 <= c < Size ==> b[r][c] != Empty
    {
      var j := 0;
      while j < cols
        invariant 0 <= j <= cols
        invariant forall c :: 0 <= c < j ==> b[i][c] != Empty
      {
        if b[i][j] == Empty {
          return false;
        }
        j := j + 1;
      }
      i := i + 1;
    }
    return true;
  }
}
