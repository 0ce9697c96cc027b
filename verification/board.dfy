/** The value of a chess position, square arithmetic and the geometry of the pieces. */
module Board {

  datatype Color = White | Black {
    function Opposite(): Color {
      if this == White then Black else White
    }

    /** The rank step of a pawn of this colour. */
    function Forward(): int {
      if this == White then 1 else -1
    }

    /** The rank on which this colour's pieces start. */
    function HomeRank(): int {
      if this == White then 0 else 7
    }
  }

  datatype Kind = Pawn | Knight | Bishop | Rook | Queen | King

  datatype Piece = Empty | Man(color: Color, kind: Kind)

  datatype Option<+T> = None | Some(value: T)

  /** The four castling rights; `k` is the king's side, `q` the queen's side. */
  datatype Rights = Rights(wk: bool, wq: bool, bk: bool, bq: bool)

  type Square = s: int | 0 <= s < 64

  /** A Go `[64]Piece` is a value, so the squares of a position are one too. */
  type Squares = q: seq<Piece> | |q| == 64 witness seq(64, _ => Empty)

  const NO_SQUARE: int := -1

  datatype Position = Position(
    squares: Squares,
    turn: Color,
    castling: Rights,
    enPassant: int,
    halfMove: int,
    fullMove: int)

  datatype Move = Move(from: Square, to: Square, promotion: Option<Kind>)

  predicate OnBoard(f: int, r: int) {
    0 <= f < 8 && 0 <= r < 8
  }

  function Sq(f: int, r: int): int {
    r * 8 + f
  }

  /** Go's `%` truncates: the missing square -1 has file -1 and rank 0. */
  function FileOf(s: int): int {
    if s < 0 then -((-s) % 8) else s % 8
  }

  function RankOf(s: int): int {
    if s < 0 then -((-s) / 8) else s / 8
  }

  lemma Coordinates(f: int, r: int)
    requires OnBoard(f, r)
    ensures 0 <= Sq(f, r) < 64 && FileOf(Sq(f, r)) == f && RankOf(Sq(f, r)) == r
  {}

  lemma SquareOf(s: Square)
    ensures OnBoard(FileOf(s), RankOf(s)) && Sq(FileOf(s), RankOf(s)) == s
  {}

  function At(q: Squares, f: int, r: int): Piece {
    if OnBoard(f, r) then q[Sq(f, r)] else Empty
  }

  function Abs(x: int): nat {
    if x < 0 then -x else x
  }

  /** The displacement after `k` steps in the direction of `d`. */
  function Along(d: int, k: int): int {
    if d > 0 then k else if d < 0 then -k else 0
  }

  // ---- Geometry of the pieces, as the Laws of Chess give it ----

  predicate Diagonal(df: int, dr: int) {
    df != 0 && Abs(df) == Abs(dr)
  }

  predicate Straight(df: int, dr: int) {
    (df == 0) != (dr == 0)
  }

  predicate KnightLeap(df: int, dr: int) {
    (Abs(df) == 1 && Abs(dr) == 2) || (Abs(df) == 2 && Abs(dr) == 1)
  }

  predicate KingStep(df: int, dr: int) {
    Abs(df) <= 1 && Abs(dr) <= 1 && !(df == 0 && dr == 0)
  }

  predicate PawnCapture(c: Color, df: int, dr: int) {
    Abs(df) == 1 && dr == c.Forward()
  }

  /** The number of king steps between two coordinates. */
  function Dist(df: int, dr: int): nat {
    if Abs(df) > Abs(dr) then Abs(df) else Abs(dr)
  }

  function Sign(d: int): int {
    if d > 0 then 1 else if d < 0 then -1 else 0
  }

  /** What stands `k` steps from (f, r) in the direction (df, dr). */
  function RayAt(q: Squares, f: int, r: int, df: int, dr: int, k: int): Piece {
    At(q, f + Along(df, k), r + Along(dr, k))
  }

  /** The first `n - 1` squares from (f, r) in the direction (df, dr) are empty. */
  ghost predicate RayClear(q: Squares, f: int, r: int, df: int, dr: int, n: int) {
    forall k :: 0 < k < n ==> RayAt(q, f, r, df, dr, k).Empty?
  }

  /** No piece stands strictly between two coordinates on a common line. */
  ghost predicate Clear(q: Squares, ff: int, fr: int, tf: int, tr: int) {
    RayClear(q, ff, fr, Sign(tf - ff), Sign(tr - fr), Dist(tf - ff, tr - fr))
  }

  /** A man standing on (ff, fr) bears on (tf, tr). */
  ghost predicate Bears(q: Squares, man: Piece, ff: int, fr: int, tf: int, tr: int)
    requires man.Man?
  {
    var df, dr := tf - ff, tr - fr;
    match man.kind
    case Pawn => PawnCapture(man.color, df, dr)
    case Knight => KnightLeap(df, dr)
    case King => KingStep(df, dr)
    case Bishop => Diagonal(df, dr) && Clear(q, ff, fr, tf, tr)
    case Rook => Straight(df, dr) && Clear(q, ff, fr, tf, tr)
    case Queen => (Diagonal(df, dr) || Straight(df, dr)) && Clear(q, ff, fr, tf, tr)
  }

  /** The piece on `s`, if it is of colour `side`, attacks (tf, tr). */
  ghost predicate AttacksFrom(q: Squares, s: Square, side: Color, tf: int, tr: int) {
    q[s].Man? && q[s].color == side && Bears(q, q[s], FileOf(s), RankOf(s), tf, tr)
  }

  /** Some piece of colour `side` attacks (tf, tr), judged forwards from the attacker. */
  ghost predicate Attacked(q: Squares, tf: int, tr: int, side: Color) {
    exists s: Square :: AttacksFrom(q, s, side, tf, tr)
  }

  ghost predicate SquareAttacked(q: Squares, s: int, side: Color) {
    Attacked(q, FileOf(s), RankOf(s), side)
  }

  // ---- Kings ----

  /** The first square holding `c`'s king, or none. */
  ghost predicate IsKingSquare(q: Squares, c: Color, s: int) {
    if s == NO_SQUARE then forall t: Square :: q[t] != Man(c, King)
    else 0 <= s < 64 && q[s] == Man(c, King) && forall t: Square :: t < s ==> q[t] != Man(c, King)
  }

  /** What the legality filter tests: the square the king scan gives for `c`, which is the
      missing square -1 on a kingless board, is attacked by the other side. */
  ghost predicate KingAttacked(q: Squares, c: Color) {
    exists s :: -1 <= s < 64 && IsKingSquare(q, c, s) && SquareAttacked(q, s, c.Opposite())
  }

  /** The side to move has a king and it is attacked. */
  ghost predicate Checked(p: Position) {
    exists s :: 0 <= s < 64 && IsKingSquare(p.squares, p.turn, s) && SquareAttacked(p.squares, s, p.turn.Opposite())
  }
}
