/** The rules of movement as relations, and the position a move leads to. */
module Rules {
  import opened Board

  // ---- Which moves the pieces may make ----

  predicate HasRight(rights: Rights, c: Color, kingSide: bool) {
    match c
    case White => if kingSide then rights.wk else rights.wq
    case Black => if kingSide then rights.bk else rights.bq
  }

  predicate Own(piece: Piece, c: Color) {
    piece.Man? && piece.color == c
  }

  predicate Enemy(piece: Piece, c: Color) {
    piece.Man? && piece.color != c
  }

  /** The file and rank displacement of a move. */
  function DF(m: Move): int { FileOf(m.to) - FileOf(m.from) }

  function DR(m: Move): int { RankOf(m.to) - RankOf(m.from) }

  predicate IsPromotionKind(k: Option<Kind>) {
    k in {Some(Queen), Some(Rook), Some(Bishop), Some(Knight)}
  }

  /** A pawn promotes exactly when it reaches the far rank. */
  predicate PromotionFits(c: Color, m: Move) {
    if RankOf(m.to) == c.Opposite().HomeRank() then IsPromotionKind(m.promotion) else m.promotion == None
  }

  predicate SinglePush(q: Squares, c: Color, m: Move) {
    DF(m) == 0 && DR(m) == c.Forward() && q[m.to].Empty?
  }

  predicate DoublePush(q: Squares, c: Color, m: Move) {
    && DF(m) == 0 && DR(m) == 2 * c.Forward() && RankOf(m.from) == c.HomeRank() + c.Forward()
    && At(q, FileOf(m.from), RankOf(m.from) + c.Forward()).Empty? && q[m.to].Empty?
  }

  predicate EnPassantCapture(p: Position, c: Color, m: Move) {
    PawnCapture(c, DF(m), DR(m)) && m.to == p.enPassant && p.squares[m.to].Empty?
  }

  predicate PawnMoves(p: Position, m: Move) {
    var q, c := p.squares, p.turn;
    || (SinglePush(q, c, m) && PromotionFits(c, m))
    || (DoublePush(q, c, m) && m.promotion == None)
    || (PawnCapture(c, DF(m), DR(m)) && Enemy(q[m.to], c) && PromotionFits(c, m))
    || (EnPassantCapture(p, c, m) && m.promotion == None)
  }

  /** A piece other than a pawn goes to a square it bears on that its own side does not hold. */
  ghost predicate PieceMoves(p: Position, m: Move)
    requires p.squares[m.from].Man?
  {
    var q := p.squares;
    && m.promotion == None && !Own(q[m.to], p.turn)
    && Bears(q, q[m.from], FileOf(m.from), RankOf(m.from), FileOf(m.to), RankOf(m.to))
  }

  function RookFile(kingSide: bool): int { if kingSide then 7 else 0 }

  /** The right is held, king and rook are at home with nothing between them, and the king
      neither leaves, crosses nor reaches an attacked square. */
  ghost predicate MayCastle(p: Position, kingSide: bool) {
    var q, c, rank := p.squares, p.turn, p.turn.HomeRank();
    && HasRight(p.castling, c, kingSide)
    && At(q, 4, rank) == Man(c, King) && At(q, RookFile(kingSide), rank) == Man(c, Rook)
    && (forall f :: (if kingSide then 4 < f < 7 else 0 < f < 4) ==> At(q, f, rank).Empty?)
    && (forall f :: (if kingSide then 4 <= f <= 6 else 2 <= f <= 4) ==> !Attacked(q, f, rank, c.Opposite()))
  }

  function CastleMove(c: Color, kingSide: bool): Move {
    Move(Sq(4, c.HomeRank()), Sq(if kingSide then 6 else 2, c.HomeRank()), None)
  }

  ghost predicate Castles(p: Position, m: Move) {
    exists kingSide :: m == CastleMove(p.turn, kingSide) && MayCastle(p, kingSide)
  }

  ghost predicate PseudoLegal(p: Position, m: Move) {
    && Own(p.squares[m.from], p.turn)
    && if p.squares[m.from].kind == Pawn then PawnMoves(p, m) else PieceMoves(p, m) || Castles(p, m)
  }

  /** A move is legal when the pieces allow it and it does not leave the mover's king attacked. */
  ghost predicate Legal(p: Position, m: Move) {
    PseudoLegal(p, m) && !KingAttacked(Apply(p, m).squares, p.turn)
  }

  // ---- What a move does ----

  /** The square of the pawn taken en passant by a move to `to`. */
  function Victim(c: Color, to: Square): int {
    to - 8 * c.Forward()
  }

  predicate TakesEnPassant(p: Position, m: Move) {
    p.squares[m.from].Man? && p.squares[m.from].kind == Pawn && m.to == p.enPassant && p.squares[m.to].Empty?
  }

  predicate IsCastling(p: Position, m: Move) {
    p.squares[m.from].Man? && p.squares[m.from].kind == King && Abs(DF(m)) == 2
  }

  function MoveRook(q: Squares, rank: int, kingSide: bool): Squares
    requires 0 <= rank < 8
  {
    var home, away := Sq(RookFile(kingSide), rank), Sq(if kingSide then 5 else 3, rank);
    q[away := q[home]][home := Empty]
  }

  function SquaresAfter(p: Position, m: Move): Squares {
    var q0 := p.squares[m.to := p.squares[m.from]][m.from := Empty];
    var q1 := if TakesEnPassant(p, m) && 0 <= Victim(p.turn, m.to) < 64 then q0[Victim(p.turn, m.to) := Empty] else q0;
    var q2 := if m.promotion.Some? then q1[m.to := Man(p.turn, m.promotion.value)] else q1;
    if IsCastling(p, m) then MoveRook(q2, RankOf(m.from), FileOf(m.to) == 6) else q2
  }

  /** Losing a right because the king moved, or because a move touched a rook's home square. */
  function RightsAfter(p: Position, m: Move): Rights {
    var moving := p.squares[m.from];
    var whiteKing := moving == Man(White, King);
    var blackKing := moving == Man(Black, King);
    Rights(
      p.castling.wk && !whiteKing && m.from != 7 && m.to != 7,
      p.castling.wq && !whiteKing && m.from != 0 && m.to != 0,
      p.castling.bk && !blackKing && m.from != 63 && m.to != 63,
      p.castling.bq && !blackKing && m.from != 56 && m.to != 56)
  }

  predicate IsPawn(piece: Piece) {
    piece.Man? && piece.kind == Pawn
  }

  /** A move after which the half-move clock restarts. */
  predicate Irreversible(p: Position, m: Move) {
    IsPawn(p.squares[m.from]) || p.squares[m.to].Man?
  }

  function Apply(p: Position, m: Move): Position {
    Position(
      SquaresAfter(p, m),
      p.turn.Opposite(),
      RightsAfter(p, m),
      if IsPawn(p.squares[m.from]) && Abs(DR(m)) == 2 then (m.from + m.to) / 2 else NO_SQUARE,
      if Irreversible(p, m) then 0 else p.halfMove + 1,
      if p.turn == Black then p.fullMove + 1 else p.fullMove)
  }
}
