/** Making a move on a clone of the board, step by step. */
module Applying {
  import opened Board
  import opened Rules

  /** The clone that a move is made on: the one board the engine changes in place. */
  class Scratch {
    var squares: array<Piece>
    var turn: Color
    var castling: Rights
    var enPassant: int
    var halfMove: int
    var fullMove: int

    ghost predicate Valid()
      reads this
    {
      squares.Length == 64
    }

    function View(): Position
      requires Valid()
      reads this, squares
    {
      Position(squares[..], turn, castling, enPassant, halfMove, fullMove)
    }

    constructor Clone(p: Position)
      ensures Valid() && View() == p && fresh(squares)
    {
      squares := new Piece[64](i requires 0 <= i < 64 => p.squares[i]);
      turn, castling, enPassant := p.turn, p.castling, p.enPassant;
      halfMove, fullMove := p.halfMove, p.fullMove;
      new;
      assert squares[..] == p.squares;
    }

    /** Forfeits the right tied to a rook's home square. */
    method ClearForSquare(s: Square)
      modifies this`castling
      ensures castling == Rights(
        old(castling).wk && s != 7, old(castling).wq && s != 0,
        old(castling).bk && s != 63, old(castling).bq && s != 56)
    {
      if s == Sq(0, 0) {
        castling := castling.(wq := false);
      } else if s == Sq(7, 0) {
        castling := castling.(wk := false);
      } else if s == Sq(0, 7) {
        castling := castling.(bq := false);
      } else if s == Sq(7, 7) {
        castling := castling.(bk := false);
      }
    }

    method UpdateCastlingRights(m: Move, moving: Piece)
      modifies this`castling
      ensures forall p: Position :: p.castling == old(castling) && p.squares[m.from] == moving ==>
        castling == RightsAfter(p, m)
    {
      if moving == Man(White, King) {
        castling := castling.(wk := false, wq := false);
      } else if moving == Man(Black, King) {
        castling := castling.(bk := false, bq := false);
      }
      ClearForSquare(m.from);
      ClearForSquare(m.to);
    }

    /** Moves the rook alongside a castled king. */
    method CastleRook(rank: int, kingSide: bool)
      requires Valid() && 0 <= rank < 8
      modifies squares
      ensures squares[..] == MoveRook(old(squares[..]), rank, kingSide)
    {
      if kingSide {
        squares[Sq(5, rank)] := squares[Sq(7, rank)];
        squares[Sq(7, rank)] := Empty;
      } else {
        squares[Sq(3, rank)] := squares[Sq(0, rank)];
        squares[Sq(0, rank)] := Empty;
      }
    }

    method MovePieces(p: Position, m: Move)
      requires Valid() && View() == p && Applicable(p, m)
      modifies squares
      ensures squares[..] == SquaresAfter(p, m)
    {
      var moving, captured := squares[m.from], squares[m.to];
      squares[m.to] := moving;
      squares[m.from] := Empty;
      if IsPawn(moving) && m.to == p.enPassant && captured == Empty {
        if p.turn == White {
          squares[m.to - 8] := Empty;
        } else {
          squares[m.to + 8] := Empty;
        }
      }
      if m.promotion.Some? {
        squares[m.to] := Man(p.turn, m.promotion.value);
      }
      if moving.Man? && moving.kind == King && Abs(FileOf(m.to) - FileOf(m.from)) == 2 {
        CastleRook(RankOf(m.from), FileOf(m.to) == 6);
      }
    }
  }

  /** What the Go code needs not to index outside the board: the pawn taken en passant is on it. */
  predicate Applicable(p: Position, m: Move) {
    TakesEnPassant(p, m) ==> 0 <= Victim(p.turn, m.to) < 64
  }

  method ApplyMoveUnchecked(p: Position, m: Move) returns (after: Position)
    requires Applicable(p, m)
    ensures after == Apply(p, m)
  {
    var nb := new Scratch.Clone(p);
    var moving, captured := nb.squares[m.from], nb.squares[m.to];
    nb.MovePieces(p, m);
    nb.UpdateCastlingRights(m, moving);
    nb.enPassant := NO_SQUARE;
    if IsPawn(moving) && Abs(RankOf(m.to) - RankOf(m.from)) == 2 {
      nb.enPassant := (m.from + m.to) / 2;
    }
    if IsPawn(moving) || captured != Empty {
      nb.halfMove := 0;
    } else {
      nb.halfMove := p.halfMove + 1;
    }
    if p.turn == Black {
      nb.fullMove := p.fullMove + 1;
    }
    nb.turn := p.turn.Opposite();
    after := nb.View();
  }
}
