/**
 * Values borrowed from the `chess` crate that the client builds on: colours, piece kinds,
 * squares, castle rights and the board status. The crate's own algorithms (move generation,
 * FEN parsing and printing, Zobrist hashing, making a move) are not reimplemented anywhere in
 * this model: they reach the model as record fields or as function-typed parameters.
 */
module Chess {

  datatype Option<T> = None | Some(value: T)

  /** An ECS entity id; only its identity matters. */
  type Entity = nat

  datatype Color = White | Black

  /** `!color` on `chess::Color`. */
  function Opponent(c: Color): (r: Color)
    ensures r != c
  {
    if c == White then Black else White
  }

  lemma OpponentInvolutive(c: Color)
    ensures Opponent(Opponent(c)) == c
  {
  }

  /** `color as usize`: White is 0 and Black is 1 in the crate's enum. */
  function ColorIndex(c: Color): (i: nat)
    ensures i < 2
    ensures (i == 0) == (c == White)
  {
    if c == White then 0 else 1
  }

  /** The crate's piece enum, in its declaration order. */
  datatype PieceKind = Pawn | Knight | Bishop | Rook | Queen | King

  /** `piece as usize`: the declaration index of the piece kind. */
  function KindIndex(k: PieceKind): (i: nat)
    ensures i < 6
    ensures i == 5 <==> k == King
  {
    match k
    case Pawn => 0
    case Knight => 1
    case Bishop => 2
    case Rook => 3
    case Queen => 4
    case King => 5
  }

  lemma KindIndexInjective(a: PieceKind, b: PieceKind)
    ensures KindIndex(a) == KindIndex(b) ==> a == b
  {
  }

  /** A file or rank index, 0..7. */
  type Index8 = i: int | 0 <= i < 8

  /** `chess::Square` as its index `rank * 8 + file`: A1 is 0, H1 is 7, A8 is 56, H8 is 63. */
  type Square = i: int | 0 <= i < 64

  const A1: Square := 0

  function MakeSquare(rank: Index8, file: Index8): (sq: Square)
    ensures sq == rank * 8 + file
  {
    rank * 8 + file
  }

  function FileOf(sq: Square): Index8 { sq % 8 }

  function RankOf(sq: Square): Index8 { sq / 8 }

  lemma {:induction false} SquareCoordinates(sq: Square)
    ensures MakeSquare(RankOf(sq), FileOf(sq)) == sq
  {
  }

  /** `chess::Square`'s `Display`: file letter then rank digit, as in "e4". */
  function SquareName(sq: Square): (name: string)
    ensures |name| == 2 && 'a' <= name[0] <= 'h' && '1' <= name[1] <= '8'
  {
    [('a' as int + FileOf(sq)) as char, ('1' as int + RankOf(sq)) as char]
  }

  /**
   * `chess::Square::from_str`: the first character must be a file letter and the second a rank
   * digit; the crate looks at those two characters only.
   */
  function ParseSquare(s: string): (r: Option<Square>)
    ensures r.Some? ==> |s| >= 2 && SquareName(r.value) == s[..2]
  {
    if |s| < 2 || !('a' <= s[0] <= 'h') || !('1' <= s[1] <= '8') then None
    else Some(MakeSquare(s[1] as int - '1' as int, s[0] as int - 'a' as int))
  }

  /** Distinct squares have distinct names. */
  lemma SquareNameInjective(a: Square, b: Square)
    ensures SquareName(a) == SquareName(b) ==> a == b
  {
    ParseSquareName(a);
    ParseSquareName(b);
  }

  /** Every square's name parses back to that square. */
  lemma {:induction false} ParseSquareName(sq: Square)
    ensures ParseSquare(SquareName(sq)) == Some(sq)
  {
    SquareCoordinates(sq);
  }

  /** The back rank of a colour (`to_my_backrank`): rank 1 for White, rank 8 for Black. */
  function BackRank(c: Color): Index8
  {
    if c == White then 0 else 7
  }

  /** The rank on which a pawn of colour `c` promotes (`to_their_backrank`). */
  function PromotionRank(c: Color): Index8
  {
    BackRank(Opponent(c))
  }

  /** `Square::forward`: one rank towards the opponent of `c`, or nothing at the board's edge. */
  function Forward(sq: Square, c: Color): (r: Option<Square>)
    ensures r.Some? ==> FileOf(r.value) == FileOf(sq)
    ensures r.Some? ==> RankOf(r.value) == (if c == White then RankOf(sq) + 1 else RankOf(sq) - 1)
    ensures r.None? <==> RankOf(sq) == PromotionRank(c)
  {
    if c == White then (if sq / 8 == 7 then None else Some(sq + 8))
    else (if sq / 8 == 0 then None else Some(sq - 8))
  }

  /** `Square::backward`: one rank towards the own side of `c`, or nothing at the board's edge. */
  function Backward(sq: Square, c: Color): (r: Option<Square>)
    ensures r.Some? ==> FileOf(r.value) == FileOf(sq)
    ensures r.None? <==> RankOf(sq) == BackRank(c)
  {
    Forward(sq, Opponent(c))
  }

  datatype CastleRights = NoRights | KingSide | QueenSide | Both

  function HasKingside(r: CastleRights): bool { r == KingSide || r == Both }

  function HasQueenside(r: CastleRights): bool { r == QueenSide || r == Both }

  /** `chess::BoardStatus`. */
  datatype BoardStatus = Ongoing | Stalemate | Checkmate

  /** `chess::ChessMove`: source, destination and the piece promoted to, if any. */
  datatype ChessMove = ChessMove(source: Square, dest: Square, promotion: Option<PieceKind>)

  /** A coloured piece, as `color_on` and `piece_on` report it. */
  datatype Piece = Piece(color: Color, kind: PieceKind)

  /**
   * A `chess::Board` as the client observes it. The crate computes every field (legal move
   * generation, the Zobrist hash, FEN printing); here they are given values, consistent with one
   * another as the crate keeps them.
   *   occupant:    `color_on` / `piece_on` for each occupied square
   *   legalMoves:  `MoveGen::new_legal`, in the order the generator yields them
   *   text:        `Display`, a FEN whose last two fields the crate always prints as "0 1"
   */
  datatype Board = Board(
    sideToMove: Color,
    occupant: map<Square, Piece>,
    whiteCastle: CastleRights,
    blackCastle: CastleRights,
    enPassant: Option<Square>,
    status: BoardStatus,
    hash: nat,
    whiteKing: Square,
    blackKing: Square,
    legalMoves: seq<ChessMove>,
    text: string)

  /** `Board::castle_rights(color)`. */
  function CastleRightsOf(b: Board, c: Color): CastleRights
  {
    if c == White then b.whiteCastle else b.blackCastle
  }

  /** `Board::my_castle_rights`: the rights of the side to move. */
  function MyCastleRights(b: Board): CastleRights
  {
    CastleRightsOf(b, b.sideToMove)
  }

  /** `Board::king_square(color)`. */
  function KingSquare(b: Board, c: Color): Square
  {
    if c == White then b.whiteKing else b.blackKing
  }

  /** `color_combined(c)` as a membership test: is `sq` occupied by a piece of colour `c`? */
  predicate OccupiedBy(b: Board, sq: Square, c: Color)
  {
    sq in b.occupant && b.occupant[sq].color == c
  }
}
