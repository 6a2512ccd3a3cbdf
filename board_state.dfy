/**
 * The board resource of `src/game/board/state.rs`: the square-to-entity maps of the UI, the
 * `chess` board, the half-move clock and full-move number that complete its FEN, and one counter
 * per position hash, from which the game status (checkmate, stalemate, fifty-move rule,
 * threefold repetition) is derived.
 */
module GameBoardState {
  import opened Chess
  import opened Text
  import GameBoard
  import Utils

  /** `TileHints`: the move dot and capture ring of one square. */
  type TileHints = GameBoard.MoveHints

  datatype GameStatus = Ongoing | GameOverCheckmate | GameOverStalemate | GameOver50Moves | GameOverRepetition

  /** `is_game_over`, on a status. */
  predicate IsGameOverStatus(s: GameStatus)
  {
    s.GameOverCheckmate? || s.GameOverStalemate? || s.GameOverRepetition? || s.GameOver50Moves?
  }

  /** Some position has been reached at least three times (`any(|count| count >= 3)`). */
  predicate Repetition(counters: map<nat, nat>)
  {
    exists h :: h in counters && counters[h] >= 3
  }

  /**
   * `sync_status`: checkmate, then stalemate, then the fifty-move rule (a half-move clock of at
   * least 100), then threefold repetition; otherwise the game goes on.
   */
  function StatusFor(bs: BoardStatus, halfMoveClock: nat, counters: map<nat, nat>): (r: GameStatus)
    ensures r == GameOverCheckmate <==> bs == Checkmate
    ensures r == GameOverStalemate <==> bs == Stalemate
    ensures r == GameOver50Moves <==> bs == BoardStatus.Ongoing && halfMoveClock >= 100
    ensures r == GameOverRepetition <==> bs == BoardStatus.Ongoing && halfMoveClock < 100 && Repetition(counters)
  {
    match bs
    case Checkmate => GameOverCheckmate
    case Stalemate => GameOverStalemate
    case Ongoing =>
      if halfMoveClock >= 100 then GameOver50Moves
      else if Repetition(counters) then GameOverRepetition
      else GameStatus.Ongoing
  }

  /** The synced game is over exactly when the board is decided or a draw rule applies. */
  lemma GameOverIff(bs: BoardStatus, halfMoveClock: nat, counters: map<nat, nat>)
    ensures IsGameOverStatus(StatusFor(bs, halfMoveClock, counters)) <==>
      bs != BoardStatus.Ongoing || halfMoveClock >= 100 || Repetition(counters)
  {
  }

  /** The counter of a position hash; an absent entry counts as zero (`or_default`). */
  function CountOf(counters: map<nat, nat>, h: nat): nat
  {
    if h in counters then counters[h] else 0
  }

  /** `*counters.entry(h).or_default() += 1`. */
  function Bump(counters: map<nat, nat>, h: nat): (r: map<nat, nat>)
    ensures CountOf(r, h) == CountOf(counters, h) + 1
    ensures forall k :: k != h ==> CountOf(r, k) == CountOf(counters, k)
    ensures r.Keys == counters.Keys + {h}
  {
    counters[h := CountOf(counters, h) + 1]
  }

  /** A repetition, once reached, survives further moves. */
  lemma BumpKeepsRepetition(counters: map<nat, nat>, h: nat)
    requires Repetition(counters)
    ensures Repetition(Bump(counters, h))
  {
    var k :| k in counters && counters[k] >= 3;
    assert CountOf(Bump(counters, h), k) >= 3;
  }

  /**
   * Does the move to `to` take en passant the pawn on the board's en-passant square? `ep` is the
   * square of the pawn that can be taken, as the chess crate reports it; the move lands in front
   * of it. As in `update_piece`, the moving piece's kind is not looked at.
   */
  predicate IsEnPassant(ep: Option<Square>, color: Color, to: Square)
  {
    ep.Some? && Forward(ep.value, color) == Some(to)
  }

  /**
   * `update_piece` on the piece map: the entity leaves `from` and lands on `to`. An en-passant
   * capture removes the pawn on the en-passant square; otherwise an entity already on `to` is
   * replaced. The second component is the entity removed from the board, if any.
   */
  function MoveEntry(pieces: map<Square, Entity>, ep: Option<Square>, color: Color, from: Square, to: Square)
    : (r: (map<Square, Entity>, Option<Entity>))
    requires from in pieces
    ensures to in r.0 && r.0[to] == pieces[from]
    ensures from != to ==> from !in r.0
    ensures IsEnPassant(ep, color, to) ==>
      ep.value !in r.0
      && r.1 == (if ep.value in pieces && ep.value != from then Some(pieces[ep.value]) else None)
    ensures !IsEnPassant(ep, color, to) ==>
      r.1 == (if to in pieces && to != from then Some(pieces[to]) else None)
    ensures forall sq :: sq in r.0 ==> sq == to || sq in pieces
    ensures forall sq :: (sq in pieces && sq != from && sq != to && !(IsEnPassant(ep, color, to) && sq == ep.value)
      ==> sq in r.0 && r.0[sq] == pieces[sq])
  {
    var piece := pieces[from];
    var rest := pieces - {from};
    if IsEnPassant(ep, color, to) then
      var moved := rest[to := piece];
      (moved - {ep.value}, if ep.value in moved then Some(moved[ep.value]) else None)
    else
      (rest[to := piece], if to in rest then Some(rest[to]) else None)
  }

  lemma CardRemove(m: map<Square, Entity>, k: Square)
    ensures |m - {k}| == if k in m then |m| - 1 else |m|
  {
    assert (m - {k}).Keys == m.Keys - {k};
    assert |m.Keys| == |m|;
    assert |(m - {k}).Keys| == |m - {k}|;
  }

  lemma CardInsert(m: map<Square, Entity>, k: Square, v: Entity)
    ensures |m[k := v]| == if k in m then |m| else |m| + 1
  {
    assert m[k := v].Keys == m.Keys + {k};
    assert |m.Keys| == |m|;
    assert |m[k := v].Keys| == |m[k := v]|;
  }

  /**
   * No entity is lost or made up: the pieces left plus the one captured are the pieces before.
   * (On a legal board the square an en-passant capture lands on is empty.)
   */
  lemma MoveEntryConserves(pieces: map<Square, Entity>, ep: Option<Square>, color: Color, from: Square, to: Square)
    requires from in pieces
    requires IsEnPassant(ep, color, to) ==> to !in pieces
    ensures var r := MoveEntry(pieces, ep, color, from, to);
      |r.0| + (if r.1.Some? then 1 else 0) == |pieces|
  {
    var rest := pieces - {from};
    CardRemove(pieces, from);
    CardInsert(rest, to, pieces[from]);
    var moved := rest[to := pieces[from]];
    if IsEnPassant(ep, color, to) {
      CardRemove(moved, ep.value);
      assert MoveEntry(pieces, ep, color, from, to)
        == (moved - {ep.value}, if ep.value in moved then Some(moved[ep.value]) else None);
    } else {
      assert MoveEntry(pieces, ep, color, from, to) == (moved, if to in rest then Some(rest[to]) else None);
    }
  }

  /** A quiet move (not en passant, empty destination) keeps every other square as it was. */
  lemma QuietMoveOnlyMovesOne(pieces: map<Square, Entity>, ep: Option<Square>, color: Color, from: Square, to: Square)
    requires from in pieces && from != to && to !in pieces && !IsEnPassant(ep, color, to)
    ensures MoveEntry(pieces, ep, color, from, to) == ((pieces - {from})[to := pieces[from]], None)
  {
  }

  /** The FEN of the board with the clocks: the crate's FEN with its "0 1" tail replaced. */
  function FenText(text: string, halfMoveClock: nat, fullMoveCount: nat): (r: string)
    requires |text| >= 3
    ensures |r| > |text| - 3
    ensures r[..|text| - 3] == text[..|text| - 3]
  {
    text[..|text| - 3] + NatToString(halfMoveClock) + " " + NatToString(fullMoveCount)
  }

  /**
   * `parse_fen`: the crate parses the board (`parseBoard`); the fifth and sixth space-separated
   * fields must then be a `u8` half-move clock and a `u16` full-move number.
   */
  function ParseFen(fen: string, parseBoard: string -> Option<Board>): (r: Option<(Board, nat, nat)>)
    ensures r.Some? ==> parseBoard(fen) == Some(r.value.0)
    ensures r.Some? ==> r.value.1 <= U8_MAX && r.value.2 <= U16_MAX
    ensures r.Some? ==> (|Split(fen, ' ')| >= 6
      && ParseU(Split(fen, ' ')[4], U8_MAX) == Some(r.value.1)
      && ParseU(Split(fen, ' ')[5], U16_MAX) == Some(r.value.2))
  {
    match parseBoard(fen)
    case None => None
    case Some(board) =>
      var fields := Split(fen, ' ');
      if |fields| < 6 then None
      else
        match ParseU(fields[4], U8_MAX)
        case None => None
        case Some(half) =>
          match ParseU(fields[5], U16_MAX)
          case None => None
          case Some(full) => Some((board, half, full))
  }

  /** A FEN as the crate prints it: four space-separated fields, then " 0 1". */
  predicate CrateFenShape(text: string)
  {
    |text| >= 4 && text[|text| - 4] == ' ' && Count(text[..|text| - 4], ' ') == 3
  }

  lemma {:induction false} CountAppend(a: string, b: string, c: char)
    ensures Count(a + b, c) == Count(a, c) + Count(b, c)
  {
    if |a| > 0 {
      assert (a + b)[0] == a[0];
      assert (a + b)[1..] == a[1..] + b;
      CountAppend(a[1..], b, c);
    } else {
      assert a + b == b;
    }
  }

  /** A FEN written with clocks in range reads back the same clocks. */
  lemma FenRoundTrip(text: string, half: nat, full: nat, parseBoard: string -> Option<Board>)
    requires CrateFenShape(text) && half <= U8_MAX && full <= U16_MAX
    requires parseBoard(FenText(text, half, full)).Some?
    ensures ParseFen(FenText(text, half, full), parseBoard) == Some((parseBoard(FenText(text, half, full)).value, half, full))
  {
    var a := text[..|text| - 4];
    var hs := NatToString(half);
    var fs := NatToString(full);
    var tail := hs + [' '] + fs;
    assert text[..|text| - 3] == a + [' '];
    assert FenText(text, half, full) == a + [' '] + tail;
    SplitAppend(a, ' ', tail);
    SplitAppend(hs, ' ', fs);
    assert ' ' !in hs && ' ' !in fs;
    SplitNoSep(hs, ' ');
    SplitNoSep(fs, ' ');
    var parts := Split(FenText(text, half, full), ' ');
    assert parts == Split(a, ' ') + [hs] + [fs];
    assert |Split(a, ' ')| == 4;
    assert parts[4..] == [hs, fs];
    ParseNatToString(half, U8_MAX);
    ParseNatToString(full, U16_MAX);
  }

  /** A FEN with fewer than six fields is refused even when the crate accepts the board. */
  lemma ParseFenNeedsSixFields(fen: string, parseBoard: string -> Option<Board>)
    requires Count(fen, ' ') < 5
    ensures ParseFen(fen, parseBoard).None?
  {
  }

  /** The board and clocks `from_world` starts with: the command-line FEN if it parses, else the default. */
  function StartingPosition(cliFen: Option<string>, parseBoard: string -> Option<Board>, defaultBoard: Board)
    : (r: (Board, nat, nat))
    ensures r.1 <= U8_MAX && r.2 <= U16_MAX
    ensures cliFen.None? ==> r == (defaultBoard, 0, 0)
    ensures cliFen.Some? && ParseFen(cliFen.value, parseBoard).None? ==> r == (defaultBoard, 0, 0)
    ensures cliFen.Some? && ParseFen(cliFen.value, parseBoard).Some? ==> r == ParseFen(cliFen.value, parseBoard).value
  {
    match cliFen
    case None => (defaultBoard, 0, 0)
    case Some(fen) =>
      match ParseFen(fen, parseBoard)
      case None => (defaultBoard, 0, 0)
      case Some(data) => data
  }

  class BoardState {
    var status: GameStatus
    var tiles: map<Square, Entity>
    var pieces: map<Square, Entity>
    var highlights: map<Square, Entity>
    var tileHints: map<Square, TileHints>
    var board: Board
    var halfMoveClock: nat
    var fullMoveCount: nat
    var counters: map<nat, nat>

    /** The clocks fit their `u8` and `u16` fields. */
    predicate Valid()
      reads this
    {
      halfMoveClock <= U8_MAX && fullMoveCount <= U16_MAX
    }

    /**
     * `from_world`: the starting position (see `StartingPosition`) counted once, the game
     * ongoing, and no UI entities yet.
     */
    constructor FromWorld(cliFen: Option<string>, parseBoard: string -> Option<Board>, defaultBoard: Board)
      ensures Valid()
      ensures (board, halfMoveClock, fullMoveCount) == StartingPosition(cliFen, parseBoard, defaultBoard)
      ensures counters == map[board.hash := 1]
      ensures status == GameStatus.Ongoing && tiles == map[] && pieces == map[] && highlights == map[] && tileHints == map[]
    {
      var start := StartingPosition(cliFen, parseBoard, defaultBoard);
      board := start.0;
      halfMoveClock := start.1;
      fullMoveCount := start.2;
      counters := map[start.0.hash := 1];
      status := GameStatus.Ongoing;
      tiles := map[];
      pieces := map[];
      highlights := map[];
      tileHints := map[];
    }

    /** `is_game_over`. */
    predicate IsGameOver()
      reads this
    {
      IsGameOverStatus(status)
    }

    /** `fen`: the board's FEN carrying this state's clocks. */
    function Fen(): (r: string)
      reads this
      requires |board.text| >= 3
      ensures r == FenText(board.text, halfMoveClock, fullMoveCount)
    {
      FenText(board.text, halfMoveClock, fullMoveCount)
    }

    /** `get_piece_meta`: colour and kind of the piece the `chess` board has on the square. */
    function GetPieceMeta(sq: Square): (r: Option<Piece>)
      reads this
      ensures r.Some? <==> sq in board.occupant
      ensures r.Some? ==> r.value == board.occupant[sq]
    {
      if sq in board.occupant then Some(board.occupant[sq]) else None
    }

    /** `reset`: forgets the piece entities and returns to the default board. */
    method Reset(defaultBoard: Board)
      modifies this
      ensures pieces == map[] && board == defaultBoard
      ensures tiles == old(tiles) && highlights == old(highlights) && tileHints == old(tileHints)
      ensures status == old(status) && halfMoveClock == old(halfMoveClock)
      ensures fullMoveCount == old(fullMoveCount) && counters == old(counters)
    {
      pieces := map[];
      board := defaultBoard;
    }

    method SetBoard(b: Board)
      modifies this
      ensures board == b
      ensures tiles == old(tiles) && pieces == old(pieces) && highlights == old(highlights)
      ensures tileHints == old(tileHints) && status == old(status) && halfMoveClock == old(halfMoveClock)
      ensures fullMoveCount == old(fullMoveCount) && counters == old(counters)
    {
      board := b;
    }

    /** `tile`: panics when the square has no tile. */
    function Tile(sq: Square): Entity
      reads this
      requires sq in tiles
    {
      tiles[sq]
    }

    /** `set_tile`: panics when the square already has one. */
    method SetTile(sq: Square, e: Entity)
      requires sq !in tiles
      modifies this
      ensures tiles == old(tiles)[sq := e]
      ensures pieces == old(pieces) && highlights == old(highlights) && tileHints == old(tileHints)
      ensures board == old(board) && status == old(status) && halfMoveClock == old(halfMoveClock)
      ensures fullMoveCount == old(fullMoveCount) && counters == old(counters)
    {
      tiles := tiles[sq := e];
    }

    /** `highlight`: panics when the square has no highlight. */
    function Highlight(sq: Square): Entity
      reads this
      requires sq in highlights
    {
      highlights[sq]
    }

    /** `set_highlight`: panics when the square already has one. */
    method SetHighlight(sq: Square, e: Entity)
      requires sq !in highlights
      modifies this
      ensures highlights == old(highlights)[sq := e]
      ensures tiles == old(tiles) && pieces == old(pieces) && tileHints == old(tileHints)
      ensures board == old(board) && status == old(status) && halfMoveClock == old(halfMoveClock)
      ensures fullMoveCount == old(fullMoveCount) && counters == old(counters)
    {
      highlights := highlights[sq := e];
    }

    /** `tile_hints`: panics when the square has no hints. */
    function GetTileHints(sq: Square): TileHints
      reads this
      requires sq in tileHints
    {
      tileHints[sq]
    }

    /** `set_tile_hints`: panics when the square already has them. */
    method SetTileHints(sq: Square, h: TileHints)
      requires sq !in tileHints
      modifies this
      ensures tileHints == old(tileHints)[sq := h]
      ensures tiles == old(tiles) && pieces == old(pieces) && highlights == old(highlights)
      ensures board == old(board) && status == old(status) && halfMoveClock == old(halfMoveClock)
      ensures fullMoveCount == old(fullMoveCount) && counters == old(counters)
    {
      tileHints := tileHints[sq := h];
    }

    predicate HasPieceAt(sq: Square)
      reads this
    {
      sq in pieces
    }

    /** `piece`: panics when the square is empty. */
    function PieceAt(sq: Square): Entity
      reads this
      requires sq in pieces
    {
      pieces[sq]
    }

    /** `get_piece`. */
    function GetPiece(sq: Square): (r: Option<Entity>)
      reads this
      ensures r.Some? <==> HasPieceAt(sq)
      ensures r.Some? ==> r.value == pieces[sq]
    {
      if sq in pieces then Some(pieces[sq]) else None
    }

    /** `set_piece`: panics when the square already holds a piece. */
    method SetPiece(sq: Square, e: Entity)
      requires sq !in pieces
      modifies this
      ensures pieces == old(pieces)[sq := e]
      ensures tiles == old(tiles) && highlights == old(highlights) && tileHints == old(tileHints)
      ensures board == old(board) && status == old(status) && halfMoveClock == old(halfMoveClock)
      ensures fullMoveCount == old(fullMoveCount) && counters == old(counters)
    {
      pieces := pieces[sq := e];
    }

    method ClearPieces()
      modifies this
      ensures pieces == map[]
      ensures tiles == old(tiles) && highlights == old(highlights) && tileHints == old(tileHints)
      ensures board == old(board) && status == old(status) && halfMoveClock == old(halfMoveClock)
      ensures fullMoveCount == old(fullMoveCount) && counters == old(counters)
    {
      pieces := map[];
    }

    /** `sync_status`. */
    method SyncStatus()
      modifies this
      ensures status == StatusFor(board.status, halfMoveClock, counters)
      ensures tiles == old(tiles) && pieces == old(pieces) && highlights == old(highlights)
      ensures tileHints == old(tileHints) && board == old(board) && halfMoveClock == old(halfMoveClock)
      ensures fullMoveCount == old(fullMoveCount) && counters == old(counters)
    {
      match board.status {
        case Checkmate => status := GameOverCheckmate;
        case Stalemate => status := GameOverStalemate;
        case Ongoing =>
          if halfMoveClock >= 100 {
            status := GameOver50Moves;
          } else if Repetition(counters) {
            status := GameOverRepetition;
          } else {
            status := GameStatus.Ongoing;
          }
      }
    }

    /**
     * `make_board_move`: plays the move on the `chess` board (`make_move_new`, a parameter here)
     * and counts the new position once more. The counter is a `u8`.
     */
    method MakeBoardMove(from: Square, to: Square, promotion: Option<PieceKind>,
                         makeMove: (Board, ChessMove) -> Board)
      requires CountOf(counters, makeMove(board, ChessMove(from, to, promotion)).hash) < U8_MAX
      modifies this
      ensures board == makeMove(old(board), ChessMove(from, to, promotion))
      ensures counters == Bump(old(counters), board.hash)
      ensures tiles == old(tiles) && pieces == old(pieces) && highlights == old(highlights)
      ensures tileHints == old(tileHints) && status == old(status) && halfMoveClock == old(halfMoveClock)
      ensures fullMoveCount == old(fullMoveCount)
    {
      board := makeMove(board, ChessMove(from, to, promotion));
      var h := board.hash;
      counters := counters[h := CountOf(counters, h) + 1];
    }

    /** `inc_half_move_clock` on a `u8`. */
    method IncHalfMoveClock()
      requires halfMoveClock < U8_MAX
      modifies this
      ensures halfMoveClock == old(halfMoveClock) + 1
      ensures tiles == old(tiles) && pieces == old(pieces) && highlights == old(highlights)
      ensures tileHints == old(tileHints) && status == old(status) && board == old(board)
      ensures fullMoveCount == old(fullMoveCount) && counters == old(counters)
    {
      halfMoveClock := halfMoveClock + 1;
    }

    method ResetHalfMoveClock()
      modifies this
      ensures halfMoveClock == 0
      ensures tiles == old(tiles) && pieces == old(pieces) && highlights == old(highlights)
      ensures tileHints == old(tileHints) && status == old(status) && board == old(board)
      ensures fullMoveCount == old(fullMoveCount) && counters == old(counters)
    {
      halfMoveClock := 0;
    }

    /** `inc_full_move_count` on a `u16`. */
    method IncFullMoveCount()
      requires fullMoveCount < U16_MAX
      modifies this
      ensures fullMoveCount == old(fullMoveCount) + 1
      ensures tiles == old(tiles) && pieces == old(pieces) && highlights == old(highlights)
      ensures tileHints == old(tileHints) && status == old(status) && board == old(board)
      ensures halfMoveClock == old(halfMoveClock) && counters == old(counters)
    {
      fullMoveCount := fullMoveCount + 1;
    }

    /**
     * `update_piece`: moves the entity of the piece on `from` (which must be there) to `to`, and
     * hands back the entity it captured, normal or en passant.
     */
    method UpdatePiece(color: Color, from: Square, to: Square) returns (captured: Option<Entity>)
      requires from in pieces
      modifies this
      ensures (pieces, captured) == MoveEntry(old(pieces), old(board.enPassant), color, from, to)
      ensures tiles == old(tiles) && highlights == old(highlights) && tileHints == old(tileHints)
      ensures board == old(board) && status == old(status) && halfMoveClock == old(halfMoveClock)
      ensures fullMoveCount == old(fullMoveCount) && counters == old(counters)
    {
      ghost var expected := MoveEntry(pieces, board.enPassant, color, from, to);
      var piece := pieces[from];
      pieces := pieces - {from};
      if IsEnPassant(board.enPassant, color, to) {
        var epSq := board.enPassant.value;
        pieces := pieces[to := piece];
        if epSq in pieces {
          captured := Some(pieces[epSq]);
          pieces := pieces - {epSq};
        } else {
          assert pieces - {epSq} == pieces;
          captured := None;
        }
      } else if to in pieces {
        captured := Some(pieces[to]);
        pieces := pieces[to := piece];
      } else {
        pieces := pieces[to := piece];
        captured := None;
      }
      assert (pieces, captured) == expected;
    }
  }

  //------------------------------
  // `to_pretty_string`
  //------------------------------

  /** `Piece::to_string(color)`: the piece letter, upper case for White. */
  function PieceChar(p: Piece): char
  {
    var lower := match p.kind
      case Pawn => 'p' case Knight => 'n' case Bishop => 'b'
      case Rook => 'r' case Queen => 'q' case King => 'k';
    if p.color == White then (lower as int - 32) as char else lower
  }

  /** The token printed for a square: its piece's letter, or '.' when empty. */
  function Token(occupant: map<Square, Piece>, sq: Square): char
  {
    if sq in occupant then PieceChar(occupant[sq]) else '.'
  }

  /** The `k`-th square of `ALL_SQUARES.chunks(8).rev().flatten()`: rank 8 first, files a to h. */
  function PrintOrder(k: nat): Square
    requires k < 64
  {
    (7 - k / 8) * 8 + k % 8
  }

  /** One step of the fold: a newline before each rank but the first, the token, a space unless on file h. */
  function PrintStep(occupant: map<Square, Piece>, acc: string, sq: Square): string
  {
    (if |acc| > 0 && sq % 8 == 0 then acc + "\n" else acc)
      + [Token(occupant, sq)]
      + (if (sq + 1) % 8 > 0 then " " else "")
  }

  /** The fold over the first `k` squares of the print order. */
  function PrintFold(occupant: map<Square, Piece>, k: nat): string
    requires k <= 64
  {
    if k == 0 then "" else PrintStep(occupant, PrintFold(occupant, k - 1), PrintOrder(k - 1))
  }

  /** `to_pretty_string` for a board's pieces. */
  function PrettyString(occupant: map<Square, Piece>): string
  {
    PrintFold(occupant, 64)
  }

  /**
   * The intended layout, character by character: line `i / 16` shows rank `8 - i / 16`; within a
   * line, even columns hold the tokens of files a to h, odd columns a space, and column 15 ends
   * the line.
   */
  function LayoutChar(occupant: map<Square, Piece>, i: nat): char
    requires i < 127
  {
    var row := i / 16;
    var col := i % 16;
    if col == 15 then '\n' else if col % 2 == 1 then ' ' else Token(occupant, (7 - row) * 8 + col / 2)
  }

  /** The length of the fold after `k` squares. */
  function PrintLength(k: nat): nat
  {
    if k == 0 then 0 else if k % 8 == 0 then 16 * (k / 8) - 1 else 16 * (k / 8) + 2 * (k % 8)
  }

  lemma Position(q: nat, c: nat)
    requires c < 16
    ensures (16 * q + c) / 16 == q && (16 * q + c) % 16 == c
  {
    Utils.DivUnique(16 * q + c, 16, q, c);
  }

  /** `s` agrees with the layout on every character it has. */
  predicate LaidOut(occupant: map<Square, Piece>, s: string)
  {
    |s| <= 127 && forall i :: 0 <= i < |s| ==> s[i] == LayoutChar(occupant, i)
  }

  lemma OrderFacts(j: nat)
    requires j < 64
    ensures j == 8 * (j / 8) + j % 8
    ensures PrintOrder(j) % 8 == j % 8 && (PrintOrder(j) + 1) % 8 == (j % 8 + 1) % 8
    ensures PrintLength(j) == if j == 0 then 0 else if j % 8 == 0 then 16 * (j / 8) - 1 else 16 * (j / 8) + 2 * (j % 8)
    ensures PrintLength(j + 1) == if j % 8 == 7 then 16 * (j / 8) + 15 else 16 * (j / 8) + 2 * (j % 8) + 2
  {
    var q := j / 8;
    var f := j % 8;
    var sq: int := PrintOrder(j);
    Utils.DivUnique(sq, 8, 7 - q, f);
    if f < 7 {
      Utils.DivUnique(sq + 1, 8, 7 - q, f + 1);
      Utils.DivUnique(j + 1, 8, q, f + 1);
    } else {
      Utils.DivUnique(sq + 1, 8, 8 - q, 0);
      Utils.DivUnique(j + 1, 8, q + 1, 0);
    }
  }

  lemma LayoutAt(occupant: map<Square, Piece>, q: nat, c: nat)
    requires q < 8 && c < 16 && 16 * q + c < 127
    ensures LayoutChar(occupant, 16 * q + c)
      == if c == 15 then '\n' else if c % 2 == 1 then ' ' else Token(occupant, (7 - q) * 8 + c / 2)
  {
    Position(q, c);
  }

  /** Appending characters that agree with the layout at their positions keeps a prefix laid out. */
  lemma AppendLaidOut(occupant: map<Square, Piece>, acc: string, tail: string)
    requires LaidOut(occupant, acc) && |acc| + |tail| <= 127
    requires forall k :: 0 <= k < |tail| ==> tail[k] == LayoutChar(occupant, |acc| + k)
    ensures LaidOut(occupant, acc + tail)
  {
    var r := acc + tail;
    forall i | 0 <= i < |r|
      ensures r[i] == LayoutChar(occupant, i)
    {
      if i < |acc| {
        assert r[i] == acc[i];
      } else {
        assert r[i] == tail[i - |acc|];
      }
    }
  }

  /** The first square of a new rank: a newline, its token, a space. */
  lemma NewRankLayout(occupant: map<Square, Piece>, acc: string, q: nat)
    requires 1 <= q < 8 && |acc| == 16 * q - 1 && LaidOut(occupant, acc)
    ensures LaidOut(occupant, acc + ['\n', Token(occupant, (7 - q) * 8), ' '])
  {
    LayoutAt(occupant, q - 1, 15);
    LayoutAt(occupant, q, 0);
    LayoutAt(occupant, q, 1);
    AppendLaidOut(occupant, acc, ['\n', Token(occupant, (7 - q) * 8), ' ']);
  }

  /** A square within a rank: its token, then a space unless it is on file h. */
  lemma InRankLayout(occupant: map<Square, Piece>, acc: string, q: nat, f: nat)
    requires q < 8 && f < 8 && |acc| == 16 * q + 2 * f && LaidOut(occupant, acc)
    ensures LaidOut(occupant, acc + [Token(occupant, (7 - q) * 8 + f)] + (if f < 7 then " " else ""))
  {
    var t := Token(occupant, (7 - q) * 8 + f);
    Halves(f);
    LayoutAt(occupant, q, 2 * f);
    assert LayoutChar(occupant, |acc|) == t;
    if f < 7 {
      LayoutAt(occupant, q, 2 * f + 1);
      assert LayoutChar(occupant, |acc| + 1) == ' ';
      AppendLaidOut(occupant, acc, [t, ' ']);
      assert acc + [t] + " " == acc + [t, ' '];
    } else {
      AppendLaidOut(occupant, acc, [t]);
      assert acc + [t] + "" == acc + [t];
    }
  }

  lemma Halves(f: nat)
    ensures (2 * f) % 2 == 0 && (2 * f) / 2 == f
    ensures (2 * f + 1) % 2 == 1
  {
    Utils.DivUnique(2 * f, 2, f, 0);
    Utils.DivUnique(2 * f + 1, 2, f, 1);
  }

  /** One step of the fold extends a laid-out prefix by the characters of the next square. */
  lemma StepLayout(occupant: map<Square, Piece>, acc: string, j: nat)
    requires j < 64 && |acc| == PrintLength(j) && LaidOut(occupant, acc)
    ensures |PrintStep(occupant, acc, PrintOrder(j))| == PrintLength(j + 1)
    ensures LaidOut(occupant, PrintStep(occupant, acc, PrintOrder(j)))
  {
    OrderFacts(j);
    var q := j / 8;
    var f := j % 8;
    var sq := PrintOrder(j);
    if j > 0 && f == 0 {
      NewRankLayout(occupant, acc, q);
      assert PrintStep(occupant, acc, sq) == acc + ['\n', Token(occupant, sq), ' '];
    } else {
      InRankLayout(occupant, acc, q, f);
      assert PrintStep(occupant, acc, sq) == acc + [Token(occupant, sq)] + (if f < 7 then " " else "");
    }
  }

  lemma {:induction false} PrintFoldLayout(occupant: map<Square, Piece>, k: nat)
    requires k <= 64
    ensures |PrintFold(occupant, k)| == PrintLength(k)
    ensures LaidOut(occupant, PrintFold(occupant, k))
  {
    if k > 0 {
      PrintFoldLayout(occupant, k - 1);
      StepLayout(occupant, PrintFold(occupant, k - 1), k - 1);
    }
  }

  /**
   * `to_pretty_string` prints 127 characters: eight lines from rank 8 down to rank 1, each of
   * eight space-separated tokens (a piece letter or '.'), separated by newlines.
   */
  lemma PrettyStringLayout(occupant: map<Square, Piece>)
    ensures |PrettyString(occupant)| == 127
    ensures forall i :: 0 <= i < 127 ==> PrettyString(occupant)[i] == LayoutChar(occupant, i)
  {
    PrintFoldLayout(occupant, 64);
    assert PrintLength(64) == 127;
  }
}
