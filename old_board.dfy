/**
 * The older board resource (`src/game/board.rs`): square-to-entity maps filled once at setup, the
 * move-hint entities currently shown, and the move logic that keeps the UI pieces in step with
 * the `chess` board.
 */
module GameBoard {
  import opened Chess

  /** A piece entity with its colour and kind. */
  datatype BoardPiece = BoardPiece(entity: Entity, color: Color, typ: PieceKind)

  /** The two hint entities of a square: a dot for a move and a ring for a capture. */
  datatype MoveHints = MoveHints(moveEntity: Entity, captureEntity: Entity)

  /** `PlayGameAudio`. */
  datatype Sound = CaptureSound | CastleSound | MoveOpponent | MoveSelf | PromoteSound

  /** The commands `move_piece` adds to its `GameCommandList`. */
  datatype GameCommand =
    | MoveUiPiece(piece: BoardPiece, to: Square)
    | Captured(captured: BoardPiece)
    | PlayGameAudio(sound: Sound)

  /** Every legal move from `src` has hint entities for its destination (`move_hints` panics otherwise). */
  predicate HintsCover(moves: seq<ChessMove>, hints: map<Square, MoveHints>, src: Square)
  {
    forall i :: 0 <= i < |moves| && moves[i].source == src ==> moves[i].dest in hints
  }

  /** Is the move a capture of a piece of the side not to move (`color_combined(!side_to_move)`)? */
  predicate IsCaptureMove(b: Board, m: ChessMove)
  {
    OccupiedBy(b, m.dest, Opponent(b.sideToMove))
  }

  /**
   * The capture-hint entities of the first generator pass: the moves from `src` onto an opponent's
   * piece, in generator order.
   */
  function CaptureHints(moves: seq<ChessMove>, b: Board, hints: map<Square, MoveHints>, src: Square): (r: seq<Entity>)
    requires HintsCover(moves, hints, src)
    ensures |r| <= |moves|
  {
    if |moves| == 0 then []
    else
      var m := moves[|moves| - 1];
      CaptureHints(moves[..|moves| - 1], b, hints, src)
        + (if m.source == src && IsCaptureMove(b, m) then [hints[m.dest].captureEntity] else [])
  }

  /**
   * The move-hint entities of the second pass: the generator yields only the moves the first pass
   * did not, so these are the moves from `src` onto squares the opponent does not hold.
   */
  function QuietHints(moves: seq<ChessMove>, b: Board, hints: map<Square, MoveHints>, src: Square): (r: seq<Entity>)
    requires HintsCover(moves, hints, src)
    ensures |r| <= |moves|
  {
    if |moves| == 0 then []
    else
      var m := moves[|moves| - 1];
      QuietHints(moves[..|moves| - 1], b, hints, src)
        + (if m.source == src && !IsCaptureMove(b, m) then [hints[m.dest].moveEntity] else [])
  }

  /** The number of moves in `moves` that start on `src`. */
  function CountFrom(moves: seq<ChessMove>, src: Square): nat
  {
    if |moves| == 0 then 0
    else CountFrom(moves[..|moves| - 1], src) + (if moves[|moves| - 1].source == src then 1 else 0)
  }

  /** Every legal move from the source gets exactly one hint, in one of the two passes. */
  lemma {:induction false} HintsOnePerMove(moves: seq<ChessMove>, b: Board, hints: map<Square, MoveHints>, src: Square)
    requires HintsCover(moves, hints, src)
    ensures |CaptureHints(moves, b, hints, src)| + |QuietHints(moves, b, hints, src)| == CountFrom(moves, src)
  {
    if |moves| > 0 {
      HintsOnePerMove(moves[..|moves| - 1], b, hints, src);
    }
  }

  /** Only moves from the source produce hints: a source with no legal move shows none. */
  lemma {:induction false} NoMovesNoHints(moves: seq<ChessMove>, b: Board, hints: map<Square, MoveHints>, src: Square)
    requires HintsCover(moves, hints, src)
    requires CountFrom(moves, src) == 0
    ensures CaptureHints(moves, b, hints, src) == [] && QuietHints(moves, b, hints, src) == []
  {
    HintsOnePerMove(moves, b, hints, src);
  }

  /**
   * The rook's castling move for a king moving to `to`, as `(from, to)`: with kingside rights, a
   * king reaching the G-file of its back rank brings the H-rook to F; otherwise with queenside
   * rights, reaching the C-file brings the A-rook to D.
   */
  function CastleRookMove(b: Board, piece: BoardPiece, to: Square): (r: Option<(Square, Square)>)
    ensures r.Some? ==> piece.typ == King && RankOf(to) == BackRank(piece.color)
    ensures r.Some? ==> RankOf(r.value.0) == BackRank(piece.color) && RankOf(r.value.1) == BackRank(piece.color)
    ensures r.Some? && FileOf(to) == 6 ==> FileOf(r.value.0) == 7 && FileOf(r.value.1) == 5
    ensures r.Some? && FileOf(to) == 2 ==> FileOf(r.value.0) == 0 && FileOf(r.value.1) == 3
    ensures r.None? <==> (piece.typ != King
      || !((HasKingside(MyCastleRights(b)) && to == MakeSquare(BackRank(piece.color), 6))
        || (HasQueenside(MyCastleRights(b)) && to == MakeSquare(BackRank(piece.color), 2))))
  {
    var rank := BackRank(piece.color);
    if piece.typ != King then None
    else if HasKingside(MyCastleRights(b)) && to == MakeSquare(rank, 6) then
      Some((MakeSquare(rank, 7), MakeSquare(rank, 5)))
    else if HasQueenside(MyCastleRights(b)) && to == MakeSquare(rank, 2) then
      Some((MakeSquare(rank, 0), MakeSquare(rank, 3)))
    else None
  }

  /** The sound commands at the end of `move_piece`. */
  function SoundCommands(captured: Option<BoardPiece>, wasCastle: bool, mover: Color): (cmds: seq<GameCommand>)
    ensures captured.Some? ==> cmds == [Captured(captured.value), PlayGameAudio(CaptureSound)]
    ensures captured.None? ==> |cmds| == 1 && cmds[0].PlayGameAudio?
  {
    if captured.Some? then [Captured(captured.value), PlayGameAudio(CaptureSound)]
    else if wasCastle then [PlayGameAudio(CastleSound)]
    else [PlayGameAudio(if mover == Black then MoveOpponent else MoveSelf)]
  }

  /** The sound plays in priority order: a capture, then castling, then a move of the mover's colour. */
  lemma SoundPriority(captured: Option<BoardPiece>, wasCastle: bool, mover: Color)
    ensures var cmds := SoundCommands(captured, wasCastle, mover);
      cmds[|cmds| - 1] == PlayGameAudio(
        if captured.Some? then CaptureSound
        else if wasCastle then CastleSound
        else if mover == Black then MoveOpponent
        else MoveSelf)
    ensures var cmds := SoundCommands(captured, wasCastle, mover);
      (exists p :: Captured(p) in cmds) <==> captured.Some?
  {
    var cmds := SoundCommands(captured, wasCastle, mover);
    if captured.Some? {
      assert Captured(captured.value) in cmds;
    }
  }

  /** The first generator pass of `show_move_hints_for`: a capture hint per capture from `src`. */
  method CollectCaptureHints(moves: seq<ChessMove>, b: Board, hints: map<Square, MoveHints>, src: Square)
    returns (r: seq<Entity>)
    requires HintsCover(moves, hints, src)
    ensures r == CaptureHints(moves, b, hints, src)
  {
    r := [];
    var i := 0;
    while i < |moves|
      invariant 0 <= i <= |moves|
      invariant r == CaptureHints(moves[..i], b, hints, src)
    {
      assert moves[..i + 1][..i] == moves[..i];
      var m := moves[i];
      if m.source == src && OccupiedBy(b, m.dest, Opponent(b.sideToMove)) {
        r := r + [hints[m.dest].captureEntity];
      }
      i := i + 1;
    }
    assert moves[..i] == moves;
  }

  /** The second generator pass: a move hint per move from `src` onto a square the opponent does not hold. */
  method CollectQuietHints(moves: seq<ChessMove>, b: Board, hints: map<Square, MoveHints>, src: Square)
    returns (r: seq<Entity>)
    requires HintsCover(moves, hints, src)
    ensures r == QuietHints(moves, b, hints, src)
  {
    r := [];
    var i := 0;
    while i < |moves|
      invariant 0 <= i <= |moves|
      invariant r == QuietHints(moves[..i], b, hints, src)
    {
      assert moves[..i + 1][..i] == moves[..i];
      var m := moves[i];
      if m.source == src && !OccupiedBy(b, m.dest, Opponent(b.sideToMove)) {
        r := r + [hints[m.dest].moveEntity];
      }
      i := i + 1;
    }
    assert moves[..i] == moves;
  }

  class BoardState {
    var tiles: map<Square, Entity>
    var pieces: map<Square, BoardPiece>
    var highlights: map<Square, Entity>
    var moveHints: map<Square, MoveHints>
    var board: Board
    var showingHints: seq<Entity>

    /** `Default`: empty maps, no hints shown, and the crate's default board. */
    constructor (initial: Board)
      ensures tiles == map[] && pieces == map[] && highlights == map[] && moveHints == map[]
      ensures board == initial && showingHints == []
    {
      tiles := map[];
      pieces := map[];
      highlights := map[];
      moveHints := map[];
      board := initial;
      showingHints := [];
    }

    /** `tile`: panics when the square has no tile. */
    function Tile(sq: Square): Entity
      reads this
      requires sq in tiles
    {
      tiles[sq]
    }

    /** `set_tile`: fills an empty slot; an occupied one panics. */
    method SetTile(sq: Square, e: Entity)
      requires sq !in tiles
      modifies this
      ensures tiles == old(tiles)[sq := e]
      ensures pieces == old(pieces) && highlights == old(highlights) && moveHints == old(moveHints)
      ensures board == old(board) && showingHints == old(showingHints)
    {
      tiles := tiles[sq := e];
    }

    predicate HasPieceAt(sq: Square)
      reads this
    {
      sq in pieces
    }

    /** `piece`: panics when the square has no piece. */
    function PieceAt(sq: Square): BoardPiece
      reads this
      requires sq in pieces
    {
      pieces[sq]
    }

    /** `get_piece`: the piece on the square, if any. */
    function GetPiece(sq: Square): (r: Option<BoardPiece>)
      reads this
      ensures r.Some? <==> HasPieceAt(sq)
      ensures r.Some? ==> r.value == PieceAt(sq)
    {
      if sq in pieces then Some(pieces[sq]) else None
    }

    /** `set_piece`: fills an empty slot; an occupied one panics. */
    method SetPiece(sq: Square, p: BoardPiece)
      requires sq !in pieces
      modifies this
      ensures pieces == old(pieces)[sq := p]
      ensures tiles == old(tiles) && highlights == old(highlights) && moveHints == old(moveHints)
      ensures board == old(board) && showingHints == old(showingHints)
    {
      pieces := pieces[sq := p];
    }

    function Highlight(sq: Square): Entity
      reads this
      requires sq in highlights
    {
      highlights[sq]
    }

    /** `set_highlight`: fills an empty slot; an occupied one panics. */
    method SetHighlight(sq: Square, e: Entity)
      requires sq !in highlights
      modifies this
      ensures highlights == old(highlights)[sq := e]
      ensures tiles == old(tiles) && pieces == old(pieces) && moveHints == old(moveHints)
      ensures board == old(board) && showingHints == old(showingHints)
    {
      highlights := highlights[sq := e];
    }

    /** `set_move_hints`: fills an empty slot; an occupied one panics. */
    method SetMoveHints(sq: Square, h: MoveHints)
      requires sq !in moveHints
      modifies this
      ensures moveHints == old(moveHints)[sq := h]
      ensures tiles == old(tiles) && pieces == old(pieces) && highlights == old(highlights)
      ensures board == old(board) && showingHints == old(showingHints)
    {
      moveHints := moveHints[sq := h];
    }

    /** `is_colors_turn_at`: the piece on the square belongs to the side to move. */
    predicate IsColorsTurnAt(sq: Square)
      reads this
      requires sq in pieces
    {
      board.sideToMove == pieces[sq].color
    }

    /** The hints `show_move_hints_for(src)` hands out: capture hints first, then move hints. */
    function HintsFor(src: Square): seq<Entity>
      reads this
      requires src in pieces && HintsCover(board.legalMoves, moveHints, src)
    {
      if !IsColorsTurnAt(src) then []
      else CaptureHints(board.legalMoves, board, moveHints, src) + QuietHints(board.legalMoves, board, moveHints, src)
    }

    /**
     * `show_move_hints_for`: for a piece of the side to move, collects the capture hints of its
     * legal captures and then the move hints of its other legal moves, and records them as shown.
     * For a piece of the other side it returns nothing and records nothing.
     */
    method ShowMoveHintsFor(src: Square) returns (hints: seq<Entity>)
      requires src in pieces && HintsCover(board.legalMoves, moveHints, src)
      modifies this
      ensures hints == old(HintsFor(src))
      ensures showingHints == old(showingHints) + hints
      ensures tiles == old(tiles) && pieces == old(pieces) && highlights == old(highlights)
      ensures moveHints == old(moveHints) && board == old(board)
    {
      if !IsColorsTurnAt(src) {
        return [];
      }
      var captures := CollectCaptureHints(board.legalMoves, board, moveHints, src);
      var quiet := CollectQuietHints(board.legalMoves, board, moveHints, src);
      hints := captures + quiet;
      if |hints| > 0 {
        showingHints := showingHints + hints;
      }
    }

    /** `hide_move_hints`: hands back every shown hint in the order shown and forgets them. */
    method HideMoveHints() returns (hidden: seq<Entity>)
      modifies this
      ensures hidden == old(showingHints) && showingHints == []
      ensures tiles == old(tiles) && pieces == old(pieces) && highlights == old(highlights)
      ensures moveHints == old(moveHints) && board == old(board)
    {
      if |showingHints| == 0 {
        hidden := [];
      } else {
        hidden := showingHints;
        showingHints := [];
      }
    }

    /**
     * `move_piece`: queues the castling rook's UI move (if any) before the piece's own, plays the
     * move on the `chess` board (`make_move_new`, a parameter here), moves the map entry from
     * `from` to `to` (reporting a displaced piece as captured) and picks the sound.
     */
    method MovePiece(piece: BoardPiece, from: Square, to: Square, makeMove: (Board, ChessMove) -> Board)
      returns (cmds: seq<GameCommand>)
      requires from in pieces
      requires CastleRookMove(board, piece, to).Some? ==> CastleRookMove(board, piece, to).value.0 in pieces
      modifies this
      ensures var rook := CastleRookMove(old(board), piece, to);
        var captured := if to in old(pieces) && to != from then Some(old(pieces)[to]) else None;
        cmds == (if rook.Some? then [MoveUiPiece(old(pieces)[rook.value.0], rook.value.1)] else [])
          + [MoveUiPiece(piece, to)]
          + SoundCommands(captured, rook.Some?, old(pieces)[from].color)
      ensures pieces == (old(pieces) - {from})[to := old(pieces)[from]]
      ensures board == makeMove(old(board), ChessMove(from, to, None))
      ensures tiles == old(tiles) && highlights == old(highlights) && moveHints == old(moveHints)
      ensures showingHints == old(showingHints)
    {
      cmds := [];
      var wasCastle := false;
      var rook := CastleRookMove(board, piece, to);
      if rook.Some? {
        cmds := cmds + [MoveUiPiece(pieces[rook.value.0], rook.value.1)];
        wasCastle := true;
      }
      cmds := cmds + [MoveUiPiece(piece, to)];
      board := makeMove(board, ChessMove(from, to, None));
      var moved := pieces[from];
      var rest := pieces - {from};
      var captured: Option<BoardPiece> := None;
      if to in rest {
        captured := Some(rest[to]);
      }
      assert captured == (if to in old(pieces) && to != from then Some(old(pieces)[to]) else None);
      pieces := rest[to := moved];
      cmds := cmds + SoundCommands(captured, wasCastle, moved.color);
    }
  }
}
