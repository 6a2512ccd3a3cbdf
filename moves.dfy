/**
 * `src/game/board/moves.rs`: the `MovePiece` observer, which turns one move of a UI piece into a
 * list of deferred commands, and the two commands that then update the board resource.
 */
module BoardMoves {
  import opened Chess
  import opened GameBoardState
  import GameBoard
  import GameOverCommand

  type Sound = GameBoard.Sound

  /** The `MovePiece` event. */
  datatype MovePiece = MovePiece(from: Square, to: Square, promotion: Option<PieceKind>, animate: bool)

  /** What `move_piece` does, in order: direct texture changes, triggers and queued commands. */
  datatype MoveCommand =
    | SetTexture(entity: Entity, piece: Piece)
    | InsertPromotingPiece(entity: Entity, from: Square, to: Square)
    | TriggerUnselect
    | TriggerUpdateLastMove(from: Square, to: Square)
    | UpdatePieceState(color: Color, from: Square, to: Square)
    | RemoveDragging(entity: Entity)
    | MoveUiPiece(entity: Entity, from: Square, to: Square, animate: bool)
    | UpdateBoardState(from: Square, to: Square, color: Color, typ: PieceKind,
                       promotion: Option<PieceKind>, isCapture: bool)
    | PlayAudio(sound: Sound)
    | TriggerMoveCompleted

  /** A pawn reaching the far rank with no promotion chosen yet: the promotion UI takes over. */
  predicate StartsPromotion(meta: Piece, ev: MovePiece)
  {
    ev.promotion.None? && meta.kind == Pawn && RankOf(ev.to) == PromotionRank(meta.color)
  }

  /** The sound of a move: a promotion, then a capture (en passant included), then castling, then the mover's move sound. */
  function MoveSound(promoted: bool, captures: bool, castles: bool, color: Color): (s: Sound)
    ensures promoted ==> s == GameBoard.PromoteSound
    ensures !promoted && captures ==> s == GameBoard.CaptureSound
    ensures !promoted && !captures && castles ==> s == GameBoard.CastleSound
    ensures !promoted && !captures && !castles ==>
      s == (if color == Black then GameBoard.MoveOpponent else GameBoard.MoveSelf)
  {
    if promoted then GameBoard.PromoteSound
    else if captures then GameBoard.CaptureSound
    else if castles then GameBoard.CastleSound
    else if color == Black then GameBoard.MoveOpponent
    else GameBoard.MoveSelf
  }

  /** Each sound comes from exactly one situation, so the sound tells which rule fired. */
  lemma MoveSoundTellsWhy(promoted: bool, captures: bool, castles: bool, color: Color)
    ensures var s := MoveSound(promoted, captures, castles, color);
      (s == GameBoard.PromoteSound <==> promoted)
      && (s == GameBoard.CaptureSound <==> !promoted && captures)
      && (s == GameBoard.CastleSound <==> !promoted && !captures && castles)
      && (s == GameBoard.MoveSelf ==> color == White)
      && (s == GameBoard.MoveOpponent ==> color == Black)
  {
  }

  /** The castling rook move of this move, looked up as `move_piece` does. */
  function RookMove(bs: BoardState, entity: Entity, meta: Piece, to: Square): Option<(Square, Square)>
    reads bs
  {
    GameBoard.CastleRookMove(bs.board, GameBoard.BoardPiece(entity, meta.color, meta.kind), to)
  }

  /** `move_piece` looks up the castling rook's entity, and panics if it is missing. */
  predicate RookPresent(bs: BoardState, entity: Entity, meta: Option<Piece>, ev: MovePiece)
    reads bs
  {
    (meta.Some? && !StartsPromotion(meta.value, ev) && RookMove(bs, entity, meta.value, ev.to).Some?)
    ==> RookMove(bs, entity, meta.value, ev.to).value.0 in bs.pieces
  }

  /**
   * `move_piece`. A piece with no `PieceMeta` is ignored. A pawn reaching the far rank without a
   * chosen promotion only gets `PromotingPiece`. Otherwise: the texture changes for a promotion;
   * selection is cleared and the last move highlighted; the piece map update and the UI move are
   * queued, then the castling rook's, then the board update, the sound and the completion trigger.
   */
  function MovePieceCommands(bs: BoardState, entity: Entity, meta: Option<Piece>, ev: MovePiece)
    : (r: seq<MoveCommand>)
    reads bs
    requires RookPresent(bs, entity, meta, ev)
    ensures meta.None? ==> r == []
    ensures meta.Some? && StartsPromotion(meta.value, ev) ==> r == [InsertPromotingPiece(entity, ev.from, ev.to)]
  {
    match meta
    case None => []
    case Some(m) =>
      if StartsPromotion(m, ev) then [InsertPromotingPiece(entity, ev.from, ev.to)]
      else
        var rook := RookMove(bs, entity, m, ev.to);
        var isCapture := ev.to in bs.pieces;
        var isEnPassant := IsEnPassant(bs.board.enPassant, m.color, ev.to);
        CompletedMove(entity, m, ev,
                      if rook.Some? then Some((rook.value.0, rook.value.1, bs.pieces[rook.value.0])) else None,
                      isCapture, MoveSound(ev.promotion.Some?, isCapture || isEnPassant, rook.Some?, m.color))
  }

  /**
   * The commands of a move that completes, given the castling rook's move and entity (if any),
   * whether something stands on the destination, and the sound.
   */
  function CompletedMove(entity: Entity, m: Piece, ev: MovePiece, rook: Option<(Square, Square, Entity)>,
                         isCapture: bool, sound: Sound): seq<MoveCommand>
  {
    (if ev.promotion.Some? then [SetTexture(entity, Piece(m.color, ev.promotion.value))] else [])
    + [TriggerUnselect, TriggerUpdateLastMove(ev.from, ev.to), UpdatePieceState(m.color, ev.from, ev.to),
       RemoveDragging(entity), MoveUiPiece(entity, ev.from, ev.to, ev.animate)]
    + (if rook.Some? then
         [UpdatePieceState(m.color, rook.value.0, rook.value.1), MoveUiPiece(rook.value.2, rook.value.0, rook.value.1, true)]
       else [])
    + [UpdateBoardState(ev.from, ev.to, m.color, m.kind, ev.promotion, isCapture), PlayAudio(sound), TriggerMoveCompleted]
  }

  /** Where each command of `CompletedMove` sits. */
  lemma CompletedMoveLayout(entity: Entity, m: Piece, ev: MovePiece, rook: Option<(Square, Square, Entity)>,
                            isCapture: bool, sound: Sound)
    ensures var r := CompletedMove(entity, m, ev, rook, isCapture, sound);
      var base := if ev.promotion.Some? then 1 else 0;
      |r| == base + (if rook.Some? then 10 else 8)
      && (ev.promotion.Some? ==> r[0] == SetTexture(entity, Piece(m.color, ev.promotion.value)))
      && r[base] == TriggerUnselect
      && r[base + 1] == TriggerUpdateLastMove(ev.from, ev.to)
      && r[base + 2] == UpdatePieceState(m.color, ev.from, ev.to)
      && r[base + 3] == RemoveDragging(entity)
      && r[base + 4] == MoveUiPiece(entity, ev.from, ev.to, ev.animate)
      && (rook.Some? ==> r[base + 5] == UpdatePieceState(m.color, rook.value.0, rook.value.1)
                         && r[base + 6] == MoveUiPiece(rook.value.2, rook.value.0, rook.value.1, true))
      && r[|r| - 3] == UpdateBoardState(ev.from, ev.to, m.color, m.kind, ev.promotion, isCapture)
      && r[|r| - 2] == PlayAudio(sound)
      && r[|r| - 1] == TriggerMoveCompleted
  {
  }

  /**
   * Where each command of a completed move sits: the texture change (on promotion only), then
   * unselect, last-move highlight, map update, drag removal and UI move; then the castling rook's
   * map update and animated UI move; then the board update, the sound and the completion trigger.
   */
  lemma MovePieceLayout(bs: BoardState, entity: Entity, meta: Piece, ev: MovePiece)
    requires RookPresent(bs, entity, Some(meta), ev) && !StartsPromotion(meta, ev)
    ensures var r := MovePieceCommands(bs, entity, Some(meta), ev);
      var color := meta.color;
      var base := if ev.promotion.Some? then 1 else 0;
      var rook := RookMove(bs, entity, meta, ev.to);
      |r| == base + (if rook.Some? then 10 else 8)
      && (ev.promotion.Some? ==> r[0] == SetTexture(entity, Piece(color, ev.promotion.value)))
      && r[base] == TriggerUnselect
      && r[base + 1] == TriggerUpdateLastMove(ev.from, ev.to)
      && r[base + 2] == UpdatePieceState(color, ev.from, ev.to)
      && r[base + 3] == RemoveDragging(entity)
      && r[base + 4] == MoveUiPiece(entity, ev.from, ev.to, ev.animate)
      && (rook.Some? ==> r[base + 5] == UpdatePieceState(color, rook.value.0, rook.value.1)
                         && r[base + 6] == MoveUiPiece(bs.pieces[rook.value.0], rook.value.0, rook.value.1, true))
      && r[|r| - 3] == UpdateBoardState(ev.from, ev.to, color, meta.kind, ev.promotion, ev.to in bs.pieces)
      && r[|r| - 2] == PlayAudio(MoveSound(ev.promotion.Some?,
                                           ev.to in bs.pieces || IsEnPassant(bs.board.enPassant, color, ev.to),
                                           rook.Some?, color))
      && r[|r| - 1] == TriggerMoveCompleted
  {
    var rook := RookMove(bs, entity, meta, ev.to);
    var rookWithEntity := if rook.Some? then Some((rook.value.0, rook.value.1, bs.pieces[rook.value.0])) else None;
    var isCapture := ev.to in bs.pieces;
    var sound := MoveSound(ev.promotion.Some?, isCapture || IsEnPassant(bs.board.enPassant, meta.color, ev.to),
                           rook.Some?, meta.color);
    assert MovePieceCommands(bs, entity, Some(meta), ev) == CompletedMove(entity, meta, ev, rookWithEntity, isCapture, sound);
    CompletedMoveLayout(entity, meta, ev, rookWithEntity, isCapture, sound);
  }

  /**
   * Castling moves the rook as well: kingside the H-rook goes to F, queenside the A-rook to D, and
   * both its map update and its (animated) UI move are queued right after the king's.
   */
  lemma CastlingMovesRook(bs: BoardState, entity: Entity, meta: Piece, ev: MovePiece)
    requires RookPresent(bs, entity, Some(meta), ev)
    requires meta.kind == King && ev.promotion.None?
    requires (HasKingside(MyCastleRights(bs.board)) && ev.to == MakeSquare(BackRank(meta.color), 6))
      || (HasQueenside(MyCastleRights(bs.board)) && ev.to == MakeSquare(BackRank(meta.color), 2))
    ensures var r := MovePieceCommands(bs, entity, Some(meta), ev);
      var kingside := FileOf(ev.to) == 6;
      var rookFrom := MakeSquare(BackRank(meta.color), if kingside then 7 else 0);
      var rookTo := MakeSquare(BackRank(meta.color), if kingside then 5 else 3);
      rookFrom in bs.pieces
      && |r| == 10
      && r[5] == UpdatePieceState(meta.color, rookFrom, rookTo)
      && r[6] == MoveUiPiece(bs.pieces[rookFrom], rookFrom, rookTo, true)
      && r[8] == PlayAudio(if ev.to in bs.pieces || IsEnPassant(bs.board.enPassant, meta.color, ev.to)
                           then GameBoard.CaptureSound else GameBoard.CastleSound)
  {
    var rank := BackRank(meta.color);
    var rook := RookMove(bs, entity, meta, ev.to);
    assert rook.Some?;
    MovePieceLayout(bs, entity, meta, ev);
    if FileOf(ev.to) == 6 {
      assert rook.value == (MakeSquare(rank, 7), MakeSquare(rank, 5));
    } else {
      assert ev.to == MakeSquare(rank, 2);
      assert rook.value == (MakeSquare(rank, 0), MakeSquare(rank, 3));
    }
  }

  /** The piece map is updated before the board: the mover's `UpdatePieceState` precedes `UpdateBoardState`. */
  lemma PieceStateBeforeBoardState(bs: BoardState, entity: Entity, meta: Piece, ev: MovePiece)
    requires RookPresent(bs, entity, Some(meta), ev) && !StartsPromotion(meta, ev)
    ensures var r := MovePieceCommands(bs, entity, Some(meta), ev);
      exists i, j :: 0 <= i < j < |r| && r[i] == UpdatePieceState(meta.color, ev.from, ev.to)
        && r[j].UpdateBoardState? && r[j] == r[|r| - 3]
  {
    var r := MovePieceCommands(bs, entity, Some(meta), ev);
    var base := if ev.promotion.Some? then 1 else 0;
    MovePieceLayout(bs, entity, meta, ev);
    assert r[base + 2] == UpdatePieceState(meta.color, ev.from, ev.to);
  }

  /** `UpdatePieceState::apply`: moves the map entry and reports the captured entity, if any. */
  method ApplyUpdatePieceState(bs: BoardState, color: Color, from: Square, to: Square)
    returns (captured: Option<Entity>)
    requires from in bs.pieces
    modifies bs
    ensures (bs.pieces, captured) == MoveEntry(old(bs.pieces), old(bs.board.enPassant), color, from, to)
    ensures bs.board == old(bs.board) && bs.halfMoveClock == old(bs.halfMoveClock)
    ensures bs.fullMoveCount == old(bs.fullMoveCount) && bs.counters == old(bs.counters)
    ensures bs.tiles == old(bs.tiles) && bs.status == old(bs.status)
  {
    captured := bs.UpdatePiece(color, from, to);
  }

  /** The half-move clock after a move: reset by a pawn move or a capture, else one more. */
  function NextHalfMoveClock(clock: nat, typ: PieceKind, isCapture: bool): (r: nat)
    ensures r == 0 || r == clock + 1
    ensures r == 0 <==> typ == Pawn || isCapture
  {
    if typ == Pawn || isCapture then 0 else clock + 1
  }

  /** The full-move number after a move: one more after Black's move only. */
  function NextFullMoveCount(count: nat, color: Color): (r: nat)
    ensures r == count || r == count + 1
    ensures r == count + 1 <==> color == Black
  {
    if color == Black then count + 1 else count
  }

  /** The full-move number after `plies` moves of a game in which White moves first. */
  function AfterPlies(count: nat, plies: nat): nat
  {
    if plies == 0 then count
    else NextFullMoveCount(AfterPlies(count, plies - 1), if (plies - 1) % 2 == 0 then White else Black)
  }

  /** The full-move number counts pairs of moves: after `2 * n` moves, White first, it has grown by `n`. */
  lemma {:induction false} FullMovePerPair(count: nat, n: nat)
    ensures AfterPlies(count, 2 * n) == count + n
    ensures AfterPlies(count, 2 * n + 1) == count + n
  {
    if n > 0 {
      FullMovePerPair(count, n - 1);
      assert (2 * n - 1) % 2 == 1 && (2 * n) % 2 == 0;
    }
  }

  /** The clocks stay in their `u8` and `u16` ranges for this move. */
  predicate ClocksFit(bs: BoardState, typ: PieceKind, isCapture: bool, color: Color)
    reads bs
  {
    (typ == Pawn || isCapture || bs.halfMoveClock < Text.U8_MAX)
    && (color == Black ==> bs.fullMoveCount < Text.U16_MAX)
  }

  /**
   * `UpdateBoardState::apply`: plays the move on the board, updates both clocks, syncs the status
   * and, when the game is over, applies `GameOver` (whose effect is returned).
   */
  method ApplyUpdateBoardState(bs: BoardState, from: Square, to: Square, color: Color, typ: PieceKind,
                               promotion: Option<PieceKind>, isCapture: bool,
                               makeMove: (Board, ChessMove) -> Board)
    returns (gameOver: Option<GameOverCommand.GameOverEffect>)
    requires CountOf(bs.counters, makeMove(bs.board, ChessMove(from, to, promotion)).hash) < Text.U8_MAX
    requires ClocksFit(bs, typ, isCapture, color)
    modifies bs
    ensures bs.board == makeMove(old(bs.board), ChessMove(from, to, promotion))
    ensures bs.counters == Bump(old(bs.counters), bs.board.hash)
    ensures bs.halfMoveClock == NextHalfMoveClock(old(bs.halfMoveClock), typ, isCapture)
    ensures bs.fullMoveCount == NextFullMoveCount(old(bs.fullMoveCount), color)
    ensures bs.status == StatusFor(bs.board.status, bs.halfMoveClock, bs.counters)
    ensures gameOver.Some? <==> bs.IsGameOver()
    ensures gameOver.Some? ==> gameOver.value == GameOverCommand.Apply(bs.status)
    ensures bs.tiles == old(bs.tiles) && bs.pieces == old(bs.pieces)
    ensures bs.highlights == old(bs.highlights) && bs.tileHints == old(bs.tileHints)
  {
    bs.MakeBoardMove(from, to, promotion, makeMove);
    if typ == Pawn || isCapture {
      bs.ResetHalfMoveClock();
    } else {
      bs.IncHalfMoveClock();
    }
    if color == Black {
      bs.IncFullMoveCount();
    }
    bs.SyncStatus();
    if bs.IsGameOver() {
      gameOver := Some(GameOverCommand.Apply(bs.status));
    } else {
      gameOver := None;
    }
  }

  /** `GameOver` applied after a sync always shows icons: its ongoing-game warning cannot fire here. */
  lemma GameOverAfterSyncShowsIcons(bs: BoardStatus, half: nat, counters: map<nat, nat>)
    requires IsGameOverStatus(StatusFor(bs, half, counters))
    ensures GameOverCommand.Apply(StatusFor(bs, half, counters)).icons.Some?
    ensures !GameOverCommand.Apply(StatusFor(bs, half, counters)).warnsOngoing
  {
    GameOverCommand.IconsIffGameOver(StatusFor(bs, half, counters));
  }

  /** What `MoveUiPiece::apply` does with the piece's node after updating its square. */
  datatype UiMove = Animate(entity: Entity, from: Square, to: Square) | Reparent(entity: Entity, tile: Entity)

  /** The outcome of `MoveUiPiece::apply`: the entities' `Square` components, and the node move. */
  datatype UiPieceMoved = UiPieceMoved(squares: map<Entity, Square>, node: UiMove)

  /**
   * `MoveUiPiece::apply`: the piece's `Square` component, when it has one, becomes `to`; then the
   * piece is animated, or put straight on the destination tile (which must exist). `squares` holds
   * the entities that carry a `Square` component.
   */
  function MoveUiPieceEffect(bs: BoardState, squares: map<Entity, Square>, entity: Entity, from: Square, to: Square,
                             animate: bool): (r: UiPieceMoved)
    reads bs
    requires !animate ==> to in bs.tiles
    ensures r.squares.Keys == squares.Keys
    ensures entity in squares ==> r.squares[entity] == to
    ensures forall e :: e in squares && e != entity ==> r.squares[e] == squares[e]
    ensures animate <==> r.node.Animate?
    ensures r.node.entity == entity
    ensures r.node.Animate? ==> r.node.from == from && r.node.to == to
    ensures r.node.Reparent? ==> r.node.tile == bs.tiles[to]
  {
    var moved := if entity in squares then squares[entity := to] else squares;
    UiPieceMoved(moved, if animate then Animate(entity, from, to) else Reparent(entity, bs.Tile(to)))
  }
}
