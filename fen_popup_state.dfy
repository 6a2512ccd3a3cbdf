/**
 * The state behind the "Load Game" popup (`src/game/menu/fen_popup/state.rs`): a FEN text field
 * and a set of controls (side to move, castle rights, en passant file, the two move counters)
 * kept in step with each other. Whichever of the two the user edited since the last frame
 * rewrites the other. The source detects edits by comparing hashes with the ones stored at the
 * last sync; the model stores the values themselves, so a hash collision is not modelled.
 */
module FenPopupState {
  import opened Chess
  import opened Text
  import GameBoardState

  /**
   * `DEFAULT_FEN`, imported from `src/game/consts.rs`; the revision of that file modelled here
   * does not declare it, so it is taken to be the standard starting position.
   */
  const DEFAULT_FEN: string := "rnbqkbnr/pppppppp/8/8/8/8/PPPPPPPP/RNBQKBNR w KQkq - 0 1"

  /** `castle_rights`: the crate's castle rights for a pair of kingside/queenside flags. */
  function CastleRightsFromFlags(kingside: bool, queenside: bool): (r: CastleRights)
    ensures HasKingside(r) == kingside && HasQueenside(r) == queenside
  {
    match (kingside, queenside)
    case (true, true) => Both
    case (true, false) => KingSide
    case (false, true) => QueenSide
    case (false, false) => NoRights
  }

  /** The mapping is a bijection: every right comes from exactly the flags it has. */
  lemma CastleRightsBijection(r: CastleRights, kingside: bool, queenside: bool)
    ensures CastleRightsFromFlags(HasKingside(r), HasQueenside(r)) == r
    ensures CastleRightsFromFlags(kingside, queenside) == r <==> (kingside == HasKingside(r) && queenside == HasQueenside(r))
  {
  }

  /** `PopupModel`: the controls. The counters are a `u8` and a `u16`. */
  datatype PopupModel = PopupModel(
    blackToMove: bool,
    whiteKingside: bool,
    whiteQueenside: bool,
    blackKingside: bool,
    blackQueenside: bool,
    hasEnPassantTarget: bool,
    enPassantFile: Index8,
    halfmoveClock: nat,
    fullmoveCount: nat)
  {
    predicate Valid()
    {
      halfmoveClock <= U8_MAX && fullmoveCount <= U16_MAX
    }
  }

  /** `PopupModel::default`: White to move, all castle rights, no en passant target (file A), clocks 0 and 1. */
  const DEFAULT_MODEL: PopupModel := PopupModel(false, true, true, true, true, false, 0, 0, 1)

  /**
   * `fen.split(' ').skip(i).next().and_then(|s| s.parse().ok())`: the `i`-th space-separated field
   * (from 0), when there is one and it parses as an integer no larger than `max`.
   */
  function FieldValue(fen: string, i: nat, max: nat): (r: Option<nat>)
    ensures r.Some? <==> i < |Split(fen, ' ')| && ParseU(Split(fen, ' ')[i], max).Some?
    ensures r.Some? ==> r == ParseU(Split(fen, ' ')[i], max) && r.value <= max
  {
    var fields := Split(fen, ' ');
    if i < |fields| then ParseU(fields[i], max) else None
  }

  /**
   * The controls `update_controls_from_fen` reads from a board the crate parsed out of `fen`. The en
   * passant file keeps its old value when there is no target, and each counter keeps its old value
   * unless the fifth (sixth) space-separated field of the text parses as a `u8` (`u16`).
   */
  function ReadControls(c: PopupModel, board: Board, fen: string): (r: PopupModel)
    ensures r.blackToMove <==> board.sideToMove == Black
    ensures CastleRightsFromFlags(r.whiteKingside, r.whiteQueenside) == board.whiteCastle
    ensures CastleRightsFromFlags(r.blackKingside, r.blackQueenside) == board.blackCastle
    ensures r.hasEnPassantTarget <==> board.enPassant.Some?
    ensures r.enPassantFile == if board.enPassant.Some? then FileOf(board.enPassant.value) else c.enPassantFile
    ensures r.halfmoveClock == (if FieldValue(fen, 4, U8_MAX).Some? then FieldValue(fen, 4, U8_MAX).value else c.halfmoveClock)
    ensures r.fullmoveCount == (if FieldValue(fen, 5, U16_MAX).Some? then FieldValue(fen, 5, U16_MAX).value else c.fullmoveCount)
    ensures c.Valid() ==> r.Valid()
  {
    var half := FieldValue(fen, 4, U8_MAX);
    var full := FieldValue(fen, 5, U16_MAX);
    PopupModel(
      board.sideToMove == Black,
      HasKingside(board.whiteCastle), HasQueenside(board.whiteCastle),
      HasKingside(board.blackCastle), HasQueenside(board.blackCastle),
      board.enPassant.Some?,
      if board.enPassant.Some? then FileOf(board.enPassant.value) else c.enPassantFile,
      if half.Some? then half.value else c.halfmoveClock,
      if full.Some? then full.value else c.fullmoveCount)
  }

  /**
   * A `chess::BoardBuilder` as the popup uses it: side to move, castle rights and en passant file
   * are set from the controls; everything else is carried from the parsed FEN.
   */
  datatype Builder = Builder(sideToMove: Color, whiteCastle: CastleRights, blackCastle: CastleRights,
                             enPassantFile: Option<Index8>, placement: string)

  /**
   * The builder after `update_fen_from_controls` has applied the controls: the side is flipped
   * when it differs from the toggle, and the rights and en passant file are replaced.
   */
  function ApplyControls(b: Builder, c: PopupModel): (r: Builder)
    ensures r.sideToMove == (if c.blackToMove then Black else White)
    ensures HasKingside(r.whiteCastle) == c.whiteKingside && HasQueenside(r.whiteCastle) == c.whiteQueenside
    ensures HasKingside(r.blackCastle) == c.blackKingside && HasQueenside(r.blackCastle) == c.blackQueenside
    ensures r.enPassantFile.Some? <==> c.hasEnPassantTarget
    ensures r.enPassantFile.Some? ==> r.enPassantFile.value == c.enPassantFile
    ensures r.placement == b.placement
  {
    var fenBlackToMove := b.sideToMove == Black;
    var side := if fenBlackToMove != c.blackToMove then Opponent(b.sideToMove) else b.sideToMove;
    Builder(side,
            CastleRightsFromFlags(c.whiteKingside, c.whiteQueenside),
            CastleRightsFromFlags(c.blackKingside, c.blackQueenside),
            if c.hasEnPassantTarget then Some(c.enPassantFile) else None,
            b.placement)
  }

  /** `compute_hash` stands for the value it hashes: the text and controls seen at the last sync. */
  /** The text, controls and error flag a `sync` leaves. */
  datatype Synced = Synced(fen: string, controls: PopupModel, invalidFen: bool)

  /**
   * What `sync` makes of a text and controls against the values last seen: a changed text rewrites
   * the controls; otherwise changed controls rewrite the text; otherwise nothing changes.
   */
  function SyncOf(fen: string, fenSeen: string, controls: PopupModel, controlsSeen: PopupModel, invalidFen: bool,
                  parseBoard: string -> Option<Board>, parseBuilder: string -> Option<Builder>,
                  render: Builder -> string): Synced
    requires forall b :: |render(b)| >= 3
  {
    if fen != fenSeen then
      Synced(fen, if parseBoard(fen).Some? then ReadControls(controls, parseBoard(fen).value, fen) else controls,
             parseBoard(fen).None?)
    else if controls != controlsSeen then
      var start := if fen == [] then DEFAULT_FEN else fen;
      Synced(if parseBuilder(start).None? then start
             else GameBoardState.FenText(render(ApplyControls(parseBuilder(start).value, controls)),
                                         controls.halfmoveClock, controls.fullmoveCount),
             controls, parseBuilder(start).None?)
    else Synced(fen, controls, invalidFen)
  }

  class PopupState {
    var focusFen: bool
    var fen: string
    var fenSeen: string
    var invalidFen: bool
    var controls: PopupModel
    var controlsSeen: PopupModel

    predicate Valid()
      reads this
    {
      controls.Valid()
    }

    /** `PopupState::default`. */
    constructor ()
      ensures Valid()
      ensures focusFen && fen == [] && fenSeen == [] && !invalidFen
      ensures controls == DEFAULT_MODEL && controlsSeen == DEFAULT_MODEL
    {
      focusFen := true;
      fen := [];
      fenSeen := [];
      invalidFen := false;
      controls := DEFAULT_MODEL;
      controlsSeen := DEFAULT_MODEL;
    }

    /** `reset`: the empty text, focus requested, the default controls, no error; both seen at once. */
    method Reset()
      modifies this
      ensures Valid()
      ensures focusFen && fen == [] && fenSeen == [] && !invalidFen
      ensures controls == DEFAULT_MODEL && controlsSeen == DEFAULT_MODEL
    {
      fen := [];
      fenSeen := fen;
      focusFen := true;
      controls := DEFAULT_MODEL;
      controlsSeen := controls;
      invalidFen := false;
    }

    /**
     * `update_controls_from_fen`: `invalid_fen` records whether the crate rejects the text; a
     * rejected text leaves the controls alone, an accepted one sets them from the board.
     */
    method UpdateControlsFromFen(parseBoard: string -> Option<Board>)
      requires Valid()
      modifies this
      ensures Valid()
      ensures invalidFen == parseBoard(fen).None?
      ensures parseBoard(fen).None? ==> controls == old(controls)
      ensures parseBoard(fen).Some? ==> controls == ReadControls(old(controls), parseBoard(fen).value, fen)
      ensures fen == old(fen) && fenSeen == old(fenSeen) && focusFen == old(focusFen) && controlsSeen == old(controlsSeen)
    {
      var board := parseBoard(fen);
      invalidFen := board.None?;
      if board.Some? {
        controls := ReadControls(controls, board.value, fen);
      }
    }

    /**
     * `update_fen_from_controls`: an empty text is first replaced by `DEFAULT_FEN`. If the builder
     * accepts the text, the text becomes the builder's FEN with the controls applied and its
     * "0 1" tail replaced by the two counters; otherwise it is left as it is.
     */
    method UpdateFenFromControls(parseBuilder: string -> Option<Builder>, render: Builder -> string)
      requires Valid()
      requires forall b :: |render(b)| >= 3
      modifies this
      ensures Valid()
      ensures var start := if old(fen) == [] then DEFAULT_FEN else old(fen);
        invalidFen == parseBuilder(start).None?
        && (parseBuilder(start).None? ==> fen == start)
        && (parseBuilder(start).Some? ==>
              fen == GameBoardState.FenText(render(ApplyControls(parseBuilder(start).value, controls)),
                                            controls.halfmoveClock, controls.fullmoveCount))
      ensures controls == old(controls) && controlsSeen == old(controlsSeen) && fenSeen == old(fenSeen)
      ensures focusFen == old(focusFen)
    {
      if fen == [] {
        fen := DEFAULT_FEN;
      }
      var board := parseBuilder(fen);
      invalidFen := board.None?;
      if board.Some? {
        var b := ApplyControls(board.value, controls);
        var text := render(b);
        fen := text[..|text| - 3];
        fen := fen + NatToString(controls.halfmoveClock) + " " + NatToString(controls.fullmoveCount);
      }
    }

    /**
     * `sync`: a changed text rewrites the controls; otherwise changed controls rewrite the text;
     * when both changed, the text wins. Afterwards both are recorded as seen.
     */
    method Sync(parseBoard: string -> Option<Board>, parseBuilder: string -> Option<Builder>, render: Builder -> string)
      requires Valid()
      requires forall b :: |render(b)| >= 3
      modifies this
      ensures Valid()
      ensures fenSeen == fen && controlsSeen == controls
      ensures old(fen) != old(fenSeen) ==>
        (fen == old(fen) && invalidFen == parseBoard(fen).None?
         && controls == (if parseBoard(fen).Some? then ReadControls(old(controls), parseBoard(fen).value, fen) else old(controls)))
      ensures old(fen) == old(fenSeen) && old(controls) != old(controlsSeen) ==>
        (controls == old(controls)
         && var start := if old(fen) == [] then DEFAULT_FEN else old(fen);
           invalidFen == parseBuilder(start).None?
           && fen == (if parseBuilder(start).None? then start
                      else GameBoardState.FenText(render(ApplyControls(parseBuilder(start).value, controls)),
                                                  controls.halfmoveClock, controls.fullmoveCount)))
      ensures old(fen) == old(fenSeen) && old(controls) == old(controlsSeen) ==>
        (fen == old(fen) && controls == old(controls) && invalidFen == old(invalidFen))
      ensures focusFen == old(focusFen)
      ensures Synced(fen, controls, invalidFen)
        == SyncOf(old(fen), old(fenSeen), old(controls), old(controlsSeen), old(invalidFen), parseBoard, parseBuilder, render)
    {
      if fen != fenSeen {
        UpdateControlsFromFen(parseBoard);
        fenSeen := fen;
        controlsSeen := controls;
      } else if controls != controlsSeen {
        UpdateFenFromControls(parseBuilder, render);
        fenSeen := fen;
        controlsSeen := controls;
      }
    }
  }

  /**
   * Regenerating the text from valid controls and reading it back gives the same controls, as long
   * as the crate prints the builder's FEN in its usual shape and parses it back to a board with the
   * builder's side, rights and en passant file.
   */
  lemma ControlsSurviveRegeneration(c: PopupModel, b: Builder, render: Builder -> string, board: Board)
    requires c.Valid()
    requires GameBoardState.CrateFenShape(render(ApplyControls(b, c)))
    requires board.sideToMove == ApplyControls(b, c).sideToMove
    requires board.whiteCastle == ApplyControls(b, c).whiteCastle && board.blackCastle == ApplyControls(b, c).blackCastle
    requires board.enPassant.Some? <==> c.hasEnPassantTarget
    requires board.enPassant.Some? ==> FileOf(board.enPassant.value) == c.enPassantFile
    ensures ReadControls(c, board, GameBoardState.FenText(render(ApplyControls(b, c)), c.halfmoveClock, c.fullmoveCount)) == c
  {
    var text := render(ApplyControls(b, c));
    var fen := GameBoardState.FenText(text, c.halfmoveClock, c.fullmoveCount);
    var parseBoard := (s: string) => Some(board);
    GameBoardState.FenRoundTrip(text, c.halfmoveClock, c.fullmoveCount, parseBoard);
    var r := ReadControls(c, board, fen);
    CastleRightsBijection(board.whiteCastle, r.whiteKingside, r.whiteQueenside);
    CastleRightsBijection(board.blackCastle, r.blackKingside, r.blackQueenside);
  }
}
