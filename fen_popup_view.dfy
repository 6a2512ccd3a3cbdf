/**
 * One frame of the "Load Game" window (`src/game/menu/fen_popup/view.rs`). The egui widgets are
 * outside the model: what the user did with them this frame arrives as a `Frame` value, and the
 * window applies it to the popup state, syncs text and controls, and reports the interaction.
 */
module FenPopupView {
  import opened Chess
  import opened Text
  import FenPopupState

  /** `FenPopupInteraction`. */
  datatype Interaction = NoInteraction | Cancel | Submit

  /**
   * `DEFAULT_BOARD_FEN` (declared in the popup's parent module, which is not part of this model):
   * taken to be the standard starting position.
   */
  const DEFAULT_BOARD_FEN: string := "rnbqkbnr/pppppppp/8/8/8/8/PPPPPPPP/RNBQKBNR w KQkq - 0 1"

  /** `EN_PASSANT_LABELS`: the squares of rank 4, then those of rank 5. */
  const EN_PASSANT_LABELS: seq<string> :=
    ["a4", "b4", "c4", "d4", "e4", "f4", "g4", "h4", "a5", "b5", "c5", "d5", "e5", "f5", "g5", "h5"]

  /** `file.to_index() | rank`, with `rank` 0 when Black is to move and 8 (`0b1000`) otherwise. */
  function LabelIndex(blackToMove: bool, file: Index8): (i: nat)
    ensures i < 16 && i == file + (if blackToMove then 0 else 8)
  {
    var rank: bv8 := if blackToMove then 0 else 8;
    var i := ((file as bv8) | rank) as int;
    assert i == file + (if blackToMove then 0 else 8) by {
      FileOrRank(file as bv8, rank);
    }
    i
  }

  /** Or-ing a file index below 8 with 0 or 8 adds them, as the two share no bit. */
  lemma FileOrRank(f: bv8, rank: bv8)
    requires f < 8 && (rank == 0 || rank == 8)
    ensures ((f | rank) as int) == f as int + rank as int
  {
  }

  /**
   * `en_passant_label`: the square of the pawn that can be taken, named as the crate names it: on
   * rank 4 when Black is to move (White has just pushed) and on rank 5 when White is to move.
   */
  function EnPassantLabel(blackToMove: bool, file: Index8): (r: string)
    ensures r == SquareName(MakeSquare(if blackToMove then 3 else 4, file))
  {
    var r := EN_PASSANT_LABELS[LabelIndex(blackToMove, file)];
    assert r == SquareName(MakeSquare(if blackToMove then 3 else 4, file)) by {
      LabelsNameSquares(blackToMove, file);
    }
    r
  }

  lemma LabelsNameSquares(blackToMove: bool, file: Index8)
    ensures EN_PASSANT_LABELS[file + (if blackToMove then 0 else 8)] == SquareName(MakeSquare(if blackToMove then 3 else 4, file))
  {
    var i := file + (if blackToMove then 0 else 8);
    LabelSpelling(i);
    assert EN_PASSANT_LABELS[i][0] == ('a' as int + file) as char;
  }

  /** Label `i` is the file letter `i % 8` followed by '4' (first eight) or '5' (last eight). */
  lemma LabelSpelling(i: nat)
    requires i < 16
    ensures EN_PASSANT_LABELS[i] == [('a' as int + i % 8) as char, if i < 8 then '4' else '5']
  {
    if i < 8 {
      if i < 4 {
        if i == 0 {} else if i == 1 {} else if i == 2 {} else {}
      } else {
        if i == 4 {} else if i == 5 {} else if i == 6 {} else {}
      }
    } else {
      if i < 12 {
        if i == 8 {} else if i == 9 {} else if i == 10 {} else {}
      } else {
        if i == 12 {} else if i == 13 {} else if i == 14 {} else {}
      }
    }
  }

  /** Different files or sides get different labels. */
  lemma EnPassantLabelInjective(b1: bool, f1: Index8, b2: bool, f2: Index8)
    ensures EnPassantLabel(b1, f1) == EnPassantLabel(b2, f2) ==> b1 == b2 && f1 == f2
  {
    var s1 := MakeSquare(if b1 then 3 else 4, f1);
    var s2 := MakeSquare(if b2 then 3 else 4, f2);
    SquareNameInjective(s1, s2);
    SquareCoordinates(s1);
    SquareCoordinates(s2);
  }

  /** `DragValue::clamp_range(lo..=hi)`: the value the widget keeps. */
  function Clamp(v: int, lo: int, hi: int): (r: int)
    requires lo <= hi
    ensures lo <= r <= hi
    ensures lo <= v <= hi ==> r == v
    ensures v < lo ==> r == lo
    ensures v > hi ==> r == hi
  {
    if v < lo then lo else if v > hi then hi else v
  }

  /** `players_turn_toggle`: a click flips the value. */
  function Toggle(value: bool, clicked: bool): (r: bool)
    ensures r != value <==> clicked
  {
    if clicked then !value else value
  }

  /**
   * What the user did in one frame: Escape, the text in the FEN field, Enter on leaving it, a click
   * on the side toggle, the checkbox and en passant file states, the numbers typed or dragged into
   * the two counters (unclamped), and clicks on Load and Cancel.
   */
  datatype Frame = Frame(
    escape: bool,
    text: string,
    enterOnLeave: bool,
    toggleClicked: bool,
    hasEnPassantTarget: bool,
    enPassantFile: Index8,
    whiteKingside: bool,
    whiteQueenside: bool,
    blackKingside: bool,
    blackQueenside: bool,
    halfmoveInput: int,
    fullmoveInput: int,
    loadClicked: bool,
    cancelClicked: bool)

  /** The controls after the widgets of a frame: the counters are clamped to 0..=99 and 0..=65535. */
  function ApplyWidgets(c: FenPopupState.PopupModel, f: Frame): (r: FenPopupState.PopupModel)
    ensures r.Valid()
    ensures r.blackToMove == Toggle(c.blackToMove, f.toggleClicked)
    ensures r.halfmoveClock <= 99 && r.halfmoveClock == Clamp(f.halfmoveInput, 0, 99)
    ensures r.fullmoveCount == Clamp(f.fullmoveInput, 0, U16_MAX)
  {
    FenPopupState.PopupModel(
      Toggle(c.blackToMove, f.toggleClicked),
      f.whiteKingside, f.whiteQueenside, f.blackKingside, f.blackQueenside,
      f.hasEnPassantTarget, f.enPassantFile,
      Clamp(f.halfmoveInput, 0, 99), Clamp(f.fullmoveInput, 0, U16_MAX))
  }

  /**
   * The interaction of a frame: Escape cancels and skips every widget; otherwise the later
   * widget wins, so Cancel beats Load, which beats Enter in the FEN field.
   */
  function FrameInteraction(f: Frame): (r: Interaction)
    ensures f.escape ==> r == Cancel
    ensures !f.escape ==> (r == Cancel <==> f.cancelClicked)
    ensures !f.escape ==> (r == Submit <==> !f.cancelClicked && (f.loadClicked || f.enterOnLeave))
  {
    if f.escape then Cancel
    else
      var afterFen := if f.enterOnLeave then Submit else NoInteraction;
      var afterLoad := if f.loadClicked then Submit else afterFen;
      if f.cancelClicked then Cancel else afterLoad
  }

  /**
   * `fen_window`: unless Escape was pressed the widgets write the text and the controls (and the
   * text field takes the focus it was asked for); then the state is synced, and a submit of an
   * empty text submits `DEFAULT_BOARD_FEN` instead.
   */
  method FenWindow(state: FenPopupState.PopupState, f: Frame, parseBoard: string -> Option<Board>,
                   parseBuilder: string -> Option<FenPopupState.Builder>, render: FenPopupState.Builder -> string)
    returns (interaction: Interaction)
    requires state.Valid()
    requires forall b :: |render(b)| >= 3
    modifies state
    ensures state.Valid()
    ensures interaction == FrameInteraction(f)
    ensures f.escape ==> state.focusFen == old(state.focusFen)
    ensures !f.escape ==> !state.focusFen
    ensures interaction == Submit ==> state.fen != []
    ensures interaction != Submit ==> state.fen == state.fenSeen && state.controls == state.controlsSeen
    ensures f.escape && old(state.fen) == old(state.fenSeen) && old(state.controls) == old(state.controlsSeen) ==>
      (state.fen == old(state.fen) && state.controls == old(state.controls))
    ensures !f.escape && f.text != old(state.fenSeen) && interaction != Submit ==> state.fen == f.text
    ensures var s := FenPopupState.SyncOf(
        if f.escape then old(state.fen) else f.text, old(state.fenSeen),
        if f.escape then old(state.controls) else ApplyWidgets(old(state.controls), f), old(state.controlsSeen),
        old(state.invalidFen), parseBoard, parseBuilder, render);
      state.controls == s.controls && state.invalidFen == s.invalidFen
      && state.fen == (if interaction == Submit && s.fen == [] then DEFAULT_BOARD_FEN else s.fen)
  {
    if f.escape {
      interaction := Cancel;
    } else {
      state.fen := f.text;
      if state.focusFen {
        state.focusFen := false;
      }
      state.controls := ApplyWidgets(state.controls, f);
      interaction := FrameInteraction(f);
    }
    state.Sync(parseBoard, parseBuilder, render);
    if interaction == Submit && state.fen == [] {
      state.fen := DEFAULT_BOARD_FEN;
    }
  }
}
