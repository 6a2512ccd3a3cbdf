/**
 * The older selection machine (`src/game/mouse/selection.rs`), built on Bevy's stack-based
 * `State` resource. Handling events only schedules the next state; entering a state runs
 * `on_enter_selection_state`, and the three transient `Do*` states immediately schedule the
 * state that follows them.
 *
 * Bevy's `State<T>` is modelled with the rules of the Bevy version the file uses: `set` fails when
 * the new state equals the current one (by the type's `PartialEq`) or a transition is already
 * scheduled; `overwrite_set` fails only in the first case; the current state does not change
 * until the scheduled transition is applied, after the system has run.
 */
module MouseSelection {
  import opened Chess
  import GameBoard

  datatype SelectionState =
    | Unselected
    | SelectingDragging(sq: Square)
    | Selected(sq: Square)
    | SelectedDragging(sq: Square)
    | DoChangeSelection(from: Square, to: Square)
    | DoMove(from: Square, to: Square)
    | DoUnselect(sq: Square)

  /** `mem::discriminant`: the variant's position, ignoring every square. */
  function Discriminant(s: SelectionState): (d: nat)
    ensures d < 7
  {
    match s
    case Unselected => 0
    case SelectingDragging(_) => 1
    case Selected(_) => 2
    case SelectedDragging(_) => 3
    case DoChangeSelection(_, _) => 4
    case DoMove(_, _) => 5
    case DoUnselect(_) => 6
  }

  /** `PartialEq::eq`: equal discriminants. */
  predicate StateEq(a: SelectionState, b: SelectionState)
  {
    Discriminant(a) == Discriminant(b)
  }

  /** What `Hash::hash` feeds to the hasher: the discriminant alone. */
  function HashInput(s: SelectionState): nat
  {
    Discriminant(s)
  }

  /** Two states are equal exactly when they are the same variant, whatever their squares. */
  lemma StateEqIffSameVariant(a: SelectionState, b: SelectionState)
    ensures StateEq(a, b) <==>
      (a.Unselected? && b.Unselected?) || (a.SelectingDragging? && b.SelectingDragging?)
      || (a.Selected? && b.Selected?) || (a.SelectedDragging? && b.SelectedDragging?)
      || (a.DoChangeSelection? && b.DoChangeSelection?) || (a.DoMove? && b.DoMove?)
      || (a.DoUnselect? && b.DoUnselect?)
  {
  }

  /** Equal states hash alike, and `StateEq` is an equivalence. */
  lemma HashAgreesWithEq(a: SelectionState, b: SelectionState, c: SelectionState)
    ensures StateEq(a, b) ==> HashInput(a) == HashInput(b)
    ensures StateEq(a, a) && (StateEq(a, b) ==> StateEq(b, a))
    ensures StateEq(a, b) && StateEq(b, c) ==> StateEq(a, c)
  {
  }

  const SELECTING_DRAGGING: SelectionState := SelectingDragging(A1)
  const SELECTED: SelectionState := Selected(A1)
  const SELECTED_DRAGGING: SelectionState := SelectedDragging(A1)
  const DO_CHANGE_SELECTION: SelectionState := DoChangeSelection(A1, A1)
  const DO_MOVE: SelectionState := DoMove(A1, A1)
  const DO_UNSELECT: SelectionState := DoUnselect(A1)

  /**
   * Each constant, built on A1, equals every state of its variant, which is why one `on_enter`
   * system set per constant runs on entering any state of that variant.
   */
  lemma ConstantsMatchVariants(s: SelectionState)
    ensures StateEq(s, SELECTING_DRAGGING) <==> s.SelectingDragging?
    ensures StateEq(s, SELECTED) <==> s.Selected?
    ensures StateEq(s, SELECTED_DRAGGING) <==> s.SelectedDragging?
    ensures StateEq(s, DO_CHANGE_SELECTION) <==> s.DoChangeSelection?
    ensures StateEq(s, DO_MOVE) <==> s.DoMove?
    ensures StateEq(s, DO_UNSELECT) <==> s.DoUnselect?
  {
  }

  /** `Display` (debug builds). The change-selection state prints as "DoChangeSelected(..)". */
  function Display(s: SelectionState): string
  {
    match s
    case Unselected => "Unselected"
    case SelectingDragging(sq) => "SelectingDragging(" + SquareName(sq) + ")"
    case Selected(sq) => "Selected(" + SquareName(sq) + ")"
    case SelectedDragging(sq) => "SelectedDragging(" + SquareName(sq) + ")"
    case DoChangeSelection(f, t) => "DoChangeSelected(" + SquareName(f) + " -> " + SquareName(t) + ")"
    case DoMove(f, t) => "DoMove(" + SquareName(f) + " -> " + SquareName(t) + ")"
    case DoUnselect(sq) => "DoUnselect(" + SquareName(sq) + ")"
  }

  /** Unlike `PartialEq`, the printed form tells every two different states apart. */
  lemma DisplayInjective(a: SelectionState, b: SelectionState)
    requires Display(a) == Display(b)
    ensures a == b
  {
    DisplayLength(a);
    DisplayLength(b);
    var s := Display(a);
    match a
    case Unselected =>
    case SelectingDragging(x) =>
      assert s[18..20] == SquareName(x) == SquareName(b.sq);
      SquareNameInjective(x, b.sq);
    case Selected(x) =>
      assert s[9..11] == SquareName(x) == SquareName(b.sq);
      SquareNameInjective(x, b.sq);
    case SelectedDragging(x) =>
      assert s[17..19] == SquareName(x) == SquareName(b.sq);
      SquareNameInjective(x, b.sq);
    case DoChangeSelection(f, t) =>
      assert s[17..19] == SquareName(f) == SquareName(b.from);
      assert s[23..25] == SquareName(t) == SquareName(b.to);
      SquareNameInjective(f, b.from);
      SquareNameInjective(t, b.to);
    case DoMove(f, t) =>
      assert s[7..9] == SquareName(f) == SquareName(b.from);
      assert s[13..15] == SquareName(t) == SquareName(b.to);
      SquareNameInjective(f, b.from);
      SquareNameInjective(t, b.to);
    case DoUnselect(x) =>
      assert s[11..13] == SquareName(x) == SquareName(b.sq);
      SquareNameInjective(x, b.sq);
  }

  /** Every variant prints at its own length, so the length alone tells the variant. */
  lemma DisplayLength(s: SelectionState)
    ensures |Display(s)| == match s
      case Unselected => 10
      case SelectingDragging(_) => 21
      case Selected(_) => 12
      case SelectedDragging(_) => 20
      case DoChangeSelection(_, _) => 26
      case DoMove(_, _) => 16
      case DoUnselect(_) => 14
  {
  }

  datatype SelectionEvent = MouseDown(sq: Square) | MouseUp(sq: Square)

  /** Bevy's `State<SelectionState>` resource. */
  class StateResource {
    var current: SelectionState
    var scheduled: Option<SelectionState>

    /** `add_state(SelectionState::Unselected)`. */
    constructor ()
      ensures current == Unselected && scheduled == None
    {
      current := Unselected;
      scheduled := None;
    }

    /** `State::set`: schedules `s` unless it equals the current state or a transition is queued. */
    method Set(s: SelectionState) returns (ok: bool)
      modifies this
      ensures ok <==> !StateEq(old(current), s) && old(scheduled).None?
      ensures scheduled == (if ok then Some(s) else old(scheduled))
      ensures current == old(current)
    {
      if StateEq(current, s) || scheduled.Some? {
        return false;
      }
      scheduled := Some(s);
      return true;
    }

    /** `State::overwrite_set`: like `set`, but replaces a queued transition instead of failing. */
    method OverwriteSet(s: SelectionState) returns (ok: bool)
      modifies this
      ensures ok <==> !StateEq(old(current), s)
      ensures scheduled == (if ok then Some(s) else old(scheduled))
      ensures current == old(current)
    {
      if StateEq(current, s) {
        return false;
      }
      scheduled := Some(s);
      return true;
    }
  }

  /** What handling one event asks of the state resource. */
  datatype Request = Keep | SetTo(next: SelectionState) | Todo

  /**
   * The `match` of `handle_selection_events` for one event, given `has_piece_at` and the legality
   * oracle `move_is_valid`. The transient states ignore every event, and a requested state is
   * never equal to the current one, so `set` can only fail on an already queued transition.
   */
  function Decide(current: SelectionState, event: SelectionEvent,
                  hasPiece: Square -> bool, moveIsValid: (Square, Square) -> bool): (r: Request)
    ensures current.DoChangeSelection? || current.DoMove? || current.DoUnselect? ==> r == Keep
    ensures r.SetTo? ==> !StateEq(current, r.next)
    ensures r.Todo? <==> event.MouseDown? && (current.SelectingDragging? || current.SelectedDragging?)
    ensures event.MouseUp? && (current.Unselected? || current.Selected?) ==> r == Keep
    ensures r.SetTo? && r.next.DoMove? ==>
      !current.Unselected? && r.next.from == current.sq && moveIsValid(r.next.from, r.next.to)
  {
    match current
    case Unselected =>
      (match event
       case MouseDown(sq) => if hasPiece(sq) then SetTo(SelectingDragging(sq)) else Keep
       case MouseUp(_) => Keep)
    case SelectingDragging(s) =>
      (match event
       case MouseDown(_) => Todo
       case MouseUp(sq) => if moveIsValid(s, sq) then SetTo(DoMove(s, sq)) else SetTo(Selected(s)))
    case Selected(s) =>
      (match event
       case MouseDown(sq) =>
         if sq == s then SetTo(SelectedDragging(s))
         else if moveIsValid(s, sq) then SetTo(DoMove(s, sq))
         else if hasPiece(sq) then SetTo(DoChangeSelection(s, sq))
         else SetTo(DoUnselect(s))
       case MouseUp(_) => Keep)
    case SelectedDragging(s) =>
      (match event
       case MouseDown(_) => Todo
       case MouseUp(sq) =>
         if sq == s then SetTo(DoUnselect(s))
         else if moveIsValid(s, sq) then SetTo(DoMove(s, sq))
         else SetTo(Selected(s)))
    case DoChangeSelection(_, _) => Keep
    case DoMove(_, _) => Keep
    case DoUnselect(_) => Keep
  }

  /** The outcome of a batch of events: the scheduled transition, and whether the system panicked. */
  datatype Outcome = Outcome(scheduled: Option<SelectionState>, panicked: bool)

  /** The event loop as a function of the (fixed) current state and the queued transition. */
  function RunEvents(current: SelectionState, scheduled: Option<SelectionState>, events: seq<SelectionEvent>,
                     hasPiece: Square -> bool, moveIsValid: (Square, Square) -> bool): Outcome
    decreases |events|
  {
    if |events| == 0 then Outcome(scheduled, false)
    else
      match Decide(current, events[0], hasPiece, moveIsValid)
      case Todo => Outcome(scheduled, true)
      case Keep => RunEvents(current, scheduled, events[1..], hasPiece, moveIsValid)
      case SetTo(next) =>
        if StateEq(current, next) || scheduled.Some? then Outcome(scheduled, true)
        else RunEvents(current, Some(next), events[1..], hasPiece, moveIsValid)
  }

  /**
   * `handle_selection_events`: asks the state resource for the transition each event calls for;
   * a `todo!` or a failed `set(..).unwrap()` panics and ends the system.
   */
  method HandleSelectionEvents(res: StateResource, events: seq<SelectionEvent>,
                               hasPiece: Square -> bool, moveIsValid: (Square, Square) -> bool)
    returns (panicked: bool)
    modifies res
    ensures Outcome(res.scheduled, panicked) == RunEvents(old(res.current), old(res.scheduled), events, hasPiece, moveIsValid)
    ensures res.current == old(res.current)
  {
    panicked := false;
    var i := 0;
    while i < |events|
      invariant 0 <= i <= |events|
      invariant res.current == old(res.current)
      invariant RunEvents(old(res.current), old(res.scheduled), events, hasPiece, moveIsValid)
        == RunEvents(res.current, res.scheduled, events[i..], hasPiece, moveIsValid)
    {
      assert events[i..][0] == events[i];
      assert events[i..][1..] == events[i + 1..];
      var r := Decide(res.current, events[i], hasPiece, moveIsValid);
      match r {
        case Todo =>
          panicked := true;
          return;
        case Keep =>
        case SetTo(next) =>
          var ok := res.Set(next);
          if !ok {
            panicked := true;
            return;
          }
      }
      i := i + 1;
    }
    assert events[i..] == [];
  }

  /**
   * The shape of one frame's events from the mouse handler: at most one press, then at most one
   * release.
   */
  predicate FrameShaped(events: seq<SelectionEvent>)
  {
    |events| <= 2 && (|events| == 2 ==> events[0].MouseDown? && events[1].MouseUp?)
  }

  /**
   * For a frame of mouse events with no transition pending, `set(..).unwrap()` never fails: the
   * system panics exactly when a press arrives during a drag (the `todo!`).
   */
  lemma {:induction false} FrameNeverDoubleSets(current: SelectionState, events: seq<SelectionEvent>,
                                                hasPiece: Square -> bool, moveIsValid: (Square, Square) -> bool)
    requires FrameShaped(events)
    ensures RunEvents(current, None, events, hasPiece, moveIsValid).panicked <==>
      (current.SelectingDragging? || current.SelectedDragging?) && exists i :: 0 <= i < |events| && events[i].MouseDown?
  {
    if |events| == 2 {
      var d := Decide(current, events[0], hasPiece, moveIsValid);
      var rest := events[1..];
      assert rest == [events[1]] && rest[1..] == [];
      if !d.Todo? {
        var sched := if d.SetTo? then Some(d.next) else None;
        assert Decide(current, rest[0], hasPiece, moveIsValid) == Keep;
        assert RunEvents(current, sched, rest, hasPiece, moveIsValid)
          == RunEvents(current, sched, rest[1..], hasPiece, moveIsValid);
      }
    } else if |events| == 1 {
      assert events[1..] == [];
    }
  }

  /** A UI command `on_enter_selection_state` queues. */
  datatype Command =
    | SetParent(child: Entity, parent: Entity)
    | ShowHighlight(highlight: Entity)
    | HideHighlight(highlight: Entity)
    | ShowHints(hints: seq<Entity>)
    | HideHints(hints: seq<Entity>)

  /** The `DoMove` event sent to the move system. */
  datatype DoMoveEvent = DoMoveEvent(piece: GameBoard.BoardPiece, from: Square, to: Square)

  /** The board lookups entering `s` performs all succeed (each getter panics on a missing square). */
  predicate EnterLookupsSucceed(s: SelectionState, board: GameBoard.BoardState)
    reads board
  {
    match s
    case Unselected => true
    case SelectingDragging(sq) =>
      sq in board.pieces && sq in board.highlights
      && GameBoard.HintsCover(board.board.legalMoves, board.moveHints, sq)
    case Selected(sq) => sq in board.pieces && sq in board.tiles
    case SelectedDragging(sq) => sq in board.pieces
    case DoChangeSelection(f, _) => f in board.highlights
    case DoMove(f, _) => f in board.pieces && f in board.highlights
    case DoUnselect(sq) => sq in board.pieces && sq in board.tiles && sq in board.highlights
  }

  /**
   * `on_enter_selection_state`. The dragging states put the piece in the drag container (a fresh
   * drag also shows the square's highlight and the piece's move hints); `Selected` puts it back on
   * its tile. Each transient state hides the source highlight and every shown hint, and at once
   * schedules its successor: `SelectingDragging(to)` after a change of selection, `Unselected`
   * after a move (sent as one `DoMove` event) or an unselect.
   */
  method OnEnterSelectionState(res: StateResource, board: GameBoard.BoardState, dragContainer: Entity)
    returns (cmds: seq<Command>, moves: seq<DoMoveEvent>)
    requires EnterLookupsSucceed(res.current, board)
    modifies res, board
    ensures res.current == old(res.current) && board.board == old(board.board)
    ensures board.pieces == old(board.pieces) && board.tiles == old(board.tiles)
    ensures board.highlights == old(board.highlights) && board.moveHints == old(board.moveHints)
    ensures match old(res.current)
      case Unselected =>
        cmds == [] && moves == [] && res.scheduled == old(res.scheduled)
        && board.showingHints == old(board.showingHints)
      case SelectingDragging(sq) =>
        var hints := old(board.HintsFor(sq));
        cmds == [SetParent(old(board.pieces[sq].entity), dragContainer),
                 ShowHighlight(old(board.highlights[sq])), ShowHints(hints)]
        && moves == [] && res.scheduled == old(res.scheduled)
        && board.showingHints == old(board.showingHints) + hints
      case Selected(sq) =>
        cmds == [SetParent(old(board.pieces[sq].entity), old(board.tiles[sq]))]
        && moves == [] && res.scheduled == old(res.scheduled)
        && board.showingHints == old(board.showingHints)
      case SelectedDragging(sq) =>
        cmds == [SetParent(old(board.pieces[sq].entity), dragContainer)]
        && moves == [] && res.scheduled == old(res.scheduled)
        && board.showingHints == old(board.showingHints)
      case DoChangeSelection(f, t) =>
        cmds == [HideHighlight(old(board.highlights[f])), HideHints(old(board.showingHints))]
        && moves == [] && res.scheduled == Some(SelectingDragging(t)) && board.showingHints == []
      case DoMove(f, t) =>
        cmds == [HideHighlight(old(board.highlights[f])), HideHints(old(board.showingHints))]
        && moves == [DoMoveEvent(old(board.pieces[f]), f, t)]
        && res.scheduled == Some(Unselected) && board.showingHints == []
      case DoUnselect(sq) =>
        cmds == [SetParent(old(board.pieces[sq].entity), old(board.tiles[sq])),
                 HideHighlight(old(board.highlights[sq])), HideHints(old(board.showingHints))]
        && moves == [] && res.scheduled == Some(Unselected) && board.showingHints == []
  {
    cmds := [];
    moves := [];
    match res.current {
      case Unselected =>
      case SelectingDragging(sq) =>
        cmds := cmds + [SetParent(board.PieceAt(sq).entity, dragContainer)];
        cmds := cmds + [ShowHighlight(board.Highlight(sq))];
        var hints := board.ShowMoveHintsFor(sq);
        cmds := cmds + [ShowHints(hints)];
      case Selected(sq) =>
        cmds := cmds + [SetParent(board.PieceAt(sq).entity, board.Tile(sq))];
      case SelectedDragging(sq) =>
        cmds := cmds + [SetParent(board.PieceAt(sq).entity, dragContainer)];
      case DoChangeSelection(f, t) =>
        cmds := cmds + [HideHighlight(board.Highlight(f))];
        var hidden := board.HideMoveHints();
        cmds := cmds + [HideHints(hidden)];
        var ok := res.OverwriteSet(SelectingDragging(t));
        assert ok;
      case DoMove(f, t) =>
        moves := moves + [DoMoveEvent(board.PieceAt(f), f, t)];
        cmds := cmds + [HideHighlight(board.Highlight(f))];
        var hidden := board.HideMoveHints();
        cmds := cmds + [HideHints(hidden)];
        var ok := res.OverwriteSet(Unselected);
        assert ok;
      case DoUnselect(sq) =>
        cmds := cmds + [SetParent(board.PieceAt(sq).entity, board.Tile(sq))];
        cmds := cmds + [HideHighlight(board.Highlight(sq))];
        var hidden := board.HideMoveHints();
        cmds := cmds + [HideHints(hidden)];
        var ok := res.OverwriteSet(Unselected);
        assert ok;
    }
  }

  /** Entering a transient state always leads on: none of them is left scheduled onto itself. */
  lemma TransientSuccessors(s: SelectionState)
    ensures s.DoChangeSelection? ==> !StateEq(s, SelectingDragging(s.to))
    ensures s.DoMove? || s.DoUnselect? ==> !StateEq(s, Unselected)
  {
  }
}
