/**
 * Piece selection on the board (`handle_selection_events`): mouse-down and mouse-up events on
 * squares drive a four-state machine. For each event a pure decision picks an action, and applying
 * the action overwrites the selection resource and queues deferred ECS commands.
 */
module BoardSelection {
  import opened Chess

  datatype SelectionState =
    | Unselected
    | SelectingDragging(sq: Square)
    | Selected(sq: Square)
    | SelectedDragging(sq: Square)

  /** `#[default]` of the selection resource. */
  const DEFAULT_STATE: SelectionState := Unselected

  datatype SelectionStateAction =
    | ChangeSelection(to: Square)
    | DropSelect(sq: Square)
    | Move(from: Square, to: Square)
    | NoAction
    | StartSelectedDragging(sq: Square)
    | StartSelectingDragging(sq: Square)
    | Unselect(sq: Square)

  datatype SelectionEvent = MouseDown(sq: Square) | MouseUp(sq: Square)

  /** The decision for one event: an action, or the `todo!` panic of a press during a drag. */
  datatype Decision = Act(action: SelectionStateAction) | Todo

  /**
   * What the system reads of the board resource while it handles events: the piece and tile
   * entity maps, the drag container, and the legality oracle `move_is_valid`, which the `chess`
   * crate's move generator answers. The deferred commands do not touch these during the loop.
   */
  datatype BoardView = BoardView(
    pieces: map<Square, Entity>,
    tiles: map<Square, Entity>,
    dragContainer: Entity,
    moveIsValid: (Square, Square) -> bool)

  /** `has_piece_at`. */
  predicate HasPiece(b: BoardView, sq: Square) { sq in b.pieces }

  /** Every square has its tile, as board setup guarantees; `tile()` panics otherwise. */
  predicate TilesComplete(b: BoardView) { forall sq: Square :: sq in b.tiles }

  /** The square a state refers to holds a piece, so `piece()` on it cannot panic. */
  predicate Holds(state: SelectionState, b: BoardView)
  {
    !state.Unselected? ==> HasPiece(b, state.sq)
  }

  /**
   * The `match` on the current state and the event. The result never asks for a move the oracle
   * rejects, every move starts on the selected square, and every action names a square that
   * holds a piece whenever the current state does.
   */
  function Decide(state: SelectionState, event: SelectionEvent, b: BoardView): (d: Decision)
    ensures d.Todo? <==> event.MouseDown? && (state.SelectingDragging? || state.SelectedDragging?)
    ensures d.Act? && d.action.Move? ==>
      !state.Unselected? && d.action.from == state.sq && b.moveIsValid(state.sq, d.action.to)
    ensures d.Act? && Holds(state, b) ==> ActionHolds(d.action, b)
    ensures state.Unselected? && d.Act? && !d.action.NoAction? ==> HasPiece(b, event.sq)
  {
    match state
    case Unselected =>
      (match event
       case MouseDown(sq) => if HasPiece(b, sq) then Act(StartSelectingDragging(sq)) else Act(NoAction)
       case MouseUp(_) => Act(NoAction))
    case SelectingDragging(s) =>
      (match event
       case MouseDown(_) => Todo
       case MouseUp(sq) => if b.moveIsValid(s, sq) then Act(Move(s, sq)) else Act(DropSelect(s)))
    case Selected(s) =>
      (match event
       case MouseDown(sq) =>
         if sq == s then Act(StartSelectedDragging(s))
         else if b.moveIsValid(s, sq) then Act(Move(s, sq))
         else if HasPiece(b, sq) then Act(ChangeSelection(sq))
         else Act(Unselect(s))
       case MouseUp(_) => Act(NoAction))
    case SelectedDragging(s) =>
      (match event
       case MouseDown(_) => Todo
       case MouseUp(sq) =>
         if sq == s then Act(Unselect(s))
         else if b.moveIsValid(s, sq) then Act(Move(s, sq))
         else Act(DropSelect(s)))
  }

  /** Every square an action looks a piece up on holds one. */
  predicate ActionHolds(a: SelectionStateAction, b: BoardView)
  {
    match a
    case NoAction => true
    case Move(from, _) => HasPiece(b, from)
    case ChangeSelection(to) => HasPiece(b, to)
    case DropSelect(sq) => HasPiece(b, sq)
    case StartSelectedDragging(sq) => HasPiece(b, sq)
    case StartSelectingDragging(sq) => HasPiece(b, sq)
    case Unselect(sq) => HasPiece(b, sq)
  }

  /** The state each action leaves behind. */
  function NextState(state: SelectionState, a: SelectionStateAction): (r: SelectionState)
    ensures a.NoAction? ==> r == state
    ensures r.Unselected? <==> a.Move? || a.Unselect? || (a.NoAction? && state.Unselected?)
  {
    match a
    case NoAction => state
    case ChangeSelection(to) => SelectingDragging(to)
    case DropSelect(sq) => Selected(sq)
    case Move(_, _) => Unselected
    case StartSelectedDragging(sq) => SelectedDragging(sq)
    case StartSelectingDragging(sq) => SelectingDragging(sq)
    case Unselect(_) => Unselected
  }

  /** The deferred ECS commands the system queues. */
  datatype Command =
    | UnselectSquare                                        // `board_state.unselect_square()`
    | SelectSquare(sq: Square)                              // `board_state.select_square(sq)`
    | SetParent(child: Entity, parent: Entity)              // `entity(child).set_parent(parent)`
    | InsertStartMove(piece: Entity, from: Square, to: Square) // `insert(StartMove::new(from, to))`

  /** The commands queued for one action (the second half of the loop body). */
  function ActionCommands(a: SelectionStateAction, b: BoardView): (cmds: seq<Command>)
    requires ActionHolds(a, b) && TilesComplete(b)
    ensures a.NoAction? <==> cmds == []
    ensures forall i :: 0 <= i < |cmds| && cmds[i].InsertStartMove? ==>
      a.Move? && cmds[i] == InsertStartMove(b.pieces[a.from], a.from, a.to)
  {
    match a
    case NoAction => []
    case ChangeSelection(to) =>
      [UnselectSquare, SetParent(b.pieces[to], b.dragContainer), SelectSquare(to)]
    case DropSelect(sq) => [SetParent(b.pieces[sq], b.tiles[sq])]
    case Move(from, to) => [InsertStartMove(b.pieces[from], from, to)]
    case StartSelectedDragging(sq) => [SetParent(b.pieces[sq], b.dragContainer)]
    case StartSelectingDragging(sq) =>
      [SetParent(b.pieces[sq], b.dragContainer), SelectSquare(sq)]
    case Unselect(sq) => [SetParent(b.pieces[sq], b.tiles[sq]), UnselectSquare]
  }

  /** The result of handling a batch of events. */
  datatype RunResult = RunResult(state: SelectionState, commands: seq<Command>, panicked: bool)

  /** No queued command starts a move the legality oracle rejects. */
  predicate MovesValid(cmds: seq<Command>, b: BoardView)
  {
    forall i :: 0 <= i < |cmds| && cmds[i].InsertStartMove? ==> b.moveIsValid(cmds[i].from, cmds[i].to)
  }

  /**
   * The event loop as a function: the state after the events, the commands queued after
   * `queued`, and whether a `todo!` ended it. The state keeps pointing at a piece, and no move
   * is ever requested unless the oracle allows it.
   */
  function Run(state: SelectionState, events: seq<SelectionEvent>, queued: seq<Command>, b: BoardView): (r: RunResult)
    requires Holds(state, b) && TilesComplete(b)
    ensures Holds(r.state, b)
    ensures |queued| <= |r.commands| && r.commands[..|queued|] == queued
    ensures MovesValid(queued, b) ==> MovesValid(r.commands, b)
    decreases |events|
  {
    if |events| == 0 then RunResult(state, queued, false)
    else
      match Decide(state, events[0], b)
      case Todo => RunResult(state, queued, true)
      case Act(a) =>
        var next := NextState(state, a);
        var cmds := ActionCommands(a, b);
        assert Holds(next, b) by { NextStateHolds(state, a, b); }
        var r := Run(next, events[1..], queued + cmds, b);
        assert (queued + cmds)[..|queued|] == queued;
        r
  }

  lemma NextStateHolds(state: SelectionState, a: SelectionStateAction, b: BoardView)
    requires Holds(state, b) && ActionHolds(a, b)
    ensures Holds(NextState(state, a), b)
  {
  }

  /**
   * The system state: the `SelectionState` resource and the command queue the system writes to.
   */
  class SelectionSystem {
    var state: SelectionState
    var commands: seq<Command>

    constructor ()
      ensures state == DEFAULT_STATE && commands == []
    {
      state := DEFAULT_STATE;
      commands := [];
    }

    /** The second half of the loop body: queue the action's commands and overwrite the state. */
    method ApplyAction(action: SelectionStateAction, b: BoardView)
      requires ActionHolds(action, b) && TilesComplete(b)
      modifies this
      ensures state == NextState(old(state), action)
      ensures commands == old(commands) + ActionCommands(action, b)
    {
      match action {
        case NoAction =>
        case ChangeSelection(to) =>
          commands := commands + [UnselectSquare];
          commands := commands + [SetParent(b.pieces[to], b.dragContainer)];
          commands := commands + [SelectSquare(to)];
          state := SelectingDragging(to);
        case DropSelect(sq) =>
          commands := commands + [SetParent(b.pieces[sq], b.tiles[sq])];
          state := Selected(sq);
        case Move(from, to) =>
          commands := commands + [InsertStartMove(b.pieces[from], from, to)];
          state := Unselected;
        case StartSelectedDragging(sq) =>
          commands := commands + [SetParent(b.pieces[sq], b.dragContainer)];
          state := SelectedDragging(sq);
        case StartSelectingDragging(sq) =>
          commands := commands + [SetParent(b.pieces[sq], b.dragContainer)];
          commands := commands + [SelectSquare(sq)];
          state := SelectingDragging(sq);
        case Unselect(sq) =>
          commands := commands + [SetParent(b.pieces[sq], b.tiles[sq])];
          commands := commands + [UnselectSquare];
          state := Unselected;
      }
    }

    /**
     * `handle_selection_events`: handles each event in turn, overwriting the state and queueing
     * commands, until the events run out or a press during a drag reaches the `todo!`.
     */
    method HandleSelectionEvents(events: seq<SelectionEvent>, b: BoardView) returns (panicked: bool)
      requires Holds(state, b) && TilesComplete(b)
      modifies this
      ensures Run(old(state), events, old(commands), b) == RunResult(state, commands, panicked)
    {
      var i := 0;
      panicked := false;
      while i < |events|
        invariant 0 <= i <= |events|
        invariant Holds(state, b)
        invariant Run(old(state), events, old(commands), b) == Run(state, events[i..], commands, b)
      {
        assert events[i..][0] == events[i];
        assert events[i..][1..] == events[i + 1..];
        var d := Decide(state, events[i], b);
        if d.Todo? {
          panicked := true;
          return;
        }
        var action := d.action;
        NextStateHolds(state, action, b);
        ghost var next := NextState(state, action);
        ghost var queued := commands + ActionCommands(action, b);
        assert Run(state, events[i..], commands, b) == Run(next, events[i + 1..], queued, b);
        ApplyAction(action, b);
        assert state == next && commands == queued;
        i := i + 1;
      }
      assert events[i..] == [];
    }
  }

  /** The state after one event, or `None` where the source panics. */
  function Step(state: SelectionState, event: SelectionEvent, b: BoardView): Option<SelectionState>
  {
    match Decide(state, event, b)
    case Todo => None
    case Act(a) => Some(NextState(state, a))
  }

  /** From Unselected a press on a piece starts dragging it; anything else changes nothing. */
  lemma UnselectedTransitions(event: SelectionEvent, b: BoardView)
    ensures event.MouseDown? && HasPiece(b, event.sq) ==>
      Step(Unselected, event, b) == Some(SelectingDragging(event.sq))
    ensures event.MouseUp? || !HasPiece(b, event.sq) ==> Step(Unselected, event, b) == Some(Unselected)
  {
  }

  /** Releasing a fresh drag moves on a legal destination and otherwise leaves the piece selected. */
  lemma SelectingDraggingTransitions(s: Square, to: Square, b: BoardView)
    ensures b.moveIsValid(s, to) ==> Decide(SelectingDragging(s), MouseUp(to), b) == Act(Move(s, to))
    ensures b.moveIsValid(s, to) ==> Step(SelectingDragging(s), MouseUp(to), b) == Some(Unselected)
    ensures !b.moveIsValid(s, to) ==> Step(SelectingDragging(s), MouseUp(to), b) == Some(Selected(s))
  {
  }

  /**
   * A press with a piece selected, in priority order: the selected square starts a drag, a legal
   * destination moves, another piece is selected instead, and anything else unselects. A release
   * changes nothing.
   */
  lemma SelectedTransitions(s: Square, sq: Square, b: BoardView)
    ensures Step(Selected(s), MouseDown(s), b) == Some(SelectedDragging(s))
    ensures sq != s && b.moveIsValid(s, sq) ==> Decide(Selected(s), MouseDown(sq), b) == Act(Move(s, sq))
    ensures sq != s && !b.moveIsValid(s, sq) && HasPiece(b, sq) ==>
      Step(Selected(s), MouseDown(sq), b) == Some(SelectingDragging(sq))
    ensures sq != s && !b.moveIsValid(s, sq) && !HasPiece(b, sq) ==>
      Step(Selected(s), MouseDown(sq), b) == Some(Unselected)
    ensures Step(Selected(s), MouseUp(sq), b) == Some(Selected(s))
  {
  }

  /** Releasing a drag of the selected piece: on its own square unselects, legal moves, else re-selects. */
  lemma SelectedDraggingTransitions(s: Square, sq: Square, b: BoardView)
    ensures Decide(SelectedDragging(s), MouseUp(s), b) == Act(Unselect(s))
    ensures sq != s && b.moveIsValid(s, sq) ==>
      Decide(SelectedDragging(s), MouseUp(sq), b) == Act(Move(s, sq))
    ensures sq != s && !b.moveIsValid(s, sq) ==>
      Step(SelectedDragging(s), MouseUp(sq), b) == Some(Selected(s))
  {
  }

  /** Only a press during a drag reaches the `todo!`. */
  lemma TodoOnlyWhileDragging(state: SelectionState, event: SelectionEvent, b: BoardView)
    ensures Step(state, event, b).None? <==>
      event.MouseDown? && (state.SelectingDragging? || state.SelectedDragging?)
  {
  }

  /**
   * A batch of events that starts with a piece selected or nothing selected ends with the selection
   * still on a piece, and every move it requests is legal.
   */
  lemma {:induction false} RunSafe(state: SelectionState, events: seq<SelectionEvent>, b: BoardView)
    requires Holds(state, b) && TilesComplete(b)
    ensures var r := Run(state, events, [], b);
      Holds(r.state, b) && MovesValid(r.commands, b)
  {
  }
}
