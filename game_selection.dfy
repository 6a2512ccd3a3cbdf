/**
 * `src/game/selection.rs`: the selection state type shared by the mouse handler, with equality and
 * hashing by variant only, one constant per variant, and a `Display` for debug builds.
 */
module GameSelection {
  import opened Chess

  datatype SelectionState =
    | Unselected
    | SelectingDragging(sq: Square)
    | Selected(sq: Square)
    | SelectedDragging(sq: Square)
    | DoMove(from: Square, to: Square)
    | DoUnselect(sq: Square)

  /** `mem::discriminant`: the variant's position, ignoring every square. */
  function Discriminant(s: SelectionState): (d: nat)
    ensures d < 6
  {
    match s
    case Unselected => 0
    case SelectingDragging(_) => 1
    case Selected(_) => 2
    case SelectedDragging(_) => 3
    case DoMove(_, _) => 4
    case DoUnselect(_) => 5
  }

  /** `PartialEq::eq`: equal discriminants. */
  predicate StateEq(a: SelectionState, b: SelectionState)
  {
    Discriminant(a) == Discriminant(b)
  }

  /** What `Hash::hash` feeds to the hasher: the discriminant alone. */
  function HashInput(s: SelectionState): nat
  {
    Discriminant(s)
  }

  /** Two states are equal exactly when they are the same variant, whatever their squares. */
  lemma StateEqIffSameVariant(a: SelectionState, b: SelectionState)
    ensures StateEq(a, b) <==>
      (a.Unselected? && b.Unselected?) || (a.SelectingDragging? && b.SelectingDragging?)
      || (a.Selected? && b.Selected?) || (a.SelectedDragging? && b.SelectedDragging?)
      || (a.DoMove? && b.DoMove?) || (a.DoUnselect? && b.DoUnselect?)
  {
  }

  /** Equal states hash alike, and `StateEq` is an equivalence (the derived `Eq` is sound). */
  lemma HashAgreesWithEq(a: SelectionState, b: SelectionState, c: SelectionState)
    ensures StateEq(a, b) ==> HashInput(a) == HashInput(b)
    ensures StateEq(a, a) && (StateEq(a, b) ==> StateEq(b, a))
    ensures StateEq(a, b) && StateEq(b, c) ==> StateEq(a, c)
  {
  }

  const SELECTING_DRAGGING: SelectionState := SelectingDragging(A1)
  const SELECTED: SelectionState := Selected(A1)
  const SELECTED_DRAGGING: SelectionState := SelectedDragging(A1)
  const DO_MOVE: SelectionState := DoMove(A1, A1)
  const DO_UNSELECT: SelectionState := DoUnselect(A1)

  /** Each constant, built on A1, equals every state of its variant and no other. */
  lemma ConstantsMatchVariants(s: SelectionState)
    ensures StateEq(s, SELECTING_DRAGGING) <==> s.SelectingDragging?
    ensures StateEq(s, SELECTED) <==> s.Selected?
    ensures StateEq(s, SELECTED_DRAGGING) <==> s.SelectedDragging?
    ensures StateEq(s, DO_MOVE) <==> s.DoMove?
    ensures StateEq(s, DO_UNSELECT) <==> s.DoUnselect?
  {
  }

  /**
   * `Display` (debug builds): the variant's name with its squares in algebraic notation. Every
   * variant prints at its own length, so the length alone tells the variant.
   */
  function Display(s: SelectionState): (r: string)
    ensures |r| == match s
      case Unselected => 10
      case SelectingDragging(_) => 21
      case Selected(_) => 12
      case SelectedDragging(_) => 20
      case DoMove(_, _) => 16
      case DoUnselect(_) => 14
  {
    match s
    case Unselected => "Unselected"
    case SelectingDragging(sq) => "SelectingDragging(" + SquareName(sq) + ")"
    case Selected(sq) => "Selected(" + SquareName(sq) + ")"
    case SelectedDragging(sq) => "SelectedDragging(" + SquareName(sq) + ")"
    case DoMove(f, t) => "DoMove(" + SquareName(f) + " -> " + SquareName(t) + ")"
    case DoUnselect(sq) => "DoUnselect(" + SquareName(sq) + ")"
  }

  /** Unlike `PartialEq`, the printed form tells every two different states apart. */
  lemma DisplayInjective(a: SelectionState, b: SelectionState)
    requires Display(a) == Display(b)
    ensures a == b
  {
    var s := Display(a);
    match a
    case Unselected =>
    case SelectingDragging(x) =>
      assert s[18..20] == SquareName(x) == SquareName(b.sq);
      SquareNameInjective(x, b.sq);
    case Selected(x) =>
      assert s[9..11] == SquareName(x) == SquareName(b.sq);
      SquareNameInjective(x, b.sq);
    case SelectedDragging(x) =>
      assert s[17..19] == SquareName(x) == SquareName(b.sq);
      SquareNameInjective(x, b.sq);
    case DoMove(f, t) =>
      assert s[7..9] == SquareName(f) == SquareName(b.from);
      assert s[13..15] == SquareName(t) == SquareName(b.to);
      SquareNameInjective(f, b.from);
      SquareNameInjective(t, b.to);
    case DoUnselect(x) =>
      assert s[11..13] == SquareName(x) == SquareName(b.sq);
      SquareNameInjective(x, b.sq);
  }

  datatype SelectionEvent = MouseDown(sq: Square) | MouseUp(sq: Square)
}
