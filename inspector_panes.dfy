/**
 * The debug inspector's panes (`src/debug_inspector/debug_inspector_impl/panes.rs`): the order of
 * the hierarchy's root entities, the range a shift-click selects among siblings, which view the
 * component pane shows for the current selection, and the Stockfish pane's command line.
 */
module InspectorPanes {
  import opened Chess
  import opened Text

  /** `is_boundary`: the entity is one of the two ends of the range. */
  predicate IsBoundary(e: Entity, from: Entity, to: Entity)
  {
    e == from || e == to
  }

  /** `Iterator::position(is_boundary)`: the index of the first end in `s`, if any. */
  function Position(s: seq<Entity>, from: Entity, to: Entity): (r: Option<nat>)
    ensures r.Some? ==> r.value < |s| && IsBoundary(s[r.value], from, to)
    ensures r.Some? ==> forall k :: 0 <= k < r.value ==> !IsBoundary(s[k], from, to)
    ensures r.None? ==> forall k :: 0 <= k < |s| ==> !IsBoundary(s[k], from, to)
  {
    if s == [] then None
    else if IsBoundary(s[0], from, to) then Some(0)
    else match Position(s[1..], from, to)
      case None => None
      case Some(i) => Some(i + 1)
  }

  /** Whether `gen` holds two ends of the range at two different positions. */
  predicate HasTwoBoundaries(gen: seq<Entity>, from: Entity, to: Entity)
  {
    exists i, j :: 0 <= i < j < |gen| && IsBoundary(gen[i], from, to) && IsBoundary(gen[j], from, to)
  }

  /**
   * The range-select closure of `show_hierarchy_entity`: the slice of the sibling list from the
   * first end found to the next end found after it, both included; empty when there are not two.
   */
  function RangeSelect(gen: seq<Entity>, from: Entity, to: Entity): (r: seq<Entity>)
    ensures r != [] <==> HasTwoBoundaries(gen, from, to)
    ensures r != [] ==> |r| >= 2 && IsBoundary(r[0], from, to) && IsBoundary(r[|r| - 1], from, to)
    ensures r != [] ==> forall k :: 0 < k < |r| - 1 ==> !IsBoundary(r[k], from, to)
    ensures r != [] ==> (Position(gen, from, to).Some? && Position(gen, from, to).value + |r| <= |gen|
      && r == gen[Position(gen, from, to).value..Position(gen, from, to).value + |r|])
  {
    match Position(gen, from, to)
    case None => []
    case Some(fromIndex) =>
      match Position(gen[fromIndex + 1..], from, to)
      case None =>
        assert !HasTwoBoundaries(gen, from, to) by {
          forall i, j | 0 <= i < j < |gen| && IsBoundary(gen[i], from, to)
            ensures !IsBoundary(gen[j], from, to)
          {
            assert gen[j] == gen[fromIndex + 1..][j - fromIndex - 1];
          }
        }
        []
      case Some(toOffset) =>
        var toIndex := fromIndex + toOffset + 1;
        var r := gen[fromIndex..toIndex + 1];
        assert gen[toIndex] == gen[fromIndex + 1..][toOffset];
        assert forall k :: 0 < k < |r| - 1 ==> r[k] == gen[fromIndex + 1..][k - 1];
        r
  }

  /** Sibling entities are distinct. */
  predicate Distinct(gen: seq<Entity>)
  {
    forall i, j :: 0 <= i < j < |gen| ==> gen[i] != gen[j]
  }

  /**
   * Shift-clicking one sibling after another selects everything between them, whichever of the
   * two comes first in the list.
   */
  lemma RangeBetweenSiblings(gen: seq<Entity>, from: Entity, to: Entity)
    requires Distinct(gen) && from in gen && to in gen && from != to
    ensures var r := RangeSelect(gen, from, to);
      r != [] && ((r[0] == from && r[|r| - 1] == to) || (r[0] == to && r[|r| - 1] == from))
  {
    var i :| 0 <= i < |gen| && gen[i] == from;
    var j :| 0 <= j < |gen| && gen[j] == to;
    if i < j {
      assert IsBoundary(gen[i], from, to) && IsBoundary(gen[j], from, to);
    } else {
      assert IsBoundary(gen[j], from, to) && IsBoundary(gen[i], from, to);
    }
    var p, q := RangeEnds(gen, from, to);
    assert gen[p] != gen[q];
  }

  /** A non-empty range starts and ends at two different positions of the sibling list. */
  lemma RangeEnds(gen: seq<Entity>, from: Entity, to: Entity) returns (p: nat, q: nat)
    requires HasTwoBoundaries(gen, from, to)
    ensures var r := RangeSelect(gen, from, to);
      r != [] && p < q < |gen| && r[0] == gen[p] && r[|r| - 1] == gen[q]
      && IsBoundary(r[0], from, to) && IsBoundary(r[|r| - 1], from, to)
  {
    var r := RangeSelect(gen, from, to);
    p := Position(gen, from, to).value;
    q := p + |r| - 1;
  }

  /** A range from an entity to itself selects nothing among distinct siblings. */
  lemma RangeToItselfIsEmpty(gen: seq<Entity>, e: Entity)
    requires Distinct(gen)
    ensures RangeSelect(gen, e, e) == []
  {
  }

  /** What the component pane shows for the selected entities. */
  datatype ComponentsView = NoEntitiesSelected | SingleEntity(entity: Entity) | SharedComponents(entities: seq<Entity>)

  /** `show_entity_components`: none, one, or the components shared by two or more. */
  function ShowEntityComponents(selected: seq<Entity>): (v: ComponentsView)
    ensures v.NoEntitiesSelected? <==> |selected| == 0
    ensures v.SingleEntity? <==> |selected| == 1
    ensures v.SingleEntity? ==> v.entity == selected[0]
    ensures v.SharedComponents? <==> |selected| >= 2
    ensures v.SharedComponents? ==> v.entities == selected
  {
    if |selected| == 0 then NoEntitiesSelected
    else if |selected| == 1 then SingleEntity(selected[0])
    else SharedComponents(selected)
  }

  predicate Ascending(s: seq<Entity>)
  {
    forall i, j :: 0 <= i < j < |s| ==> s[i] <= s[j]
  }

  lemma AscendingTail(s: seq<Entity>)
    requires Ascending(s) && |s| > 0
    ensures Ascending(s[1..])
  {
  }

  /** An element no larger than the head of an ascending list extends it. */
  lemma AscendingCons(a: Entity, t: seq<Entity>)
    requires Ascending(t) && (|t| > 0 ==> a <= t[0])
    ensures Ascending([a] + t)
  {
    var u := [a] + t;
    forall i, j | 0 <= i < j < |u|
      ensures u[i] <= u[j]
    {
      if i == 0 && j > 1 {
        assert u[j] == t[j - 1] && t[0] <= t[j - 1];
      }
    }
  }

  /** Putting an element smaller than `x` before the insertion of `x` into the tail keeps every fact. */
  lemma InsertCons(a: Entity, t: seq<Entity>, x: Entity, rest: seq<Entity>)
    requires Ascending([a] + t) && a < x
    requires Ascending(rest) && multiset(rest) == multiset(t) + multiset{x}
    requires |rest| == |t| + 1 && (rest[0] == x || (|t| > 0 && rest[0] == t[0]))
    ensures Ascending([a] + rest) && multiset([a] + rest) == multiset([a] + t) + multiset{x}
    ensures |[a] + rest| == |[a] + t| + 1 && ([a] + rest)[0] == a
  {
    assert |t| > 0 ==> ([a] + t)[0] <= ([a] + t)[1];
    AscendingCons(a, rest);
    assert multiset([a] + rest) == multiset{a} + multiset(rest);
    assert multiset([a] + t) == multiset{a} + multiset(t);
  }

  /** Puts `x` into an ascending list at its place. */
  function Insert(x: Entity, s: seq<Entity>): (r: seq<Entity>)
    requires Ascending(s)
    ensures Ascending(r) && multiset(r) == multiset(s) + multiset{x}
    ensures |r| == |s| + 1 && (r[0] == x || (|s| > 0 && r[0] == s[0]))
  {
    if s == [] then [x]
    else if x <= s[0] then
      AscendingCons(x, s);
      assert multiset([x] + s) == multiset{x} + multiset(s);
      [x] + s
    else
      AscendingTail(s);
      var rest := Insert(x, s[1..]);
      assert s == [s[0]] + s[1..];
      InsertCons(s[0], s[1..], x, rest);
      [s[0]] + rest
  }

  /** `entities.sort()` in `show_hierarchy`: the root entities in ascending order. */
  function SortEntities(s: seq<Entity>): (r: seq<Entity>)
    ensures Ascending(r) && multiset(r) == multiset(s)
  {
    if s == [] then []
    else
      assert s == [s[0]] + s[1..];
      Insert(s[0], SortEntities(s[1..]))
  }

  /** `SfCommand::Custom` built from the command line: the trimmed text and a newline. */
  function CustomCommand(text: string): (cmd: string)
    ensures |cmd| >= 1 && cmd[|cmd| - 1] == '\n'
    ensures |cmd| > 1 ==> !IsWhiteSpace(cmd[0]) && !IsWhiteSpace(cmd[|cmd| - 2])
  {
    Trim(text) + "\n"
  }

  /** The newline is the only white space a command adds: trimming it gives the trimmed text back. */
  lemma CustomCommandTrims(text: string)
    ensures Trim(CustomCommand(text)) == Trim(text)
  {
    var t := Trim(text);
    var cmd := t + "\n";
    if t == [] {
      assert TrimStart(cmd) == [];
    } else {
      assert TrimStart(cmd) == cmd;
      assert cmd[..|cmd| - 1] == t;
      assert TrimEnd(cmd) == TrimEnd(t);
      assert TrimEnd(t) == t;
    }
  }

  /** The pane state the inspector keeps, and the Stockfish command queue it pushes onto. */
  class Panes {
    var selected: seq<Entity>
    var sfTextEdit: string
    var commandQueue: seq<string>

    constructor ()
      ensures selected == [] && sfTextEdit == [] && commandQueue == []
    {
      selected := [];
      sfTextEdit := [];
      commandQueue := [];
    }

    /**
     * The command line of `show_stockfish`: the field holds `typed`; Enter on leaving it queues the
     * custom command and clears the field.
     */
    method ShowStockfish(typed: string, enterOnLeave: bool)
      modifies this
      ensures enterOnLeave ==> sfTextEdit == [] && commandQueue == old(commandQueue) + [CustomCommand(typed)]
      ensures !enterOnLeave ==> sfTextEdit == typed && commandQueue == old(commandQueue)
      ensures selected == old(selected)
    {
      sfTextEdit := typed;
      var userCommand: Option<string> := None;
      if enterOnLeave {
        userCommand := Some(CustomCommand(sfTextEdit));
        sfTextEdit := [];
      }
      if userCommand.Some? {
        commandQueue := commandQueue + [userCommand.value];
      }
    }
  }
}
