/**
 * `mouse_handler` in `src/game/mouse/handler.rs`: turns this frame's left-button edges into
 * selection events on the hovered square.
 */
module MouseHandler {
  import opened Chess
  import opened GameSelection

  /** Bevy's `EventWriter<SelectionEvent>`: the events sent so far, in order. */
  class EventWriter {
    var sent: seq<SelectionEvent>

    constructor ()
      ensures sent == []
    {
      sent := [];
    }

    method Send(e: SelectionEvent)
      modifies this
      ensures sent == old(sent) + [e]
    {
      sent := sent + [e];
    }
  }

  /**
   * The events one frame produces: a press on a hovered square, then a release on it. Nothing is
   * sent when the cursor is off the board.
   */
  function Emitted(justPressed: bool, justReleased: bool, hovered: Option<Square>): (r: seq<SelectionEvent>)
    ensures hovered.None? ==> r == []
    ensures hovered.Some? ==> (MouseDown(hovered.value) in r <==> justPressed)
    ensures hovered.Some? ==> (MouseUp(hovered.value) in r <==> justReleased)
  {
    match hovered
    case None => []
    case Some(sq) =>
      (if justPressed then [MouseDown(sq)] else []) + (if justReleased then [MouseUp(sq)] else [])
  }

  /** `mouse_handler`: appends this frame's events to the writer. */
  method HandleMouse(justPressed: bool, justReleased: bool, hovered: Option<Square>, writer: EventWriter)
    modifies writer
    ensures writer.sent == old(writer.sent) + Emitted(justPressed, justReleased, hovered)
  {
    if justPressed {
      if hovered.Some? {
        writer.Send(MouseDown(hovered.value));
      }
    }
    if justReleased {
      if hovered.Some? {
        writer.Send(MouseUp(hovered.value));
      }
    }
  }

  /**
   * A frame yields at most two events, all on the hovered square; a press always comes before a
   * release.
   */
  lemma EmittedShape(justPressed: bool, justReleased: bool, hovered: Option<Square>)
    ensures var r := Emitted(justPressed, justReleased, hovered);
      |r| <= 2
      && (forall i :: 0 <= i < |r| ==> hovered.Some? && r[i].sq == hovered.value)
      && (|r| == 2 ==> r[0].MouseDown? && r[1].MouseUp?)
      && (|r| == 1 ==> (r[0].MouseDown? <==> justPressed))
  {
  }
}

/**
 * `mouse_handler` in `src/game/mouse.rs`: an earlier copy of the same system that reads the
 * `MouseSquare` resource; it follows the same rule.
 */
module GameMouse {
  import opened Chess
  import opened GameSelection
  import MouseHandler

  /** `mouse_handler`, reading the hovered square from `MouseSquare`. */
  method HandleMouse(justPressed: bool, justReleased: bool, mouseSquare: Option<Square>,
                     writer: MouseHandler.EventWriter)
    modifies writer
    ensures writer.sent == old(writer.sent) + MouseHandler.Emitted(justPressed, justReleased, mouseSquare)
  {
    if justPressed {
      match mouseSquare {
        case Some(sq) => writer.Send(MouseDown(sq));
        case None =>
      }
    }
    if justReleased {
      match mouseSquare {
        case Some(sq) => writer.Send(MouseUp(sq));
        case None =>
      }
    }
  }
}
