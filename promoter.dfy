/**
 * Pawn promotion (`src/game/board/promoter.rs`): a pawn that reaches the far rank is marked
 * `PromotingPiece`; while a piece is so marked, clicks on the promoter either pick a piece or
 * cancel, and the result moves the pawn or puts it back on its square.
 */
module BoardPromoter {
  import opened Chess
  import BoardMoves

  /** The pieces the promoter offers, top to bottom. */
  const PROMOTION_CHOICES: seq<PieceKind> := [Queen, Knight, Rook, Bishop]

  /** `PromotingPiece`. */
  datatype PromotingPiece = PromotingPiece(from: Square, to: Square)

  datatype PromotionResult = Promote(typ: PieceKind) | Cancel

  datatype Interaction = Pressed | Hovered | NoInteraction

  datatype MouseButton = Left | Right | Middle

  /** Bevy's `ButtonInput<MouseButton>`. */
  class ButtonInput {
    var pressed: set<MouseButton>
    var justPressed: set<MouseButton>
    var justReleased: set<MouseButton>

    /** `reset_all`: forgets every pressed, just-pressed and just-released button. */
    method ResetAll()
      modifies this
      ensures pressed == {} && justPressed == {} && justReleased == {}
    {
      pressed := {};
      justPressed := {};
      justReleased := {};
    }
  }

  /** `find(|(_, i)| **i == Interaction::Pressed)` over the changed promotion buttons. */
  function FirstPressed(buttons: seq<(PieceKind, Interaction)>): (r: Option<PieceKind>)
    ensures r.None? <==> forall i :: 0 <= i < |buttons| ==> buttons[i].1 != Pressed
    ensures r.Some? ==> exists i :: (0 <= i < |buttons| && buttons[i] == (r.value, Pressed)
      && forall k :: 0 <= k < i ==> buttons[k].1 != Pressed)
  {
    if |buttons| == 0 then None
    else if buttons[0].1 == Pressed then Some(buttons[0].0)
    else
      var r := FirstPressed(buttons[1..]);
      if r.Some? then
        var i :| 0 <= i < |buttons[1..]| && buttons[1..][i] == (r.value, Pressed)
          && forall k :: 0 <= k < i ==> buttons[1..][k].1 != Pressed;
        assert buttons[i + 1] == (r.value, Pressed);
        r
      else r
  }

  /**
   * The result `promotion_click_handler` returns: a pressed promotion button, else a pressed cancel
   * button, else a fresh left click anywhere (which cancels).
   */
  function ClickResult(buttons: seq<(PieceKind, Interaction)>, cancelButtons: seq<Interaction>,
                       leftJustPressed: bool): (r: Option<PromotionResult>)
    ensures FirstPressed(buttons).Some? ==> r == Some(Promote(FirstPressed(buttons).value))
    ensures FirstPressed(buttons).None? && Pressed in cancelButtons ==> r == Some(Cancel)
    ensures FirstPressed(buttons).None? && Pressed !in cancelButtons ==> (r == Some(Cancel) <==> leftJustPressed)
    ensures r.None? <==> FirstPressed(buttons).None? && Pressed !in cancelButtons && !leftJustPressed
    ensures r.Some? && r.value.Promote? ==>
      exists i :: 0 <= i < |buttons| && buttons[i] == (r.value.typ, Pressed)
    ensures r.Some? && r.value.Promote? && (forall i :: 0 <= i < |buttons| ==> buttons[i].0 in PROMOTION_CHOICES) ==>
      r.value.typ in PROMOTION_CHOICES && r.value.typ != Pawn && r.value.typ != King
  {
    match FirstPressed(buttons)
    case Some(t) => Some(Promote(t))
    case None =>
      if Pressed in cancelButtons then Some(Cancel)
      else if leftJustPressed then Some(Cancel)
      else None
  }

  /** `promotion_click_handler`: the result, with the mouse buttons reset whenever there is one. */
  method ClickHandler(buttons: seq<(PieceKind, Interaction)>, cancelButtons: seq<Interaction>, mouse: ButtonInput)
    returns (r: Option<PromotionResult>)
    modifies mouse
    ensures r == ClickResult(buttons, cancelButtons, Left in old(mouse.justPressed))
    ensures r.Some? ==> mouse.pressed == {} && mouse.justPressed == {} && mouse.justReleased == {}
    ensures r.None? ==> (mouse.pressed == old(mouse.pressed) && mouse.justPressed == old(mouse.justPressed)
      && mouse.justReleased == old(mouse.justReleased))
  {
    var chosen := FirstPressed(buttons);
    if chosen.Some? {
      mouse.ResetAll();
      return Some(Promote(chosen.value));
    }
    if Pressed in cancelButtons {
      mouse.ResetAll();
      return Some(Cancel);
    }
    if Left in mouse.justPressed {
      mouse.ResetAll();
      return Some(Cancel);
    }
    return None;
  }

  /** A piece waiting for its promotion, as the `q_promo` query yields it. */
  datatype Pending = Pending(entity: Entity, color: Color, promoting: PromotingPiece)

  /** The commands `promotion_result_handler` issues. */
  datatype ResultCommand =
    | RemovePromotingPiece(entity: Entity)
    | TriggerMovePiece(entity: Entity, ev: BoardMoves.MovePiece)
    | AddChild(parent: Entity, child: Entity)

  /** `is_promoting_piece`: the `PromotingPiece` query is not empty. */
  predicate IsPromotingPiece(pending: seq<Pending>): (b: bool)
    ensures b <==> pending != []
  {
    |pending| > 0
  }

  /**
   * `promotion_result_handler`. With no result, or without exactly one waiting piece (`single()`),
   * nothing happens. Otherwise the marker is removed, then a chosen piece promotes the pawn with an
   * unanimated move and a cancel puts it back on its source tile.
   */
  function ResultCommands(result: Option<PromotionResult>, pending: seq<Pending>, tiles: map<Square, Entity>)
    : (r: seq<ResultCommand>)
    requires result == Some(Cancel) && |pending| == 1 ==> pending[0].promoting.from in tiles
    ensures result.None? || |pending| != 1 ==> r == []
    ensures result.Some? && |pending| == 1 ==>
      var p := pending[0];
      |r| == 2 && r[0] == RemovePromotingPiece(p.entity)
      && (result.value.Promote? ==>
            r[1] == TriggerMovePiece(p.entity, BoardMoves.MovePiece(p.promoting.from, p.promoting.to, Some(result.value.typ), false)))
      && (result.value.Cancel? ==> r[1] == AddChild(tiles[p.promoting.from], p.entity))
  {
    if result.None? || |pending| != 1 then []
    else
      var p := pending[0];
      [RemovePromotingPiece(p.entity)]
      + match result.value
        case Promote(t) =>
          [TriggerMovePiece(p.entity, BoardMoves.MovePiece(p.promoting.from, p.promoting.to, Some(t), false))]
        case Cancel => [AddChild(tiles[p.promoting.from], p.entity)]
  }

  /**
   * One run of the `promotion_click_handler.pipe(promotion_result_handler)` system, gated by
   * `run_if(is_promoting_piece)`: with no piece waiting neither system runs, so no result is
   * produced and the mouse buttons are left alone; otherwise the click result is piped into the
   * result handler.
   */
  method PromoterStep(buttons: seq<(PieceKind, Interaction)>, cancelButtons: seq<Interaction>, mouse: ButtonInput,
                      pending: seq<Pending>, tiles: map<Square, Entity>)
    returns (cmds: seq<ResultCommand>)
    requires |pending| == 1 && ClickResult(buttons, cancelButtons, Left in mouse.justPressed) == Some(Cancel)
      ==> pending[0].promoting.from in tiles
    modifies mouse
    ensures !IsPromotingPiece(pending) ==> (cmds == [] && mouse.pressed == old(mouse.pressed)
      && mouse.justPressed == old(mouse.justPressed) && mouse.justReleased == old(mouse.justReleased))
    ensures IsPromotingPiece(pending) ==>
      var result := ClickResult(buttons, cancelButtons, Left in old(mouse.justPressed));
      cmds == ResultCommands(result, pending, tiles)
      && (result.Some? ==> mouse.pressed == {} && mouse.justPressed == {} && mouse.justReleased == {})
      && (result.None? ==> (mouse.pressed == old(mouse.pressed) && mouse.justPressed == old(mouse.justPressed)
            && mouse.justReleased == old(mouse.justReleased)))
  {
    if !IsPromotingPiece(pending) {
      return [];
    }
    var result := ClickHandler(buttons, cancelButtons, mouse);
    cmds := ResultCommands(result, pending, tiles);
  }

  /**
   * The move a promotion triggers carries its piece, so `move_piece` does not mark the pawn for
   * promotion a second time.
   */
  lemma PromotionMoveDoesNotRestart(p: Pending, t: PieceKind, tiles: map<Square, Entity>, meta: Piece)
    ensures var r := ResultCommands(Some(Promote(t)), [p], tiles);
      r[1].TriggerMovePiece? && !BoardMoves.StartsPromotion(meta, r[1].ev)
  {
  }

  datatype Visibility = Hidden | Visible | Inherited

  /** The first promoter of the given colour (`find(|(_, promo)| promo.0 == color)`). */
  function FindPromoter(promoters: seq<(Entity, Color)>, color: Color): (r: Option<Entity>)
    ensures r.Some? ==> (r.value, color) in promoters
    ensures r.None? <==> forall i :: 0 <= i < |promoters| ==> promoters[i].1 != color
  {
    if |promoters| == 0 then None
    else if promoters[0].1 == color then Some(promoters[0].0)
    else FindPromoter(promoters[1..], color)
  }

  /** The UI state the promotion hooks touch: visibilities and the promoters' parents. */
  datatype PromoUi = PromoUi(visibility: map<Entity, Visibility>, parent: map<Entity, Entity>)

  /**
   * `start_promotion` (the `on_add` hook): for a piece with a colour and a visibility, clears the
   * selection (reported as the boolean), hides the piece, and moves that colour's promoter onto
   * the destination tile and shows it.
   */
  function StartPromotion(ui: PromoUi, piece: Entity, color: Option<Color>, promoting: PromotingPiece,
                          promoters: seq<(Entity, Color)>, tiles: map<Square, Entity>): (r: (PromoUi, bool))
    requires color.Some? && piece in ui.visibility && FindPromoter(promoters, color.value).Some?
      ==> promoting.to in tiles
    ensures color.None? || piece !in ui.visibility ==> r == (ui, false)
    ensures color.Some? && piece in ui.visibility ==>
      var found := FindPromoter(promoters, color.value);
      r.1 && r.0.visibility.Keys == ui.visibility.Keys
      && (forall e :: e in ui.visibility ==>
            r.0.visibility[e] == (if found == Some(e) then Visible else if e == piece then Hidden else ui.visibility[e]))
      && (found.None? ==> r.0.parent == ui.parent)
      && (found.Some? ==> r.0.parent == ui.parent[found.value := tiles[promoting.to]])
  {
    if color.None? || piece !in ui.visibility then (ui, false)
    else
      var vis := ui.visibility[piece := Hidden];
      match FindPromoter(promoters, color.value)
      case None => (PromoUi(vis, ui.parent), true)
      case Some(promo) =>
        var tile := tiles[promoting.to];
        (PromoUi(if promo in vis then vis[promo := Visible] else vis, ui.parent[promo := tile]), true)
  }

  /** `end_promotion` (the `on_remove` hook): shows the piece again and hides its colour's promoter. */
  function EndPromotion(ui: PromoUi, piece: Entity, color: Option<Color>, promoters: seq<(Entity, Color)>)
    : (r: PromoUi)
    ensures color.None? || piece !in ui.visibility ==> r == ui
    ensures color.Some? && piece in ui.visibility ==>
      var found := FindPromoter(promoters, color.value);
      r.visibility.Keys == ui.visibility.Keys
      && forall e :: e in ui.visibility ==>
           r.visibility[e] == (if found == Some(e) then Hidden else if e == piece then Visible else ui.visibility[e])
    ensures r.parent == ui.parent
  {
    if color.None? || piece !in ui.visibility then ui
    else
      var vis := ui.visibility[piece := Visible];
      match FindPromoter(promoters, color.value)
      case None => PromoUi(vis, ui.parent)
      case Some(promo) => PromoUi(if promo in vis then vis[promo := Hidden] else vis, ui.parent)
  }

  /**
   * Ending a promotion undoes the visibility changes of starting it: from a visible piece and a
   * hidden promoter, start then end gives back the same visibilities.
   */
  lemma EndUndoesStart(ui: PromoUi, piece: Entity, color: Color, promoting: PromotingPiece,
                       promoters: seq<(Entity, Color)>, tiles: map<Square, Entity>)
    requires piece in ui.visibility && ui.visibility[piece] == Visible
    requires FindPromoter(promoters, color).Some? ==> promoting.to in tiles
    requires FindPromoter(promoters, color).Some? ==>
      var promo := FindPromoter(promoters, color).value;
      promo != piece && promo in ui.visibility && ui.visibility[promo] == Hidden
    ensures EndPromotion(StartPromotion(ui, piece, Some(color), promoting, promoters, tiles).0, piece, Some(color), promoters).visibility
      == ui.visibility
  {
    var r := StartPromotion(ui, piece, Some(color), promoting, promoters, tiles).0;
    var e := EndPromotion(r, piece, Some(color), promoters);
    assert e.visibility.Keys == ui.visibility.Keys;
  }
}
