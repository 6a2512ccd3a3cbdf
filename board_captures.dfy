/**
 * Capture tallies (`src/game/board/captures.rs`): per colour and capturable piece kind, how many
 * pieces that colour has captured, which image shows that number, and the colour's material score.
 * Counts and scores are `u8`.
 */
module BoardCaptures {
  import opened Chess
  import opened Text

  /** `CAPTURABLE_PIECES`: every kind but the king, in the crate's index order. */
  const CAPTURABLE_PIECES: seq<PieceKind> := [Pawn, Knight, Bishop, Rook, Queen]

  lemma CapturableIndices()
    ensures |CAPTURABLE_PIECES| == 5
    ensures forall j :: 0 <= j < 5 ==> KindIndex(CAPTURABLE_PIECES[j]) == j
    ensures forall k :: k in CAPTURABLE_PIECES <==> k != King
  {
  }

  /** `PieceType::value`: the material value of a capturable piece. */
  function PieceValue(k: PieceKind): nat
    requires k != King
  {
    match k
    case Pawn => 1
    case Knight => 3
    case Bishop => 3
    case Rook => 5
    case Queen => 9
  }

  /** `PieceType::num_pieces`: how many pieces of the kind each side starts with. */
  function NumPieces(k: PieceKind): nat
  {
    match k
    case Pawn => 8
    case Knight => 2
    case Bishop => 2
    case Rook => 2
    case Queen => 1
    case King => 1
  }

  /**
   * The length of the image-handle list `from_world` builds for a kind: a placeholder for zero
   * captures, then one image per possible count.
   */
  function ImageCount(k: PieceKind): (n: nat)
    requires k != King
    ensures n == NumPieces(k) + 1
  {
    match k
    case Pawn => 9
    case Knight => 3
    case Bishop => 3
    case Rook => 3
    case Queen => 2
  }

  type U8 = x: int | 0 <= x <= 255

  datatype CapStateDiff = Increment | Set(count: U8)

  datatype CapStateUpdate = CapStateUpdate(color: Color, typ: PieceKind, diff: CapStateDiff)

  /**
   * `CapState::patch` on the count: an increment wraps round the number of images, so it always
   * names an image; a set is taken as given.
   */
  function PatchedCount(count: int, diff: CapStateDiff, len: nat): (r: int)
    requires len > 0 && 0 <= count
    ensures diff.Increment? ==> 0 <= r < len
    ensures diff.Increment? && count + 1 < len ==> r == count + 1
    ensures diff.Increment? && count + 1 == len ==> r == 0
    ensures diff.Set? ==> r == diff.count
  {
    match diff
    case Increment => (count + 1) % len
    case Set(c) => c
  }

  /** The weighted sum of the first `n` capture counts of one colour. */
  function ScoreUpTo(row: seq<int>, n: nat): int
    requires |row| == 5 && n <= 5
  {
    if n == 0 then 0
    else ScoreUpTo(row, n - 1) + PieceValue(CAPTURABLE_PIECES[n - 1]) * row[n - 1]
  }

  /** The material a colour has captured: the sum of value times count over the capturable kinds. */
  function Score(row: seq<int>): int
    requires |row| == 5
  {
    ScoreUpTo(row, 5)
  }

  /** Each capture count is at most the number of such pieces a side starts with. */
  predicate RowBounded(row: seq<int>)
    requires |row| == 5
  {
    forall j :: 0 <= j < 5 ==> 0 <= row[j] <= NumPieces(CAPTURABLE_PIECES[j])
  }

  lemma {:induction false} ScoreUpToChange(row: seq<int>, j: nat, v: int, n: nat)
    requires |row| == 5 && j < 5 && n <= 5
    ensures ScoreUpTo(row[j := v], n)
      == ScoreUpTo(row, n) + (if j < n then PieceValue(CAPTURABLE_PIECES[j]) * (v - row[j]) else 0)
  {
    if n > 0 {
      ScoreUpToChange(row, j, v, n - 1);
    }
  }

  /** One more captured piece of a kind raises the score by exactly that kind's value. */
  lemma IncrementAddsValue(row: seq<int>, j: nat)
    requires |row| == 5 && j < 5
    ensures Score(row[j := row[j] + 1]) == Score(row) + PieceValue(CAPTURABLE_PIECES[j])
  {
    ScoreUpToChange(row, j, row[j] + 1, 5);
  }

  lemma {:induction false} ScoreUpToBound(row: seq<int>, n: nat)
    requires |row| == 5 && n <= 5 && RowBounded(row)
    ensures 0 <= ScoreUpTo(row, n) <= [0, 8, 14, 20, 30, 39][n]
  {
    if n > 0 {
      ScoreUpToBound(row, n - 1);
    }
  }

  /** With counts no larger than the starting material, the score is at most 39, so it fits its `u8`. */
  lemma ScoreFitsU8(row: seq<int>)
    requires |row| == 5 && RowBounded(row)
    ensures 0 <= Score(row) <= 39
  {
    ScoreUpToBound(row, 5);
  }

  /**
   * `get_advantage`: the colour with the strictly higher score and by how much it leads; `None`
   * on a tie.
   */
  function Advantage(black: int, white: int): (r: Option<(Color, int)>)
    ensures r.None? <==> black == white
    ensures (r.Some? && r.value.0 == Black) <==> black > white
    ensures (r.Some? && r.value.0 == White) <==> white > black
    ensures r.Some? ==> r.value.1 > 0 && r.value.1 == (if black > white then black - white else white - black)
  {
    if black > white then Some((Black, black - white))
    else if white > black then Some((White, white - black))
    else None
  }

  /** Swapping the two scores gives the same lead to the other colour. */
  lemma AdvantageSwap(black: int, white: int)
    ensures Advantage(black, white).Some? ==>
      Advantage(white, black) == Some((Opponent(Advantage(black, white).value.0), Advantage(black, white).value.1))
  {
  }

  /** `CaptureState`: the counts by colour and kind (`[ColorCaptures; 2]`) and each colour's score. */
  class CaptureState {
    const counts: array2<int>
    const scores: array<int>

    predicate Valid()
      reads this, counts, scores
    {
      counts.Length0 == 2 && counts.Length1 == 5 && scores.Length == 2
      && (forall i, j :: 0 <= i < 2 && 0 <= j < 5 ==> 0 <= counts[i, j] <= 255)
      && (forall i :: 0 <= i < 2 ==> 0 <= scores[i] <= 255)
    }

    /** `CaptureState::new`: every count and score zero. */
    constructor ()
      ensures Valid() && fresh(counts) && fresh(scores)
      ensures forall i, j :: 0 <= i < 2 && 0 <= j < 5 ==> counts[i, j] == 0
      ensures scores[0] == 0 && scores[1] == 0
    {
      counts := new int[2, 5]((i, j) => 0);
      scores := new int[2](i => 0);
    }

    /** One colour's counts, indexed like `CAPTURABLE_PIECES`. */
    function Row(c: Color): (r: seq<int>)
      reads this, counts
      requires counts.Length0 == 2 && counts.Length1 == 5
      ensures |r| == 5 && forall j :: 0 <= j < 5 ==> r[j] == counts[ColorIndex(c), j]
    {
      var i := ColorIndex(c);
      [counts[i, 0], counts[i, 1], counts[i, 2], counts[i, 3], counts[i, 4]]
    }

    /** Both colours' counts are within the starting material. */
    predicate Bounded()
      reads this, counts, scores
      requires Valid()
    {
      RowBounded(Row(White)) && RowBounded(Row(Black))
    }

    /** Each stored score is the score of its colour's counts. */
    predicate ScoresAgree()
      reads this, counts, scores
      requires Valid()
    {
      scores[0] == Score(Row(White)) && scores[1] == Score(Row(Black))
    }

    /** `get_advantage` on the stored scores. */
    function GetAdvantage(): (r: Option<(Color, int)>)
      reads this, counts, scores
      requires Valid()
      ensures r.None? <==> scores[0] == scores[1]
      ensures r.Some? ==> scores[ColorIndex(r.value.0)] == scores[1 - ColorIndex(r.value.0)] + r.value.1
    {
      Advantage(scores[1], scores[0])
    }

    /**
     * `CaptureState::patch`: updates the one count, then recomputes that colour's score from all
     * five of its counts; the other colour's counts and score stay.
     */
    method Patch(u: CapStateUpdate) returns (count: int)
      requires Valid() && u.typ != King
      requires u.diff.Increment? ==> counts[ColorIndex(u.color), KindIndex(u.typ)] < 255
      requires 0 <= Score(Row(u.color)[KindIndex(u.typ) :=
        PatchedCount(counts[ColorIndex(u.color), KindIndex(u.typ)], u.diff, ImageCount(u.typ))]) <= 255
      modifies counts, scores
      ensures Valid()
      ensures count == PatchedCount(old(counts[ColorIndex(u.color), KindIndex(u.typ)]), u.diff, ImageCount(u.typ))
      ensures Row(u.color) == old(Row(u.color))[KindIndex(u.typ) := count]
      ensures Row(Opponent(u.color)) == old(Row(Opponent(u.color)))
      ensures scores[ColorIndex(u.color)] == Score(Row(u.color))
      ensures scores[ColorIndex(Opponent(u.color))] == old(scores[ColorIndex(Opponent(u.color))])
    {
      var ci := ColorIndex(u.color);
      var ti := KindIndex(u.typ);
      count := PatchedCount(counts[ci, ti], u.diff, ImageCount(u.typ));
      counts[ci, ti] := count;
      assert Row(u.color) == old(Row(u.color))[ti := count];
      scores[ci] := Score(Row(u.color));
    }
  }

  /** The patch keeps every count within the starting material when a set does. */
  lemma PatchKeepsBounded(row: seq<int>, typ: PieceKind, diff: CapStateDiff)
    requires |row| == 5 && typ != King && RowBounded(row)
    requires diff.Set? ==> diff.count <= NumPieces(typ)
    ensures RowBounded(row[KindIndex(typ) := PatchedCount(row[KindIndex(typ)], diff, ImageCount(typ))])
  {
    CapturableIndices();
  }

  /** The capture images and the two material-advantage labels. */
  class CapturesUi {
    /** `node.display` of each capture image: `Flex` (true) or `None`. */
    const shown: array2<bool>
    /** The index of the image handle each capture image shows. */
    const image: array2<int>
    const labelVisible: array<bool>
    const labelText: array<string>

    predicate Valid()
      reads this
    {
      shown.Length0 == 2 && shown.Length1 == 5 && image.Length0 == 2 && image.Length1 == 5
      && labelVisible.Length == 2 && labelText.Length == 2
    }
  }

  /**
   * `CapStateUpdate::apply`: patches the state; shows the capture image exactly when the count is
   * non-zero, with the image for that count; then the label of the colour ahead reads "+<lead>"
   * and is shown while the other is hidden, or both are hidden on a tie.
   */
  method ApplyUpdate(state: CaptureState, ui: CapturesUi, u: CapStateUpdate) returns (count: int)
    requires state.Valid() && ui.Valid() && ui.image != state.counts
    requires u.typ != King
    requires u.diff.Increment? ==> state.counts[ColorIndex(u.color), KindIndex(u.typ)] < 255
    requires 0 <= Score(state.Row(u.color)[KindIndex(u.typ) :=
      PatchedCount(state.counts[ColorIndex(u.color), KindIndex(u.typ)], u.diff, ImageCount(u.typ))]) <= 255
    requires PatchedCount(state.counts[ColorIndex(u.color), KindIndex(u.typ)], u.diff, ImageCount(u.typ)) < ImageCount(u.typ)
    modifies state.counts, state.scores, ui.shown, ui.image, ui.labelVisible, ui.labelText
    ensures state.Valid() && ui.Valid()
    ensures count == PatchedCount(old(state.counts[ColorIndex(u.color), KindIndex(u.typ)]), u.diff, ImageCount(u.typ))
    ensures state.Row(u.color) == old(state.Row(u.color))[KindIndex(u.typ) := count]
    ensures state.Row(Opponent(u.color)) == old(state.Row(Opponent(u.color)))
    ensures state.scores[ColorIndex(u.color)] == Score(state.Row(u.color))
    ensures state.scores[ColorIndex(Opponent(u.color))] == old(state.scores[ColorIndex(Opponent(u.color))])
    ensures ui.shown[ColorIndex(u.color), KindIndex(u.typ)] == (count != 0)
    ensures ui.image[ColorIndex(u.color), KindIndex(u.typ)] == count
    ensures forall i, j :: 0 <= i < 2 && 0 <= j < 5 && (i != ColorIndex(u.color) || j != KindIndex(u.typ)) ==>
      (ui.shown[i, j] == old(ui.shown[i, j]) && ui.image[i, j] == old(ui.image[i, j]))
    ensures LabelsShow(ui, state.GetAdvantage(), old(ui.labelText[..]))
  {
    count := state.Patch(u);
    var ci := ColorIndex(u.color);
    var ti := KindIndex(u.typ);
    ui.shown[ci, ti] := count != 0;
    ui.image[ci, ti] := count;
    ShowAdvantage(ui, state.GetAdvantage());
  }

  /**
   * The advantage labels after an update: the label of the colour ahead shows "+<lead>" and the
   * other is hidden with its text unchanged; on a tie both are hidden.
   */
  predicate LabelsShow(ui: CapturesUi, adv: Option<(Color, int)>, oldText: seq<string>)
    reads ui, ui.labelVisible, ui.labelText
    requires ui.Valid() && |oldText| == 2
  {
    (adv.None? ==> !ui.labelVisible[0] && !ui.labelVisible[1] && ui.labelText[..] == oldText)
    && (adv.Some? && adv.value.1 >= 0 ==>
          var i := ColorIndex(adv.value.0);
          ui.labelVisible[i] && ui.labelText[i] == "+" + NatToString(adv.value.1)
          && !ui.labelVisible[1 - i] && ui.labelText[1 - i] == oldText[1 - i])
  }

  /** The loop over the `MaterialAdvantageLabel` entities, one per colour. */
  method ShowAdvantage(ui: CapturesUi, adv: Option<(Color, int)>)
    requires ui.Valid()
    requires adv.Some? ==> adv.value.1 >= 0
    modifies ui.labelVisible, ui.labelText
    ensures LabelsShow(ui, adv, old(ui.labelText[..]))
  {
    for i := 0 to 2
      invariant forall k :: i <= k < 2 ==> ui.labelText[k] == old(ui.labelText[k])
      invariant adv.None? ==> forall k :: 0 <= k < i ==> !ui.labelVisible[k] && ui.labelText[k] == old(ui.labelText[k])
      invariant adv.Some? ==> forall k :: 0 <= k < i ==>
        if k == ColorIndex(adv.value.0) then ui.labelVisible[k] && ui.labelText[k] == "+" + NatToString(adv.value.1)
        else !ui.labelVisible[k] && ui.labelText[k] == old(ui.labelText[k])
    {
      var labelColor := if i == 0 then White else Black;
      if adv.Some? && labelColor == adv.value.0 {
        ui.labelVisible[i] := true;
        ui.labelText[i] := "+" + NatToString(adv.value.1);
      } else {
        ui.labelVisible[i] := false;
      }
    }
  }

  /**
   * `captures`: the target's `Visibility` becomes `Hidden` and the tally of the colour that
   * captured it, the opposite of the piece's own, is incremented. A target without piece data is
   * ignored. `meta` holds the entities with piece data; `hidden` the entities whose visibility is
   * `Hidden`. The result is the new hidden set and the queued update.
   */
  function CaptureUpdate(target: Entity, meta: map<Entity, Piece>, hidden: set<Entity>)
    : (r: (set<Entity>, Option<CapStateUpdate>))
    ensures r.1.Some? <==> target in meta
    ensures target in meta ==> target in r.0
    ensures target !in meta ==> r.0 == hidden
    ensures forall e :: e != target ==> (e in r.0 <==> e in hidden)
    ensures r.1.Some? ==> (r.1.value.color != meta[target].color && r.1.value.typ == meta[target].kind
      && r.1.value.diff == Increment)
  {
    if target !in meta then (hidden, None)
    else
      var p := meta[target];
      (hidden + {target}, Some(CapStateUpdate(Opponent(p.color), p.kind, Increment)))
  }

  /** A capture below the last image raises the capturer's score by the captured piece's value. */
  lemma CaptureRaisesCapturerScore(row: seq<int>, target: Entity, captured: Piece)
    requires |row| == 5 && captured.kind != King
    requires 0 <= row[KindIndex(captured.kind)] && row[KindIndex(captured.kind)] + 1 < ImageCount(captured.kind)
    ensures var u := CaptureUpdate(target, map[target := captured], {}).1.value;
      Score(row[KindIndex(u.typ) := PatchedCount(row[KindIndex(u.typ)], u.diff, ImageCount(u.typ))])
      == Score(row) + PieceValue(captured.kind)
  {
    CapturableIndices();
    IncrementAddsValue(row, KindIndex(captured.kind));
  }

  /**
   * `ResetCapturesUi`: every count of both colours is zeroed and every capture image and label
   * hidden. The stored scores are left as they were.
   */
  method ResetCapturesUi(state: CaptureState, ui: CapturesUi)
    requires state.Valid() && ui.Valid()
    modifies state.counts, ui.shown, ui.labelVisible
    ensures state.Valid() && ui.Valid()
    ensures forall i, j :: 0 <= i < 2 && 0 <= j < 5 ==> state.counts[i, j] == 0 && !ui.shown[i, j]
    ensures state.scores[..] == old(state.scores[..])
    ensures !ui.labelVisible[0] && !ui.labelVisible[1]
  {
    for i := 0 to 2
      invariant state.Valid()
      invariant forall a, b :: 0 <= a < i && 0 <= b < 5 ==> state.counts[a, b] == 0 && !ui.shown[a, b]
    {
      for j := 0 to 5
        invariant state.Valid()
        invariant forall a, b :: 0 <= a < i && 0 <= b < 5 ==> state.counts[a, b] == 0 && !ui.shown[a, b]
        invariant forall b :: 0 <= b < j ==> state.counts[i, b] == 0 && !ui.shown[i, b]
      {
        state.counts[i, j] := 0;
        ui.shown[i, j] := false;
      }
    }
    ui.labelVisible[0] := false;
    ui.labelVisible[1] := false;
  }

  /** How many pieces of `typ` the opponent of `color` still has (`popcnt` of its bitboard). */
  function Remaining(board: Board, color: Color, typ: PieceKind): nat
  {
    |set sq: Square | sq in board.occupant && board.occupant[sq] == Piece(Opponent(color), typ)|
  }

  /**
   * `load_capture_state` as written: `typ.num_pieces() - popcnt as u8` is a `u8` subtraction,
   * which panics when the opponent has more pieces of a kind than it started with.
   */
  function LoadCountAsWritten(board: Board, color: Color, typ: PieceKind): (r: Option<int>)
    ensures r.None? <==> Remaining(board, color, typ) > NumPieces(typ)
    ensures r.Some? ==> r.value + Remaining(board, color, typ) == NumPieces(typ)
  {
    var remaining := Remaining(board, color, typ);
    if remaining > NumPieces(typ) then None else Some(NumPieces(typ) - remaining)
  }

  /** A position where White has promoted to a second queen. */
  function TwoWhiteQueens(b: Board): Board
  {
    b.(occupant := map[0 := Piece(White, Queen), 1 := Piece(White, Queen)])
  }

  /** Loading a game in which White has two queens makes Black's queen tally underflow. */
  lemma LoadUnderflowsAfterPromotion(b: Board)
    ensures LoadCountAsWritten(TwoWhiteQueens(b), Black, Queen).None?
  {
    var board := TwoWhiteQueens(b);
    var s := set sq: Square | sq in board.occupant && board.occupant[sq] == Piece(White, Queen);
    assert s == {0, 1};
    assert |s| == 2;
  }

  /**
   * The capture count loading evidently intends: the pieces of the kind missing from the
   * opponent's starting material, and none when it has as many or more (after a promotion).
   */
  function CapturedCount(board: Board, color: Color, typ: PieceKind): (r: U8)
    ensures 0 <= r <= NumPieces(typ)
    ensures LoadCountAsWritten(board, color, typ).Some? ==> r == LoadCountAsWritten(board, color, typ).value
    ensures Remaining(board, color, typ) >= NumPieces(typ) ==> r == 0
  {
    var remaining := Remaining(board, color, typ);
    if remaining >= NumPieces(typ) then 0 else NumPieces(typ) - remaining
  }

  /**
   * `load_capture_state`, then the `Set` updates it queues, run in their order (White's five
   * kinds, then Black's). Afterwards every count is the captured count of the loaded position and
   * both scores agree with the counts, whatever the earlier (bounded) tallies were. The counts come
   * from the corrected `CapturedCount`, which stops at zero where the `u8` subtraction as written
   * would underflow.
   */
  method LoadCaptureState(state: CaptureState, ui: CapturesUi, board: Board)
    requires state.Valid() && ui.Valid() && ui.image != state.counts && state.Bounded()
    modifies state.counts, state.scores, ui.shown, ui.image, ui.labelVisible, ui.labelText
    ensures state.Valid() && ui.Valid() && state.Bounded() && state.ScoresAgree()
    ensures state.Row(White) == LoadedRow(board, White) && state.Row(Black) == LoadedRow(board, Black)
  {
    LoadColor(state, ui, board, White);
    LoadColor(state, ui, board, Black);
  }

  /** The five queued `Set` updates of one colour, run in order. */
  method LoadColor(state: CaptureState, ui: CapturesUi, board: Board, color: Color)
    requires state.Valid() && ui.Valid() && ui.image != state.counts && state.Bounded()
    modifies state.counts, state.scores, ui.shown, ui.image, ui.labelVisible, ui.labelText
    ensures state.Valid() && ui.Valid() && state.Bounded()
    ensures state.Row(color) == LoadedRow(board, color) && state.scores[ColorIndex(color)] == Score(state.Row(color))
    ensures state.Row(Opponent(color)) == old(state.Row(Opponent(color)))
    ensures state.scores[ColorIndex(Opponent(color))] == old(state.scores[ColorIndex(Opponent(color))])
  {
    ghost var target := LoadedRow(board, color);
    for j := 0 to 5
      invariant state.Valid() && ui.Valid() && state.Bounded()
      invariant state.Row(color)[..j] == target[..j]
      invariant j > 0 ==> state.scores[ColorIndex(color)] == Score(state.Row(color))
      invariant state.Row(Opponent(color)) == old(state.Row(Opponent(color)))
      invariant state.scores[ColorIndex(Opponent(color))] == old(state.scores[ColorIndex(Opponent(color))])
    {
      ghost var before := state.Row(color);
      LoadOne(state, ui, board, color, j);
      PrefixStep(before, state.Row(color), target, j);
    }
    PrefixStep(state.Row(color), state.Row(color), target, 5);
  }

  /** Setting entry `j` of a row that agrees with `target` below `j` makes it agree up to `j`. */
  lemma PrefixStep(before: seq<int>, after: seq<int>, target: seq<int>, j: nat)
    requires |before| == |target| == 5 && j <= 5 && before[..j] == target[..j]
    requires j < 5 ==> after == before[j := target[j]]
    requires j == 5 ==> after == before
    ensures j < 5 ==> after[..j + 1] == target[..j + 1]
    ensures j == 5 ==> after == target
  {
    if j < 5 {
      assert after[..j + 1] == before[..j] + [target[j]];
      assert target[..j + 1] == target[..j] + [target[j]];
    } else {
      assert before == before[..5] && target == target[..5];
    }
  }

  /** The `Set` update of one kind of one colour. */
  method LoadOne(state: CaptureState, ui: CapturesUi, board: Board, color: Color, j: nat)
    requires state.Valid() && ui.Valid() && ui.image != state.counts && state.Bounded() && j < 5
    modifies state.counts, state.scores, ui.shown, ui.image, ui.labelVisible, ui.labelText
    ensures state.Valid() && ui.Valid() && state.Bounded()
    ensures state.Row(color) == old(state.Row(color))[j := LoadedRow(board, color)[j]]
    ensures state.scores[ColorIndex(color)] == Score(state.Row(color))
    ensures state.Row(Opponent(color)) == old(state.Row(Opponent(color)))
    ensures state.scores[ColorIndex(Opponent(color))] == old(state.scores[ColorIndex(Opponent(color))])
  {
    CapturableIndices();
    var u := CapStateUpdate(color, CAPTURABLE_PIECES[j], Set(CapturedCount(board, color, CAPTURABLE_PIECES[j])));
    LoadStep(state.Row(color), u);
    var _ := ApplyUpdate(state, ui, u);
  }

  /** The counts of one colour a loaded position gives. */
  function LoadedRow(board: Board, color: Color): (r: seq<int>)
    ensures |r| == 5 && RowBounded(r)
    ensures forall j :: 0 <= j < 5 ==> r[j] == CapturedCount(board, color, CAPTURABLE_PIECES[j])
  {
    seq(5, j requires 0 <= j < 5 => CapturedCount(board, color, CAPTURABLE_PIECES[j]))
  }

  /** A loading `Set` keeps a bounded row bounded, so the recomputed score fits. */
  lemma LoadStep(row: seq<int>, u: CapStateUpdate)
    requires |row| == 5 && RowBounded(row) && u.typ != King && u.diff.Set? && u.diff.count <= NumPieces(u.typ)
    ensures var r := row[KindIndex(u.typ) := PatchedCount(row[KindIndex(u.typ)], u.diff, ImageCount(u.typ))];
      RowBounded(r) && 0 <= Score(r) <= 255
  {
    PatchKeepsBounded(row, u.typ, u.diff);
    ScoreFitsU8(row[KindIndex(u.typ) := PatchedCount(row[KindIndex(u.typ)], u.diff, ImageCount(u.typ))]);
  }
}
