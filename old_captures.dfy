/**
 * The older capture tallies (`src/game/captures.rs`): counts by colour and kind, and one image per
 * kind whose handle list runs from the most pieces down to one, so a count of `c` shows the
 * handle at `len - c`. There is no score here.
 */
module OldCaptures {
  import opened Chess
  import BoardCaptures

  /** The capturable kinds occupy the first five indices of a colour's row. */
  predicate Capturable(k: PieceKind)
  {
    k != King
  }

  /**
   * The length of each handle list `from_world` builds: eight pawn images, two for bishops,
   * knights and rooks, one for the queen.
   */
  function HandleCount(k: PieceKind): (n: nat)
    requires Capturable(k)
    ensures n == BoardCaptures.NumPieces(k) && n > 0
  {
    match k
    case Pawn => 8
    case Knight => 2
    case Bishop => 2
    case Rook => 2
    case Queen => 1
  }

  /** How many pieces the image at `index` of a kind's handle list depicts ("...-8.png" first). */
  function Depicted(k: PieceKind, index: nat): (n: int)
    requires Capturable(k) && index < HandleCount(k)
    ensures 1 <= n <= HandleCount(k)
  {
    HandleCount(k) - index
  }

  /** The handle index `write` picks for a non-zero count. */
  function HandleIndex(k: PieceKind, count: int): (i: int)
    requires Capturable(k) && 1 <= count <= HandleCount(k)
    ensures 0 <= i < HandleCount(k)
  {
    HandleCount(k) - count
  }

  /** The image chosen for a count depicts exactly that many pieces. */
  lemma ImageDepictsCount(k: PieceKind, count: int)
    requires Capturable(k) && 1 <= count <= HandleCount(k)
    ensures Depicted(k, HandleIndex(k, count)) == count
  {
  }

  /** Different counts pick different images. */
  lemma HandleIndexInjective(k: PieceKind, a: int, b: int)
    requires Capturable(k) && 1 <= a <= HandleCount(k) && 1 <= b <= HandleCount(k)
    ensures HandleIndex(k, a) == HandleIndex(k, b) ==> a == b
  {
  }

  datatype CapStateDiff = Increment | Set(count: BoardCaptures.U8)

  /** The counts (`GameCaptures<CapState>`), the capture images, and the pieces' visibility. */
  class Captures {
    const counts: array2<int>
    /** `style.display` of each capture image: `Flex` (true) or `None`. */
    const shown: array2<bool>
    /** The handle index each capture image shows. */
    const image: array2<int>
    var pieceVisible: map<Entity, bool>

    predicate Valid()
      reads this, counts
    {
      counts.Length0 == 2 && counts.Length1 == 5 && shown.Length0 == 2 && shown.Length1 == 5
      && image.Length0 == 2 && image.Length1 == 5 && counts != image
      && forall i, j :: 0 <= i < 2 && 0 <= j < 5 ==> 0 <= counts[i, j] <= 255
    }

    /** The count a diff leaves, before the bounds of the image list are checked. */
    static function Patched(count: int, diff: CapStateDiff): int
    {
      match diff
      case Increment => count + 1
      case Set(c) => c
    }

    /**
     * `CapStateUpdate::write`: increments (a `u8` add) or sets the one count; a zero count hides the
     * image, any other shows it with the handle at `len - count`, which must lie in the list.
     */
    method Write(color: Color, typ: PieceKind, diff: CapStateDiff) returns (count: int)
      requires Valid() && Capturable(typ)
      requires Patched(counts[ColorIndex(color), KindIndex(typ)], diff) <= HandleCount(typ)
      modifies counts, shown, image
      ensures Valid()
      ensures count == Patched(old(counts[ColorIndex(color), KindIndex(typ)]), diff)
      ensures counts[ColorIndex(color), KindIndex(typ)] == count
      ensures forall i, j :: 0 <= i < 2 && 0 <= j < 5 && (i != ColorIndex(color) || j != KindIndex(typ)) ==>
        (counts[i, j] == old(counts[i, j]) && shown[i, j] == old(shown[i, j]) && image[i, j] == old(image[i, j]))
      ensures count == 0 ==> (!shown[ColorIndex(color), KindIndex(typ)]
        && image[ColorIndex(color), KindIndex(typ)] == old(image[ColorIndex(color), KindIndex(typ)]))
      ensures count > 0 ==> (shown[ColorIndex(color), KindIndex(typ)]
        && image[ColorIndex(color), KindIndex(typ)] == HandleIndex(typ, count))
      ensures pieceVisible == old(pieceVisible)
    {
      var ci := ColorIndex(color);
      var ti := KindIndex(typ);
      match diff {
        case Increment => counts[ci, ti] := counts[ci, ti] + 1;
        case Set(c) => counts[ci, ti] := c;
      }
      count := counts[ci, ti];
      if count == 0 {
        shown[ci, ti] := false;
      } else {
        image[ci, ti] := HandleCount(typ) - count;
        shown[ci, ti] := true;
      }
    }

    /**
     * `Captured::write`: hides the captured piece (when it has a visibility) and increments the
     * tally of the colour opposite to the piece's.
     */
    method Captured(entity: Entity, color: Color, typ: PieceKind)
      requires Valid() && Capturable(typ)
      requires counts[ColorIndex(Opponent(color)), KindIndex(typ)] < HandleCount(typ)
      modifies this, counts, shown, image
      ensures Valid()
      ensures counts[ColorIndex(Opponent(color)), KindIndex(typ)] == old(counts[ColorIndex(Opponent(color)), KindIndex(typ)]) + 1
      ensures shown[ColorIndex(Opponent(color)), KindIndex(typ)]
      ensures image[ColorIndex(Opponent(color)), KindIndex(typ)]
        == HandleIndex(typ, counts[ColorIndex(Opponent(color)), KindIndex(typ)])
      ensures forall i, j :: 0 <= i < 2 && 0 <= j < 5 && (i != ColorIndex(Opponent(color)) || j != KindIndex(typ)) ==>
        (counts[i, j] == old(counts[i, j]) && shown[i, j] == old(shown[i, j]) && image[i, j] == old(image[i, j]))
      ensures entity in old(pieceVisible) ==> pieceVisible == old(pieceVisible)[entity := false]
      ensures entity !in old(pieceVisible) ==> pieceVisible == old(pieceVisible)
    {
      if entity in pieceVisible {
        pieceVisible := pieceVisible[entity := false];
      }
      var _ := Write(Opponent(color), typ, Increment);
    }

    /** `ResetCapturesUi`: every count of both colours zeroed and every capture image hidden. */
    method ResetCapturesUi()
      requires Valid()
      modifies counts, shown
      ensures Valid()
      ensures forall i, j :: 0 <= i < 2 && 0 <= j < 5 ==> counts[i, j] == 0 && !shown[i, j]
    {
      for i := 0 to 2
        invariant Valid()
        invariant forall a, b :: 0 <= a < i && 0 <= b < 5 ==> counts[a, b] == 0 && !shown[a, b]
      {
        for j := 0 to 5
          invariant Valid()
          invariant forall a, b :: 0 <= a < i && 0 <= b < 5 ==> counts[a, b] == 0 && !shown[a, b]
          invariant forall b :: 0 <= b < j ==> counts[i, b] == 0 && !shown[i, b]
        {
          counts[i, j] := 0;
          shown[i, j] := false;
        }
      }
    }
  }
}
