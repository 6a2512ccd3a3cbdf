/**
 * The earliest capture tally (`src/game/captures/mod.rs`): a plain `u8` counter per colour and
 * piece kind, bumped once for each newly captured piece.
 */
module CapturesCounter {
  import opened Chess

  /** A captured piece, as the `Captured` component carries it. */
  datatype CapturedPiece = CapturedPiece(entity: Entity, piece: Piece)

  /** How many of the pieces have the given colour and kind. */
  function Tally(captured: seq<CapturedPiece>, p: Piece): (n: nat)
    ensures n <= |captured|
  {
    if |captured| == 0 then 0
    else Tally(captured[..|captured| - 1], p) + (if captured[|captured| - 1].piece == p then 1 else 0)
  }

  /** The tally of a list with one more piece. */
  lemma TallyAppend(captured: seq<CapturedPiece>, x: CapturedPiece, p: Piece)
    ensures Tally(captured + [x], p) == Tally(captured, p) + (if x.piece == p then 1 else 0)
  {
    assert (captured + [x])[..|captured|] == captured;
  }

  /** A list without the piece tallies zero of it. */
  lemma {:induction false} TallyOthers(captured: seq<CapturedPiece>, p: Piece)
    requires forall i :: 0 <= i < |captured| ==> captured[i].piece != p
    ensures Tally(captured, p) == 0
  {
    if |captured| > 0 {
      TallyOthers(captured[..|captured| - 1], p);
    }
  }

  /** `CaptureState`, a `[[u8; 5]; 2]`, and the pieces made invisible. */
  class CaptureState {
    const counts: array2<int>
    var hidden: set<Entity>

    predicate Valid()
      reads this, counts
    {
      counts.Length0 == 2 && counts.Length1 == 5
      && forall i, j :: 0 <= i < 2 && 0 <= j < 5 ==> 0 <= counts[i, j] <= 255
    }

    /** `CaptureState::default`: every counter zero. */
    constructor ()
      ensures Valid() && fresh(counts) && hidden == {}
      ensures forall i, j :: 0 <= i < 2 && 0 <= j < 5 ==> counts[i, j] == 0
    {
      counts := new int[2, 5]((i, j) => 0);
      hidden := {};
    }

    /**
     * `update`: adds one to the counter of the piece's own colour and kind (the colour is not
     * flipped here). The kind indexes a five-entry row, and the `u8` add must not overflow.
     */
    method Update(p: Piece)
      requires Valid() && KindIndex(p.kind) < 5 && counts[ColorIndex(p.color), KindIndex(p.kind)] < 255
      modifies counts
      ensures Valid()
      ensures forall i, j :: 0 <= i < 2 && 0 <= j < 5 ==>
        counts[i, j] == old(counts[i, j]) + (if PieceAt(i, j) == p then 1 else 0)
    {
      var ci, ti := ColorIndex(p.color), KindIndex(p.kind);
      PieceAtIndices(p);
      counts[ci, ti] := counts[ci, ti] + 1;
    }

    /**
     * `capture_piece`: each newly captured piece is hidden and counted once, so every counter grows
     * by the number of new pieces of its colour and kind.
     */
    method CapturePiece(captured: seq<CapturedPiece>)
      requires Valid()
      requires forall n :: 0 <= n < |captured| ==> captured[n].piece.kind != King
      requires forall i, j :: 0 <= i < 2 && 0 <= j < 5 ==> counts[i, j] + Tally(captured, PieceAt(i, j)) <= 255
      modifies this, counts
      ensures Valid()
      ensures forall i, j :: 0 <= i < 2 && 0 <= j < 5 ==> counts[i, j] == old(counts[i, j]) + Tally(captured, PieceAt(i, j))
      ensures hidden == old(hidden) + set n | 0 <= n < |captured| :: captured[n].entity
    {
      for n := 0 to |captured|
        invariant Valid()
        invariant forall i, j :: 0 <= i < 2 && 0 <= j < 5 ==>
          counts[i, j] == old(counts[i, j]) + Tally(captured[..n], PieceAt(i, j))
        invariant hidden == old(hidden) + set m | 0 <= m < n :: captured[m].entity
      {
        var p := captured[n];
        TallyPrefixStep(captured, n);
        PrefixTallyBound(captured, n + 1, p.piece);
        PieceAtIndices(p.piece);
        hidden := hidden + {p.entity};
        assert (set m | 0 <= m < n + 1 :: captured[m].entity) == (set m | 0 <= m < n :: captured[m].entity) + {p.entity};
        Update(p.piece);
      }
      assert captured[..|captured|] == captured;
    }
  }

  /** The colour and kind counted at row `i`, column `j`. */
  function PieceAt(i: nat, j: nat): Piece
    requires i < 2 && j < 5
  {
    Piece(if i == 0 then White else Black, [Pawn, Knight, Bishop, Rook, Queen][j])
  }

  /** A capturable piece is counted at its colour's row and its kind's column, and only there. */
  lemma PieceAtIndices(p: Piece)
    requires p.kind != King
    ensures ColorIndex(p.color) < 2 && KindIndex(p.kind) < 5 && PieceAt(ColorIndex(p.color), KindIndex(p.kind)) == p
    ensures forall i, j :: 0 <= i < 2 && 0 <= j < 5 && PieceAt(i, j) == p ==> i == ColorIndex(p.color) && j == KindIndex(p.kind)
  {
  }

  /** Extending a prefix by one piece adds one to that piece's tally only. */
  lemma TallyPrefixStep(captured: seq<CapturedPiece>, n: nat)
    requires n < |captured|
    ensures forall p :: Tally(captured[..n + 1], p) == Tally(captured[..n], p) + (if captured[n].piece == p then 1 else 0)
  {
    assert captured[..n + 1] == captured[..n] + [captured[n]];
    forall p
      ensures Tally(captured[..n + 1], p) == Tally(captured[..n], p) + (if captured[n].piece == p then 1 else 0)
    {
      TallyAppend(captured[..n], captured[n], p);
    }
  }

  /** A prefix never holds more of a piece than the whole list. */
  lemma {:induction false} PrefixTallyBound(captured: seq<CapturedPiece>, n: nat, p: Piece)
    requires n <= |captured|
    ensures Tally(captured[..n], p) <= Tally(captured, p)
  {
    if n < |captured| {
      var m := |captured| - 1;
      assert captured[..m][..n] == captured[..n];
      PrefixTallyBound(captured[..m], n, p);
    } else {
      assert captured[..n] == captured;
    }
  }
}
