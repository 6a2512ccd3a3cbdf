/**
 * `Location`: the square a sprite stands on, with its depth `z` (an `f32`, modelled as a real)
 * and whether it snaps to the square. Equality and hashing look at the square only.
 */
module DataLocation {
  import opened Chess
  import GameBoardSquare

  class Location {
    var square: Square
    var z: real
    var snap: bool

    /** `new_with_z`: a snapping location at `sq` with depth `z`. */
    constructor NewWithZ(sq: Square, z: real)
      ensures square == sq && this.z == z && snap
    {
      square := sq;
      this.z := z;
      snap := true;
    }

    /** `From<Square>`: a snapping location at `sq` with depth 0. */
    constructor FromSquare(sq: Square)
      ensures square == sq && z == 0.0 && snap
    {
      square := sq;
      z := 0.0;
      snap := true;
    }

    /** `with_z`: sets the depth and hands the same location back; square and snap stay. */
    method WithZ(z: real) returns (r: Location)
      modifies this
      ensures r == this
      ensures this.z == z && square == old(square) && snap == old(snap)
    {
      this.z := z;
      r := this;
    }

    /** `move_to`: changes the square and nothing else. */
    method MoveTo(sq: Square)
      modifies this
      ensures square == sq && z == old(z) && snap == old(snap)
    {
      square := sq;
    }

    /** `file_char`: the square's file letter. */
    function FileChar(): (c: char)
      reads this
      ensures 'a' <= c <= 'h' && c == SquareName(square)[0]
    {
      GameBoardSquare.FileToChar(FileOf(square))
    }

    /** `rank_char`: the square's rank digit. */
    function RankChar(): (c: char)
      reads this
      ensures '1' <= c <= '8' && c == SquareName(square)[1]
    {
      GameBoardSquare.RankToChar(RankOf(square))
    }

    /** `PartialEq::eq`: compares the squares and ignores `z` and `snap`. */
    predicate Eq(other: Location)
      reads this, other
    {
      square == other.square
    }

    /** What `Hash::hash` feeds to the hasher: the square alone. */
    function HashInput(): Square
      reads this
    {
      square
    }
  }

  /** Two locations that differ only in depth and snapping are equal. */
  lemma EqIgnoresDepth(a: Location, b: Location)
    requires a.square == b.square
    ensures a.Eq(b) && b.Eq(a)
  {
  }

  /** Equal locations hash alike, as `Hash` must agree with `Eq`. */
  lemma EqualHashEqual(a: Location, b: Location)
    ensures a.Eq(b) ==> a.HashInput() == b.HashInput()
  {
  }

  /** `Eq` is an equivalence relation, so `Location` may implement `Eq` and key a hash map. */
  lemma EqIsEquivalence(a: Location, b: Location, c: Location)
    ensures a.Eq(a)
    ensures a.Eq(b) ==> b.Eq(a)
    ensures a.Eq(b) && b.Eq(c) ==> a.Eq(c)
  {
  }
}
