/**
 * The piece image tables (`src/assets/pieces.rs`): for each colour, sixteen asset paths built by
 * the `build_piece_filenames!` macro and sixteen `(file, rank)` coordinates, paired by index.
 * Index 0 of each table is Black, index 1 White.
 */
module PieceAssets {
  import opened Chess

  /** `build_piece_fn!`: the path of one piece image. */
  function PiecePath(color: string, piece: string): (path: string)
    ensures |path| == 12 + |color| + |piece|
    ensures path[..7] == "pieces/" && path[7..7 + |color|] == color && path[7 + |color|] == '-'
    ensures path[8 + |color|..|path| - 4] == piece && path[|path| - 4..] == ".png"
  {
    "pieces/" + color + "-" + piece + ".png"
  }

  /** Two paths with colour names of one length are equal only for the same colour and piece. */
  lemma PiecePathInjective(c1: string, p1: string, c2: string, p2: string)
    requires |c1| == |c2|
    ensures PiecePath(c1, p1) == PiecePath(c2, p2) ==> c1 == c2 && p1 == p2
  {
  }

  /**
   * `build_piece_filenames!` after its first arm: each step moves the head of `pieces` onto the
   * end of the accumulated list.
   */
  function BuildInto(color: string, pieces: seq<string>, acc: seq<string>): (r: seq<string>)
    ensures |r| == |acc| + |pieces|
    ensures r[..|acc|] == acc
    ensures forall i :: 0 <= i < |pieces| ==> r[|acc| + i] == PiecePath(color, pieces[i])
    decreases |pieces|
  {
    if pieces == [] then acc
    else
      var r := BuildInto(color, pieces[1..], acc + [PiecePath(color, pieces[0])]);
      assert forall i :: 1 <= i < |pieces| ==> r[|acc| + i] == PiecePath(color, pieces[i]) by {
        forall i | 1 <= i < |pieces|
          ensures r[|acc| + i] == PiecePath(color, pieces[i])
        {
          assert r[|acc + [PiecePath(color, pieces[0])]| + (i - 1)] == PiecePath(color, pieces[1..][i - 1]);
        }
      }
      assert r[..|acc| + 1][..|acc|] == r[..|acc|];
      r
  }

  /** `build_piece_filenames!(color foreach [...])`: the macro demands at least two pieces. */
  function BuildFilenames(color: string, pieces: seq<string>): (r: seq<string>)
    requires |pieces| >= 2
    ensures |r| == |pieces|
    ensures forall i :: 0 <= i < |pieces| ==> r[i] == PiecePath(color, pieces[i])
  {
    var r := BuildInto(color, pieces[1..], [PiecePath(color, pieces[0])]);
    assert forall i :: 1 <= i < |pieces| ==> r[i] == PiecePath(color, pieces[i]) by {
      forall i | 1 <= i < |pieces|
        ensures r[i] == PiecePath(color, pieces[i])
      {
        assert r[1 + (i - 1)] == PiecePath(color, pieces[1..][i - 1]);
      }
    }
    assert r[0] == r[..1][0];
    r
  }

  const BACK_RANK: seq<string> := ["rook", "knight", "bishop", "queen", "king", "bishop", "knight", "rook"]
  const PAWNS: seq<string> := ["pawn", "pawn", "pawn", "pawn", "pawn", "pawn", "pawn", "pawn"]

  /** The piece names given to the macro: Black's back rank then its pawns; White the other way. */
  const BLACK_PIECES: seq<string> := BACK_RANK + PAWNS
  const WHITE_PIECES: seq<string> := PAWNS + BACK_RANK

  const PIECE_ASSET_PATHS: seq<seq<string>> :=
    [BuildFilenames("black", BLACK_PIECES), BuildFilenames("white", WHITE_PIECES)]

  /** `PIECE_ASSET_COORDS`: `(file, rank)` pairs, Black's rank 8 then 7, White's rank 2 then 1. */
  const PIECE_ASSET_COORDS: seq<seq<(int, int)>> := [
    [(0, 7), (1, 7), (2, 7), (3, 7), (4, 7), (5, 7), (6, 7), (7, 7),
     (0, 6), (1, 6), (2, 6), (3, 6), (4, 6), (5, 6), (6, 6), (7, 6)],
    [(0, 1), (1, 1), (2, 1), (3, 1), (4, 1), (5, 1), (6, 1), (7, 1),
     (0, 0), (1, 0), (2, 0), (3, 0), (4, 0), (5, 0), (6, 0), (7, 0)]
  ]

  /** The colour of table index `c`. */
  function TableColor(c: nat): (color: Color)
    requires c < 2
    ensures (color == Black) == (c == 0)
  {
    if c == 0 then Black else White
  }

  /** The asset name of a piece kind. */
  function KindName(k: PieceKind): string
  {
    match k
    case Pawn => "pawn"
    case Knight => "knight"
    case Bishop => "bishop"
    case Rook => "rook"
    case Queen => "queen"
    case King => "king"
  }

  /** The asset name of a colour. */
  function ColorName(c: Color): (name: string)
    ensures |name| == 5
  {
    if c == Black then "black" else "white"
  }

  /** The kind standing on a square of the standard starting position, on ranks 1, 2, 7 and 8. */
  function StartingKind(file: Index8, rank: Index8): (k: PieceKind)
    ensures (rank == 1 || rank == 6) ==> k == Pawn
    ensures (rank == 0 || rank == 7) && file == 3 ==> k == Queen
    ensures (rank == 0 || rank == 7) && file == 4 ==> k == King
  {
    if rank == 1 || rank == 6 then Pawn
    else [Rook, Knight, Bishop, Queen, King, Bishop, Knight, Rook][file]
  }

  /** The colour that starts on a rank: White on ranks 1 and 2, Black on 7 and 8. */
  function StartingColor(rank: Index8): Color
  {
    if rank <= 1 then White else Black
  }

  /** Each coordinate table lists rank by rank, files a to h: Black from rank 8, White from rank 2. */
  lemma CoordsFormula(c: nat, i: nat)
    requires c < 2 && i < 16
    ensures |PIECE_ASSET_COORDS| == 2 && |PIECE_ASSET_COORDS[c]| == 16
    ensures PIECE_ASSET_COORDS[c][i] == (i % 8, (if c == 0 then 7 else 1) - i / 8)
  {
    if i < 4 {
      if i == 0 {} else if i == 1 {} else if i == 2 {} else {}
    } else if i < 8 {
      if i == 4 {} else if i == 5 {} else if i == 6 {} else {}
    } else if i < 12 {
      if i == 8 {} else if i == 9 {} else if i == 10 {} else {}
    } else {
      if i == 12 {} else if i == 13 {} else if i == 14 {} else {}
    }
  }

  /** Every coordinate is a square, Black's on ranks 7 and 8 and White's on ranks 1 and 2. */
  lemma CoordsOnHomeRanks(c: nat, i: nat)
    requires c < 2 && i < 16
    ensures |PIECE_ASSET_COORDS[c]| == 16
    ensures 0 <= PIECE_ASSET_COORDS[c][i].0 < 8
    ensures c == 0 ==> PIECE_ASSET_COORDS[c][i].1 in {6, 7}
    ensures c == 1 ==> PIECE_ASSET_COORDS[c][i].1 in {0, 1}
  {
    CoordsFormula(c, i);
  }

  /** The 32 coordinates are pairwise distinct: no two images start on one square. */
  lemma CoordsDistinct(c: nat, i: nat, d: nat, j: nat)
    requires c < 2 && i < 16 && d < 2 && j < 16
    requires c != d || i != j
    ensures |PIECE_ASSET_COORDS[c]| == 16 && |PIECE_ASSET_COORDS[d]| == 16
    ensures PIECE_ASSET_COORDS[c][i] != PIECE_ASSET_COORDS[d][j]
  {
    CoordsFormula(c, i);
    CoordsFormula(d, j);
  }

  /** Each table has sixteen paths and sixteen coordinates, one per piece of the colour. */
  lemma TablesPair(c: nat)
    requires c < 2
    ensures |PIECE_ASSET_PATHS| == 2 && |PIECE_ASSET_PATHS[c]| == 16 && |PIECE_ASSET_COORDS[c]| == 16
  {
    CoordsFormula(c, 0);
  }

  /** The piece names, read along the coordinate tables, spell the standard starting position. */
  lemma NamesFollowCoords(c: nat, i: nat)
    requires c < 2 && i < 16
    ensures (if c == 0 then BLACK_PIECES else WHITE_PIECES)[i] == KindName(StartingKind(i % 8, (if c == 0 then 7 else 1) - i / 8))
  {
    var f := i % 8;
    assert BACK_RANK[f] == KindName([Rook, Knight, Bishop, Queen, King, Bishop, Knight, Rook][f]) by {
      if f < 4 {
        if f == 0 {} else if f == 1 {} else if f == 2 {} else {}
      } else {
        if f == 4 {} else if f == 5 {} else if f == 6 {} else {}
      }
    }
    if c == 0 {
      assert BLACK_PIECES[i] == if i < 8 then BACK_RANK[f] else PAWNS[f];
    } else {
      assert WHITE_PIECES[i] == if i < 8 then PAWNS[f] else BACK_RANK[f];
    }
  }

  /**
   * The image at index `i` of table `c` shows the piece of the standard starting position on the
   * square at index `i` of the coordinate table, in that square's colour.
   */
  lemma PathShowsStartingPiece(c: nat, i: nat)
    requires c < 2 && i < 16
    ensures |PIECE_ASSET_PATHS| == 2 && |PIECE_ASSET_PATHS[c]| == 16 && |PIECE_ASSET_COORDS[c]| == 16
    ensures 0 <= PIECE_ASSET_COORDS[c][i].0 < 8 && 0 <= PIECE_ASSET_COORDS[c][i].1 < 8
    ensures TableColor(c) == StartingColor(PIECE_ASSET_COORDS[c][i].1)
    ensures PIECE_ASSET_PATHS[c][i] ==
      PiecePath(ColorName(TableColor(c)), KindName(StartingKind(PIECE_ASSET_COORDS[c][i].0, PIECE_ASSET_COORDS[c][i].1)))
  {
    CoordsFormula(c, i);
    NamesFollowCoords(c, i);
  }

  /** Different kinds have different asset names. */
  lemma KindNameInjective(a: PieceKind, b: PieceKind)
    ensures KindName(a) == KindName(b) ==> a == b
  {
    if KindName(a) == KindName(b) {
      assert KindName(a)[0] == KindName(b)[0] && |KindName(a)| == |KindName(b)|;
    }
  }

  /** On the home ranks the queen starts only on d1 and d8, the king only on e1 and e8. */
  lemma StartingRoyals(f: Index8, r: Index8)
    requires r in {0, 1, 6, 7}
    ensures StartingKind(f, r) == Queen <==> f == 3 && r in {0, 7}
    ensures StartingKind(f, r) == King <==> f == 4 && r in {0, 7}
  {
  }

  /** The tables put both queens on the d-file and both kings on the e-file. */
  lemma QueensOnDKingsOnE(c: nat, i: nat)
    requires c < 2 && i < 16
    ensures |PIECE_ASSET_PATHS[c]| == 16 && |PIECE_ASSET_COORDS[c]| == 16
    ensures PIECE_ASSET_PATHS[c][i] == PiecePath(ColorName(TableColor(c)), "queen") <==> PIECE_ASSET_COORDS[c][i].0 == 3 && PIECE_ASSET_COORDS[c][i].1 in {0, 7}
    ensures PIECE_ASSET_PATHS[c][i] == PiecePath(ColorName(TableColor(c)), "king") <==> PIECE_ASSET_COORDS[c][i].0 == 4 && PIECE_ASSET_COORDS[c][i].1 in {0, 7}
  {
    PathShowsStartingPiece(c, i);
    CoordsOnHomeRanks(c, i);
    var color := ColorName(TableColor(c));
    var f: Index8 := PIECE_ASSET_COORDS[c][i].0;
    var r: Index8 := PIECE_ASSET_COORDS[c][i].1;
    var k := StartingKind(f, r);
    StartingRoyals(f, r);
    PiecePathInjective(color, KindName(k), color, KindName(Queen));
    PiecePathInjective(color, KindName(k), color, KindName(King));
    KindNameInjective(k, Queen);
    KindNameInjective(k, King);
  }
}
