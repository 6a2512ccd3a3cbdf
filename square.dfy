/** The game's `Square` wrapper around `chess::Square` and its character conversions. */
module GameBoardSquare {
  import opened Chess

  /** `Square::DEFAULT`. */
  const DEFAULT: Square := A1

  /** `file_to_char`: `b'a' + index`, a byte that never leaves the ASCII letters. */
  function FileToChar(file: Index8): (c: char)
    ensures 'a' <= c <= 'h'
    ensures c as int - 'a' as int == file
  {
    ('a' as int + file) as char
  }

  /** `rank_to_char`: `b'0' + index + 1`, so rank index 0 is written '1'. */
  function RankToChar(rank: Index8): (c: char)
    ensures '1' <= c <= '8'
    ensures c as int - '1' as int == rank
  {
    ('0' as int + rank + 1) as char
  }

  lemma FileToCharInjective(a: Index8, b: Index8)
    ensures FileToChar(a) == FileToChar(b) ==> a == b
  {
  }

  lemma RankToCharInjective(a: Index8, b: Index8)
    ensures RankToChar(a) == RankToChar(b) ==> a == b
  {
  }

  /** `from_coords(rank, file)`: the square on that rank and file. */
  function FromCoords(rank: Index8, file: Index8): Square
  {
    MakeSquare(rank, file)
  }

  function GetFile(sq: Square): Index8 { FileOf(sq) }

  function GetRank(sq: Square): Index8 { RankOf(sq) }

  function FileChar(sq: Square): char { FileToChar(GetFile(sq)) }

  function RankChar(sq: Square): char { RankToChar(GetRank(sq)) }

  /** The rank and file of `from_coords(rank, file)` are the ones it was given. */
  lemma {:induction false} FromCoordsRoundTrip(rank: Index8, file: Index8)
    ensures GetRank(FromCoords(rank, file)) == rank
    ensures GetFile(FromCoords(rank, file)) == file
  {
    var sq := FromCoords(rank, file);
    assert sq == rank * 8 + file;
  }

  /** A square is rebuilt from its own rank and file. */
  lemma {:induction false} CoordsOfSquare(sq: Square)
    ensures FromCoords(GetRank(sq), GetFile(sq)) == sq
  {
    SquareCoordinates(sq);
  }

  /**
   * `file_char` and `rank_char` are the two characters of the square's displayed name, so they
   * determine the square.
   */
  lemma {:induction false} CharsAreName(sq: Square)
    ensures [FileChar(sq), RankChar(sq)] == SquareName(sq)
    ensures ParseSquare([FileChar(sq), RankChar(sq)]) == Some(sq)
  {
    ParseSquareName(sq);
  }

  /** `forward` and `backward` for the same colour undo each other where both are defined. */
  lemma {:induction false} ForwardBackward(sq: Square, c: Color)
    ensures Forward(sq, c).Some? ==> Backward(Forward(sq, c).value, c) == Some(sq)
  {
  }
}
