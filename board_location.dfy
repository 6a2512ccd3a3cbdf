/** `BoardLocation`: an ECS component wrapping the square a board element stands on. */
module GameBoardLocation {
  import opened Chess
  import GameBoardSquare

  class BoardLocation {
    var square: Square

    /** `BoardLocation::new`: wraps the square unchanged. */
    constructor (sq: Square)
      ensures square == sq
    {
      square := sq;
    }

    function File(): Index8
      reads this
    {
      FileOf(square)
    }

    function Rank(): Index8
      reads this
    {
      RankOf(square)
    }

    /** `file_char`: the square's file as a letter 'a'..'h' (the same converter as `Square`). */
    function FileChar(): (c: char)
      reads this
      ensures 'a' <= c <= 'h'
      ensures c == SquareName(square)[0]
    {
      GameBoardSquare.FileToChar(File())
    }

    /** `rank_char`: the square's rank as a digit '1'..'8'. */
    function RankChar(): (c: char)
      reads this
      ensures '1' <= c <= '8'
      ensures c == SquareName(square)[1]
    {
      GameBoardSquare.RankToChar(Rank())
    }

    /** `move_to`: the location now stands on `sq`, so its file and rank are those of `sq`. */
    method MoveTo(sq: Square)
      modifies this
      ensures square == sq
      ensures File() == FileOf(sq) && Rank() == RankOf(sq)
    {
      square := sq;
    }
  }
}
