/**
 * End-game icons (`src/game/board/icons.rs`): five icons spawned hidden on the default tile, moved
 * next to the kings and shown when a game ends, and hidden again when a game is loaded.
 */
module EndGameIcons {
  import opened Chess

  /** The marker components `WinnerIcon`, `LoserIconBlack`, `LoserIconWhite`, `DrawIconBlack`, `DrawIconWhite`. */
  datatype IconKind = Winner | LoserBlack | LoserWhite | DrawBlack | DrawWhite

  /** The position of each icon in `AllIcons()`. */
  function IconIndex(k: IconKind): nat
  {
    match k
    case Winner => 0
    case LoserBlack => 1
    case LoserWhite => 2
    case DrawBlack => 3
    case DrawWhite => 4
  }

  /** The five icons, each once: what the `With<EndGameIcon>` queries visit. */
  function AllIcons(): (s: seq<IconKind>)
    ensures |s| == 5
    ensures forall k: IconKind :: IconIndex(k) < 5 && s[IconIndex(k)] == k
  {
    [Winner, LoserBlack, LoserWhite, DrawBlack, DrawWhite]
  }

  datatype Visibility = Hidden | Visible

  /** The icon's side length, as a percentage of a tile (`tile_size * 0.4`). */
  const ICON_SIZE_PERCENT: int := 40

  /** The loser icon of a colour. */
  function LoserIcon(c: Color): (k: IconKind)
    ensures k == LoserBlack <==> c == Black
    ensures k == LoserWhite <==> c == White
  {
    match c
    case Black => LoserBlack
    case White => LoserWhite
  }

  /** The draw icon of a colour. */
  function DrawIcon(c: Color): (k: IconKind)
    ensures k == DrawBlack <==> c == Black
    ensures k == DrawWhite <==> c == White
  {
    match c
    case Black => DrawBlack
    case White => DrawWhite
  }

  /** `node.top` as a percentage of the tile: inside the tile on rank 8, above it elsewhere. */
  function TopPercent(sq: Square): int
  {
    if RankOf(sq) == 7 then 3 else -14
  }

  /** `node.left` as a percentage of the tile: inside the tile on file H, past its right edge elsewhere. */
  function LeftPercent(sq: Square): int
  {
    if FileOf(sq) == 7 then 57 else 74
  }

  /**
   * The icon's top-left corner in percent of a tile, measured from the board's top-left corner
   * (rank 8, file A). Wherever the king stands, the whole icon lies on the board: the two offsets
   * push it up and to the right of the king's tile, except on the edges where that would leave
   * the board. This assumes the layout the code does not spell out: the tile is one of eight
   * equal columns and rows of the board, and `Val::Percent` offsets are percentages of that tile
   * measured from its top-left corner; that layout is not part of this model.
   */
  function IconCorner(sq: Square): (r: (int, int))
    ensures 0 <= r.0 && r.0 + ICON_SIZE_PERCENT <= 800
    ensures 0 <= r.1 && r.1 + ICON_SIZE_PERCENT <= 800
    ensures r.0 > FileOf(sq) * 100 + 50 && r.1 < (7 - RankOf(sq)) * 100 + 50
  {
    (FileOf(sq) * 100 + LeftPercent(sq), (7 - RankOf(sq)) * 100 + TopPercent(sq))
  }

  /** The five icon nodes: each one's parent tile, visibility and `top`/`left` offsets (`None` is `Val::Auto`). */
  class IconNodes {
    var parent: map<IconKind, Entity>
    var visibility: map<IconKind, Visibility>
    var top: map<IconKind, Option<int>>
    var left: map<IconKind, Option<int>>
    /** The `add_children` commands issued, as (tile, icon) pairs. */
    var reparented: seq<(Entity, IconKind)>

    /** Every icon has exactly one node (`single().unwrap()` never panics). */
    predicate Valid()
      reads this
    {
      forall k: IconKind :: k in parent && k in visibility && k in top && k in left
    }

    /** `spawn_end_game_icons`: every icon hidden, on the tile of `Square::DEFAULT`. */
    constructor Spawn(defaultTile: Entity)
      ensures Valid()
      ensures forall k: IconKind :: (parent[k] == defaultTile && visibility[k] == Hidden
        && top[k] == None && left[k] == None)
      ensures reparented == []
    {
      var all := AllIcons();
      forall k: IconKind
        ensures k in all
      {
        assert all[IconIndex(k)] == k;
      }
      parent := map k: IconKind | k in all :: defaultTile;
      visibility := map k: IconKind | k in all :: Hidden;
      top := map k: IconKind | k in all :: None;
      left := map k: IconKind | k in all :: None;
      reparented := [];
      new;
    }

    /**
     * `set_end_game_icon`: moves the icon to the tile (issuing `add_children` only when its parent
     * differs), shows it and places it by the square's rank and file.
     */
    method SetEndGameIcon(kind: IconKind, tile: Entity, sq: Square)
      requires Valid()
      modifies this
      ensures Valid()
      ensures parent == old(parent)[kind := tile]
      ensures reparented == old(reparented) + (if old(parent)[kind] != tile then [(tile, kind)] else [])
      ensures visibility == old(visibility)[kind := Visible]
      ensures top == old(top)[kind := Some(TopPercent(sq))]
      ensures left == old(left)[kind := Some(LeftPercent(sq))]
    {
      if parent[kind] != tile {
        reparented := reparented + [(tile, kind)];
        parent := parent[kind := tile];
      } else {
        assert parent == parent[kind := tile];
      }
      visibility := visibility[kind := Visible];
      top := top[kind := Some(TopPercent(sq))];
      left := left[kind := Some(LeftPercent(sq))];
    }

    /** The icon shows on `sq`'s tile, placed for `sq`. */
    predicate PlacedAt(k: IconKind, tiles: map<Square, Entity>, sq: Square)
      reads this
      requires Valid() && sq in tiles
    {
      parent[k] == tiles[sq] && visibility[k] == Visible
      && top[k] == Some(TopPercent(sq)) && left[k] == Some(LeftPercent(sq))
    }

    /**
     * `ShowCheckmateIcons`: the side to move has been mated. Its loser icon goes to its king's
     * tile and the winner icon to the other king's tile; the other three icons keep their state.
     */
    method ShowCheckmateIcons(board: Board, tiles: map<Square, Entity>)
      requires Valid()
      requires KingSquare(board, White) in tiles && KingSquare(board, Black) in tiles
      modifies this
      ensures Valid()
      ensures PlacedAt(LoserIcon(board.sideToMove), tiles, KingSquare(board, board.sideToMove))
      ensures PlacedAt(Winner, tiles, KingSquare(board, Opponent(board.sideToMove)))
      ensures forall k :: k != Winner && k != LoserIcon(board.sideToMove) ==>
        (parent[k] == old(parent)[k] && visibility[k] == old(visibility)[k]
         && top[k] == old(top)[k] && left[k] == old(left)[k])
    {
      var loserColor := board.sideToMove;
      var loserSquare := KingSquare(board, loserColor);
      var winnerSquare := KingSquare(board, Opponent(loserColor));
      var loser := LoserIcon(loserColor);
      assert loser != Winner;
      SetEndGameIcon(loser, tiles[loserSquare], loserSquare);
      ghost var p1, v1, t1, l1 := parent, visibility, top, left;
      SetEndGameIcon(Winner, tiles[winnerSquare], winnerSquare);
      assert parent[loser] == p1[loser] && visibility[loser] == v1[loser];
      assert top[loser] == t1[loser] && left[loser] == l1[loser];
      forall k | k != Winner && k != loser
        ensures parent[k] == old(parent)[k] && visibility[k] == old(visibility)[k]
        ensures top[k] == old(top)[k] && left[k] == old(left)[k]
      {
        assert parent[k] == p1[k] && visibility[k] == v1[k] && top[k] == t1[k] && left[k] == l1[k];
      }
    }

    /**
     * `ShowDrawIcons`: each colour's draw icon goes to its own king's tile; the winner and loser
     * icons keep their state.
     */
    method ShowDrawIcons(board: Board, tiles: map<Square, Entity>)
      requires Valid()
      requires KingSquare(board, White) in tiles && KingSquare(board, Black) in tiles
      modifies this
      ensures Valid()
      ensures PlacedAt(DrawBlack, tiles, KingSquare(board, Black))
      ensures PlacedAt(DrawWhite, tiles, KingSquare(board, White))
      ensures forall k :: k != DrawBlack && k != DrawWhite ==>
        (parent[k] == old(parent)[k] && visibility[k] == old(visibility)[k]
         && top[k] == old(top)[k] && left[k] == old(left)[k])
    {
      var blackSquare := KingSquare(board, Black);
      var whiteSquare := KingSquare(board, White);
      SetEndGameIcon(DrawBlack, tiles[blackSquare], blackSquare);
      ghost var p1, v1, t1, l1 := parent, visibility, top, left;
      SetEndGameIcon(DrawWhite, tiles[whiteSquare], whiteSquare);
      assert parent[DrawBlack] == p1[DrawBlack] && visibility[DrawBlack] == v1[DrawBlack];
      assert top[DrawBlack] == t1[DrawBlack] && left[DrawBlack] == l1[DrawBlack];
      forall k | k != DrawBlack && k != DrawWhite
        ensures parent[k] == old(parent)[k] && visibility[k] == old(visibility)[k]
        ensures top[k] == old(top)[k] && left[k] == old(left)[k]
      {
        assert parent[k] == p1[k] && visibility[k] == v1[k] && top[k] == t1[k] && left[k] == l1[k];
      }
    }

    /** `hide_end_game_icons_on_load_game`: every icon hidden; parents and offsets stay. */
    method HideOnLoadGame()
      requires Valid()
      modifies this
      ensures Valid()
      ensures forall k: IconKind :: visibility[k] == Hidden
      ensures parent == old(parent) && top == old(top) && left == old(left) && reparented == old(reparented)
    {
      var all := AllIcons();
      for i := 0 to |all|
        invariant Valid()
        invariant forall j :: 0 <= j < i ==> visibility[all[j]] == Hidden
        invariant parent == old(parent) && top == old(top) && left == old(left) && reparented == old(reparented)
      {
        visibility := visibility[all[i] := Hidden];
      }
      forall k: IconKind
        ensures visibility[k] == Hidden
      {
        assert all[IconIndex(k)] == k;
      }
    }
  }
}
