# gambit core, modelled in Dafny

gambit is a chess client built on the Bevy game engine, with Stockfish as the opponent. This
project models the discrete rules underneath its rendering and proves properties of them:

- **Selection.** Mouse presses and releases on squares drive piece selection and dragging. This
  covers the current state machine in `src/game/board/selection.rs` and the older one with
  transient `Do*` states in `src/game/mouse/selection.rs` and `src/game/selection.rs`. The two
  mouse handlers that turn button changes into those events are modelled too.
- **Board bookkeeping.** This covers the square-to-entity maps and their insert-once setters,
  piece moves with captures and en passant, and the position-repetition counters. It also covers
  the game status (checkmate, stalemate, the fifty-move rule of article 9.3 of the FIDE Laws of
  Chess, threefold repetition of article 9.2), and the FEN tail of half-move clock and full-move
  number. Both generations of the board resource are modelled (`src/game/board/state.rs` and
  `src/game/board.rs`), with move hints, castling rook moves and move sounds. The move command,
  the promotion popup and the game-over dispatch are included as well.
- **Capture tallies.** Three generations of per-colour, per-kind counters are modelled, each with
  its image selection, scores and material advantage.
- **Stockfish driver.** This covers the UCI command lines and the FIFO command queue drained up to
  the first blocking command. It also covers the four-state wait for `uciok`, `readyok` and
  `bestmove`, the `bestmove` parser, and the commands queued after each White move.
- **FEN popup.** The FEN text and the controls for side, castle rights, en passant file and
  counters are kept in step. Whichever was edited since the last frame rewrites the other.
- **Small helpers.** These are rounding to a multiple, square and location conversions, the piece
  image tables, the placement of the end-game icons, and the range select, sort and command line
  of the debug inspector.

The `chess` crate is not re-implemented. Its `Board` is a value holding the side to move, castle
rights, en passant square and the occupant of each square. Move generation, FEN parsing and
printing, position hashes and game status are function-typed parameters or fields. The same goes
for Bevy: components, resources and events are maps, sequences and class fields, and the
commands a system queues are returned as a list. Each source file is one module (the two mouse
handlers share a file). The modules `Chess` and `Text` hold the crate's values and the decimal
formatting, parsing, splitting and trimming the source takes from the Rust standard library.

## Model

| member | source | states |
|---|---|---|
| GameBoardSquare.FileToChar | src/game/board/square.rs:33-35 | the file character is a letter 'a'..'h' whose distance from 'a' is the file index |
| GameBoardSquare.RankToChar | src/game/board/square.rs:37-39 | the rank character is a digit '1'..'8' whose distance from '1' is the rank index (index 0 is written '1') |
| GameBoardSquare.FileToCharInjective | src/game/board/square.rs:33-35 | different files get different characters |
| GameBoardSquare.RankToCharInjective | src/game/board/square.rs:37-39 | different ranks get different characters |
| GameBoardSquare.FromCoordsRoundTrip | src/game/board/square.rs:45-59 | `get_rank` and `get_file` of `from_coords(rank, file)` give back `rank` and `file` |
| GameBoardSquare.CoordsOfSquare | src/game/board/square.rs:45-59 | every square is `from_coords` of its own rank and file |
| GameBoardSquare.CharsAreName | src/game/board/square.rs:53-63 | `file_char` then `rank_char` spell the square's displayed name, which parses back to the square |
| GameBoardSquare.ForwardBackward | src/game/board/square.rs:65-71 | where `forward` for a colour is defined, `backward` for that colour returns to the start square |
| GameBoardLocation.BoardLocation.constructor | src/game/board/location.rs:18-20 | `new` wraps the square unchanged |
| GameBoardLocation.BoardLocation.FileChar | src/game/board/location.rs:10-12 | the file character is a letter 'a'..'h' and is the first character of the square's name |
| GameBoardLocation.BoardLocation.RankChar | src/game/board/location.rs:14-16 | the rank character is a digit '1'..'8' and is the second character of the square's name |
| GameBoardLocation.BoardLocation.MoveTo | src/game/board/location.rs:38-40 | the location stands on the new square, with that square's file and rank |
| DataLocation.Location.NewWithZ | src/data/location.rs:25-27 | a new location has the given square and depth and snaps |
| DataLocation.Location.FromSquare | src/data/location.rs:87-91 | converting a square gives depth 0 and snapping |
| DataLocation.Location.WithZ | src/data/location.rs:29-32 | only the depth changes; square and snap stay |
| DataLocation.Location.MoveTo | src/data/location.rs:62-64 | only the square changes; depth and snap stay |
| DataLocation.Location.FileChar | src/data/location.rs:17-19 | the file letter is 'a'..'h' and is the first character of the square's name |
| DataLocation.Location.RankChar | src/data/location.rs:21-23 | the rank digit is '1'..'8' and is the second character of the square's name |
| DataLocation.EqIgnoresDepth | src/data/location.rs:67-71 | locations on one square are equal whatever their depth and snapping |
| DataLocation.EqualHashEqual | src/data/location.rs:75-79 | equal locations feed the hasher the same value |
| DataLocation.EqIsEquivalence | src/data/location.rs:67-73 | equality is reflexive, symmetric and transitive, as the `Eq` impl demands |
| Utils.RoundToNearest | src/utils/mod.rs:44-48 | `round_to_nearest` gives a multiple of the step within `u32`, namely the largest multiple not above `x + step / 2` |
| Utils.RoundDistance | src/utils/mod.rs:44-48 | the result is at most half a step from the input, and an exact half-way input of an even step rounds up |
| Utils.RoundIsNearest | src/utils/mod.rs:44-48 | no multiple of the step is strictly closer to the input than the result |
| Utils.RoundIdempotent | src/utils/mod.rs:44-48 | a multiple of the step rounds to itself |
| Utils.RoundTwice | src/utils/mod.rs:44-48 | rounding a rounded value changes nothing |
| Utils.RoundMonotone | src/utils/mod.rs:44-48 | rounding preserves the order of two inputs |
| GameSelection.Discriminant | src/game/selection.rs:8-16 | each of the six variants has its own discriminant below 6 |
| GameSelection.StateEqIffSameVariant | src/game/selection.rs:44-48 | two states are equal exactly when they are the same variant, whatever their squares |
| GameSelection.HashAgreesWithEq | src/game/selection.rs:38-48 | equal states hash alike, and equality is an equivalence |
| GameSelection.ConstantsMatchVariants | src/game/selection.rs:50-56 | each constant built on A1 equals exactly the states of its own variant |
| GameSelection.Display | src/game/selection.rs:18-36 | each of the six variants prints at a length of its own, so the printed length tells the variant |
| GameSelection.DisplayInjective | src/game/selection.rs:18-36 | two states that print alike are the same state, squares included |
| MouseHandler.EventWriter.constructor | src/game/mouse/handler.rs:10 | the event writer starts with no events sent |
| MouseHandler.EventWriter.Send | src/game/mouse/handler.rs:14 | sending appends exactly that event |
| MouseHandler.Emitted | src/game/mouse/handler.rs:12-22 | off the board nothing is sent; on a hovered square a press is sent iff the button was just pressed and a release iff it was just released |
| MouseHandler.HandleMouse | src/game/mouse/handler.rs:7-23 | the writer gains exactly the frame's events, in order |
| MouseHandler.EmittedShape | src/game/mouse/handler.rs:12-22 | a frame sends at most two events, all on the hovered square, a press before a release |
| GameMouse.HandleMouse | src/game/mouse.rs:7-23 | the older system sends the same events for the square in `MouseSquare` |
| MouseSelection.Discriminant | src/game/mouse/selection.rs:15-24 | each of the seven variants has its own discriminant below 7 |
| MouseSelection.StateEqIffSameVariant | src/game/mouse/selection.rs:55-59 | two states are equal exactly when they are the same variant, whatever their squares |
| MouseSelection.HashAgreesWithEq | src/game/mouse/selection.rs:49-59 | equal states hash alike, and equality is an equivalence |
| MouseSelection.ConstantsMatchVariants | src/game/mouse/selection.rs:61-69 | each constant built on A1 equals exactly the states of its own variant, so entering any state of that variant runs its systems |
| MouseSelection.DisplayInjective | src/game/mouse/selection.rs:26-47 | two states that print alike are the same state, squares included (the change-selection state prints as "DoChangeSelected") |
| MouseSelection.StateResource.constructor | src/game/mouse/mod.rs:27 | the state starts as `Unselected` with no transition scheduled |
| MouseSelection.StateResource.Set | src/game/mouse/selection.rs:87 | `set` succeeds iff the new state differs from the current one and nothing is scheduled; it then schedules the new state, and the current state stays |
| MouseSelection.StateResource.OverwriteSet | src/game/mouse/selection.rs:174 | `overwrite_set` succeeds iff the new state differs from the current one, replacing any scheduled transition |
| MouseSelection.Decide | src/game/mouse/selection.rs:83-133 | the transient states ignore events; a press during a drag is the `todo!`; a release while unselected or selected is ignored; a requested state always differs from the current one; a move is only requested from the selected square to a destination the legality oracle accepts |
| MouseSelection.HandleSelectionEvents | src/game/mouse/selection.rs:77-135 | the loop's scheduled transition and panic are those of running `Decide` over the events in order; a failed `set(..).unwrap()` or a `todo!` panics; the current state never changes |
| MouseSelection.FrameNeverDoubleSets | src/game/mouse/selection.rs:82-134 | for one frame of mouse events (a press then a release at most) with nothing scheduled, the system panics exactly when a press arrives during a drag |
| MouseSelection.OnEnterSelectionState | src/game/mouse/selection.rs:137-202 | per state: the dragging states re-parent the piece to the drag container (a fresh drag also shows the highlight and the move hints); `Selected` puts the piece back on its tile; each transient state hides the highlight and every shown hint and schedules its successor (`SelectingDragging(to)` after a change, `Unselected` after a move, sent as one `DoMove` event, or after an unselect) |
| MouseSelection.TransientSuccessors | src/game/mouse/selection.rs:167-200 | the successor a transient state schedules always differs from it, so `overwrite_set(..).unwrap()` never panics |
| BoardSelection.Decide | src/game/board/selection.rs:56-103 | a press during a drag is exactly the `todo!`; a move is only chosen from the selected square to a destination the legality oracle accepts; every action names a square holding a piece when the state does; from `Unselected` any action is on a piece |
| BoardSelection.NextState | src/game/board/selection.rs:105-158 | `None` keeps the state, and the state becomes `Unselected` exactly after a move or an unselect |
| BoardSelection.ActionCommands | src/game/board/selection.rs:105-158 | only `None` queues no command, and the only `StartMove` queued is the move's own, inserted on the piece at its source square |
| BoardSelection.Run | src/game/board/selection.rs:55-159 | handling a batch keeps the selection on a piece, only appends commands, and never adds a move the oracle rejects |
| BoardSelection.SelectionSystem.constructor | src/game/board/selection.rs:22-25 | the resource starts `Unselected` with no commands |
| BoardSelection.SelectionSystem.ApplyAction | src/game/board/selection.rs:105-158 | applying an action overwrites the state with the action's next state and queues exactly the action's commands, in order |
| BoardSelection.SelectionSystem.HandleSelectionEvents | src/game/board/selection.rs:48-160 | the loop leaves the state, commands and panic flag that `Run` describes |
| BoardSelection.UnselectedTransitions | src/game/board/selection.rs:57-66 | from `Unselected` a press on a piece starts a fresh drag of it; a press on an empty square and any release change nothing |
| BoardSelection.SelectingDraggingTransitions | src/game/board/selection.rs:67-75 | releasing a fresh drag on a legal destination moves and unselects; elsewhere the piece stays selected |
| BoardSelection.SelectedTransitions | src/game/board/selection.rs:77-89 | with a piece selected a press is resolved in order: its own square starts a drag, a legal destination moves, another piece is selected instead, otherwise unselect; a release changes nothing |
| BoardSelection.SelectedDraggingTransitions | src/game/board/selection.rs:91-101 | releasing a drag on the selected square unselects, on a legal destination moves, and elsewhere returns to `Selected` |
| BoardSelection.TodoOnlyWhileDragging | src/game/board/selection.rs:68 | a step panics exactly on a press during either drag state |
| BoardSelection.RunSafe | src/game/board/selection.rs:55-159 | from a state on a piece, a batch ends on a piece and every queued move is legal |
| GameBoard.CaptureHints | src/game/board.rs:308-315 | the capture pass (moves from the source onto an opponent's piece) hands out at most as many hints as there are legal moves |
| GameBoard.QuietHints | src/game/board.rs:317-323 | the second pass (the remaining moves from the source) hands out at most as many hints as there are legal moves |
| GameBoard.HintsOnePerMove | src/game/board.rs:305-323 | the two passes together give exactly one hint per legal move from the source square |
| GameBoard.NoMovesNoHints | src/game/board.rs:310-323 | a square with no legal move shows no hint |
| GameBoard.CastleRookMove | src/game/board.rs:354-372 | a king reaching G of its back rank with kingside rights brings the H-rook to F; reaching C with queenside rights (and not the kingside case) brings the A-rook to D; nothing else moves a rook |
| GameBoard.SoundCommands | src/game/board.rs:400-411 | a capture reports the captured piece and then plays the capture sound; without a capture exactly one sound command is issued |
| GameBoard.SoundPriority | src/game/board.rs:400-411 | the sound is chosen in the order capture, castle, then "opponent" for Black and "self" for White, and a piece is reported captured iff one was displaced |
| GameBoard.BoardState.constructor | src/game/board.rs:225-236 | the default state has empty maps, no shown hints and the crate's default board |
| GameBoard.BoardState.SetTile | src/game/board.rs:247-252 | an empty tile slot is filled and nothing else changes; an occupied one is the panic, a precondition here |
| GameBoard.BoardState.GetPiece | src/game/board.rs:254-264 | a piece is found exactly when the square has one, and it is the one `piece` returns |
| GameBoard.BoardState.SetPiece | src/game/board.rs:266-271 | an empty piece slot is filled and nothing else changes |
| GameBoard.BoardState.SetHighlight | src/game/board.rs:277-282 | an empty highlight slot is filled and nothing else changes |
| GameBoard.BoardState.SetMoveHints | src/game/board.rs:288-293 | an empty hint slot is filled and nothing else changes |
| GameBoard.BoardState.ShowMoveHintsFor | src/game/board.rs:299-329 | for a piece of the side to move the result is its capture hints, then its move hints, and they are appended to the shown hints; for the other side nothing is shown; the maps and the board stay |
| GameBoard.BoardState.HideMoveHints | src/game/board.rs:331-338 | every shown hint is handed back in order and none stays shown |
| GameBoard.BoardState.MovePiece | src/game/board.rs:348-414 | the commands are the castling rook's move (if any), the piece's move and the sound; the board becomes `make_move_new` of the move; the piece's entry moves from source to destination, replacing any piece there |
| BoardCaptures.CapturableIndices | src/game/board/captures.rs:35-36 | the five capturable kinds are every kind but the king, each at its own index |
| BoardCaptures.ImageCount | src/game/board/captures.rs:46-104 | each kind has one image per possible count, from none up to the full starting number |
| BoardCaptures.PatchedCount | src/game/board/captures.rs:225-232 | an increment counts up modulo the number of images (wrapping to 0 after the last); a set takes the given count |
| BoardCaptures.ScoreUpToChange | src/game/board/captures.rs:130-131 | changing one count changes the partial score by the value of that kind times the change, or not at all if the kind lies beyond the prefix |
| BoardCaptures.IncrementAddsValue | src/game/board/captures.rs:130-131 | counting one more capture of a kind raises the score by that kind's value |
| BoardCaptures.ScoreUpToBound | src/game/board/captures.rs:130-131 | with counts within the starting numbers, each partial score stays between 0 and the value of the full material up to that kind |
| BoardCaptures.ScoreFitsU8 | src/game/board/captures.rs:130-131 | with counts within the starting numbers the score is at most 39, so the `u8` sum never overflows |
| BoardCaptures.Advantage | src/game/board/captures.rs:115-125 | no advantage exactly on equal scores; otherwise the colour with the higher score leads by the (positive) difference |
| BoardCaptures.AdvantageSwap | src/game/board/captures.rs:115-125 | swapping the two scores hands the same lead to the other colour |
| BoardCaptures.CaptureState.constructor | src/game/board/captures.rs:111-113 | a new state has every count and both scores at zero |
| BoardCaptures.CaptureState.Row | src/game/board/captures.rs:155-202 | indexing by colour then kind reads the counts of that colour in kind order |
| BoardCaptures.CaptureState.GetAdvantage | src/game/board/captures.rs:115-125 | none exactly when the scores are equal; otherwise the leader's score is the other's plus the lead |
| BoardCaptures.CaptureState.Patch | src/game/board/captures.rs:127-133 | the updated kind's count is the patched count, the other counts and the other colour are untouched, and the colour's score is recomputed from its counts |
| BoardCaptures.PatchKeepsBounded | src/game/board/captures.rs:225-232 | a patch (a wrapping increment, or a set within the starting number) keeps every count within the starting numbers |
| BoardCaptures.ApplyUpdate | src/game/board/captures.rs:271-309 | the state is patched as above; the capture image of that kind shows exactly when its count is non-zero and depicts that count; the advantage labels follow the new scores |
| BoardCaptures.ShowAdvantage | src/game/board/captures.rs:293-308 | the leader's label is shown with "+lead" and the other hidden; on a tie both are hidden |
| BoardCaptures.CaptureUpdate | src/game/board/captures.rs:315-332 | a target with piece data is hidden and produces one increment for the opposite colour and the same kind; no other entity's visibility changes; a target without piece data changes nothing and queues no update |
| BoardCaptures.CaptureRaisesCapturerScore | src/game/board/captures.rs:320-331 | a capture (below the last image) raises the capturer's score by the captured piece's value |
| BoardCaptures.ResetCapturesUi | src/game/board/captures.rs:336-359 | every count is zeroed, every capture image and both advantage labels hidden; the scores are not recomputed |
| BoardCaptures.LoadCountAsWritten | src/game/board/captures.rs:243-247 | the `u8` subtraction as written fails exactly when the opponent has more pieces of the kind than it starts with, and otherwise gives the missing number |
| BoardCaptures.LoadUnderflowsAfterPromotion | src/game/board/captures.rs:245 | a position in which White has two queens makes Black's queen count underflow |
| BoardCaptures.CapturedCount | src/game/board/captures.rs:243-247 | the corrected count: within 0 and the starting number, equal to the count as written whenever that does not underflow, and 0 when nothing is missing |
| BoardCaptures.LoadCaptureState | src/game/board/captures.rs:235-250 | after loading a position and running the queued updates, both rows are the captured counts of that position, clamped at zero as corrected in "## Findings" (`CapturedCount`), and both scores agree with the counts |
| BoardCaptures.LoadColor | src/game/board/captures.rs:239-249 | the updates of one colour set its row to the loaded counts (the corrected `CapturedCount` of "## Findings") and leave the other colour alone |
| BoardCaptures.LoadOne | src/game/board/captures.rs:243-247 | one queued `Set` changes only its kind's count to the loaded count (the corrected `CapturedCount` of "## Findings") and recomputes the score |
| BoardCaptures.LoadedRow | src/game/board/captures.rs:243-247 | the row a load produces holds the captured count of each capturable kind, each within its starting number |
| BoardCaptures.LoadStep | src/game/board/captures.rs:127-133 | a loading `Set` keeps the row bounded and the recomputed score within a `u8` |
| OldCaptures.HandleCount | src/game/captures.rs:18-68 | each capturable kind has as many images as a side starts with pieces of it (8, 2, 2, 2, 1), never none |
| OldCaptures.Depicted | src/game/captures.rs:18-68 | every image in a list depicts a count between one and the list's length (lists run from most to fewest) |
| OldCaptures.HandleIndex | src/game/captures.rs:192-195 | a count between one and the list length selects an index inside the list |
| OldCaptures.ImageDepictsCount | src/game/captures.rs:192-195 | the image selected for a count depicts exactly that count |
| OldCaptures.HandleIndexInjective | src/game/captures.rs:192-195 | different counts select different images |
| OldCaptures.Captures.Write | src/game/captures.rs:172-213 | the count of the updated colour and kind becomes the patched count and no other count changes; a zero count hides the image, a positive one shows it with the image depicting that count |
| OldCaptures.Captures.Captured | src/game/captures.rs:229-245 | the captured piece is hidden; the opposite colour's count of that kind goes up by one, its image is shown and shows the handle at `len - count`; every other count, visibility and image stays |
| OldCaptures.Captures.ResetCapturesUi | src/game/captures.rs:249-271 | every count is zeroed and every capture image hidden |
| CapturesCounter.Tally | src/game/captures/mod.rs:59-62 | the number of captured pieces of one colour and kind is at most the number of captured pieces |
| CapturesCounter.TallyAppend | src/game/captures/mod.rs:59-62 | one more captured piece adds one to its own colour and kind and nothing to the others |
| CapturesCounter.TallyOthers | src/game/captures/mod.rs:59-62 | a piece that was never captured has a tally of zero |
| CapturesCounter.CaptureState.constructor | src/game/captures/mod.rs:7-8 | the default state has every counter at zero and no piece hidden |
| CapturesCounter.CaptureState.Update | src/game/captures/mod.rs:43-45 | exactly the counter of the piece's colour and kind goes up by one |
| CapturesCounter.CaptureState.CapturePiece | src/game/captures/mod.rs:51-63 | every counter grows by the number of newly captured pieces of its colour and kind, and every such piece is hidden |
| CapturesCounter.PieceAtIndices | src/game/captures/mod.rs:14-40 | indexing by colour then kind names each non-king piece at exactly one cell |
| CapturesCounter.TallyPrefixStep | src/game/captures/mod.rs:59-62 | the loop's tally over a prefix grows by one exactly for the next piece's colour and kind |
| CapturesCounter.PrefixTallyBound | src/game/captures/mod.rs:59-62 | the tally of a prefix never exceeds the tally of the whole list |
| GameBoardState.StatusFor | src/game/board/state.rs:260-280 | checkmate iff the board is mated; stalemate iff stalemated; the fifty-move draw iff ongoing with a half-move clock of at least 100; repetition iff ongoing, under 100 and some position counted three times |
| GameBoardState.GameOverIff | src/game/board/state.rs:87-95 | after syncing, the game is over exactly when the board is decided, the clock reached 100 or a position repeated three times |
| GameBoardState.Bump | src/game/board/state.rs:320-321 | the new position's counter goes up by one (from zero when absent) and every other counter stays |
| GameBoardState.BumpKeepsRepetition | src/game/board/state.rs:278-280 | once some position has been seen three times, counting a further position keeps it so |
| GameBoardState.MoveEntry | src/game/board/state.rs:343-371 | the moved entity lands on the destination and leaves its source; an en-passant capture removes and returns the pawn on the en-passant square; otherwise a piece on the destination is replaced and returned; every other square keeps its entity |
| GameBoardState.CardRemove | src/game/board/state.rs:343 | removing a square from the map drops one entry exactly when it was present |
| GameBoardState.CardInsert | src/game/board/state.rs:354 | inserting a square adds one entry exactly when it was absent |
| GameBoardState.MoveEntryConserves | src/game/board/state.rs:343-371 | no entity is lost or invented: the entities left plus the one returned are the entities before |
| GameBoardState.QuietMoveOnlyMovesOne | src/game/board/state.rs:366-369 | a move onto an empty square that is not en passant only relocates the mover and returns nothing |
| GameBoardState.FenText | src/game/board/state.rs:97-105 | the FEN keeps the crate's text up to its last three characters, then appends the clocks |
| GameBoardState.ParseFen | src/game/board/state.rs:59-72 | a parse succeeds only when the crate accepts the board and fields five and six read as a `u8` half-move clock and a `u16` full-move number, and it returns those |
| GameBoardState.CountAppend | src/game/board/state.rs:63 | the number of spaces in a concatenation is the sum of the two counts |
| GameBoardState.FenRoundTrip | src/game/board/state.rs:59-105 | a FEN written by `fen` with clocks in range parses back to the same clocks |
| GameBoardState.ParseFenNeedsSixFields | src/game/board/state.rs:64-71 | a text with fewer than six space-separated fields is refused |
| GameBoardState.StartingPosition | src/game/board/state.rs:29-40 | the command-line FEN when it parses; otherwise, or without one, the default board with clocks 0 and 0 |
| GameBoardState.BoardState.FromWorld | src/game/board/state.rs:27-57 | the starting position, counted once, the game ongoing and every entity map empty |
| GameBoardState.BoardState.Fen | src/game/board/state.rs:97-105 | the state's FEN is the board's text with this state's clocks |
| GameBoardState.BoardState.GetPieceMeta | src/game/board/state.rs:111-118 | a piece is reported exactly when the board has one on the square, and it is that piece |
| GameBoardState.BoardState.Reset | src/game/board/state.rs:140-143 | the piece entities are forgotten and the board is the default; nothing else changes |
| GameBoardState.BoardState.SetBoard | src/game/board/state.rs:174-176 | the board is replaced and nothing else changes |
| GameBoardState.BoardState.SetTile | src/game/board/state.rs:186-191 | an empty tile slot is filled and nothing else changes; an occupied one is the panic, a precondition here |
| GameBoardState.BoardState.SetHighlight | src/game/board/state.rs:201-206 | an empty highlight slot is filled and nothing else changes |
| GameBoardState.BoardState.SetTileHints | src/game/board/state.rs:216-221 | an empty hints slot is filled and nothing else changes |
| GameBoardState.BoardState.GetPiece | src/game/board/state.rs:227-237 | an entity is found exactly when `has_piece_at` holds, and it is the one stored |
| GameBoardState.BoardState.SetPiece | src/game/board/state.rs:239-244 | an empty piece slot is filled and nothing else changes |
| GameBoardState.BoardState.ClearPieces | src/game/board/state.rs:246-248 | the piece map is emptied and nothing else changes |
| GameBoardState.BoardState.SyncStatus | src/game/board/state.rs:260-270 | the status becomes the one the board status, the clock and the counters determine; nothing else changes |
| GameBoardState.BoardState.MakeBoardMove | src/game/board/state.rs:311-322 | the board becomes the crate's result of the move and the new position's counter goes up by one |
| GameBoardState.BoardState.IncHalfMoveClock | src/game/board/state.rs:324-326 | the half-move clock goes up by one (within its `u8`) and nothing else changes |
| GameBoardState.BoardState.ResetHalfMoveClock | src/game/board/state.rs:328-330 | the half-move clock becomes zero and nothing else changes |
| GameBoardState.BoardState.IncFullMoveCount | src/game/board/state.rs:332-334 | the full-move number goes up by one (within its `u16`) and nothing else changes |
| GameBoardState.BoardState.UpdatePiece | src/game/board/state.rs:336-372 | the piece map and the returned entity are those of `MoveEntry` for the board's en-passant square; nothing else changes |
| GameBoardState.Position | src/game/board/state.rs:400-415 | a character index splits uniquely into a line of sixteen characters and a column |
| GameBoardState.OrderFacts | src/game/board/state.rs:401-412 | the print order walks rank 8 down to rank 1, files a to h, and the text grows by two characters a square with a newline between ranks |
| GameBoardState.LayoutAt | src/game/board/state.rs:401-412 | the intended character at line q and column c is a newline in column 15, a space in odd columns, else the token of the square |
| GameBoardState.AppendLaidOut | src/game/board/state.rs:401-412 | appending characters that match the layout at their positions keeps a text laid out |
| GameBoardState.NewRankLayout | src/game/board/state.rs:404-412 | the first square of a later rank adds a newline, its token and a space, as the layout requires |
| GameBoardState.InRankLayout | src/game/board/state.rs:408-412 | a square within a rank adds its token and a space unless it is on file h |
| GameBoardState.StepLayout | src/game/board/state.rs:401-415 | each step of the fold keeps the text laid out and of the predicted length |
| GameBoardState.PrintFoldLayout | src/game/board/state.rs:401-415 | the fold over the first k squares is laid out and of the predicted length |
| GameBoardState.PrettyStringLayout | src/game/board/state.rs:398-416 | the pretty string is 127 characters: eight lines from rank 8 to rank 1, each eight space-separated tokens (a piece letter or '.'), joined by newlines |
| BoardMoves.MoveSound | src/game/board/moves.rs:115-126 | promotion first, then a capture (en passant included), then castling, then "opponent" for Black and "self" for White |
| BoardMoves.MoveSoundTellsWhy | src/game/board/moves.rs:115-126 | each sound identifies the rule that chose it: promote iff promoted, capture iff captured without promotion, castle iff castling alone; the move sounds name the mover's colour |
| BoardMoves.MovePieceCommands | src/game/board/moves.rs:50-76 | a piece without metadata does nothing; a pawn reaching the far rank without a chosen promotion only inserts the promoting-piece marker and does nothing else |
| BoardMoves.MovePieceLayout | src/game/board/moves.rs:62-131 | every command of a completed move is placed: the texture change (on promotion only), then unselect, last-move highlight, map update, drag removal and UI move; then, when the move castles, the rook's map update and animated UI move; then the board update, the sound and the completion event. The list has 8 commands, plus 1 for a promotion and 2 for castling |
| BoardMoves.CastlingMovesRook | src/game/board/moves.rs:88-109 | castling queues the rook's map update and animated move right after the king's: the H-rook to F kingside, the A-rook to D queenside; it plays the castle sound unless something is captured |
| BoardMoves.PieceStateBeforeBoardState | src/game/board/moves.rs:78-112 | the mover's piece-map update is queued before the board update |
| BoardMoves.ApplyUpdatePieceState | src/game/board/moves.rs:176-184 | the piece map and the captured entity are those `update_piece` gives; the board and clocks are untouched |
| BoardMoves.NextHalfMoveClock | src/game/board/moves.rs:216-220 | the clock resets exactly on a pawn move or a capture and otherwise goes up by one |
| BoardMoves.NextFullMoveCount | src/game/board/moves.rs:222-224 | the full-move number goes up by one exactly after Black's move |
| BoardMoves.FullMovePerPair | src/game/board/moves.rs:222-224 | over a game in which White moves first, the full-move number counts pairs of moves: after 2n or 2n+1 moves it has grown by exactly n |
| BoardMoves.ApplyUpdateBoardState | src/game/board/moves.rs:208-232 | the board becomes the crate's result, the position is counted once more, both clocks advance by the rules above, the status is resynced, and `GameOver` runs exactly when the game is over; the entity maps are untouched |
| BoardMoves.GameOverAfterSyncShowsIcons | src/game/board/moves.rs:226-230 | `GameOver` applied after a sync that ended the game always shows the end-game icons and never takes its ongoing-game path |
| BoardMoves.MoveUiPieceEffect | src/game/board/moves.rs:146-161 | the piece's `Square` component, when it has one, becomes the destination and no other entity's changes; an animated move animates the same entity from the source to the destination; otherwise it is reparented to the destination square's tile |
| BoardPromoter.ButtonInput.ResetAll | src/game/board/promoter.rs:261 | no button is pressed, just pressed or just released afterwards |
| BoardPromoter.FirstPressed | src/game/board/promoter.rs:260 | none exactly when no promotion button is pressed; otherwise a kind whose button is pressed, and no earlier button is pressed |
| BoardPromoter.ClickResult | src/game/board/promoter.rs:255-276 | a pressed promotion button wins; then a pressed cancel button cancels; then a fresh left click cancels; otherwise nothing happens. A promotion names the kind of a pressed button, so with the promoter's buttons only queen, knight, rook or bishop can be chosen |
| BoardPromoter.ClickHandler | src/game/board/promoter.rs:255-276 | the result is `ClickResult` of this frame; the mouse buttons are reset exactly when there is a result |
| BoardPromoter.IsPromotingPiece | src/game/board/promoter.rs:221-223 | true exactly when some piece is marked `PromotingPiece` |
| BoardPromoter.PromoterStep | src/game/board/promoter.rs:24-31 | the click and result systems run only while a piece is promoting: with none waiting there are no commands and the mouse buttons stay as they were; otherwise the commands are `ResultCommands` of this frame's `ClickResult`, with the mouse reset exactly when there is a result |
| BoardPromoter.ResultCommands | src/game/board/promoter.rs:278-308 | nothing without a result or without exactly one waiting piece; otherwise the marker is removed, then a chosen kind moves the pawn unanimated with that promotion and a cancel puts it back on its source tile |
| BoardPromoter.PromotionMoveDoesNotRestart | src/game/board/promoter.rs:297-302 | the move a promotion triggers carries its piece, so `move_piece` does not start a second promotion |
| BoardPromoter.FindPromoter | src/game/board/promoter.rs:190 | the promoter found has the requested colour, and none is found exactly when no promoter has it |
| BoardPromoter.StartPromotion | src/game/board/promoter.rs:169-196 | for a piece with a colour and a visibility: the selection is cleared, the piece hidden, and its colour's promoter reparented to the destination tile and shown; otherwise nothing changes |
| BoardPromoter.EndPromotion | src/game/board/promoter.rs:198-219 | for a piece with a colour and a visibility: the piece is shown and its colour's promoter hidden; parents never change |
| BoardPromoter.EndUndoesStart | src/game/board/promoter.rs:169-219 | from a visible piece and a hidden promoter, starting then ending a promotion restores every visibility |
| EndGameIcons.AllIcons | src/game/board/icons.rs:11-27 | the list of icons has five entries and names every icon marker, each at a position of its own |
| EndGameIcons.LoserIcon | src/game/board/icons.rs:113-116 | the black loser icon exactly for Black, the white one exactly for White |
| EndGameIcons.DrawIcon | src/game/board/icons.rs:136-138 | the black draw icon exactly for Black, the white one exactly for White |
| EndGameIcons.IconCorner | src/game/board/icons.rs:155-173 | taking the offsets as percentages of one tile from its top-left corner, wherever the king stands the whole icon lies on the board, to the right of and above the middle of the king's tile |
| EndGameIcons.IconNodes.Spawn | src/game/board/icons.rs:29-93 | every icon starts hidden on the default square's tile with automatic offsets |
| EndGameIcons.IconNodes.SetEndGameIcon | src/game/board/icons.rs:142-165 | the icon is reparented to the tile (a command is issued only when its parent differs), shown, and offset for the square; the other icons are untouched |
| EndGameIcons.IconNodes.ShowCheckmateIcons | src/game/board/icons.rs:98-120 | the side to move's loser icon is placed at its king and the winner icon at the other king; the other icons keep their state |
| EndGameIcons.IconNodes.ShowDrawIcons | src/game/board/icons.rs:124-140 | each colour's draw icon is placed at its own king; the winner and loser icons keep their state |
| EndGameIcons.IconNodes.HideOnLoadGame | src/game/board/icons.rs:180-185 | every icon is hidden; parents and offsets stay |
| GameOverCommand.Apply | src/game/game_over.rs:10-26 | checkmate shows the checkmate icons, the three draws the draw icons, an ongoing game only warns; the menu always moves to the game-over state |
| GameOverCommand.IconsIffGameOver | src/game/game_over.rs:14-22 | icons are shown exactly when the game is over, and then no warning is logged |
| Stockfish.IntoBytes | src/game/stockfish.rs:54-64 | a command has no bytes exactly when it is a sleep; every other command is one line ending in a newline |
| Stockfish.CommandLineRoundTrip | src/game/stockfish.rs:54-64 | every command that is sent can be read back from its line, so distinct commands write distinct lines |
| Stockfish.StateAfter | src/game/stockfish.rs:273-287 | `uci` waits for `uciok`, `isready` for `readyok`, `stop` for the search to finish; every other command leaves the driver idle |
| Stockfish.FirstBlocking | src/game/stockfish.rs:266-290 | the drain loop stops at the first sleep, `uci`, `isready` or `stop`, and nothing before it blocks |
| Stockfish.BlockingAt | src/game/stockfish.rs:266-290 | when the first blocking command is at k, the drain writes everything before it (and it too unless it is a sleep), keeps what follows it, and takes the state it decides |
| Stockfish.DrainConsumesWhatItWrites | src/game/stockfish.rs:266-290 | the queue is what was written followed by what is left (plus the sleep that stopped it); no sleep is written; a non-empty rest means the driver sleeps or waits |
| Stockfish.DrainAfterNonBlocking | src/game/stockfish.rs:266-290 | commands that do not block are written through, and the rest of the drain is as if they were not there |
| Stockfish.FirstBlockingAfter | src/game/stockfish.rs:266-290 | behind a non-blocking prefix the first blocking command is found by its position in the rest |
| Stockfish.StartupWaitsForUciok | src/game/stockfish.rs:145-149 | the first idle frame writes `uci` and waits for `uciok`; the next writes `ucinewgame` and `isready` and waits for `readyok` |
| Stockfish.SearchCycle | src/game/stockfish.rs:293-307 | a queued search writes the position and `go infinite` and then sleeps; after the sleep `stop` is written and the driver waits for `bestmove` |
| Stockfish.FirstAnswer | src/game/stockfish.rs:215-261 | the first line that answers the state (`uciok`, `readyok`, or a line starting with `bestmove`), and no earlier line answers |
| Stockfish.IndexOf | src/game/stockfish.rs:240 | the first position of the character, or the length when it does not occur |
| Stockfish.SecondChunk | src/game/stockfish.rs:240-242 | the second chunk exists exactly when the line has a space, and it holds no space |
| Stockfish.SecondChunkOfLine | src/game/stockfish.rs:240-242 | the token written after the first word is the one read back |
| Stockfish.IndexOfAfter | src/game/stockfish.rs:240 | a character absent from a prefix is first found where the suffix starts with it |
| Stockfish.UsizeNot | src/game/stockfish.rs:243 | the bitwise complement of a `usize` and the value sum to `usize::MAX` |
| Stockfish.GuardNeverRejects | src/game/stockfish.rs:243-245 | the guard as written never rejects a token, since no string is long enough for its complemented length to be 4 |
| Stockfish.AsWrittenReadsToken | src/game/stockfish.rs:240-252 | a `bestmove` line is judged by its move token alone, both as written and as intended |
| Stockfish.ShortTokenReachesSlice | src/game/stockfish.rs:243-250 | the token of "bestmove a1" passes the guard as written and panics on the slice `[2..4]`; the intended guard rejects it |
| Stockfish.PromotionTokenAccepted | src/game/stockfish.rs:243-252 | the promotion token "e7e8q" passes the guard as written and yields e7 to e8 without the promotion; the intended guard rejects it |
| Stockfish.SquareNamed | src/game/stockfish.rs:247-252 | a square's name parses back to that square |
| Stockfish.ParseBestMove | src/game/stockfish.rs:240-252 | the intended parsing never slices out of range |
| Stockfish.ParseToken | src/game/stockfish.rs:243-252 | the intended token parsing never slices out of range |
| Stockfish.ParseSquareExact | src/game/stockfish.rs:247-252 | a two-character string parses as a square exactly when it is that square's name |
| Stockfish.ParseBestMoveFinds | src/game/stockfish.rs:240-252 | the intended parsing finds a move from one square to another exactly when the token after the first word is the two squares' names |
| Stockfish.ParsingsAgreeOnFourCharacters | src/game/stockfish.rs:243-252 | on four-character tokens the guard as written and the intended one give the same result |
| Stockfish.BestMoveEffect | src/game/stockfish.rs:236-257 | with the corrected guard of "## Findings" (`ParseBestMove`), a parsed move whose source holds a piece gives that piece an animated move without promotion; otherwise the handler panics |
| Stockfish.Repeat | src/game/stockfish.rs:298-306 | the queued block appears once per removed `MovePiece` |
| Stockfish.Driver.Initialize | src/game/stockfish.rs:114-150 | an idle driver with the handshake queued and nothing written or received |
| Stockfish.Driver.ExtendCmds | src/game/stockfish.rs:83-85 | the commands join the back of the queue and nothing else changes |
| Stockfish.Driver.WriteCmd | src/game/stockfish.rs:87-90 | the command is appended to those written to stdin and nothing else changes |
| Stockfish.WireAppend | src/game/stockfish.rs:87-90 | writing one more command adds exactly its UCI line to the bytes on stdin |
| Stockfish.Driver.Drain | src/game/stockfish.rs:264-290 | the queue, stdin, state and sleep flag become those `DrainResult` gives for the old queue |
| Stockfish.Driver.Await | src/game/stockfish.rs:215-261 | lines before the first answer are discarded and later ones stay; without an answer the channel is emptied and the state stays; an answer makes the driver idle, and a `bestmove` answer moves the engine's piece or panics, parsed with the corrected guard of "## Findings" |
| Stockfish.Driver.Update | src/game/stockfish.rs:198-291 | an unfinished sleep ends the frame with nothing changed; an idle driver drains its queue; a waiting driver with no answer stays waiting with the channel emptied; a waiting driver that gets its answer drops the lines up to it and, unless the `bestmove` handler panics (then queue and stdin are untouched), records the answer's move and drains its queue in the same frame; the `bestmove` line is parsed with the corrected guard of "## Findings" |
| Stockfish.Driver.MoveAsBlack | src/game/stockfish.rs:293-308 | with Black to move, one search block is queued per removed `MovePiece`; with White to move nothing is queued |
| FenPopupState.CastleRightsFromFlags | src/game/menu/fen_popup/state.rs:22-29 | the castle rights built from two flags have exactly those kingside and queenside flags |
| FenPopupState.CastleRightsBijection | src/game/menu/fen_popup/state.rs:22-29 | flags to rights is a bijection: a right is rebuilt from its own flags, and two flag pairs give the same right only when they are equal |
| FenPopupState.FieldValue | src/game/menu/fen_popup/state.rs:106-114 | a counter is read only when the space-separated field exists and parses as an unsigned integer of the counter's width; the value is then in range |
| FenPopupState.ReadControls | src/game/menu/fen_popup/state.rs:87-115 | the controls read from a parsed board: side toggle set iff Black is to move, each side's flags rebuild that side's castle rights, en passant flag iff the board has a target and then its file, counters replaced only when their FEN field parses; valid controls stay valid |
| FenPopupState.ApplyControls | src/game/menu/fen_popup/state.rs:125-143 | the builder after the controls: side to move as the toggle says, castle rights with exactly the checked flags, en passant file iff the box is checked, placement untouched |
| FenPopupState.PopupState.constructor | src/game/menu/fen_popup/state.rs:42-56 | empty text with focus requested, no error, default controls, and both recorded as seen |
| FenPopupState.PopupState.Reset | src/game/menu/fen_popup/state.rs:59-66 | back to the empty text, focus requested, default controls and no error, with both recorded as seen |
| FenPopupState.PopupState.UpdateControlsFromFen | src/game/menu/fen_popup/state.rs:83-116 | the error flag is set iff the crate rejects the text; a rejected text leaves the controls as they were, an accepted one sets them from the board; nothing else changes |
| FenPopupState.PopupState.UpdateFenFromControls | src/game/menu/fen_popup/state.rs:118-153 | an empty text starts from the default FEN; the error flag is set iff the builder rejects it; otherwise the text becomes the builder's FEN with the controls applied and the two counters in place of its last two fields; the controls do not change |
| FenPopupState.PopupState.Sync | src/game/menu/fen_popup/state.rs:68-81 | afterwards text and controls are both recorded as seen; a text edit rewrites the controls and wins over a control edit; a control edit alone regenerates the text; with no edit nothing changes; the result is `SyncOf` of the old text, controls and seen values |
| FenPopupState.ControlsSurviveRegeneration | src/game/menu/fen_popup/state.rs:83-153 | regenerating the text from valid controls and reading it back yields the same controls, given that the crate prints and parses the builder's FEN faithfully |
| FenPopupView.LabelIndex | src/game/menu/fen_popup/view.rs:64-66 | or-ing the file index with the rank bit picks entry file (Black to move) or file + 8 (White to move) of the sixteen labels |
| FenPopupView.FileOrRank | src/game/menu/fen_popup/view.rs:65-66 | or-ing a file index below 8 with 0 or 8 is the same as adding them |
| FenPopupView.EnPassantLabel | src/game/menu/fen_popup/view.rs:60-68 | the label is the crate's name of the square on rank 4 (Black to move) or rank 5 (White to move) in the chosen file |
| FenPopupView.LabelsNameSquares | src/game/menu/fen_popup/view.rs:60-68 | each entry of the label table names the square of its file on the rank the side to move implies |
| FenPopupView.LabelSpelling | src/game/menu/fen_popup/view.rs:60-62 | entry i of the table is file letter i mod 8 followed by 4 for the first eight and 5 for the last eight |
| FenPopupView.EnPassantLabelInjective | src/game/menu/fen_popup/view.rs:60-68 | different sides or files never share a label |
| FenPopupView.Clamp | src/game/menu/fen_popup/view.rs:166-172 | a counter widget keeps its value inside the range, unchanged when already inside and at the nearer end otherwise |
| FenPopupView.Toggle | src/game/menu/fen_popup/view.rs:201-207 | the side toggle changes its value iff it was clicked |
| FenPopupView.ApplyWidgets | src/game/menu/fen_popup/view.rs:102-176 | after the widgets the controls are valid, the side is toggled iff clicked, the halfmove clock is clamped to 0..=99 and the fullmove count to 0..=65535 |
| FenPopupView.FrameInteraction | src/game/menu/fen_popup/view.rs:13-99 | Escape cancels; otherwise the result is Cancel iff Cancel was clicked and Submit iff Cancel was not clicked and Load was clicked or Enter was pressed on leaving the FEN field |
| FenPopupView.FenWindow | src/game/menu/fen_popup/view.rs:13-58 | returns the frame's interaction; the focus request is consumed unless Escape was pressed; a submitted text is never empty; without a submit, text and controls end the frame in sync; a typed text that changed is kept. Text, controls and error flag are those `SyncOf` gives for the typed text and the widget-updated controls (or, on Escape, for the old state), except that an empty submitted text becomes `DEFAULT_BOARD_FEN` |
| PieceAssets.PiecePath | src/assets/pieces.rs:1-7 | a piece path is `pieces/`, the colour, a dash, the piece and `.png`, each part at its place |
| PieceAssets.PiecePathInjective | src/assets/pieces.rs:1-7 | paths of colour names of one length coincide only for the same colour and piece |
| PieceAssets.BuildInto | src/assets/pieces.rs:22-39 | each recursive step keeps the accumulated paths and appends the path of every remaining piece in order |
| PieceAssets.BuildFilenames | src/assets/pieces.rs:9-40 | the macro yields one path per listed piece, in the listed order |
| PieceAssets.CoordsFormula | src/assets/pieces.rs:95-138 | coordinate i of a table is file i mod 8 on rank 8 then 7 (Black) or rank 2 then 1 (White) |
| PieceAssets.CoordsOnHomeRanks | src/assets/pieces.rs:62-69 | every coordinate is a square; Black's lie on ranks 7 and 8, White's on ranks 1 and 2 |
| PieceAssets.CoordsDistinct | src/assets/pieces.rs:95-138 | the 32 coordinates are pairwise distinct |
| PieceAssets.TablesPair | src/assets/pieces.rs:45-138 | both colours have sixteen paths and sixteen coordinates, so the tables pair up by index |
| PieceAssets.NamesFollowCoords | src/assets/pieces.rs:45-138 | the piece names listed for each colour, read along its coordinates, are the pieces of the standard starting position |
| PieceAssets.PathShowsStartingPiece | src/assets/pieces.rs:45-138 | the image at each index shows the piece that starts on the square at the same index of the coordinate table, in the colour that starts there |
| PieceAssets.KindNameInjective | src/assets/pieces.rs:45-60 | different piece kinds have different asset names |
| PieceAssets.StartingRoyals | src/assets/pieces.rs:71-94 | on the home ranks the queen starts exactly on d1 and d8 and the king exactly on e1 and e8 |
| PieceAssets.QueensOnDKingsOnE | src/assets/pieces.rs:45-138 | a table entry shows a queen iff its coordinate is d1 or d8, and a king iff it is e1 or e8 |
| InspectorPanes.Position | src/debug_inspector/debug_inspector_impl/panes.rs:107-108 | the index found is the first one holding either end of the range; none is found only when no element is an end |
| InspectorPanes.RangeSelect | src/debug_inspector/debug_inspector_impl/panes.rs:106-118 | the selection is non-empty iff the siblings hold two ends; it is then the contiguous slice from the first end to the next end, both included, with no end strictly inside |
| InspectorPanes.RangeBetweenSiblings | src/debug_inspector/debug_inspector_impl/panes.rs:106-118 | among distinct siblings, a range between two different siblings starts at one and ends at the other, whichever comes first |
| InspectorPanes.RangeToItselfIsEmpty | src/debug_inspector/debug_inspector_impl/panes.rs:106-118 | among distinct siblings a range from an entity to itself selects nothing |
| InspectorPanes.ShowEntityComponents | src/debug_inspector/debug_inspector_impl/panes.rs:136-152 | no selection shows the placeholder, one entity shows that entity, two or more show the components shared by exactly the selection |
| InspectorPanes.Insert | src/debug_inspector/debug_inspector_impl/panes.rs:63 | inserting into an ascending list keeps it ascending and adds exactly the one element |
| InspectorPanes.SortEntities | src/debug_inspector/debug_inspector_impl/panes.rs:61-63 | the root entities end up ascending and a permutation of those queried |
| InspectorPanes.CustomCommand | src/debug_inspector/debug_inspector_impl/panes.rs:197-203 | the custom command ends in a newline and has no white space at either end of the text before it |
| InspectorPanes.CustomCommandTrims | src/debug_inspector/debug_inspector_impl/panes.rs:197-203 | trimming the command gives back the trimmed typed text |
| InspectorPanes.Panes.ShowStockfish | src/debug_inspector/debug_inspector_impl/panes.rs:179-233 | Enter on leaving the field clears it and queues exactly the custom command of the typed text; otherwise the field keeps the text and the queue is unchanged; the selection is untouched |

## Left out

- Bevy's scheduling, entity spawning, parenting and rendering are not modelled. Each system runs as one call on the state it reads and writes. Bevy's own semantics are assumed: commands run in the order queued, and state transitions follow the stack of pending states of the Bevy release the source was written for.
- The `chess` crate is not modelled: move generation, `Board::from_str`, `BoardBuilder`, `make_move_new`, `get_hash`, `status`, `king_square` and the FEN printer. They enter as parameters or record fields, with only the facts the source relies on as preconditions.
- `calculate_valid_moves` (`src/game/board/state.rs:286-309`), `move_is_valid`, `side_to_move`, `king_square`, `my_castle_rights` and the logging helpers are crate queries or logging; they are parameters or are not modelled.
- `PieceType::value` and `num_pieces` come from a module that is not part of this model. They are taken to be the usual 1, 3, 3, 5, 9 and 8, 2, 2, 2, 1 for pawn, knight, bishop, rook and queen.
- `DEFAULT_FEN` and `DEFAULT_BOARD_FEN` are declared in files that are not part of this model, or the revision modelled here does not declare them. Both are taken to be the standard starting position.
- `move_is_en_passant`, called from `src/game/board/moves.rs`, is not in the revision of `src/game/board/state.rs` modelled here. It is modelled as the test `update_piece` applies (`IsEnPassant`): any piece, of whatever kind, moving to the square in front of the crate's en passant square, which is the square of the pawn that can be taken.
- `src/game/game_over.rs` issues `ShowStalemateIcons`, but `src/game/board/icons.rs` defines `ShowDrawIcons`. The two are taken to be the same command.
- The inspector's Stockfish pane uses `SfCommand::Custom` and `push_cmd`. Neither exists in the revision of `src/game/stockfish.rs` modelled here, where `push_cmd` is commented out. Custom commands therefore go to a separate queue of strings in `InspectorPanes.Panes`.
- GameBoardState.BoardState.MakeBoardMove: requires the new position's `u8` repetition counter to be below 255; the overflow of its `+= 1` is not modelled.
- BoardMoves.ApplyUpdateBoardState: requires the same bound on the position counter, for the same reason.
- Integer widths: the `u8` capture counters, the `u8` position-repetition counters (`piece_state_counters`, whose `+= 1` in `GameBoardState.BoardState.MakeBoardMove` and `BoardMoves.ApplyUpdateBoardState` is guarded by a precondition that the count is below 255), the `u8` half-move clock, the `u16` full-move number and the `u32` of `round_to_nearest` are bounded by preconditions where the source would overflow. Wrap-around is not modelled, except in the finding on `load_capture_state`.
- Utils.RoundToNearest: requires a positive step and that the input plus half the step fit in a `u32`; the division-by-zero panic on a zero step and the overflowing case are not modelled.
- Position hashes are modelled as an oracle from board to key; hash collisions are not modelled. The FEN popup's `DefaultHasher` change detection is modelled as comparison with the last seen values, so a collision there is not modelled either.
- The Stockfish process, its spawning, `ensure_stockfish_executable`, the stdout reader thread and the channel are not modelled. Responses arrive as a list of lines and stdin is a log of the commands written. The sleep timer is a flag that the caller clears when it fires. The panic of the response iterator on a closed channel is not modelled.
- Strings are sequences of characters; slicing by byte offsets is modelled for ASCII text only.
- EndGameIcons.IconCorner: assumes that a tile is one eighth of the board each way and that `Val::Percent` offsets count from the tile's top-left corner; Bevy's UI layout is not modelled.
- Floating-point layout is not modelled: `promotion_ui_sizes`, `end_game_icon_size`, `PIECE_ASSET_SIZE` and the icon offsets beyond the two percentages each takes. The printers of `to_pretty_string` and the crate's FEN have length preconditions instead of a full rendering.
- egui is not modelled. Widget results arrive as a frame record, and the `DragValue` clamping is taken to apply in every frame where the widget is drawn. Text-cursor placement, fonts, hover state and the selection modes other than range select are not modelled. The sort of the resources by name is not modelled either.
- DataLocation.Location.WithZ: updates the receiver in place and returns nothing, where Rust consumes the value and returns it.
- The doc diagram at `src/assets/pieces.rs:89` shows White's king and queen swapped; the model follows the tables, which are right. The comment at `src/assets/pieces.rs:1` says the paths start with `assets/`; the code does not add that prefix, and the model follows the code.
- `spawn_promoters` and the other spawning systems are ECS plumbing and are not modelled.
- Stockfish.BestMoveEffect: parses the `bestmove` line with the corrected guard `ParseBestMove`, not the code as written (`ParseBestMoveAsWritten`). On a promotion such as `bestmove e7e8q`, the source inserts a move from e7 to e8 without the promotion; the model panics with `UnexpectedMove` instead (see "## Findings").
- Stockfish.Driver.Await: handles `bestmove` through `BestMoveEffect`, so it follows the corrected guard, with the same difference on promotion moves.
- Stockfish.Driver.Update: handles `bestmove` through `Await`, so it follows the corrected guard, with the same difference on promotion moves.
- BoardCaptures.LoadCaptureState: uses the corrected `CapturedCount`. Where a side has more pieces of a kind than it started with, the source's `u8` subtraction overflows (a panic in a debug build, a wrapped count in a release build); the model sets the count to zero instead (see "## Findings").
- BoardCaptures.LoadColor: loads through `CapturedCount`, with the same difference after a promotion.
- BoardCaptures.LoadOne: loads through `CapturedCount`, with the same difference after a promotion.
- Lookups that `expect` or `unwrap` a present key, and setters that panic on an occupied square, are modelled as preconditions.

## Findings

| source | as written | input that shows it | evidently intended | confidence | as-written member | corrected member |
|---|---|---|---|---|---|---|
| src/game/stockfish.rs:243 | `!bestmove.len() == 4` compares the bitwise complement of the length with 4, which no length satisfies, so the guard never rejects | the line `bestmove a1` gets past the guard and panics slicing `[2..4]` of `a1`; `bestmove e7e8q` is accepted and its promotion dropped | `bestmove.len() != 4`: a token of any other length is rejected before it is sliced | not executed | Stockfish.ShortTokenReachesSlice | Stockfish.ParseBestMove |
| src/game/board/captures.rs:245 | `typ.num_pieces() - popcnt as u8` subtracts in `u8`, which overflows (a panic in a debug build) when the opponent has more pieces of a kind than it started with | a position where White has promoted to a second queen: Black's queen tally computes 1 - 2 | no pieces of that kind count as captured | not executed | BoardCaptures.LoadUnderflowsAfterPromotion | BoardCaptures.CapturedCount |
