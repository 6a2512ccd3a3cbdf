/**
 * The Stockfish driver (`src/game/stockfish.rs`): UCI commands wait in a FIFO queue, are written
 * to the engine's stdin while the driver is idle, and the driver blocks on `uciok`, `readyok` or
 * `bestmove` after the commands that ask for them. The engine process, its stdout reader thread
 * and the channel are outside the model: the lines that reached the channel are a field, and so
 * are the commands written to stdin, whose bytes are their UCI lines one after the other.
 */
module Stockfish {
  import opened Chess
  import BoardMoves

  /** `SfCommand`. `Sleep` carries milliseconds (a `u32`). */
  datatype SfCommand = Uci | IsReady | UciNewGame | Position(fen: string) | Go | Sleep(ms: nat) | Stop

  const POSITION_PREFIX: string := "position fen "

  /** `SfCommand::into_bytes`: the UCI line for a command; `Sleep` is never sent and has no bytes. */
  function IntoBytes(c: SfCommand): (r: string)
    ensures r == [] <==> c.Sleep?
    ensures r != [] ==> r[|r| - 1] == '\n'
  {
    match c
    case Uci => "uci\n"
    case IsReady => "isready\n"
    case UciNewGame => "ucinewgame\n"
    case Position(fen) => POSITION_PREFIX + fen + "\n"
    case Go => "go infinite\n"
    case Sleep(_) => ""
    case Stop => "stop\n"
  }

  /** Reads a UCI line back as the command that produced it. */
  function ParseCommandLine(line: string): Option<SfCommand>
  {
    if line == "uci\n" then Some(Uci)
    else if line == "isready\n" then Some(IsReady)
    else if line == "ucinewgame\n" then Some(UciNewGame)
    else if line == "go infinite\n" then Some(Go)
    else if line == "stop\n" then Some(Stop)
    else if |line| > |POSITION_PREFIX| && line[..|POSITION_PREFIX|] == POSITION_PREFIX && line[|line| - 1] == '\n'
    then Some(Position(line[|POSITION_PREFIX|..|line| - 1]))
    else None
  }

  /** Every command that is sent can be read back from its line, so distinct commands send distinct lines. */
  lemma CommandLineRoundTrip(c: SfCommand)
    requires !c.Sleep?
    ensures ParseCommandLine(IntoBytes(c)) == Some(c)
  {
    if c.Position? {
      var line := IntoBytes(c);
      assert line[..|POSITION_PREFIX|] == POSITION_PREFIX;
      assert line[|POSITION_PREFIX|..|line| - 1] == c.fen;
      assert line[0] == 'p';
    }
  }

  /** Everything a sequence of commands writes to stdin, in order. */
  function Wire(cmds: seq<SfCommand>): string
  {
    if |cmds| == 0 then "" else Wire(cmds[..|cmds| - 1]) + IntoBytes(cmds[|cmds| - 1])
  }

  /** Writing one more command adds exactly its line to the bytes on stdin. */
  lemma WireAppend(cmds: seq<SfCommand>, c: SfCommand)
    ensures Wire(cmds + [c]) == Wire(cmds) + IntoBytes(c)
  {
    assert (cmds + [c])[..|cmds|] == cmds;
  }

  /** `SfState`. */
  datatype SfState = Idle | WaitingUci | WaitingReady | WaitingFinishSearch

  /** A command after which the driver stops writing for the frame: it sleeps or waits for an answer. */
  predicate Blocking(c: SfCommand)
  {
    c.Sleep? || c.Uci? || c.IsReady? || c.Stop?
  }

  /** The state a command leaves the driver in once written. */
  function StateAfter(c: SfCommand): (s: SfState)
    ensures s == WaitingUci <==> c.Uci?
    ensures s == WaitingReady <==> c.IsReady?
    ensures s == WaitingFinishSearch <==> c.Stop?
  {
    match c
    case Uci => WaitingUci
    case IsReady => WaitingReady
    case Stop => WaitingFinishSearch
    case _ => Idle
  }

  /** The position of the first blocking command in the queue, or its length when there is none. */
  function FirstBlocking(q: seq<SfCommand>): (k: nat)
    ensures k <= |q|
    ensures forall i :: 0 <= i < k ==> !Blocking(q[i])
    ensures k < |q| ==> Blocking(q[k])
  {
    if |q| == 0 then 0
    else if Blocking(q[0]) then 0
    else 1 + FirstBlocking(q[1..])
  }

  /** What one idle frame does with the queue: the commands written, what is left, and the new state. */
  datatype Drained = Drained(written: seq<SfCommand>, rest: seq<SfCommand>, state: SfState, sleeping: bool)

  /**
   * The `while let Some(command) = pop_front()` loop: every command up to the first blocking one
   * is written; the blocking one is consumed, written unless it is a `Sleep`, and decides the new
   * state. A queue without a blocking command is written out entirely and the driver stays idle.
   */
  function DrainResult(q: seq<SfCommand>): (d: Drained)
  {
    var k := FirstBlocking(q);
    if k == |q| then Drained(q, [], Idle, false)
    else if q[k].Sleep? then Drained(q[..k], q[k + 1..], Idle, true)
    else Drained(q[..k + 1], q[k + 1..], StateAfter(q[k]), false)
  }

  /** The first blocking command found at `k` decides the drain. */
  lemma BlockingAt(q: seq<SfCommand>, k: nat)
    requires k < |q| && Blocking(q[k])
    requires forall i :: 0 <= i < k ==> !Blocking(q[i])
    ensures FirstBlocking(q) == k
    ensures DrainResult(q).rest == q[k + 1..] && DrainResult(q).sleeping == q[k].Sleep?
    ensures DrainResult(q).written == (if q[k].Sleep? then q[..k] else q[..k + 1])
    ensures DrainResult(q).state == StateAfter(q[k])
  {
    var f := FirstBlocking(q);
    assert !(f < k) && !(k < f);
  }

  /**
   * Draining consumes exactly what it writes, plus a sleep; it never writes a `Sleep`, and it stops
   * only when the queue is empty or the driver has something to wait for.
   */
  lemma DrainConsumesWhatItWrites(q: seq<SfCommand>)
    ensures var d := DrainResult(q);
      (q == d.written + d.rest || (d.sleeping && q == d.written + [q[|d.written|]] + d.rest))
      && (forall i :: 0 <= i < |d.written| ==> !d.written[i].Sleep?)
      && (d.rest != [] ==> d.sleeping || d.state != Idle)
  {
    var k := FirstBlocking(q);
    if k < |q| {
      assert q == q[..k] + [q[k]] + q[k + 1..];
      assert q == q[..k + 1] + q[k + 1..];
    }
  }

  /** Commands queued behind a non-blocking prefix are drained as if the prefix had already been written. */
  lemma {:induction false} DrainAfterNonBlocking(p: seq<SfCommand>, q: seq<SfCommand>)
    requires forall i :: 0 <= i < |p| ==> !Blocking(p[i])
    ensures DrainResult(p + q) == DrainResult(q).(written := p + DrainResult(q).written)
  {
    FirstBlockingAfter(p, q);
    var k := FirstBlocking(q);
    var s := p + q;
    assert s[|p| + k..] == q[k..];
    if k == |q| {
      assert s == p + q;
    } else {
      assert s[..|p| + k] == p + q[..k];
      assert s[..|p| + k + 1] == p + q[..k + 1];
      assert s[|p| + k + 1..] == q[k + 1..];
    }
  }

  lemma {:induction false} FirstBlockingAfter(p: seq<SfCommand>, q: seq<SfCommand>)
    requires forall i :: 0 <= i < |p| ==> !Blocking(p[i])
    ensures FirstBlocking(p + q) == |p| + FirstBlocking(q)
  {
    if |p| > 0 {
      assert (p + q)[1..] == p[1..] + q;
      FirstBlockingAfter(p[1..], q);
    } else {
      assert p + q == q;
    }
  }

  /** The handshake queued at start-up: the first idle frame writes `uci` and waits for `uciok`. */
  const STARTUP_COMMANDS: seq<SfCommand> := [Uci, UciNewGame, IsReady]

  lemma StartupWaitsForUciok()
    ensures DrainResult(STARTUP_COMMANDS) == Drained([Uci], [UciNewGame, IsReady], WaitingUci, false)
    ensures DrainResult([UciNewGame, IsReady]) == Drained([UciNewGame, IsReady], [], WaitingReady, false)
  {
    assert FirstBlocking(STARTUP_COMMANDS) == 0;
    assert FirstBlocking([UciNewGame, IsReady]) == 1;
  }

  /** The commands `stockfish_move_as_black` queues for a position: search it for 2.5 s, then stop. */
  function SearchCommands(fen: string): seq<SfCommand>
  {
    [Position(fen), Go, Sleep(2500), Stop]
  }

  /**
   * A search request drained from idle writes the position and `go infinite`, then sleeps; the
   * frame after the sleep writes `stop` and waits for the `bestmove` line.
   */
  lemma SearchCycle(fen: string, later: seq<SfCommand>)
    ensures DrainResult(SearchCommands(fen) + later) == Drained([Position(fen), Go], [Stop] + later, Idle, true)
    ensures DrainResult([Stop] + later) == Drained([Stop], later, WaitingFinishSearch, false)
  {
    var q := SearchCommands(fen) + later;
    assert q[2..] == [Sleep(2500), Stop] + later;
    assert FirstBlocking(q[2..]) == 0;
    assert FirstBlocking(q[1..]) == 1;
    assert FirstBlocking(q) == 2;
    assert q[3..] == [Stop] + later;
    assert ([Stop] + later)[1..] == later;
  }

  /** The answer each waiting state is waiting for. */
  predicate Answers(s: SfState, line: string)
  {
    match s
    case Idle => false
    case WaitingUci => line == "uciok"
    case WaitingReady => line == "readyok"
    case WaitingFinishSearch => |line| >= 8 && line[..8] == "bestmove"
  }

  /** The position of the first line that answers the state, or the number of lines when none does. */
  function FirstAnswer(lines: seq<string>, s: SfState): (k: nat)
    ensures k <= |lines|
    ensures forall i :: 0 <= i < k ==> !Answers(s, lines[i])
    ensures k < |lines| ==> Answers(s, lines[k])
  {
    if |lines| == 0 then 0
    else if Answers(s, lines[0]) then 0
    else 1 + FirstAnswer(lines[1..], s)
  }

  /** Where a string first holds `c`, or its length. */
  function IndexOf(s: string, c: char): (i: nat)
    ensures i <= |s| && c !in s[..i]
    ensures i < |s| ==> s[i] == c
  {
    if |s| == 0 then 0
    else if s[0] == c then 0
    else
      var i := 1 + IndexOf(s[1..], c);
      assert s[..i] == [s[0]] + s[1..][..i - 1];
      i
  }

  /** The second piece of `line.splitn(3, ' ')`: the text between the first and the second space. */
  function SecondChunk(line: string): (r: Option<string>)
    ensures r.None? <==> ' ' !in line
    ensures r.Some? ==> ' ' !in r.value
  {
    var i := IndexOf(line, ' ');
    if i == |line| then None
    else
      var rest := line[i + 1..];
      Some(rest[..IndexOf(rest, ' ')])
  }

  /** The move token is read back from a line that carries it after the first word. */
  lemma SecondChunkOfLine(word: string, token: string, tail: string)
    requires ' ' !in word && ' ' !in token
    requires tail == [] || tail[0] == ' '
    ensures SecondChunk(word + [' '] + token + tail) == Some(token)
  {
    var line := word + [' '] + token + tail;
    IndexOfAfter(word, ' ', [' '] + token + tail);
    assert line[|word| + 1..] == token + tail;
    IndexOfAfter(token, ' ', tail);
    assert (token + tail)[..|token|] == token;
  }

  lemma {:induction false} IndexOfAfter(a: string, c: char, b: string)
    requires c !in a && (b == [] || b[0] == c)
    ensures IndexOf(a + b, c) == |a|
  {
    if |a| > 0 {
      assert (a + b)[1..] == a[1..] + b;
      IndexOfAfter(a[1..], c, b);
    } else {
      assert a + b == b;
    }
  }

  /** Why the `bestmove` handling panics. */
  datatype PanicReason =
    | NoMoveToken         // `expect("invalid bestmove response from stockfish")`
    | UnexpectedMove      // the length guard
    | SliceOutOfRange     // `bestmove[0..2]` or `bestmove[2..4]` past the end of the token
    | InvalidSource
    | InvalidDestination
    | MissingPiece        // `board_state.piece(from_sq)` on an empty square

  /** The move read from a `bestmove` line, or the reason it panics. */
  datatype BestMove = Found(from: Square, to: Square) | Panicked(reason: PanicReason)

  /** The largest `usize` on a 64-bit target, and the longest a Rust string can be (`isize::MAX`). */
  const USIZE_MAX: nat := 0xFFFF_FFFF_FFFF_FFFF
  const ISIZE_MAX: nat := 0x7FFF_FFFF_FFFF_FFFF

  /** `!n` on a `usize`: every bit flipped. */
  function UsizeNot(n: nat): (r: nat)
    requires n <= USIZE_MAX
    ensures r <= USIZE_MAX && r + n == USIZE_MAX
  {
    USIZE_MAX - n
  }

  /**
   * The parsing as written: the guard `!bestmove.len() == 4` compares the bitwise complement of the
   * length with 4. Then the token is sliced and parsed in source order: `[0..2]`, its square,
   * `[2..4]`, its square.
   */
  function ParseBestMoveAsWritten(line: string): (r: BestMove)
    requires |line| <= ISIZE_MAX
  {
    match SecondChunk(line)
    case None => Panicked(NoMoveToken)
    case Some(token) => ParseTokenAsWritten(token)
  }

  function ParseTokenAsWritten(token: string): (r: BestMove)
    requires |token| <= ISIZE_MAX
  {
    if UsizeNot(|token|) == 4 then Panicked(UnexpectedMove)
    else if |token| < 2 then Panicked(SliceOutOfRange)
    else match ParseSquare(token[..2])
      case None => Panicked(InvalidSource)
      case Some(from) =>
        if |token| < 4 then Panicked(SliceOutOfRange)
        else match ParseSquare(token[2..4])
          case None => Panicked(InvalidDestination)
          case Some(to) => Found(from, to)
  }

  /** The guard as written rejects no string a Rust program can hold. */
  lemma GuardNeverRejects(line: string)
    requires |line| <= ISIZE_MAX
    ensures ParseBestMoveAsWritten(line) != Panicked(UnexpectedMove)
  {
  }

  /** A `bestmove` line is judged by its move token alone. */
  lemma AsWrittenReadsToken(token: string, tail: string)
    requires ' ' !in token && (tail == [] || tail[0] == ' ')
    requires |"bestmove" + [' '] + token + tail| <= ISIZE_MAX
    ensures ParseBestMoveAsWritten("bestmove" + [' '] + token + tail) == ParseTokenAsWritten(token)
    ensures ParseBestMove("bestmove" + [' '] + token + tail) == ParseToken(token)
  {
    SecondChunkOfLine("bestmove", token, tail);
  }

  /** The token of "bestmove a1" gets past the guard and panics on the slice `[2..4]` instead. */
  lemma ShortTokenReachesSlice()
    ensures ParseTokenAsWritten("a1") == Panicked(SliceOutOfRange)
    ensures ParseToken("a1") == Panicked(UnexpectedMove)
  {
    SquareNamed(0, "a1");
  }

  /** The promotion token of "bestmove e7e8q" gets past the guard, and its promotion is dropped. */
  lemma PromotionTokenAccepted()
    ensures ParseTokenAsWritten("e7e8q") == Found(52, 60)
    ensures ParseToken("e7e8q") == Panicked(UnexpectedMove)
  {
    var token := "e7e8q";
    assert token[..2] == "e7" && token[2..4] == "e8";
    SquareNamed(52, "e7");
    SquareNamed(60, "e8");
  }

  lemma SquareNamed(sq: Square, name: string)
    requires SquareName(sq) == name
    ensures ParseSquare(name) == Some(sq)
  {
    ParseSquareName(sq);
  }

  /** The parsing as intended: a token whose length is not 4 is rejected before it is sliced. */
  function ParseBestMove(line: string): (r: BestMove)
    ensures r != Panicked(SliceOutOfRange)
  {
    match SecondChunk(line)
    case None => Panicked(NoMoveToken)
    case Some(token) => ParseToken(token)
  }

  function ParseToken(token: string): (r: BestMove)
    ensures r != Panicked(SliceOutOfRange)
  {
    if |token| != 4 then Panicked(UnexpectedMove)
    else match ParseSquare(token[..2])
      case None => Panicked(InvalidSource)
      case Some(from) =>
        match ParseSquare(token[2..4])
        case None => Panicked(InvalidDestination)
        case Some(to) => Found(from, to)
  }

  /** A two-character string parses as a square exactly when it is that square's name. */
  lemma ParseSquareExact(s: string, sq: Square)
    requires |s| == 2
    ensures ParseSquare(s) == Some(sq) <==> s == SquareName(sq)
  {
    assert s[..2] == s;
    if s == SquareName(sq) {
      ParseSquareName(sq);
    }
  }

  /** The intended parsing finds a move exactly when the token after the first word names two squares. */
  lemma ParseBestMoveFinds(line: string, from: Square, to: Square)
    ensures ParseBestMove(line) == Found(from, to) <==> SecondChunk(line) == Some(SquareName(from) + SquareName(to))
  {
    var names := SquareName(from) + SquareName(to);
    assert names[..2] == SquareName(from) && names[2..4] == SquareName(to);
    ParseSquareName(from);
    ParseSquareName(to);
    match SecondChunk(line)
    case None =>
    case Some(token) =>
      if |token| == 4 {
        ParseSquareExact(token[..2], from);
        ParseSquareExact(token[2..4], to);
        if token[..2] == SquareName(from) && token[2..4] == SquareName(to) {
          assert token == token[..2] + token[2..4];
        }
      }
  }

  /** On four-character tokens the two parsings agree; they differ only in how other tokens fail. */
  lemma ParsingsAgreeOnFourCharacters(line: string)
    requires |line| <= ISIZE_MAX
    requires SecondChunk(line).Some? && |SecondChunk(line).value| == 4
    ensures ParseBestMoveAsWritten(line) == ParseBestMove(line)
  {
  }

  /** The piece move an answer line inserts: one for a `bestmove` that names a piece, none otherwise. */
  function AnswerMoves(s: SfState, line: string, pieces: map<Square, Entity>): (m: seq<(Entity, BoardMoves.MovePiece)>)
    ensures |m| <= 1
    ensures |m| == 1 <==> s == WaitingFinishSearch && BestMoveEffect(line, pieces).Moved?
  {
    if s != WaitingFinishSearch then []
    else match BestMoveEffect(line, pieces)
      case Moved(entity, ev) => [(entity, ev)]
      case Failed(_) => []
  }

  /**
   * The outcome of handling an answered `bestmove` line: a move for the engine's piece, or a panic.
   * It parses with the corrected `ParseBestMove`, so a promotion move panics; the guard as written
   * would let it through (see `ParseBestMoveAsWritten`).
   */
  function BestMoveEffect(line: string, pieces: map<Square, Entity>): (r: Result)
    ensures r.Moved? ==> (ParseBestMove(line) == Found(r.ev.from, r.ev.to) && r.ev.from in pieces
      && r.entity == pieces[r.ev.from] && r.ev.promotion.None? && r.ev.animate)
    ensures r.Failed? <==> ParseBestMove(line).Panicked? || ParseBestMove(line).from !in pieces
  {
    match ParseBestMove(line)
    case Panicked(reason) => Failed(reason)
    case Found(from, to) =>
      if from in pieces then Moved(pieces[from], BoardMoves.MovePiece(from, to, None, true))
      else Failed(MissingPiece)
  }

  datatype Result = Moved(entity: Entity, ev: BoardMoves.MovePiece) | Failed(reason: PanicReason)

  /** How the waiting half of `stockfish_update` ends the frame. */
  datatype Awaited = StillWaiting | Answered | Panic(reason: PanicReason)

  /** `count` copies of a block of commands, one after the other. */
  function Repeat(block: seq<SfCommand>, count: nat): (r: seq<SfCommand>)
    ensures |r| == count * |block|
  {
    if count == 0 then [] else Repeat(block, count - 1) + block
  }

  /** The `Stockfish` resource together with the `SfState` and sleep timer locals of `stockfish_update`. */
  class Driver {
    /** `command_queue`, front first. */
    var queue: seq<SfCommand>
    var state: SfState
    /** Whether the sleep timer is running. */
    var sleeping: bool
    /** The commands written to the engine's stdin, oldest first; the bytes written are `Wire(sent)`. */
    var sent: seq<SfCommand>

    /** The trimmed lines waiting in the response channel, oldest first. */
    var responses: seq<string>
    /** The `MovePiece` components inserted on pieces, oldest first. */
    var inserted: seq<(Entity, BoardMoves.MovePiece)>

    /** `initialize_stockfish`: an idle driver with the handshake queued. */
    constructor Initialize()
      ensures queue == STARTUP_COMMANDS && state == Idle && !sleeping
      ensures sent == [] && responses == [] && inserted == []
    {
      queue := STARTUP_COMMANDS;
      state := Idle;
      sleeping := false;
      sent := [];
      responses := [];
      inserted := [];
    }

    /** `extend_cmds`: commands go to the back of the queue. */
    method ExtendCmds(cmds: seq<SfCommand>)
      modifies this
      ensures queue == old(queue) + cmds
      ensures state == old(state) && sleeping == old(sleeping) && sent == old(sent)
      ensures responses == old(responses) && inserted == old(inserted)
    {
      queue := queue + cmds;
    }

    /** `write_cmd`: the command's line goes to stdin (`WireAppend` gives the bytes). */
    method WriteCmd(c: SfCommand)
      modifies this
      ensures sent == old(sent) + [c]
      ensures queue == old(queue) && state == old(state) && sleeping == old(sleeping)
      ensures responses == old(responses) && inserted == old(inserted)
    {
      sent := sent + [c];
    }

    /** The idle half of `stockfish_update`: pops and writes commands until one blocks. */
    method Drain()
      requires state == Idle && !sleeping
      modifies this
      ensures var d := DrainResult(old(queue));
        queue == d.rest && sent == old(sent) + d.written && state == d.state && sleeping == d.sleeping
      ensures responses == old(responses) && inserted == old(inserted)
    {
      ghost var q0 := queue;
      ghost var k: nat := 0;
      while |queue| > 0
        invariant k <= |q0| && queue == q0[k..]
        invariant forall i :: 0 <= i < k ==> !Blocking(q0[i])
        invariant sent == old(sent) + q0[..k]
        invariant state == Idle && !sleeping
        invariant responses == old(responses) && inserted == old(inserted)
        decreases |queue|
      {
        var command := queue[0];
        queue := queue[1..];
        assert q0[..k + 1] == q0[..k] + [command];
        if Blocking(command) {
          BlockingAt(q0, k);
          ghost var d := DrainResult(q0);
          assert queue == d.rest;
          if command.Sleep? {
            sleeping := true;
            assert sent == old(sent) + d.written;
          } else {
            state := StateAfter(command);
            WriteCmd(command);
            assert sent == old(sent) + d.written;
          }
          return;
        }
        WriteCmd(command);
        k := k + 1;
      }
      assert q0[..k] == q0;
    }

    /**
     * The waiting half of `stockfish_update`: reads lines until one answers the state. Lines before
     * it are discarded and lines after it stay in the channel; an answer makes the driver idle,
     * and a `bestmove` answer also moves the piece on the move's source square (through the
     * corrected `ParseBestMove`, via `BestMoveEffect`).
     */
    method Await(pieces: map<Square, Entity>) returns (r: Awaited)
      requires state != Idle
      modifies this
      ensures queue == old(queue) && sent == old(sent) && sleeping == old(sleeping)
      ensures var k := FirstAnswer(old(responses), old(state));
        if k == |old(responses)| then
          r == StillWaiting && responses == [] && state == old(state) && inserted == old(inserted)
        else
          responses == old(responses)[k + 1..] && state == Idle
          && (old(state) != WaitingFinishSearch ==> r == Answered && inserted == old(inserted))
          && (old(state) == WaitingFinishSearch ==>
                match BestMoveEffect(old(responses)[k], pieces)
                case Moved(entity, ev) => r == Answered && inserted == old(inserted) + [(entity, ev)]
                case Failed(reason) => r == Panic(reason) && inserted == old(inserted))
    {
      ghost var lines := responses;
      ghost var k: nat := 0;
      var waitingFor := state;
      while |responses| > 0
        invariant k <= |lines| && responses == lines[k..]
        invariant forall i :: 0 <= i < k ==> !Answers(waitingFor, lines[i])
        invariant state == waitingFor && inserted == old(inserted)
        invariant queue == old(queue) && sent == old(sent) && sleeping == old(sleeping)
        decreases |responses|
      {
        var line := responses[0];
        responses := responses[1..];
        if Answers(waitingFor, line) {
          state := Idle;
          if waitingFor == WaitingFinishSearch {
            match BestMoveEffect(line, pieces) {
              case Moved(entity, ev) =>
                inserted := inserted + [(entity, ev)];
                return Answered;
              case Failed(reason) =>
                return Panic(reason);
            }
          }
          return Answered;
        }
        k := k + 1;
      }
      return StillWaiting;
    }

    /**
     * `stockfish_update`: a running sleep timer that has not finished ends the frame; otherwise a
     * waiting driver reads its answers and, once idle, drains the queue in the same frame. Answers
     * are parsed with the corrected `ParseBestMove`, via `BestMoveEffect`.
     */
    method Update(timerFinished: bool, pieces: map<Square, Entity>) returns (r: Awaited)
      modifies this
      ensures old(sleeping) && !timerFinished ==>
        (r == StillWaiting && queue == old(queue) && state == old(state) && sleeping
         && sent == old(sent) && responses == old(responses) && inserted == old(inserted))
      ensures (!old(sleeping) || timerFinished) && old(state) == Idle ==>
        (r == Answered && responses == old(responses) && inserted == old(inserted)
         && var d := DrainResult(old(queue));
           queue == d.rest && sent == old(sent) + d.written && state == d.state && sleeping == d.sleeping)
      ensures ((!old(sleeping) || timerFinished) && old(state) != Idle
        && FirstAnswer(old(responses), old(state)) == |old(responses)|) ==>
        (r == StillWaiting && responses == [] && queue == old(queue) && state == old(state) && !sleeping
         && sent == old(sent) && inserted == old(inserted))
      ensures r == Answered ==> old(state) == Idle || FirstAnswer(old(responses), old(state)) < |old(responses)|
      ensures ((!old(sleeping) || timerFinished) && old(state) != Idle
        && FirstAnswer(old(responses), old(state)) < |old(responses)|) ==>
        var line := old(responses)[FirstAnswer(old(responses), old(state))];
        responses == old(responses)[FirstAnswer(old(responses), old(state)) + 1..]
        && (old(state) == WaitingFinishSearch && BestMoveEffect(line, pieces).Failed? ==>
              r == Panic(BestMoveEffect(line, pieces).reason) && queue == old(queue) && sent == old(sent)
              && state == Idle && !sleeping && inserted == old(inserted))
        && (old(state) != WaitingFinishSearch || BestMoveEffect(line, pieces).Moved? ==>
              r == Answered && inserted == old(inserted) + AnswerMoves(old(state), line, pieces)
              && var d := DrainResult(old(queue));
                queue == d.rest && sent == old(sent) + d.written && state == d.state && sleeping == d.sleeping)
    {
      if sleeping {
        if !timerFinished {
          return StillWaiting;
        }
        sleeping := false;
      }
      if state != Idle {
        r := Await(pieces);
        if r != Answered {
          return;
        }
      }
      Drain();
      return Answered;
    }

    /**
     * `stockfish_move_as_black`: for each `MovePiece` removed this frame, while Black is to move,
     * a search of the current position is queued.
     */
    method MoveAsBlack(removed: nat, sideToMove: Color, fen: string)
      modifies this
      ensures sideToMove == Black ==> queue == old(queue) + Repeat(SearchCommands(fen), removed)
      ensures sideToMove == White ==> queue == old(queue)
      ensures state == old(state) && sleeping == old(sleeping) && sent == old(sent)
      ensures responses == old(responses) && inserted == old(inserted)
    {
      for i := 0 to removed
        invariant sideToMove == Black ==> queue == old(queue) + Repeat(SearchCommands(fen), i)
        invariant sideToMove == White ==> queue == old(queue)
        invariant state == old(state) && sleeping == old(sleeping) && sent == old(sent)
        invariant responses == old(responses) && inserted == old(inserted)
      {
        if sideToMove == Black {
          ExtendCmds(SearchCommands(fen));
        }
      }
    }
  }
}
