/** The adapter's process-wide state and its read loop, updated in place.
    Every method is proved to leave exactly the state that the functions of
    module Protocol describe. */
module Adapter {
  import opened MoveFilter
  import opened Protocol
  import Properties

  class Session {
    const backend: Backend
    /** `d`: no board, or the moves applied from the start position. */
    var board: Board
    /** `r`: the last engine result. */
    var r: Stored
    /** The log file's lines, and the lines printed to standard output. */
    var log: seq<Line>
    var out: seq<Line>
    var status: Status

    function Snapshot(): State
      reads this
    {
      State(board, r, log, out, status)
    }

    constructor (backend: Backend)
      ensures this.backend == backend && Snapshot() == Init
    {
      this.backend := backend;
      board, r, log, out, status := NoBoard, Unset, [], [], Running;
    }

    /** `move(r)`: push the engine's move, then print and log it. */
    method PlayEngineMove(m: EngineMove)
      requires board.Board?
      modifies this
      ensures Snapshot() == Play(backend, old(Snapshot()), m)
    {
      if !backend.legal(board.plies, m.uci) {
        status := Raised(IllegalMove(m.uci));
        return;
      }
      board := Board(board.plies + [m.uci]);
      out := out + [MoveLine(m.uci), Comment(m.score + m.elapsed)];
      log := log + [MoveLine(m.uci), Comment(m.score + m.elapsed)];
    }

    /** `r = p.getmove(d)`, then `if r: move(r)`. */
    method AskEngine()
      requires board.Board?
      modifies this
      ensures Snapshot() == Consult(backend, old(Snapshot()))
    {
      var answer := backend.getmove(board.plies);
      r := Got(answer);
      if answer.Some? {
        PlayEngineMove(answer.value);
      }
    }

    /** One iteration of the `while True` loop on the line `l`. */
    method Step(l: string)
      requires status == Running
      modifies this
      ensures Snapshot() == Next(backend, old(Snapshot()), l)
      ensures old(log) <= log && old(out) <= out
    {
      ghost var before := Snapshot();
      Properties.InputLoggedFirst(backend, before, l);
      if l == "" {
        return;
      }
      log := log + [Echo(l)];
      if l == "xboard" {
        out := out + [Feature(FEATURE)];
      } else if l == "quit" {
        status := Exited;
      } else if l == "new" {
        board := Board([]);
      } else if l == "go" || l == "force" {
        if board.NoBoard? {
          board := Board([]);
        }
        AskEngine();
      } else if l == "?" {
        out := out + [Recall(r)];
        log := log + [Recall(r)];
      } else {
        if board.NoBoard? {
          board := Board([]);
        }
        match Classify(l)
        case NotCoordinate =>
        case TooShort =>
          status := Raised(IndexError);
        case Coordinate =>
          var m := Repair(l);
          if !backend.legal(board.plies, m) {
            status := Raised(IllegalMove(m));
          } else {
            board := Board(board.plies + [m]);
            AskEngine();
          }
      }
    }

    /** The read loop with `lines` as the whole standard input: it ends at
        `quit`, at a line that raises, or at the read after the last line,
        which raises at the end of the input. */
    method Run(lines: seq<string>)
      modifies this
      ensures Snapshot() == Process(backend, old(Snapshot()), lines)
      ensures old(log) <= log && old(out) <= out
    {
      ghost var start := Snapshot();
      Properties.ReplayAppendOnly(backend, start, lines);
      var i := 0;
      while i < |lines| && status == Running
        invariant 0 <= i <= |lines|
        invariant Replay(backend, start, lines) == Replay(backend, Snapshot(), lines[i..])
      {
        assert lines[i..][1..] == lines[i + 1..];
        Step(lines[i]);
        i := i + 1;
      }
      if status == Running {
        status := Raised(EndOfInput);
      }
    }
  }
}
