/** The session of the XBoard adapter as a value, and one iteration of its
    read loop as a function over that value. The class in module Adapter
    runs the same steps in place and is proved to agree with these
    functions. */
module Protocol {
  import opened MoveFilter

  datatype Option<T> = None | Some(value: T)

  /** One answer of the engine backend: the move in UCI notation and the
      two numbers whose sum the adapter prints as a comment. */
  datatype EngineMove = EngineMove(uci: string, score: real, elapsed: real)

  /** What the adapter relies on from outside: the engine's search, a
      function of the game so far that may decline to answer, and the rules
      library's acceptance of a UCI move string in a position. */
  datatype Backend = Backend(
    getmove: seq<string> -> Option<EngineMove>,
    legal: (seq<string>, string) -> bool)

  /** The board: none yet, or the moves applied since the start position. */
  datatype Board = NoBoard | Board(plies: seq<string>)

  /** The stored engine result: the initial empty string, or the last
      answer, which may be empty (no move). */
  datatype Stored = Unset | Got(answer: Option<EngineMove>)

  /** Why the loop died: a move the rules library refused, a line too
      short for the recogniser's indexing, or the end of the input, where
      the read raises an EOFError that nothing catches. */
  datatype Fault = IllegalMove(uci: string) | IndexError | EndOfInput

  datatype Status = Running | Exited | Raised(fault: Fault)

  /** A line written to standard output or to the log file. */
  datatype Line =
    | Echo(text: string)      // the input line itself, copied to the log
    | Feature(text: string)   // the feature announcement, FEATURE below
    | MoveLine(uci: string)   // "move <uci>"
    | Comment(total: real)    // "# <total>" with two decimals
    | Recall(stored: Stored)  // "move " followed by the stored result

  const FEATURE: string := "feature myname=\"PyTuroChamp\" done=1"

  datatype State = State(board: Board, r: Stored, log: seq<Line>, out: seq<Line>, status: Status)

  /** The state when the adapter starts: no board, an empty result, an
      empty (freshly truncated) log and nothing printed. */
  const Init: State := State(NoBoard, Unset, [], [], Running)

  /** The board after `if not d: d = c.Board()`. */
  function Ensure(b: Board): Board
  {
    if b.NoBoard? then Board([]) else b
  }

  /** The exact command words, matched by equality. */
  predicate IsCommand(l: string)
  {
    l == "xboard" || l == "quit" || l == "new" || l == "go" || l == "force" || l == "?"
  }

  /** `move(r)`: apply the engine's move, then print and log it with the
      score comment. A move the rules library refuses raises before any
      output. */
  function Play(be: Backend, st: State, m: EngineMove): State
    requires st.board.Board?
  {
    if !be.legal(st.board.plies, m.uci) then st.(status := Raised(IllegalMove(m.uci)))
    else
      var said := [MoveLine(m.uci), Comment(m.score + m.elapsed)];
      st.(board := Board(st.board.plies + [m.uci]), out := st.out + said, log := st.log + said)
  }

  /** `r = p.getmove(d)` followed by `if r: move(r)`. */
  function Consult(be: Backend, st: State): State
    requires st.board.Board?
  {
    var a := be.getmove(st.board.plies);
    var st' := st.(r := Got(a));
    if a.Some? then Play(be, st', a.value) else st'
  }

  /** The default path once a board exists: recognise, repair, apply and
      let the engine answer. */
  function TryMove(be: Backend, st: State, l: string): State
    requires l != "" && st.board.Board?
  {
    match Classify(l)
    case NotCoordinate => st
    case TooShort => st.(status := Raised(IndexError))
    case Coordinate =>
      var m := Repair(l);
      if !be.legal(st.board.plies, m) then st.(status := Raised(IllegalMove(m)))
      else Consult(be, st.(board := Board(st.board.plies + [m])))
  }

  /** The command chain, in the order the loop tests it. */
  function Dispatch(be: Backend, st: State, l: string): State
    requires l != ""
  {
    if l == "xboard" then st.(out := st.out + [Feature(FEATURE)])
    else if l == "quit" then st.(status := Exited)
    else if l == "new" then st.(board := Board([]))
    else if l == "go" || l == "force" then Consult(be, st.(board := Ensure(st.board)))
    else if l == "?" then st.(out := st.out + [Recall(st.r)], log := st.log + [Recall(st.r)])
    else TryMove(be, st.(board := Ensure(st.board)), l)
  }

  /** One iteration of the read loop: an empty line does nothing; any other
      line is logged, then dispatched. */
  function Next(be: Backend, st: State, l: string): State
    requires st.status == Running
  {
    if l == "" then st else Dispatch(be, st.(log := st.log + [Echo(l)]), l)
  }

  /** The loop over the lines read so far: it processes them in order and
      stops early if the process ends. A session still running afterwards
      is waiting for its next line. */
  function Replay(be: Backend, st: State, lines: seq<string>): State
    decreases |lines|
  {
    if lines == [] || st.status != Running then st
    else Replay(be, Next(be, st, lines[0]), lines[1..])
  }

  /** The whole process when its standard input holds exactly `lines`:
      once they are read and the loop is still running, the next read hits
      the end of the input and raises. */
  function Process(be: Backend, st: State, lines: seq<string>): State
  {
    var s := Replay(be, st, lines);
    if s.status == Running then s.(status := Raised(EndOfInput)) else s
  }

  /** The input lines of a log, in order. */
  function Echoes(log: seq<Line>): seq<string>
  {
    if log == [] then []
    else (if log[0].Echo? then [log[0].text] else []) + Echoes(log[1..])
  }

  /** The non-empty lines of an input, in order. */
  function NonEmpty(lines: seq<string>): seq<string>
  {
    if lines == [] then []
    else (if lines[0] != "" then [lines[0]] else []) + NonEmpty(lines[1..])
  }
}
