# PyTuroChamp XBoard adapter, modelled in Dafny

`ptc_xboard.py` connects PyTuroChamp (or the `bare` backend) to a chess GUI that speaks the
XBoard (Chess Engine Communication Protocol) dialect. It reads one line at a time. A non-empty line
is first copied to the log. The line is then compared, by exact equality and in this order, with
`xboard`, `quit`, `new`, `go`/`force` and `?`. Any other line goes to the move path. There a board is
created if none exists. The line is kept only if characters 0 and 2 are file letters `a`–`h` and
characters 1 and 3 are rank digits `1`–`8`. A six-character move is cut to four characters plus `q`,
because one client sends malformed promotions. The move is pushed and the engine is asked to reply.

The project has four modules:

- `MoveFilter` (`move_filter.dfy`): the recogniser and the promotion repair, as pure functions.
  The recogniser reads characters 0, 2, 1, 3 in that order and stops at the first one outside its
  alphabet. Its three outcomes are `Coordinate`, `NotCoordinate` and `TooShort`. `TooShort` is the
  IndexError the source raises when a line ends before a character the test still has to read.
- `Protocol` (`protocol.dfy`): the session as a value `State` with these fields:
  - `board`: `NoBoard`, or `Board(plies)`, the UCI moves applied since the start position;
  - `r`: the stored engine result, `Unset` (the initial `''`) or `Got(answer)`;
  - `log` and `out`: the log file and standard output, as sequences of `Line`;
  - `status`: running, exited through `quit`, or raised.

  The module also holds the functions for one loop iteration (`Next`, built from `Dispatch`,
  `TryMove`, `Consult` and `Play`), for the lines read so far (`Replay`) and for a whole process
  whose input is a finite list of lines (`Process`). At the end of the input `input()` raises an
  `EOFError` that nothing catches. `Process` models this as the terminal status
  `Raised(EndOfInput)`. The engine and the rules library form a `Backend` value: `getmove` is any
  function from the move list to an optional `EngineMove`, and `legal` is any predicate saying
  whether `push_uci` accepts a move string.
- `Properties` (`properties.dfy`): lemmas about `Next`, `Replay` and `Process`.
- `Adapter` (`adapter.dfy`): class `Session` holds the module globals `d`, `r` and the log as
  fields, which its methods update in place. Each method is proved to leave exactly the state the
  matching `Protocol` function gives. `Run` is the `while True` loop fed a finite input, up to the
  read that fails at its end.

## Model

| member | source | states |
|---|---|---|
| `MoveFilter.IsFile` | ptc_xboard.py:13 | a character is in the file alphabet exactly when it is a lower-case `a` to `h`; upper case is rejected |
| `MoveFilter.IsRank` | ptc_xboard.py:14 | a character is in the rank alphabet exactly when it is a digit `1` to `8`; `0` and `9` are rejected |
| `MoveFilter.Classify` | ptc_xboard.py:64 | a non-empty line is a move iff its length is at least 4, characters 0 and 2 are files and characters 1 and 3 are ranks; it raises iff it starts with a file and ends before the short-circuit test is done (length under 3, or length 3 with character 2 a file and character 1 a rank) |
| `MoveFilter.Repair` | ptc_xboard.py:65-66 | a six-character line becomes five characters whose first four are unchanged and whose last is `q`; any other line is unchanged |
| `MoveFilter.RepairIdempotent` | ptc_xboard.py:65-66 | repairing an already repaired line changes nothing |
| `MoveFilter.RepairKeepsCoordinate` | ptc_xboard.py:64-66 | the repaired form of a recognised move is still recognised |
| `MoveFilter.RepairIgnoresSuffix` | ptc_xboard.py:65-66 | two six-character lines that share their first four characters repair to the same move, whatever their 5th and 6th characters |
| `Protocol.Ensure` | ptc_xboard.py:52-53 | no contract of its own: the `if not d: d = c.Board()` step (also lines 62-63), used by `GoConsults`, `NonMoveIgnored`, `ManualMoveAnswered` and `PliesOnlyGrow` |
| `Protocol.Play` | ptc_xboard.py:27-34 | no contract of its own: `move(r)`; its properties are stated by `ConsultAppends`, `GoConsults` and `ManualMoveAnswered` |
| `Protocol.Consult` | ptc_xboard.py:54-56 | no contract of its own: `r = p.getmove(d)` then `if r: move(r)` (also lines 68-70); stated by `ConsultAppends`, `GoConsults` and `ManualMoveAnswered` |
| `Protocol.TryMove` | ptc_xboard.py:61-70 | no contract of its own: the move path; stated by `NonMoveIgnored`, `ShortLineRaises`, `ManualMoveAnswered` and `IllegalManualMoveRaises` |
| `Protocol.Dispatch` | ptc_xboard.py:45-70 | no contract of its own: the command chain; stated by `XboardAnnounces`, `NewResets`, `QueryRepeats`, `GoConsults` and `DispatchWritesNoEcho` |
| `Protocol.Next` | ptc_xboard.py:37-70 | no contract of its own: one loop iteration; stated by `EmptyLineIgnored`, `InputLoggedFirst`, `StepEchoes` and `PliesOnlyGrow` |
| `Protocol.Replay` | ptc_xboard.py:36-70 | no contract of its own: the loop over the lines read so far; stated by `ReplayAppendOnly`, `ReplayCapturesInput`, `ReplayCapturesReadInput`, `QuitEnds`, `QueryTwice` and `HaltedIgnoresInput` |
| `Protocol.Process` | ptc_xboard.py:36-41 | no contract of its own: the loop fed a finite input, where the read after the last line raises `EOFError`, which line 40 does not catch; stated by `ProcessEnds` |
| `Properties.EmptyLineIgnored` | ptc_xboard.py:37-42 | an empty line, which is also what a swallowed interrupt leaves, changes no part of the state and writes nothing to the log |
| `Properties.InputLoggedFirst` | ptc_xboard.py:42-45 | a step only appends to log and output, and the first entry it appends for a non-empty line is that line |
| `Properties.ConsultAppends` | ptc_xboard.py:27-34 | asking the engine, and playing its move if it has one, only appends to log and output |
| `Properties.XboardAnnounces` | ptc_xboard.py:45-46 | `xboard` prints the feature line `feature myname="PyTuroChamp" done=1` (not logged) and changes nothing but log and output |
| `Properties.QuitEnds` | ptc_xboard.py:47-48 | `quit` ends the loop with nothing else changed, and no later line is read |
| `Properties.NewResets` | ptc_xboard.py:49-50 | `new` installs the start position whatever board was there before, and keeps `r` |
| `Properties.QueryRepeats` | ptc_xboard.py:57-60 | `?` prints and logs the stored result and leaves board, result and status unchanged |
| `Properties.QueryTwice` | ptc_xboard.py:57-60 | two `?` in a row print the same line twice and leave board and result unchanged |
| `Properties.GoConsults` | ptc_xboard.py:51-56 | `go`/`force` creates a board if there is none and always overwrites `r` with the engine's answer, even an empty one; the board grows by exactly the engine's move when there is one (or the loop raises if that move is refused), and is left alone otherwise |
| `Properties.NonMoveIgnored` | ptc_xboard.py:61-64 | on the move path a line that is not a move only creates the board if none exists; `r` and the output do not change |
| `Properties.ShortLineRaises` | ptc_xboard.py:62-64 | a short line that starts with a file letter raises after the board has been created |
| `Properties.ManualMoveAnswered` | ptc_xboard.py:61-70 | an accepted and legal manual move is applied in its repaired form and `r` takes the engine's answer; with no answer the board grows by the move alone and nothing is printed; with an answer the rules library accepts, the board grows by exactly two plies, the move and the reply, and `move <reply>` and the score comment are printed; with an answer it refuses, the board keeps the move alone and the loop raises |
| `Properties.IllegalManualMoveRaises` | ptc_xboard.py:64-67 | a recognised move that the rules library refuses raises with `r` untouched |
| `Properties.PliesOnlyGrow` | ptc_xboard.py:36-70 | every step except `new` leaves the board as it was, or extends it (a missing board counting as the start position) by at most two plies |
| `Properties.HaltedIgnoresInput` | ptc_xboard.py:47-48 | once the process has ended, further input changes nothing |
| `Properties.ReplayAppendOnly` | ptc_xboard.py:36-70 | over a whole run, log and output are only appended to |
| `Properties.StepEchoes` | ptc_xboard.py:42-44 | each step adds exactly its own line, if non-empty, to the input lines recorded in the log |
| `Properties.ReplayCapturesInput` | ptc_xboard.py:36-45 | in a run that has not ended, the input lines recorded in the log are exactly the non-empty input lines, in order |
| `Properties.DispatchWritesNoEcho` | ptc_xboard.py:45-70 | a command only appends to the log, and nothing it appends is an input line |
| `Properties.ReplayCapturesReadInput` | ptc_xboard.py:36-70 | every run has read exactly some first `k` of its lines: its state is the one those `k` lines give, it was still running before line `k - 1`, and it had ended after it if any line is left; the input lines in its log are exactly the non-empty ones among those `k`, in order, so the line at which `quit` or a raise ends the process is logged too |
| `Properties.ProcessEnds` | ptc_xboard.py:36-41 | a process fed a finite input always ends; when it ends at the end of the input, every non-empty line it was given is in the log, in order |
| `Properties.XboardNewMoveGo` | ptc_xboard.py:45-70 | with an engine that answers, `xboard`, `new`, `e2e4`, `go` leaves the board holding `e2e4`, the engine's reply to it, and the engine's move for `go`: three plies |
| `Adapter.Session.constructor` | ptc_xboard.py:23-25 | a new session has no board, an empty result, an empty log and no output |
| `Adapter.Session.PlayEngineMove` | ptc_xboard.py:27-34 | `move(r)` pushes the engine's move, then prints and logs the move line and the score comment; a refused move raises before any output |
| `Adapter.Session.AskEngine` | ptc_xboard.py:54-56 | the engine's answer replaces `r`, and its move is played when there is one |
| `Adapter.Session.Step` | ptc_xboard.py:37-70 | one loop iteration leaves exactly the state `Protocol.Next` gives, and only appends to log and output |
| `Adapter.Session.Run` | ptc_xboard.py:36-70 | the loop fed a finite input leaves exactly the state `Protocol.Process` gives, ending at `quit`, at a raise or at the end of the input, and only appends to log and output |

## Left out

- Chess rules: `c.Board()` is the empty move list, and the legality check inside `push_uci` is the
  uninterpreted predicate `Backend.legal`. That predicate also covers a move string `push_uci`
  cannot parse, such as a recognised line of seven or more characters.
- Engine search (`p.getmove`): modelled as an arbitrary function of the move list. A backend whose
  answer also depends on randomness is covered only if it is deterministic for a given move list.
- The text of two kinds of output line. For the score comment, `Comment(score + elapsed)` stands for
  the two-decimal formatting of the sum. For `?`, `Recall(r)` depends only on the first answer
  `(move, a, b)` of the stored result, because `Stored` keeps nothing else. The source prints
  `str(r)` of the whole result, so two results with the same first answer can print differently.
  The model does not tell them apart.
- Backend and log-file selection from `sys.argv` (lines 16-21): this is start-up configuration.
- Opening, truncating and flushing the log file: the log is only a sequence of lines.
- `KeyboardInterrupt` during the read: it leaves `l` empty, so it is the empty-line case.
- `sys.exit(0)`: modelled as the terminal status `Exited`.
- Exceptions: an `IndexError` from the recogniser, a refused `push_uci` and the `EOFError` at the
  end of the input are the terminal status `Raised`. The model keeps no traceback and no exit
  code. Nothing recovers from these, just as the source does not.
- Commands of the engine (UCI) dialect, FEN set-up, option handling and the game-record file: these
  do not exist in `ptc_xboard.py`, so nothing models them.

Behaviour of the code worth knowing:
- Commands are matched only by exact equality.
- A line that starts with a file letter but is shorter than the test needs raises an `IndexError`.
- An empty engine answer still overwrites `r`.
- When the engine answers each time, `xboard`, `new`, `e2e4`, `go` leaves three plies on the board.
  The manual move already provokes a reply, and `go` adds one more (`XboardNewMoveGo`).
