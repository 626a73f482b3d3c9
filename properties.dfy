/** What one iteration of the read loop, and a run of it, does to the
    session. */
module Properties {
  import opened MoveFilter
  import opened Protocol

  /** An empty line (also what a swallowed interrupt leaves) is neither
      logged nor acted on. */
  lemma EmptyLineIgnored(be: Backend, st: State)
    requires st.status == Running
    ensures Next(be, st, "") == st
  {
  }

  /** Log and output are only ever appended to, and a non-empty line is the
      first thing logged, before any command acts. */
  lemma InputLoggedFirst(be: Backend, st: State, l: string)
    requires st.status == Running
    ensures st.log <= Next(be, st, l).log && st.out <= Next(be, st, l).out
    ensures l != "" ==> |Next(be, st, l).log| > |st.log| && Next(be, st, l).log[|st.log|] == Echo(l)
  {
  }

  /** Asking the engine only appends to log and output. */
  lemma ConsultAppends(be: Backend, st: State)
    requires st.board.Board?
    ensures st.log <= Consult(be, st).log && st.out <= Consult(be, st).out
  {
  }

  /** `xboard` prints the feature line and changes nothing else. */
  lemma XboardAnnounces(be: Backend, st: State)
    requires st.status == Running
    ensures Next(be, st, "xboard") ==
      st.(log := st.log + [Echo("xboard")], out := st.out + [Feature(FEATURE)])
  {
  }

  /** `quit` ends the loop with nothing else changed, and no later line is
      read. */
  lemma QuitEnds(be: Backend, st: State, rest: seq<string>)
    requires st.status == Running
    ensures Replay(be, st, ["quit"] + rest) == st.(log := st.log + [Echo("quit")], status := Exited)
  {
  }

  /** `new` installs the start position whatever was there before, and
      keeps the stored result. */
  lemma NewResets(be: Backend, st: State)
    requires st.status == Running
    ensures Next(be, st, "new") == st.(log := st.log + [Echo("new")], board := Board([]))
  {
  }

  /** `?` repeats the stored result and changes neither board nor result. */
  lemma QueryRepeats(be: Backend, st: State)
    requires st.status == Running
    ensures Next(be, st, "?") ==
      st.(log := st.log + [Echo("?"), Recall(st.r)], out := st.out + [Recall(st.r)])
  {
  }

  /** Two `?` in a row print the same line twice. */
  lemma QueryTwice(be: Backend, st: State)
    requires st.status == Running
    ensures var s2 := Replay(be, st, ["?", "?"]);
      s2.board == st.board && s2.r == st.r && s2.status == Running &&
      s2.out == st.out + [Recall(st.r), Recall(st.r)]
  {
  }

  /** `go` and `force`: a board is created if needed, the engine's result
      always replaces the stored one, and the board grows by the engine's
      move exactly when the engine answers (a move the rules library
      refuses ends the loop instead). */
  lemma GoConsults(be: Backend, st: State, l: string)
    requires st.status == Running && (l == "go" || l == "force")
    ensures var b := Ensure(st.board).plies;
      var a := be.getmove(b);
      var s' := Next(be, st, l);
      && s'.r == Got(a)
      && (a.None? ==> s'.board == Board(b) && s'.status == Running && s'.out == st.out)
      && (a.Some? && be.legal(b, a.value.uci) ==>
            s'.board == Board(b + [a.value.uci]) && s'.status == Running &&
            s'.out == st.out + [MoveLine(a.value.uci), Comment(a.value.score + a.value.elapsed)])
      && (a.Some? && !be.legal(b, a.value.uci) ==>
            s'.board == Board(b) && s'.status == Raised(IllegalMove(a.value.uci)))
  {
  }

  /** On the default path a line that is not a coordinate move only
      creates the board, if there was none. */
  lemma NonMoveIgnored(be: Backend, st: State, l: string)
    requires st.status == Running && l != "" && !IsCommand(l) && Classify(l) == NotCoordinate
    ensures Next(be, st, l) == st.(log := st.log + [Echo(l)], board := Ensure(st.board))
  {
  }

  /** A default-path line that starts like a move but ends before the
      recogniser is done raises, after the board was created. */
  lemma ShortLineRaises(be: Backend, st: State, l: string)
    requires st.status == Running && l != "" && !IsCommand(l) && Classify(l) == TooShort
    ensures Next(be, st, l) ==
      st.(log := st.log + [Echo(l)], board := Ensure(st.board), status := Raised(IndexError))
  {
  }

  /** A manual move is applied in its repaired form and answered by the
      engine: the board grows by exactly the move and the reply, which is
      printed; by the move alone, printing nothing, when the engine has no
      answer; and a reply the rules library refuses raises after the move. */
  lemma ManualMoveAnswered(be: Backend, st: State, l: string)
    requires st.status == Running && l != "" && !IsCommand(l) && Classify(l) == Coordinate
    requires be.legal(Ensure(st.board).plies, Repair(l))
    ensures var b := Ensure(st.board).plies + [Repair(l)];
      var a := be.getmove(b);
      var s' := Next(be, st, l);
      && s'.r == Got(a)
      && (a.None? ==> s'.board == Board(b) && s'.status == Running && s'.out == st.out)
      && (a.Some? && be.legal(b, a.value.uci) ==>
            s'.board == Board(b + [a.value.uci]) && s'.status == Running &&
            |s'.board.plies| == |Ensure(st.board).plies| + 2 &&
            s'.out == st.out + [MoveLine(a.value.uci), Comment(a.value.score + a.value.elapsed)])
      && (a.Some? && !be.legal(b, a.value.uci) ==>
            s'.board == Board(b) && s'.status == Raised(IllegalMove(a.value.uci)))
  {
  }

  /** A coordinate move the rules library refuses ends the loop with the
      stored result untouched. */
  lemma IllegalManualMoveRaises(be: Backend, st: State, l: string)
    requires st.status == Running && l != "" && !IsCommand(l) && Classify(l) == Coordinate
    requires !be.legal(Ensure(st.board).plies, Repair(l))
    ensures Next(be, st, l) == st.(log := st.log + [Echo(l)], board := Ensure(st.board),
                                   status := Raised(IllegalMove(Repair(l))))
  {
  }

  /** Apart from `new`, a step never takes a ply back: the board it leaves
      extends the one it started from (a missing board counting as the
      start position) by at most two plies. */
  lemma PliesOnlyGrow(be: Backend, st: State, l: string)
    requires st.status == Running && l != "new"
    ensures var s' := Next(be, st, l);
      s'.board == st.board ||
      (s'.board.Board? && Ensure(st.board).plies <= s'.board.plies &&
       |s'.board.plies| <= |Ensure(st.board).plies| + 2)
  {
  }

  /** Halting is permanent: a session that has ended reads nothing more. */
  lemma HaltedIgnoresInput(be: Backend, st: State, lines: seq<string>)
    requires st.status != Running
    ensures Replay(be, st, lines) == st
  {
  }

  /** Over a whole run, log and output are only appended to. */
  lemma {:induction false} ReplayAppendOnly(be: Backend, st: State, lines: seq<string>)
    ensures st.log <= Replay(be, st, lines).log && st.out <= Replay(be, st, lines).out
    decreases |lines|
  {
    if lines != [] && st.status == Running {
      InputLoggedFirst(be, st, lines[0]);
      ReplayAppendOnly(be, Next(be, st, lines[0]), lines[1..]);
    }
  }

  /** Picking the input lines out of a log distributes over concatenation. */
  lemma {:induction false} EchoesConcat(a: seq<Line>, b: seq<Line>)
    ensures Echoes(a + b) == Echoes(a) + Echoes(b)
    decreases |a|
  {
    if a != [] {
      var head := if a[0].Echo? then [a[0].text] else [];
      assert (a + b)[0] == a[0];
      assert (a + b)[1..] == a[1..] + b;
      EchoesConcat(a[1..], b);
      assert Echoes(a + b) == head + Echoes(a[1..] + b);
      assert Echoes(a) == head + Echoes(a[1..]);
    } else {
      assert a + b == b;
    }
  }

  /** A stretch of log that holds no input line. */
  predicate NoEchoes(s: seq<Line>)
  {
    forall i :: 0 <= i < |s| ==> !s[i].Echo?
  }

  /** A stretch of log without input lines contributes none. */
  lemma {:induction false} NoEchoesEmpty(s: seq<Line>)
    requires NoEchoes(s)
    ensures Echoes(s) == []
    decreases |s|
  {
    if s != [] {
      assert NoEchoes(s[1..]) by {
        forall i | 0 <= i < |s[1..]| ensures !s[1..][i].Echo? { assert s[1..][i] == s[i + 1]; }
      }
      NoEchoesEmpty(s[1..]);
    }
  }

  /** What a command writes after its input line holds no echo. */
  lemma DispatchWritesNoEcho(be: Backend, st: State, l: string)
    requires l != ""
    ensures st.log <= Dispatch(be, st, l).log && NoEchoes(Dispatch(be, st, l).log[|st.log|..])
  {
  }

  /** A step adds to the log's input lines exactly the line it read, if
      that line was not empty. */
  lemma StepEchoes(be: Backend, st: State, l: string)
    requires st.status == Running
    ensures Echoes(Next(be, st, l).log) == Echoes(st.log) + (if l == "" then [] else [l])
  {
    if l != "" {
      var st1 := st.(log := st.log + [Echo(l)]);
      var s' := Next(be, st, l);
      DispatchWritesNoEcho(be, st1, l);
      var extra := s'.log[|st1.log|..];
      assert s'.log == st1.log + extra;
      NoEchoesEmpty(extra);
      EchoesConcat(st.log, [Echo(l)]);
      EchoesConcat(st1.log, extra);
      assert Echoes([Echo(l)]) == [l] by { assert [Echo(l)][1..] == []; }
    }
  }

  /** Every non-empty line of a run that has not ended is in the log, in
      input order: input capture is never lost. */
  lemma {:induction false} ReplayCapturesInput(be: Backend, st: State, lines: seq<string>)
    requires Replay(be, st, lines).status == Running
    ensures Echoes(Replay(be, st, lines).log) == Echoes(st.log) + NonEmpty(lines)
    decreases |lines|
  {
    if lines != [] {
      var s1 := Next(be, st, lines[0]);
      StepEchoes(be, st, lines[0]);
      ReplayCapturesInput(be, s1, lines[1..]);
    }
  }

  /** Every run has read exactly some first `k` of its lines: the state is
      the one those `k` lines give, the run was still going before line
      `k - 1`, and it had ended after line `k - 1` if any line is left. The
      input lines recorded in the log are exactly the non-empty ones among
      those `k`, in order, so the line at which `quit` or a raise ends the
      process is logged too. */
  lemma {:induction false} ReplayCapturesReadInput(be: Backend, st: State, lines: seq<string>)
    ensures exists k {:trigger NonEmpty(lines[..k])} ::
      && 0 <= k <= |lines|
      && Replay(be, st, lines) == Replay(be, st, lines[..k])
      && (0 < k ==> Replay(be, st, lines[..k - 1]).status == Running)
      && (k < |lines| ==> Replay(be, st, lines[..k]).status != Running)
      && Echoes(Replay(be, st, lines).log) == Echoes(st.log) + NonEmpty(lines[..k])
    decreases |lines|
  {
    if lines == [] || st.status != Running {
      assert lines[..0] == [];
      assert Replay(be, st, lines[..0]) == st;
      assert NonEmpty(lines[..0]) == [];
      assert Echoes(Replay(be, st, lines).log) == Echoes(st.log) + NonEmpty(lines[..0]);
    } else {
      var s1 := Next(be, st, lines[0]);
      var rest := lines[1..];
      StepEchoes(be, st, lines[0]);
      ReplayCapturesReadInput(be, s1, rest);
      var k :|
        && 0 <= k <= |rest|
        && Replay(be, s1, rest) == Replay(be, s1, rest[..k])
        && (0 < k ==> Replay(be, s1, rest[..k - 1]).status == Running)
        && (k < |rest| ==> Replay(be, s1, rest[..k]).status != Running)
        && Echoes(Replay(be, s1, rest).log) == Echoes(s1.log) + NonEmpty(rest[..k]);
      assert lines[..k + 1][0] == lines[0];
      assert lines[..k + 1][1..] == rest[..k];
      assert Replay(be, st, lines[..k + 1]) == Replay(be, s1, rest[..k]);
      if 0 < k {
        assert lines[..k][0] == lines[0];
        assert lines[..k][1..] == rest[..k - 1];
        assert Replay(be, st, lines[..k]) == Replay(be, s1, rest[..k - 1]);
      } else {
        assert lines[..k] == [];
      }
      assert NonEmpty(lines[..k + 1]) ==
        (if lines[0] != "" then [lines[0]] else []) + NonEmpty(rest[..k]);
      assert Echoes(Replay(be, st, lines).log) == Echoes(st.log) + NonEmpty(lines[..k + 1]);
    }
  }

  /** A process fed a finite input always ends: by `quit`, by raising on a
      line, or by raising at the end of the input once every line has been
      read and logged. */
  lemma ProcessEnds(be: Backend, st: State, lines: seq<string>)
    requires st.status == Running
    ensures Process(be, st, lines).status != Running
    ensures Process(be, st, lines).status == Raised(EndOfInput) && Replay(be, st, lines).status == Running ==>
      Echoes(Process(be, st, lines).log) == Echoes(st.log) + NonEmpty(lines)
  {
    if Replay(be, st, lines).status == Running {
      ReplayCapturesInput(be, st, lines);
    }
  }

  /** `xboard`, `new`, `e2e4`, `go` with an engine that answers both times:
      the board holds the manual move, the engine's reply to it, and the
      engine's move for `go`. */
  lemma XboardNewMoveGo(be: Backend, e1: EngineMove, e2: EngineMove)
    requires be.legal([], "e2e4")
    requires be.getmove(["e2e4"]) == Some(e1) && be.legal(["e2e4"], e1.uci)
    requires be.getmove(["e2e4", e1.uci]) == Some(e2) && be.legal(["e2e4", e1.uci], e2.uci)
    ensures var s := Replay(be, Init, ["xboard", "new", "e2e4", "go"]);
      s.status == Running && s.board == Board(["e2e4", e1.uci, e2.uci]) && s.r == Got(Some(e2))
  {
    var lines := ["xboard", "new", "e2e4", "go"];
    var s1 := Next(be, Init, "xboard");
    var s2 := Next(be, s1, "new");
    assert s2.board == Board([]);
    var s3 := Next(be, s2, "e2e4");
    assert !IsCommand("e2e4") && Classify("e2e4") == Coordinate && Repair("e2e4") == "e2e4";
    assert Ensure(s2.board).plies + ["e2e4"] == ["e2e4"];
    assert s3.board == Board(["e2e4", e1.uci]);
    var s4 := Next(be, s3, "go");
    assert s4.board == Board(["e2e4", e1.uci, e2.uci]);
    assert lines[1..] == ["new", "e2e4", "go"];
    assert lines[1..][1..] == ["e2e4", "go"];
    assert lines[1..][1..][1..] == ["go"];
    assert Replay(be, s4, []) == s4;
  }
}
