/** The coordinate-move recogniser of the XBoard adapter and its repair of
    the malformed six-character promotions one client sends. Everything here
    is a pure function of the input line. */
module MoveFilter {

  /** The file letters and rank digits the recogniser tests against. */
  const FILES: string := "abcdefgh"
  const RANKS: string := "12345678"

  /** Membership in the file alphabet: exactly the lower-case letters a to h. */
  predicate IsFile(c: char): (b: bool)
    ensures b <==> 'a' <= c <= 'h'
  {
    c in FILES
  }

  /** Membership in the rank alphabet: exactly the digits 1 to 8. */
  predicate IsRank(c: char): (b: bool)
    ensures b <==> '1' <= c <= '8'
  {
    c in RANKS
  }

  /** What the recogniser makes of a line: a coordinate move, not a move,
      or an IndexError raised because the line ends before a character the
      test still has to read. */
  datatype Verdict = Coordinate | NotCoordinate | TooShort

  /** The recogniser. Its test reads character 0, then 2, then 1, then 3,
      and stops at the first character outside its alphabet; reading a
      character past the end of the line raises. */
  function Classify(l: string): (v: Verdict)
    requires l != ""
    ensures v == Coordinate <==>
      |l| >= 4 && IsFile(l[0]) && IsRank(l[1]) && IsFile(l[2]) && IsRank(l[3])
    ensures v == TooShort <==>
      IsFile(l[0]) && (|l| < 3 || (|l| == 3 && IsFile(l[2]) && IsRank(l[1])))
  {
    if !IsFile(l[0]) then NotCoordinate
    else if |l| < 3 then TooShort
    else if !IsFile(l[2]) then NotCoordinate
    else if !IsRank(l[1]) then NotCoordinate
    else if |l| < 4 then TooShort
    else if !IsRank(l[3]) then NotCoordinate
    else Coordinate
  }

  /** The promotion repair: a six-character line keeps its first four
      characters and gets a queen promotion; any other line is unchanged. */
  function Repair(l: string): (m: string)
    ensures |l| == 6 ==> |m| == 5 && m[..4] == l[..4] && m[4] == 'q'
    ensures |l| != 6 ==> m == l
  {
    if |l| == 6 then l[..4] + "q" else l
  }

  /** Repairing twice is repairing once. */
  lemma RepairIdempotent(l: string)
    ensures Repair(Repair(l)) == Repair(l)
  {
  }

  /** A repaired move is still a coordinate move. */
  lemma RepairKeepsCoordinate(l: string)
    requires l != "" && Classify(l) == Coordinate
    ensures Repair(l) != "" && Classify(Repair(l)) == Coordinate
  {
  }

  /** The repair discards the last two characters of a six-character line:
      two such lines that share their first four characters repair alike. */
  lemma RepairIgnoresSuffix(l: string, l': string)
    requires |l| == 6 && |l'| == 6 && l[..4] == l'[..4]
    ensures Repair(l) == Repair(l')
  {
  }
}
