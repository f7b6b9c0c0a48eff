/** The editor's CMake scanner, kept abstract: the tokens it reports for a
    line when started in a given state, and the two questions the language
    service asks of a scanner state. */
module Tokens {
  import opened Keywords

  /** The token kinds the language service tells apart; every other kind of
      token is `OtherToken`. */
  datatype TokenKind =
    Keyword | Identifier | OpenParen | CloseParen | WhiteSpace | VariableStart | OtherToken

  /** What one scanner call reports: the kind, the closed span
      [startIndex, endIndex] of the token in its line, and whether the
      token carries the `ParameterNext` trigger. */
  datatype TokenInfo = TokenInfo(token: TokenKind, startIndex: int, endIndex: int, parameterNext: bool)

  /** One successful scanner call: the token and the scanner state it left. */
  datatype Step = Step(info: TokenInfo, state: int)

  /** The successful calls on one line, and the state left by the final call
      that reports the end of the line. */
  datatype LineScan = LineScan(steps: seq<Step>, endState: int)

  datatype Scanner = Scanner(
    scanLine: (string, int) -> LineScan,
    /** `CMakeScanner.InsideParens` */
    insideParens: int -> bool,
    /** `CMakeScanner.GetLastCommand` */
    lastCommand: int -> CommandId)

  /** The token is a non-empty span of the line. */
  predicate Within(line: string, t: TokenInfo)
  {
    0 <= t.startIndex <= t.endIndex < |line|
  }

  predicate TokensWithin(line: string, scan: LineScan)
  {
    forall k :: 0 <= k < |scan.steps| ==> Within(line, scan.steps[k].info)
  }

  /** The tokens of the steps, in order. */
  function TokenInfos(steps: seq<Step>): (r: seq<TokenInfo>)
    ensures |r| == |steps|
    ensures forall k :: 0 <= k < |steps| ==> r[k] == steps[k].info
  {
    if steps == [] then [] else TokenInfos(steps[..|steps| - 1]) + [steps[|steps| - 1].info]
  }

  /** The state the scanner is in after scanning the lines in order, one
      state threaded from each line to the next. */
  function StateAfterLines(sc: Scanner, lines: seq<string>, state: int): int
  {
    if lines == [] then state
    else sc.scanLine(lines[|lines| - 1], StateAfterLines(sc, lines[..|lines| - 1], state)).endState
  }
}
