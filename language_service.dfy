/** `CMakeLanguageService`: the three parses the editor service runs over
    the scanner's tokens, the plain-text test of `GetScanner`, and the
    dispatch of `ParseSource`. */
module LanguageService {
  import opened Wrappers
  import opened Strings
  import opened Keywords
  import opened Tokens
  import opened StringHelpers
  import opened Paths
  import VariableDeclarations
  import Methods

  /** Every token is a span of the line. */
  predicate AllWithin(line: string, tokens: seq<TokenInfo>)
  {
    forall k :: 0 <= k < |tokens| ==> Within(line, tokens[k])
  }

  // ---------------------------------------------------------------------
  // ParseForVariables
  // ---------------------------------------------------------------------

  /** The machine of `ParseForVariables`: state 0, 1 after `set`, 2 after
      `set (`; and the variables collected so far. */
  datatype VariableScan = VariableScan(state: int, vars: seq<string>)

  /** `FindIndex` with a predicate comparing upper-cased names. */
  function FindIndexIgnoringCase(vars: seq<string>, name: string): (r: int)
    ensures -1 <= r < |vars|
    ensures r >= 0 ==> Upper(vars[r]) == Upper(name)
    ensures r < 0 <==> forall k :: 0 <= k < |vars| ==> Upper(vars[k]) != Upper(name)
  {
    if vars == [] then -1
    else if Upper(vars[0]) == Upper(name) then 0
    else
      var r := FindIndexIgnoringCase(vars[1..], name);
      if r < 0 then -1 else r + 1
  }

  /** A keyword token whose lower-cased text is `set`. */
  predicate IsSetKeyword(code: string, t: TokenInfo)
    requires Within(code, t)
  {
    t.token == Keyword && Lower(ExtractToken(code, t)) == "set"
  }

  /** One token of `ParseForVariables`. An identifier in state 2 is kept
      unless it names a standard variable or was kept before (ignoring
      case). The standard-name test is a parameter so that the lemmas below
      hold for any such test; `ParseForVariables` uses
      `IsStandardVariable(_, false)`. */
  function VariablesStep(code: string, isStandard: string -> bool, m: VariableScan, t: TokenInfo): VariableScan
    requires Within(code, t)
  {
    if IsSetKeyword(code, t) then m.(state := 1)
    else if m.state == 1 && t.token == OpenParen then m.(state := 2)
    else if m.state == 2 && t.token == Identifier then
      var varName := ExtractToken(code, t);
      if !isStandard(varName) && FindIndexIgnoringCase(m.vars, varName) < 0
      then VariableScan(0, m.vars + [varName])
      else m.(state := 0)
    else m.(state := 0)
  }

  /** The machine after the tokens, started in state 0 with no variables. */
  function RunVariables(code: string, isStandard: string -> bool, tokens: seq<TokenInfo>): VariableScan
    requires AllWithin(code, tokens)
  {
    if tokens == [] then VariableScan(0, [])
    else VariablesStep(code, isStandard, RunVariables(code, isStandard, tokens[..|tokens| - 1]), tokens[|tokens| - 1])
  }

  /** The standard-name test of `ParseForVariables`. */
  function StandardName(): string -> bool
  {
    v => VariableDeclarations.IsStandardVariable(v, false)
  }

  /** The standard-name test as `ParseForVariables` calls it, with the
      binary search over the unsorted table. */
  function StandardNameAsWritten(): string -> bool
  {
    v => VariableDeclarations.IsStandardVariableAsWritten(v, false)
  }

  /** `set ( name`: the name is recorded exactly when the test does not
      call it standard. */
  lemma SetDefinitionRun(code: string, isStandard: string -> bool, tokens: seq<TokenInfo>)
    requires |tokens| == 3 && AllWithin(code, tokens)
    requires IsSetKeyword(code, tokens[0]) && tokens[1].token == OpenParen && tokens[2].token == Identifier
    ensures RunVariables(code, isStandard, tokens).vars ==
      if isStandard(ExtractToken(code, tokens[2])) then [] else [ExtractToken(code, tokens[2])]
  {
    assert tokens[..1][..0] == [];
    assert RunVariables(code, isStandard, tokens[..1]) == VariableScan(1, []);
    assert tokens[..2][..1] == tokens[..1];
    assert RunVariables(code, isStandard, tokens[..2]) == VariableScan(2, []);
    assert tokens[..3][..2] == tokens[..2];
    assert tokens[..3] == tokens;
  }

  /** `set(CMAKE_DEBUG_POSTFIX`: with the intended test the standard name is
      not recorded; with the search as written it is recorded as a user
      variable. */
  lemma DebugPostfixRecordedAsWritten(code: string, tokens: seq<TokenInfo>)
    requires |tokens| == 3 && AllWithin(code, tokens)
    requires IsSetKeyword(code, tokens[0]) && tokens[1].token == OpenParen && tokens[2].token == Identifier
    requires Upper(ExtractToken(code, tokens[2])) == "CMAKE_DEBUG_POSTFIX"
    ensures RunVariables(code, StandardName(), tokens).vars == []
    ensures RunVariables(code, StandardNameAsWritten(), tokens).vars == [ExtractToken(code, tokens[2])]
  {
    VariableDeclarations.DebugPostfixMissed(ExtractToken(code, tokens[2]));
    SetDefinitionRun(code, StandardName(), tokens);
    SetDefinitionRun(code, StandardNameAsWritten(), tokens);
  }

  /** `ParseForVariables`: the scanner runs over the whole text as a single
      line, started in state 0. */
  method ParseForVariables(sc: Scanner, code: string) returns (vars: seq<string>)
    requires TokensWithin(code, sc.scanLine(code, 0))
    ensures vars == RunVariables(code, StandardName(), TokenInfos(sc.scanLine(code, 0).steps)).vars
  {
    var scan := sc.scanLine(code, 0);
    ghost var tokens := TokenInfos(scan.steps);
    vars := [];
    var state := 0;
    var k := 0;
    while k < |scan.steps|
      invariant 0 <= k <= |scan.steps|
      invariant VariableScan(state, vars) == RunVariables(code, StandardName(), tokens[..k])
    {
      var t := scan.steps[k].info;
      ghost var before := VariableScan(state, vars);
      assert t == tokens[k] && AllWithin(code, tokens[..k + 1]);
      assert tokens[..k + 1][..k] == tokens[..k];
      assert RunVariables(code, StandardName(), tokens[..k + 1]) == VariablesStep(code, StandardName(), before, t);
      if t.token == Keyword && Lower(ExtractToken(code, t)) == "set" {
        state := 1;
      } else if state == 1 && t.token == OpenParen {
        state := 2;
      } else if state == 2 && t.token == Identifier {
        state := 0;
        var varName := ExtractToken(code, t);
        if !VariableDeclarations.IsStandardVariable(varName, false) && FindIndexIgnoringCase(vars, varName) < 0 {
          vars := vars + [varName];
        }
      } else {
        state := 0;
      }
      assert VariableScan(state, vars) == VariablesStep(code, StandardName(), before, t);
      k := k + 1;
    }
    assert tokens[..k] == tokens;
  }

  /** The variables kept: none is standard and no two are equal ignoring
      case. */
  ghost predicate UserVariables(isStandard: string -> bool, vars: seq<string>)
  {
    (forall i :: 0 <= i < |vars| ==> !isStandard(vars[i])) &&
    (forall i, j :: 0 <= i < j < |vars| ==> Upper(vars[i]) != Upper(vars[j]))
  }

  lemma {:induction false} RunVariablesKeepsUserVariables(code: string, isStandard: string -> bool, tokens: seq<TokenInfo>)
    requires AllWithin(code, tokens)
    ensures UserVariables(isStandard, RunVariables(code, isStandard, tokens).vars)
    ensures 0 <= RunVariables(code, isStandard, tokens).state <= 2
  {
    if tokens != [] {
      RunVariablesKeepsUserVariables(code, isStandard, tokens[..|tokens| - 1]);
    }
  }

  /** One step keeps the variables found so far and appends at most one. */
  lemma StepAppends(code: string, isStandard: string -> bool, m: VariableScan, t: TokenInfo)
    requires Within(code, t)
    ensures var after := VariablesStep(code, isStandard, m, t).vars;
      after == m.vars || after == m.vars + [ExtractToken(code, t)]
  {
  }

  /** The state means what the source's comment says: 1 exactly after a
      `set` keyword, 2 exactly after `set (`, 0 otherwise. */
  lemma {:induction false} VariablesStateMeaning(code: string, isStandard: string -> bool, tokens: seq<TokenInfo>)
    requires AllWithin(code, tokens)
    ensures var st := RunVariables(code, isStandard, tokens).state;
      var n := |tokens|;
      (st == 1 <==> n >= 1 && IsSetKeyword(code, tokens[n - 1])) &&
      (st == 2 <==> n >= 2 && tokens[n - 1].token == OpenParen && IsSetKeyword(code, tokens[n - 2]))
  {
    if tokens != [] {
      var init := tokens[..|tokens| - 1];
      VariablesStateMeaning(code, isStandard, init);
      if |tokens| >= 2 {
        assert init[|init| - 1] == tokens[|tokens| - 2];
      }
    }
  }

  /** Token `k` is an identifier directly after `set (`, with text `name`. */
  ghost predicate DefinedAt(code: string, tokens: seq<TokenInfo>, k: int, name: string)
    requires AllWithin(code, tokens)
  {
    2 <= k < |tokens| && IsSetKeyword(code, tokens[k - 2]) && tokens[k - 1].token == OpenParen &&
    tokens[k].token == Identifier && ExtractToken(code, tokens[k]) == name
  }

  /** Later tokens only append: the variables after a prefix of the tokens
      are a prefix of the variables after all of them. */
  lemma {:induction false} VariablesAppendOnly(code: string, isStandard: string -> bool, tokens: seq<TokenInfo>, m: int)
    requires AllWithin(code, tokens) && 0 <= m <= |tokens|
    ensures var before := RunVariables(code, isStandard, tokens[..m]).vars;
      var after := RunVariables(code, isStandard, tokens).vars;
      |before| <= |after| && after[..|before|] == before
  {
    if m == |tokens| {
      assert tokens[..m] == tokens;
    } else {
      var init := tokens[..|tokens| - 1];
      assert init[..m] == tokens[..m];
      VariablesAppendOnly(code, isStandard, init, m);
      StepAppends(code, isStandard, RunVariables(code, isStandard, init), tokens[|tokens| - 1]);
    }
  }

  /** Every kept name is the text of an identifier directly after
      `set (`. */
  lemma {:induction false} KeptOnlyAfterSet(code: string, isStandard: string -> bool, tokens: seq<TokenInfo>, i: int)
    requires AllWithin(code, tokens) && 0 <= i < |RunVariables(code, isStandard, tokens).vars|
    ensures exists k :: DefinedAt(code, tokens, k, RunVariables(code, isStandard, tokens).vars[i])
  {
    var n := |tokens|;
    var init := tokens[..n - 1];
    var before := RunVariables(code, isStandard, init);
    var name := RunVariables(code, isStandard, tokens).vars[i];
    StepAppends(code, isStandard, before, tokens[n - 1]);
    if i < |before.vars| {
      KeptOnlyAfterSet(code, isStandard, init, i);
      var k :| DefinedAt(code, init, k, before.vars[i]);
      assert DefinedAt(code, tokens, k, name);
    } else {
      VariablesStateMeaning(code, isStandard, init);
      assert DefinedAt(code, tokens, n - 1, name);
    }
  }

  /** An identifier in state 2 that is not standard is there afterwards,
      appended or already present. */
  lemma IdentifierKept(code: string, isStandard: string -> bool, m: VariableScan, t: TokenInfo)
    requires Within(code, t) && m.state == 2 && t.token == Identifier
    requires !isStandard(ExtractToken(code, t))
    ensures var after := VariablesStep(code, isStandard, m, t).vars;
      exists i :: 0 <= i < |after| && Upper(after[i]) == Upper(ExtractToken(code, t))
  {
    var after := VariablesStep(code, isStandard, m, t).vars;
    var r := FindIndexIgnoringCase(m.vars, ExtractToken(code, t));
    if r >= 0 {
      assert after == m.vars;
      assert Upper(after[r]) == Upper(ExtractToken(code, t));
    } else {
      assert after[|m.vars|] == ExtractToken(code, t);
    }
  }

  /** Every identifier directly after `set (` that is not standard is kept,
      possibly under an earlier spelling that differs only in case. */
  lemma KeptIfDefined(code: string, isStandard: string -> bool, tokens: seq<TokenInfo>, k: int)
    requires AllWithin(code, tokens) && 2 <= k < |tokens|
    requires DefinedAt(code, tokens, k, ExtractToken(code, tokens[k]))
    requires !isStandard(ExtractToken(code, tokens[k]))
    ensures var vars := RunVariables(code, isStandard, tokens).vars;
      exists i :: 0 <= i < |vars| && Upper(vars[i]) == Upper(ExtractToken(code, tokens[k]))
  {
    var name := ExtractToken(code, tokens[k]);
    StateTwoAt(code, isStandard, tokens, k);
    IdentifierKept(code, isStandard, RunVariables(code, isStandard, tokens[..k]), tokens[k]);
    var atK := RunVariables(code, isStandard, tokens[..k + 1]).vars;
    var j :| 0 <= j < |atK| && Upper(atK[j]) == Upper(name);
    VariablesAppendOnly(code, isStandard, tokens, k + 1);
    var vars := RunVariables(code, isStandard, tokens).vars;
    assert vars[j] == atK[j];
  }

  /** Before an identifier directly after `set (` the machine is in state
      2, and the identifier is its next step. */
  lemma StateTwoAt(code: string, isStandard: string -> bool, tokens: seq<TokenInfo>, k: int)
    requires AllWithin(code, tokens) && 2 <= k < |tokens|
    requires DefinedAt(code, tokens, k, ExtractToken(code, tokens[k]))
    ensures AllWithin(code, tokens[..k])
    ensures RunVariables(code, isStandard, tokens[..k]).state == 2
    ensures RunVariables(code, isStandard, tokens[..k + 1])
         == VariablesStep(code, isStandard, RunVariables(code, isStandard, tokens[..k]), tokens[k])
  {
    var upTo := tokens[..k + 1];
    assert upTo[..k] == tokens[..k];
    assert tokens[..k][k - 1] == tokens[k - 1] && tokens[..k][k - 2] == tokens[k - 2];
    VariablesStateMeaning(code, isStandard, tokens[..k]);
  }

  // ---------------------------------------------------------------------
  // ParseForTriggerCommandId
  // ---------------------------------------------------------------------

  /** The index of the first step whose token starts at `start`, or the
      number of steps when none does. */
  function FirstStartingAt(steps: seq<Step>, start: int): (k: nat)
    ensures k <= |steps|
    ensures forall j :: 0 <= j < k ==> steps[j].info.startIndex != start
    ensures k < |steps| ==> steps[k].info.startIndex == start
  {
    if steps == [] then 0
    else if steps[0].info.startIndex == start then 0
    else 1 + FirstStartingAt(steps[1..], start)
  }

  /** What `ParseForTriggerCommandId` answers: the scanner threads one
      state from line 0 through the request line; on the request line, the
      last command recorded in the state right after the first token that
      starts where the trigger token starts, or `Unspecified`. */
  function TriggerCommandId(sc: Scanner, lines: seq<string>, reqLine: int, tokenStart: int): CommandId
    requires 0 <= reqLine < |lines|
  {
    var scan := sc.scanLine(lines[reqLine], StateAfterLines(sc, lines[..reqLine], 0));
    var k := FirstStartingAt(scan.steps, tokenStart);
    if k < |scan.steps| then sc.lastCommand(scan.steps[k].state) else Unspecified
  }

  /** `ParseForTriggerCommandId`. `lines` is the buffer of the request's
      file and must contain the request line. */
  method ParseForTriggerCommandId(sc: Scanner, lines: seq<string>, reqLine: int, tokenStart: int)
    returns (id: CommandId)
    requires 0 <= reqLine < |lines|
    ensures id == TriggerCommandId(sc, lines, reqLine, tokenStart)
  {
    var state := 0;
    for lineNum := 0 to reqLine + 1
      invariant state == StateAfterLines(sc, lines[..lineNum], 0)
      invariant lineNum > reqLine ==> TriggerCommandId(sc, lines, reqLine, tokenStart) == Unspecified
    {
      var scan := sc.scanLine(lines[lineNum], state);
      var k := 0;
      while k < |scan.steps|
        invariant 0 <= k <= |scan.steps|
        invariant lineNum == reqLine ==> k <= FirstStartingAt(scan.steps, tokenStart)
      {
        if lineNum == reqLine && scan.steps[k].info.startIndex == tokenStart {
          return sc.lastCommand(scan.steps[k].state);
        }
        k := k + 1;
      }
      assert lines[..lineNum + 1][..lineNum] == lines[..lineNum];
      state := scan.endState;
    }
    return Unspecified;
  }

  /** Lines after the request line play no part. */
  lemma TriggerIgnoresLaterLines(sc: Scanner, lines: seq<string>, reqLine: int, tokenStart: int)
    requires 0 <= reqLine < |lines|
    ensures TriggerCommandId(sc, lines, reqLine, tokenStart) == TriggerCommandId(sc, lines[..reqLine + 1], reqLine, tokenStart)
  {
    assert lines[..reqLine + 1][..reqLine] == lines[..reqLine];
  }

  // ---------------------------------------------------------------------
  // ParseForParameterInfo
  // ---------------------------------------------------------------------

  /** A text span: start line and index, end line and index. The default
      span of the source is all zeros. */
  datatype TextSpan = TextSpan(startLine: int, startIndex: int, endLine: int, endIndex: int)

  /** The calls the parse makes on the request's sink, in order. */
  datatype SinkEvent =
    | StartName(span: TextSpan, name: Option<string>)
    | StartParameters(span: TextSpan)
    | NextParameter(span: TextSpan)
    | EndParameters(span: TextSpan)

  /** The local variables of the parse of the request line, and the sink
      calls made so far. */
  datatype ParameterScan = ParameterScan(
    commandText: Option<string>,
    lastWasCommand: bool,
    insideCommand: bool,
    parenDepth: int,
    lastCommandSpan: TextSpan,
    events: seq<SinkEvent>)

  const InitialParameterScan := ParameterScan(None, false, false, 0, TextSpan(0, 0, 0, 0), [])

  /** The span of a token of the request line. */
  function TokenSpan(reqLine: int, t: TokenInfo): (r: TextSpan)
    ensures r.startLine == r.endLine == reqLine
    ensures r.startIndex == t.startIndex && r.endIndex == t.endIndex
  {
    TextSpan(reqLine, t.startIndex, reqLine, t.endIndex)
  }

  /** The span the source passes to `NextParameter`: it assigns the start
      index twice and never the start line, so the start line keeps its
      default 0. */
  function NextParameterSpanAsWritten(reqLine: int, t: TokenInfo): TextSpan
  {
    TextSpan(0, t.startIndex, reqLine, t.endIndex)
  }

  /** One token of the request line; `state` is the scanner state right
      after it. */
  function ParameterStep(line: string, reqLine: int, sc: Scanner, p: ParameterScan, step: Step): ParameterScan
    requires Within(line, step.info)
  {
    var t := step.info;
    match t.token
    case Keyword =>
      if !sc.insideParens(step.state) then
        p.(lastCommandSpan := TokenSpan(reqLine, t),
           commandText := Some(Lower(ExtractToken(line, t))),
           lastWasCommand := true)
      else p
    case OpenParen =>
      if p.lastWasCommand then
        p.(events := p.events + [StartName(p.lastCommandSpan, p.commandText), StartParameters(TokenSpan(reqLine, t))],
           lastWasCommand := false,
           insideCommand := true,
           parenDepth := p.parenDepth + 1)
      else p.(parenDepth := p.parenDepth + 1)
    case WhiteSpace =>
      if p.parenDepth == 1 && p.insideCommand && t.parameterNext then
        p.(events := p.events + [NextParameter(TokenSpan(reqLine, t))])
      else p
    case CloseParen =>
      if p.parenDepth > 0 then
        if p.parenDepth - 1 == 0 && p.insideCommand then
          p.(parenDepth := 0, events := p.events + [EndParameters(TokenSpan(reqLine, t))], insideCommand := false)
        else p.(parenDepth := p.parenDepth - 1)
      else p
    case _ => p.(lastWasCommand := false)
  }

  predicate StepsWithin(line: string, steps: seq<Step>)
  {
    forall k :: 0 <= k < |steps| ==> Within(line, steps[k].info)
  }

  /** The parse of the request line after the given steps. */
  function RunParameters(line: string, reqLine: int, sc: Scanner, steps: seq<Step>): ParameterScan
    requires StepsWithin(line, steps)
  {
    if steps == [] then InitialParameterScan
    else ParameterStep(line, reqLine, sc, RunParameters(line, reqLine, sc, steps[..|steps| - 1]), steps[|steps| - 1])
  }

  /** The steps of the request line, scanned from the state the earlier
      lines leave. */
  function RequestLineScan(sc: Scanner, lines: seq<string>, reqLine: int): LineScan
    requires 0 <= reqLine < |lines|
  {
    sc.scanLine(lines[reqLine], StateAfterLines(sc, lines[..reqLine], 0))
  }

  /** `ParseForParameterInfo`: the command text it returns and the sink
      calls it makes. */
  method ParseForParameterInfo(sc: Scanner, lines: seq<string>, reqLine: int)
    returns (commandText: Option<string>, events: seq<SinkEvent>)
    requires 0 <= reqLine < |lines|
    requires TokensWithin(lines[reqLine], RequestLineScan(sc, lines, reqLine))
    ensures var p := RunParameters(lines[reqLine], reqLine, sc, RequestLineScan(sc, lines, reqLine).steps);
      commandText == p.commandText && events == p.events
  {
    var state := 0;
    for lineNum := 0 to reqLine
      invariant state == StateAfterLines(sc, lines[..lineNum], 0)
    {
      assert lines[..lineNum + 1][..lineNum] == lines[..lineNum];
      state := sc.scanLine(lines[lineNum], state).endState;
    }
    var line := lines[reqLine];
    var lastCommandSpan := TextSpan(0, 0, 0, 0);
    commandText := None;
    var lastWasCommand := false;
    var insideCommand := false;
    var parenDepth := 0;
    events := [];
    var scan := sc.scanLine(line, state);
    var k := 0;
    while k < |scan.steps|
      invariant 0 <= k <= |scan.steps|
      invariant ParameterScan(commandText, lastWasCommand, insideCommand, parenDepth, lastCommandSpan, events)
                == RunParameters(line, reqLine, sc, scan.steps[..k])
    {
      var t := scan.steps[k].info;
      state := scan.steps[k].state;
      assert scan.steps[..k + 1][..k] == scan.steps[..k];
      if t.token == Keyword {
        if !sc.insideParens(state) {
          lastCommandSpan := TextSpan(reqLine, t.startIndex, reqLine, t.endIndex);
          commandText := Some(Lower(ExtractToken(line, t)));
          lastWasCommand := true;
        }
      } else if t.token == OpenParen {
        if lastWasCommand {
          events := events + [StartName(lastCommandSpan, commandText)];
          var parenSpan := TextSpan(reqLine, t.startIndex, reqLine, t.endIndex);
          events := events + [StartParameters(parenSpan)];
          lastWasCommand := false;
          insideCommand := true;
        }
        parenDepth := parenDepth + 1;
      } else if t.token == WhiteSpace {
        if parenDepth == 1 && insideCommand {
          if t.parameterNext {
            var spaceSpan := TextSpan(reqLine, t.startIndex, reqLine, t.endIndex);
            events := events + [NextParameter(spaceSpan)];
          }
        }
      } else if t.token == CloseParen {
        if parenDepth > 0 {
          parenDepth := parenDepth - 1;
          if parenDepth == 0 && insideCommand {
            var parenSpan := TextSpan(reqLine, t.startIndex, reqLine, t.endIndex);
            events := events + [EndParameters(parenSpan)];
            insideCommand := false;
          }
        }
      } else {
        lastWasCommand := false;
      }
      k := k + 1;
    }
    assert scan.steps[..k] == scan.steps;
  }

  /** What holds of the parse at every token: the depth never goes
      negative, a command being inside its parentheses means depth at least
      one, and a pending command has its text and a span on the request
      line. */
  ghost predicate ParameterInvariant(reqLine: int, p: ParameterScan)
  {
    p.parenDepth >= 0 &&
    (p.insideCommand ==> p.parenDepth >= 1) &&
    (p.lastWasCommand ==> p.commandText.Some? && p.lastCommandSpan.startLine == p.lastCommandSpan.endLine == reqLine)
  }

  lemma {:induction false} RunParametersInvariant(line: string, reqLine: int, sc: Scanner, steps: seq<Step>)
    requires StepsWithin(line, steps)
    ensures ParameterInvariant(reqLine, RunParameters(line, reqLine, sc, steps))
  {
    if steps != [] {
      RunParametersInvariant(line, reqLine, sc, steps[..|steps| - 1]);
    }
  }

  /** The sink protocol: each `StartName` comes with the `StartParameters`
      right after it, and `NextParameter` and `EndParameters` come only
      while the parameters are open. `Some(open)` when the events follow it,
      telling whether parameters are open at the end. */
  function Protocol(events: seq<SinkEvent>): Option<bool>
  {
    if events == [] then Some(false)
    else
      var init := events[..|events| - 1];
      match events[|events| - 1]
      case StartParameters(_) =>
        if |init| >= 1 && init[|init| - 1].StartName? && Protocol(init[..|init| - 1]).Some? then Some(true) else None
      case NextParameter(_) => if Protocol(init) == Some(true) then Some(true) else None
      case EndParameters(_) => if Protocol(init) == Some(true) then Some(false) else None
      case StartName(_, _) => None
  }

  /** The events follow the protocol, and the parameters are open at the
      end exactly when the parse is inside a command. */
  lemma ProtocolOpen(events: seq<SinkEvent>, nameSpan: TextSpan, name: Option<string>, span: TextSpan)
    requires Protocol(events).Some?
    ensures Protocol(events + [StartName(nameSpan, name), StartParameters(span)]) == Some(true)
  {
    var e1 := events + [StartName(nameSpan, name)];
    var e2 := events + [StartName(nameSpan, name), StartParameters(span)];
    assert e2[..|e2| - 1] == e1;
    assert e1[..|e1| - 1] == events;
  }

  lemma ProtocolAppend(events: seq<SinkEvent>, e: SinkEvent)
    requires Protocol(events) == Some(true) && (e.NextParameter? || e.EndParameters?)
    ensures Protocol(events + [e]) == Some(e.NextParameter?)
  {
    assert (events + [e])[..|events|] == events;
  }

  lemma ProtocolStep(line: string, reqLine: int, sc: Scanner, p: ParameterScan, step: Step)
    requires Within(line, step.info)
    requires ParameterInvariant(reqLine, p) && Protocol(p.events) == Some(p.insideCommand)
    ensures var q := ParameterStep(line, reqLine, sc, p, step);
      Protocol(q.events) == Some(q.insideCommand)
  {
    var t := step.info;
    if t.token == OpenParen && p.lastWasCommand {
      ProtocolOpen(p.events, p.lastCommandSpan, p.commandText, TokenSpan(reqLine, t));
    } else if t.token == WhiteSpace && p.parenDepth == 1 && p.insideCommand && t.parameterNext {
      ProtocolAppend(p.events, NextParameter(TokenSpan(reqLine, t)));
    } else if t.token == CloseParen && p.parenDepth == 1 && p.insideCommand {
      ProtocolAppend(p.events, EndParameters(TokenSpan(reqLine, t)));
    }
  }

  /** The events follow the protocol, and the parameters are open at the
      end exactly when the parse is inside a command. */
  lemma {:induction false} RunParametersFollowsProtocol(line: string, reqLine: int, sc: Scanner, steps: seq<Step>)
    requires StepsWithin(line, steps)
    ensures var p := RunParameters(line, reqLine, sc, steps);
      Protocol(p.events) == Some(p.insideCommand)
  {
    if steps != [] {
      var init := steps[..|steps| - 1];
      RunParametersFollowsProtocol(line, reqLine, sc, init);
      RunParametersInvariant(line, reqLine, sc, init);
      ProtocolStep(line, reqLine, sc, RunParameters(line, reqLine, sc, init), steps[|steps| - 1]);
    }
  }

  ghost predicate EventsWellPlaced(reqLine: int, events: seq<SinkEvent>)
  {
    forall k :: 0 <= k < |events| ==>
      events[k].span.startLine == events[k].span.endLine == reqLine &&
      (events[k].StartName? ==> events[k].name.Some?)
  }

  lemma EventsStep(line: string, reqLine: int, sc: Scanner, p: ParameterScan, step: Step)
    requires Within(line, step.info)
    requires ParameterInvariant(reqLine, p) && EventsWellPlaced(reqLine, p.events)
    ensures EventsWellPlaced(reqLine, ParameterStep(line, reqLine, sc, p, step).events)
  {
  }

  /** Every sink call names a span of the request line, and every
      `StartName` carries the command's text. */
  lemma {:induction false} EventsOnRequestLine(line: string, reqLine: int, sc: Scanner, steps: seq<Step>)
    requires StepsWithin(line, steps)
    ensures EventsWellPlaced(reqLine, RunParameters(line, reqLine, sc, steps).events)
  {
    if steps != [] {
      var init := steps[..|steps| - 1];
      EventsOnRequestLine(line, reqLine, sc, init);
      RunParametersInvariant(line, reqLine, sc, init);
      EventsStep(line, reqLine, sc, RunParameters(line, reqLine, sc, init), steps[|steps| - 1]);
    }
  }

  /** Reference definition of the returned text: the lower-cased text of
      the last keyword the scanner reports outside parentheses, `None` when
      there is none. */
  function LastTopKeyword(line: string, sc: Scanner, steps: seq<Step>): Option<string>
    requires StepsWithin(line, steps)
  {
    if steps == [] then None
    else
      var last := steps[|steps| - 1];
      if last.info.token == Keyword && !sc.insideParens(last.state)
      then Some(Lower(ExtractToken(line, last.info)))
      else LastTopKeyword(line, sc, steps[..|steps| - 1])
  }

  lemma {:induction false} CommandTextIsLastTopKeyword(line: string, reqLine: int, sc: Scanner, steps: seq<Step>)
    requires StepsWithin(line, steps)
    ensures RunParameters(line, reqLine, sc, steps).commandText == LastTopKeyword(line, sc, steps)
  {
    if steps != [] {
      CommandTextIsLastTopKeyword(line, reqLine, sc, steps[..|steps| - 1]);
    }
  }

  /** As written, the span passed to `NextParameter` starts on line 0
      whatever the request line: on any later line it runs across lines. */
  lemma NextParameterSpanAsWrittenSpansLines(reqLine: int, t: TokenInfo)
    requires reqLine > 0
    ensures NextParameterSpanAsWritten(reqLine, t).startLine == 0
    ensures NextParameterSpanAsWritten(reqLine, t).startLine != NextParameterSpanAsWritten(reqLine, t).endLine
    ensures TokenSpan(reqLine, t).startLine == TokenSpan(reqLine, t).endLine
  {
  }

  // ---------------------------------------------------------------------
  // GetScanner: plain text or CMake
  // ---------------------------------------------------------------------

  /** The test `GetScanner` makes on the buffer's path: the buffer is plain
      text unless its extension is `.cmake`, or it is `.txt` and the file is
      `CMakeLists.txt`, both ignoring case. */
  function IsPlainText(path: string): bool
  {
    if Lower(GetExtension(path)) == ".cmake" then false
    else if Lower(GetExtension(path)) == ".txt" then Lower(GetFileName(path)) != "cmakelists.txt"
    else true
  }

  /** A file named `CMakeLists.txt`, in any case, has the extension `.txt`
      in some case. */
  lemma CMakeListsHasTxtExtension(path: string)
    requires Lower(GetFileName(path)) == "cmakelists.txt"
    ensures Lower(GetExtension(path)) == ".txt"
  {
    var n := |path|;
    var k := FileNameStart(path);
    assert |GetFileName(path)| == 14;
    assert n - k == 14;
    assert LowerChar(path[n - 1]) == 't' && LowerChar(path[n - 2]) == 'x' && LowerChar(path[n - 3]) == 't';
    assert LowerChar(path[n - 4]) == '.';
    assert path[n - 4] == '.';
    assert path[n - 1] != '.' && path[n - 2] != '.' && path[n - 3] != '.';
    assert !IsSeparator(path[n - 1]) && !IsSeparator(path[n - 2]) && !IsSeparator(path[n - 3]);
    assert ExtensionBefore(path, n) == ExtensionBefore(path, n - 1) == ExtensionBefore(path, n - 2)
      == ExtensionBefore(path, n - 3) == path[n - 4..];
    var e := Lower(path[n - 4..]);
    assert |e| == 4 && e[0] == '.' && e[1] == 't' && e[2] == 'x' && e[3] == 't';
    assert e == ".txt";
  }

  /** The buffer is plain text exactly when neither its lower-cased
      extension is `.cmake` nor its lower-cased file name is
      `cmakelists.txt`. */
  lemma IsPlainTextExactly(path: string)
    ensures IsPlainText(path) <==>
      !(Lower(GetExtension(path)) == ".cmake" || Lower(GetFileName(path)) == "cmakelists.txt")
  {
    if Lower(GetFileName(path)) == "cmakelists.txt" {
      CMakeListsHasTxtExtension(path);
    }
  }

  // ---------------------------------------------------------------------
  // ParseSource: dispatch on the parse reason
  // ---------------------------------------------------------------------

  datatype ParseReason = MemberSelect | MethodTip | OtherReason

  /** What the language service reads of a parse request: the reason, the
      kind and start of the token that triggered it, the whole buffer text
      and the request line. */
  datatype ParseRequest = ParseRequest(
    reason: ParseReason, token: TokenKind, tokenStart: int, text: string, line: int)

  /** The declarations an authoring scope can hold: the variable catalog,
      or the subcommand list of a command (built by
      `CMakeSubcommandDeclarations.GetSubcommandDeclarations`, which is
      not part of this model). */
  datatype ScopeDeclarations =
    | VariableList(catalog: VariableDeclarations.VariableDeclarations)
    | SubcommandList(id: CommandId)

  /** `CMakeAuthoringScope`: the declarations and methods set on it. */
  datatype AuthoringScope = AuthoringScope(
    declarations: Option<ScopeDeclarations>, methods: Option<Methods.MethodsObject>)

  /** The command a method tip is for: the command of the text returned by
      the parameter-info parse, unless there is none or it is not a known
      command. `commandId` stands for `CMakeKeywords.GetCommandId`. */
  function MethodTipCommand(commandText: Option<string>, commandId: string -> CommandId): Option<CommandId>
  {
    if commandText.Some? && commandId(commandText.value) != Unspecified
    then Some(commandId(commandText.value)) else None
  }

  /** `ParseSource`. `lines` are the lines of the buffer, `languages` the
      languages found in CMake's module directory (`None` when it was not
      found) and `commandId` the command-name lookup. Besides the scope, it
      returns the calls a method tip makes on the request's sink. */
  method ParseSource(req: ParseRequest, sc: Scanner, lines: seq<string>,
                     commandId: string -> CommandId, languages: Option<seq<string>>)
    returns (scope: AuthoringScope, events: seq<SinkEvent>)
    requires req.reason == MemberSelect && req.token == VariableStart ==>
      TokensWithin(req.text, sc.scanLine(req.text, 0))
    requires (req.reason == MemberSelect && req.token == OpenParen) || req.reason == MethodTip ==>
      0 <= req.line < |lines|
    requires req.reason == MethodTip ==>
      0 <= req.line < |lines| && TokensWithin(lines[req.line], RequestLineScan(sc, lines, req.line))
    ensures req.reason == MemberSelect && req.token == VariableStart ==>
      scope.methods.None? && scope.declarations.Some? && scope.declarations.value.VariableList? &&
      scope.declarations.value.catalog.variables == VariableDeclarations.Catalog(
        Some(RunVariables(req.text, StandardName(), TokenInfos(sc.scanLine(req.text, 0).steps)).vars), false, languages)
    ensures req.reason == MemberSelect && req.token == OpenParen ==>
      scope == AuthoringScope(Some(SubcommandList(TriggerCommandId(sc, lines, req.line, req.tokenStart))), None)
    ensures req.reason == MemberSelect && req.token != VariableStart && req.token != OpenParen ==>
      scope == AuthoringScope(None, None)
    ensures req.reason == MethodTip ==>
      var p := RunParameters(lines[req.line], req.line, sc, RequestLineScan(sc, lines, req.line).steps);
      var id := MethodTipCommand(p.commandText, commandId);
      scope.declarations.None? && events == p.events &&
      scope.methods == (if id.Some? then Methods.GetCommandParameters(id.value, None) else None)
    ensures req.reason != MethodTip ==> events == []
    ensures req.reason == OtherReason ==> scope == AuthoringScope(None, None)
  {
    scope := AuthoringScope(None, None);
    events := [];
    if req.reason == MemberSelect {
      if req.token == VariableStart {
        var vars := ParseForVariables(sc, req.text);
        var catalog := new VariableDeclarations.VariableDeclarations(Some(vars), false, languages);
        scope := scope.(declarations := Some(VariableList(catalog)));
      } else if req.token == OpenParen {
        var id := ParseForTriggerCommandId(sc, lines, req.line, req.tokenStart);
        scope := scope.(declarations := Some(SubcommandList(id)));
      }
    } else if req.reason == MethodTip {
      var commandText;
      commandText, events := ParseForParameterInfo(sc, lines, req.line);
      if commandText != None {
        var id := commandId(commandText.value);
        if id != Unspecified {
          scope := scope.(methods := Methods.GetCommandParameters(id, None));
        }
      }
    }
  }
}
