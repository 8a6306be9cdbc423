/** Statement parsing: `ASTParser::parse_statement` cuts the token stream
    into one group per statement and hands each group to the parser
    `ParserFactory::create` picks by its first token (assignment, command,
    IF/WHILE, or procedure definition and call). Bodies are parsed by
    re-running the segmenter on their tokens. */
module Statements {
  import opened Results
  import opened Literals
  import opened Tokens
  import opened Ast
  import opened Expressions

  // ---------------------------------------------------------------------
  // Segmenting

  function Drop1(ts: seq<Token>): seq<Token> {
    if |ts| == 0 then [] else ts[1..]
  }

  /** `g` is a prefix of `ts`, and `rest` is what follows it with one token
      dropped (if there is one): the loops of `parse_statement` never lose or
      reorder anything else. */
  predicate Cut(ts: seq<Token>, g: seq<Token>, rest: seq<Token>) {
    |g| <= |ts| && g == ts[..|g|] && rest == Drop1(ts[|g|..])
  }

  lemma CutCons(ts: seq<Token>, a: seq<Token>, rest: seq<Token>)
    requires |ts| > 0 && Cut(ts[1..], a, rest)
    ensures Cut(ts, [ts[0]] + a, rest)
  {
    assert ts[1..][|a|..] == ts[|a| + 1..];
    assert ([ts[0]] + a) == ts[..|a| + 1];
  }

  /** A cut of what follows a prefix is a cut of the whole. */
  lemma CutAfter(ts: seq<Token>, head: seq<Token>, after: seq<Token>, g: seq<Token>, rest: seq<Token>)
    requires ts == head + after && Cut(after, g, rest)
    ensures Cut(ts, head + g, rest)
  {
    assert ts[..|head + g|] == head + g;
    assert ts[|head + g|..] == after[|g|..];
  }

  /** Tokens up to and including the first `[` (all of them if none), and
      what follows. */
  function TakeThroughLeft(ts: seq<Token>): (r: (seq<Token>, seq<Token>))
    ensures ts == r.0 + r.1
    ensures forall k :: 0 <= k < |r.0| - 1 ==> r.0[k] != LeftBracket
    ensures |r.1| > 0 ==> |r.0| > 0 && r.0[|r.0| - 1] == LeftBracket
  {
    if |ts| == 0 then ([], [])
    else if ts[0] == LeftBracket then ([ts[0]], ts[1..])
    else
      var (a, rest) := TakeThroughLeft(ts[1..]);
      ([ts[0]] + a, rest)
  }

  /** No non-empty prefix of `ts` closes `depth` brackets: the bracket
      counter of the IF/WHILE loop, started at `depth`, never reaches zero
      inside `ts`. */
  predicate StaysOpen(ts: seq<Token>, depth: int) {
    forall j :: 0 < j <= |ts| ==> Count(ts[..j], RightBracket) < Count(ts[..j], LeftBracket) + depth
  }

  /** A token that leaves the counter positive, followed by tokens that keep
      it positive from there, keeps it positive throughout. */
  lemma StaysOpenCons(t: Token, a: seq<Token>, depth: int)
    requires depth + (if t == LeftBracket then 1 else 0) - (if t == RightBracket then 1 else 0) > 0
    requires StaysOpen(a, depth + (if t == LeftBracket then 1 else 0) - (if t == RightBracket then 1 else 0))
    ensures StaysOpen([t] + a, depth)
  {
    var d := depth + (if t == LeftBracket then 1 else 0) - (if t == RightBracket then 1 else 0);
    forall j | 0 < j <= |[t] + a|
      ensures Count(([t] + a)[..j], RightBracket) < Count(([t] + a)[..j], LeftBracket) + depth
    {
      var p := ([t] + a)[..j];
      assert p[0] == t && p[1..] == a[..j - 1];
      if j > 1 {
        assert Count(a[..j - 1], RightBracket) < Count(a[..j - 1], LeftBracket) + d;
      } else {
        assert p[1..] == [];
      }
    }
  }

  /** The bracket counter of the IF/WHILE loop: tokens up to the `]` that
      brings `depth` to zero, which is kept, and the token after it dropped.
      `closed` says whether that happened before the tokens ran out; when it
      did, the kept tokens close exactly `depth` more brackets than they
      open, and no shorter prefix does. */
  function TakeBalanced(ts: seq<Token>, depth: int): (r: (seq<Token>, seq<Token>, bool))
    requires depth >= 1
    ensures Cut(ts, r.0, r.1)
    ensures !r.2 ==> ts == r.0 && r.1 == [] && StaysOpen(r.0, depth)
    ensures r.2 ==> |r.0| > 0 && r.0[|r.0| - 1] == RightBracket
    ensures r.2 ==> Count(r.0, RightBracket) == Count(r.0, LeftBracket) + depth
    ensures r.2 ==> StaysOpen(r.0[..|r.0| - 1], depth)
  {
    if |ts| == 0 then ([], [], false)
    else
      var d := depth + (if ts[0] == LeftBracket then 1 else 0) - (if ts[0] == RightBracket then 1 else 0);
      if d == 0 then
        assert [ts[0]][1..] == [];
        assert [ts[0]][..0] == [];
        ([ts[0]], Drop1(ts[1..]), true)
      else
        var (a, rest, closed) := TakeBalanced(ts[1..], d);
        CutCons(ts, a, rest);
        assert ([ts[0]] + a)[1..] == a;
        if closed then
          assert ([ts[0]] + a)[..|a|] == [ts[0]] + a[..|a| - 1];
          StaysOpenCons(ts[0], a[..|a| - 1], depth);
          ([ts[0]] + a, rest, closed)
        else
          StaysOpenCons(ts[0], a, depth);
          ([ts[0]] + a, rest, closed)
  }

  /** Tokens up to and including the first END, the token after it dropped. */
  function TakeThroughEnd(ts: seq<Token>): (r: (seq<Token>, seq<Token>))
    ensures Cut(ts, r.0, r.1)
    ensures forall k :: 0 <= k < |r.0| - 1 ==> !r.0[k].IsKeyword(End)
    ensures |r.0| < |ts| ==> |r.0| > 0 && r.0[|r.0| - 1].IsKeyword(End)
  {
    if |ts| == 0 then ([], [])
    else if ts[0].IsKeyword(End) then ([ts[0]], Drop1(ts[1..]))
    else
      var (a, rest) := TakeThroughEnd(ts[1..]);
      CutCons(ts, a, rest);
      ([ts[0]] + a, rest)
  }

  /** Tokens before the first `Space`, and those after it. */
  function TakeLine(ts: seq<Token>): (r: (seq<Token>, seq<Token>))
    ensures Cut(ts, r.0, r.1)
    ensures Space !in r.0
    ensures |r.0| < |ts| ==> ts[|r.0|] == Space
  {
    if |ts| == 0 then ([], [])
    else if ts[0] == Space then ([], ts[1..])
    else
      var (a, rest) := TakeLine(ts[1..]);
      CutCons(ts, a, rest);
      ([ts[0]] + a, rest)
  }

  /** The group of an IF or WHILE: the keyword, the test through the first
      `[`, then through the `]` that balances it. */
  function GroupIfWhile(ts: seq<Token>): (r: (seq<Token>, seq<Token>))
    requires |ts| > 0
    ensures |r.0| > 0 && r.0[0] == ts[0] && Cut(ts, r.0, r.1)
    ensures var head := TakeThroughLeft(ts[1..]);
            var body := TakeBalanced(head.1, 1);
            r.0 == [ts[0]] + head.0 + body.0 && r.1 == body.1
  {
    var (head, afterLeft) := TakeThroughLeft(ts[1..]);
    var (body, rest, _) := TakeBalanced(afterLeft, 1);
    CutAfter(ts[1..], head, afterLeft, body, rest);
    CutCons(ts, head + body, rest);
    assert [ts[0]] + (head + body) == [ts[0]] + head + body;
    ([ts[0]] + (head + body), rest)
  }

  /** The group of a TO: through the first END. */
  function GroupTo(ts: seq<Token>): (r: (seq<Token>, seq<Token>))
    requires |ts| > 0
    ensures |r.0| > 0 && r.0[0] == ts[0] && Cut(ts, r.0, r.1)
    ensures forall k :: 0 < k < |r.0| - 1 ==> !r.0[k].IsKeyword(End)
    ensures |r.0| < |ts| ==> |r.0| > 1 && r.0[|r.0| - 1].IsKeyword(End)
  {
    var (a, rest) := TakeThroughEnd(ts[1..]);
    CutCons(ts, a, rest);
    NoEndAfterFirst(ts[0], a);
    ([ts[0]] + a, rest)
  }

  lemma NoEndAfterFirst(t: Token, a: seq<Token>)
    requires forall k :: 0 <= k < |a| - 1 ==> !a[k].IsKeyword(End)
    ensures forall k :: 0 < k < |[t] + a| - 1 ==> !([t] + a)[k].IsKeyword(End)
  {
    forall k | 0 < k < |[t] + a| - 1
      ensures !([t] + a)[k].IsKeyword(End)
    {
      assert ([t] + a)[k] == a[k - 1];
    }
  }

  /** The group of any other statement: the rest of its line. */
  function GroupLine(ts: seq<Token>): (r: (seq<Token>, seq<Token>))
    requires |ts| > 0
    ensures |r.0| > 0 && r.0[0] == ts[0] && Cut(ts, r.0, r.1)
    ensures Space !in r.0[1..] && (|r.0| < |ts| ==> ts[|r.0|] == Space)
  {
    var (a, rest) := TakeLine(ts[1..]);
    CutCons(ts, a, rest);
    assert ([ts[0]] + a)[1..] == a;
    ([ts[0]] + a, rest)
  }

  /** One turn of the `parse_statement` loop: the group of the statement
      that starts the stream, and the stream after it. A stray END has no TO
      before it. */
  function NextGroup(ts: seq<Token>): (r: Result<(seq<Token>, seq<Token>)>)
    requires |ts| > 0
    ensures r.Err? <==> ts[0].IsKeyword(End)
    ensures r.Err? ==> r.error == Syntax(EndWithoutTo)
    ensures r.Ok? ==> |r.value.0| > 0 && r.value.0[0] == ts[0] && Cut(ts, r.value.0, r.value.1)
    ensures r.Ok? && !ts[0].KeywordTok? ==> r.value == GroupLine(ts)
  {
    match ts[0]
    case KeywordTok(End) => Err(Syntax(EndWithoutTo))
    case KeywordTok(To) => Ok(GroupTo(ts))
    case KeywordTok(_) => Ok(GroupIfWhile(ts))
    case _ => Ok(GroupLine(ts))
  }

  // ---------------------------------------------------------------------
  // Statement parsers

  /** `ControlsParser::args_check`: pen commands take no operand, every other
      command exactly one. */
  function Arity(c: CommandType): nat {
    if c == Penup || c == Pendown then 0 else 1
  }

  /** `ControlsParser`: a command, then operands until the group is used up;
      their number must be the command's arity. */
  function ParseControls(g: seq<Token>): (r: Result<Statement>)
    ensures r.Ok? ==> |g| > 0 && g[0].CommandTok?
    ensures r.Ok? ==> r.value.CallStatement? && r.value.call.callee == CommandCallee(g[0].command)
    ensures r.Ok? ==> |r.value.call.arguments| == Arity(g[0].command)
                      && g[1..] == SpellAll(r.value.call.arguments)
  {
    if |g| == 0 then Err(Syntax(ExhaustedTokens))
    else if !g[0].CommandTok? then Err(Syntax(ExpectedCommand))
    else
      var args :- ParseAll(g[1..]);
      if |args| == Arity(g[0].command) then Ok(CallStatement(CallExpression(CommandCallee(g[0].command), args)))
      else Err(Syntax(WrongArity))
  }

  /** `VariableAssignParser`: MAKE or ADDASSIGN, a variable name, then one
      operand; tokens after the operand are ignored. */
  function ParseAssignment(g: seq<Token>): (r: Result<Statement>)
    ensures r.Ok? ==> r.value.Assignment? && |g| >= 2 && g[0].AssignTok?
                      && g[1] == IdentTok(Variable(r.value.left)) && r.value.op == g[0].assign
                      && ParseBuffer(g[2..]) == Ok(r.value.right)
    ensures |g| == 0 ==> r == Err(Syntax(ExhaustedTokens))
  {
    if |g| == 0 then Err(Syntax(ExhaustedTokens))
    else if !g[0].AssignTok? then Err(Syntax(ExpectedAssignment))
    else if |g| == 1 then Err(Syntax(ExhaustedTokens))
    else if !(g[1].IdentTok? && g[1].ident.Variable?) then Err(Syntax(ExpectedVariableName))
    else
      var right :- ParseBuffer(g[2..]);
      Ok(Assignment(g[0].assign, g[1].ident.name, right))
  }

  function IndexOf(g: seq<Token>, t: Token): (i: nat)
    ensures i <= |g| && (i < |g| ==> g[i] == t) && t !in g[..i]
  {
    if |g| == 0 then 0
    else if g[0] == t then 0
    else
      var i := 1 + IndexOf(g[1..], t);
      assert g[..i] == [g[0]] + g[1..][..i - 1];
      i
  }

  /** All but the last token (`Vec::pop`). */
  function DropLast(ts: seq<Token>): seq<Token> {
    if |ts| == 0 then [] else ts[..|ts| - 1]
  }

  /** The tokens after `i` skipped ones. */
  function Skip(ts: seq<Token>, i: nat): seq<Token> {
    if i >= |ts| then [] else ts[i..]
  }

  /** The bracket check of `parse_if_while`: some `[`, and as many `]`. */
  function CheckBrackets(g: seq<Token>): (r: Result<()>)
    ensures r.Ok? <==> Count(g, LeftBracket) > 0 && Count(g, LeftBracket) == Count(g, RightBracket)
    ensures Count(g, LeftBracket) == 0 ==> r == Err(Syntax(MissingLeftBracket))
  {
    if Count(g, LeftBracket) == 0 then Err(Syntax(MissingLeftBracket))
    else if Count(g, LeftBracket) != Count(g, RightBracket) then Err(Syntax(UnbalancedBrackets))
    else Ok(())
  }

  /** The test tokens of an IF/WHILE group: after the keyword, before the
      first `[`. */
  function TestTokens(g: seq<Token>): seq<Token> {
    var rest := Skip(g, 1);
    rest[..IndexOf(rest, LeftBracket)]
  }

  /** The body tokens: from the first `[`, two skipped (the bracket and the
      separator after it), the closing `]` popped. */
  function BodyTokens(g: seq<Token>): (b: seq<Token>)
    ensures |b| < |g| || g == []
  {
    DropLast(Skip(g, IndexOf(g, LeftBracket) + 2))
  }

  /** The tokens of a TO group after its first `Space`, the END popped. */
  function ProcedureBodyTokens(g: seq<Token>): (b: seq<Token>)
    ensures |b| < |g| || g == []
  {
    DropLast(Skip(g, IndexOf(g, Space) + 1))
  }

  /** The formal parameters of a TO group: the tokens after the name up to
      the first `Space`, each of which must be a variable. */
  function ParseParameters(ts: seq<Token>): (r: Result<seq<string>>)
    ensures r.Ok? ==> |r.value| <= |ts|
    ensures r.Ok? ==> forall k :: 0 <= k < |r.value| ==> ts[k] == IdentTok(Variable(r.value[k]))
    ensures r.Ok? ==> |r.value| == |ts| || ts[|r.value|] == Space
    ensures r.Err? ==> r.error == Syntax(ExpectedVariableName)
  {
    if |ts| == 0 || ts[0] == Space then Ok([])
    else if !(ts[0].IdentTok? && ts[0].ident.Variable?) then Err(Syntax(ExpectedVariableName))
    else
      var ps :- ParseParameters(ts[1..]);
      Ok([ts[0].ident.name] + ps)
  }

  /** The two successful outcomes of the procedure parser's first check. */
  datatype ProcedureState = Define | Call

  /** `procedures::syntax_check`: TO ... END defines, TO without END and END
      without TO are errors, and anything else is a call. */
  function ProcedureSyntax(g: seq<Token>): (r: Result<ProcedureState>)
    ensures |g| == 0 ==> r == Err(Syntax(ExhaustedTokens))
    ensures |g| > 0 ==>
              r == (if g[0].IsKeyword(To) && g[|g| - 1].IsKeyword(End) then Ok(Define)
                    else if g[0].IsKeyword(To) && !g[|g| - 1].KeywordTok? then Err(Syntax(ToWithoutEnd))
                    else if !g[0].KeywordTok? && g[|g| - 1].IsKeyword(End) then Err(Syntax(EndWithoutTo))
                    else Ok(Call))
  {
    if |g| == 0 then Err(Syntax(ExhaustedTokens))
    else
      var first, last := g[0], g[|g| - 1];
      if first.IsKeyword(To) && last.IsKeyword(End) then Ok(Define)
      else if first.IsKeyword(To) && !last.KeywordTok? then Err(Syntax(ToWithoutEnd))
      else if !first.KeywordTok? && last.IsKeyword(End) then Err(Syntax(EndWithoutTo))
      else Ok(Call)
  }

  /** `parse_call`: a procedure name, then operands until the group is used
      up. The number of operands is not checked here. */
  function ParseCall(g: seq<Token>): (r: Result<Statement>)
    ensures r.Ok? ==> |g| > 0 && g[0].IdentTok? && g[0].ident.Procedure?
    ensures r.Ok? ==> r.value.CallStatement? && r.value.call.callee == ProcedureCallee(g[0].ident.name)
                      && g[1..] == SpellAll(r.value.call.arguments)
  {
    if |g| == 0 then Err(Syntax(ExhaustedTokens))
    else if !(g[0].IdentTok? && g[0].ident.Procedure?) then Err(Syntax(ExpectedProcedureName))
    else
      var args :- ParseAll(g[1..]);
      Ok(CallStatement(CallExpression(ProcedureCallee(g[0].ident.name), args)))
  }

  // ---------------------------------------------------------------------
  // The mutually recursive core: segmenting, dispatch, and the parsers
  // that parse a body

  /** `ASTParser::parse_statement`: each group is parsed as soon as it is
      cut, so a group's parse error comes before any later group's. */
  function ParseStatements(ts: seq<Token>): (r: Result<seq<Statement>>)
    ensures |ts| == 0 ==> r == Ok([])
    decreases |ts|, 3
  {
    if |ts| == 0 then Ok([])
    else
      var (g, rest) :- NextGroup(ts);
      var s :- ParseGroup(g);
      var ss :- ParseStatements(rest);
      Ok([s] + ss)
  }

  /** `ParserFactory::create` followed by the chosen parser. */
  function ParseGroup(g: seq<Token>): (r: Result<Statement>)
    ensures r.Ok? ==> |g| > 0
    ensures |g| > 0 && g[0].CommandTok? ==> r == ParseControls(g)
    ensures |g| > 0 && g[0].AssignTok? ==> r == ParseAssignment(g)
    ensures (&& |g| > 0 && !g[0].CommandTok? && !g[0].AssignTok? && !g[0].KeywordTok?
             && !(g[0].IdentTok? && g[0].ident.Procedure?)) ==> r == Err(Syntax(UnexpectedFirstToken))
    decreases |g|, 2
  {
    if |g| == 0 then Err(Syntax(ExhaustedTokens))
    else match g[0]
      case AssignTok(_) => ParseAssignment(g)
      case CommandTok(_) => ParseControls(g)
      case KeywordTok(If) =>
        var (test, body) :- ParseIfWhile(g);
        Ok(IfStatement(test, body))
      case KeywordTok(While) =>
        var (test, body) :- ParseIfWhile(g);
        Ok(WhileStatement(test, body))
      case KeywordTok(To) => ParseProcedure(g)
      case KeywordTok(End) => Err(Syntax(UnexpectedFirstToken))
      case IdentTok(Procedure(_)) => ParseProcedure(g)
      case _ => Err(Syntax(UnexpectedFirstToken))
  }

  /** `parse_if_while`, shared by IF and WHILE: the bracket check, then the
      test (the first operand before the first `[`), then the body. */
  function ParseIfWhile(g: seq<Token>): (r: Result<(Value, seq<Statement>)>)
    ensures Count(g, LeftBracket) == 0 ==> r == Err(Syntax(MissingLeftBracket))
    ensures r.Ok? ==> CheckBrackets(g).Ok? && ParseBuffer(TestTokens(g)) == Ok(r.value.0)
    decreases |g|, 1
  {
    var _ :- CheckBrackets(g);
    var test :- ParseBuffer(TestTokens(g));
    var body :- ParseStatements(BodyTokens(g));
    Ok((test, body))
  }

  /** `ProcedureParser`: a definition or a call, as the syntax check says. */
  function ParseProcedure(g: seq<Token>): (r: Result<Statement>)
    ensures r.Ok? && r.value.ProcedureDeclaration? ==>
              |g| >= 2 && g[0].IsKeyword(To) && g[|g| - 1].IsKeyword(End)
              && g[1] == IdentTok(Procedure(r.value.name))
              && ParseParameters(g[2..]) == Ok(r.value.arguments)
    ensures ProcedureSyntax(g) == Ok(Call) ==> r == ParseCall(g)
    ensures ProcedureSyntax(g).Err? ==> r == Err(ProcedureSyntax(g).error)
    decreases |g|, 1
  {
    var state :- ProcedureSyntax(g);
    match state
    case Call => ParseCall(g)
    case Define =>
      if |g| < 2 then Err(Syntax(ExhaustedTokens))
      else if !(g[1].IdentTok? && g[1].ident.Procedure?) then Err(Syntax(ExpectedProcedureName))
      else
        var params :- ParseParameters(g[2..]);
        var body :- ParseStatements(ProcedureBodyTokens(g));
        Ok(ProcedureDeclaration(g[1].ident.name, params, body))
  }
}
