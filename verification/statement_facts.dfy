/** Properties of statement parsing: IF and WHILE share one parser, and
    each statement kind parses back from the tokens it is written with. */
module StatementFacts {
  import opened Results
  import opened Literals
  import opened Tokens
  import opened Ast
  import opened Expressions
  import opened Statements

  // ---------------------------------------------------------------------
  // Dispatch on the first token, one case at a time

  lemma DispatchIf(g: seq<Token>)
    requires |g| > 0 && g[0] == KeywordTok(If)
    ensures var p := ParseIfWhile(g);
            ParseGroup(g) == if p.Ok? then Ok(IfStatement(p.value.0, p.value.1)) else Err(p.error)
  {
  }

  lemma DispatchWhile(g: seq<Token>)
    requires |g| > 0 && g[0] == KeywordTok(While)
    ensures var p := ParseIfWhile(g);
            ParseGroup(g) == if p.Ok? then Ok(WhileStatement(p.value.0, p.value.1)) else Err(p.error)
  {
  }

  lemma DispatchProcedure(g: seq<Token>)
    requires |g| > 0 && (g[0] == KeywordTok(To) || (g[0].IdentTok? && g[0].ident.Procedure?))
    ensures ParseGroup(g) == ParseProcedure(g)
  {
  }

  /** A group that passes the syntax check as a definition, with a name, its
      parameters and a body that parse. */
  lemma DefinitionParses(g: seq<Token>, name: string, ps: seq<string>, b: seq<Statement>)
    requires ProcedureSyntax(g) == Ok(Define)
    requires |g| >= 2 && g[1] == IdentTok(Procedure(name)) && ParseParameters(g[2..]) == Ok(ps)
    requires ParseStatements(ProcedureBodyTokens(g)) == Ok(b)
    ensures ParseProcedure(g) == Ok(ProcedureDeclaration(name, ps, b))
  {
  }

  /** Spelled operands never contain a keyword, a bracket or a separator. */
  lemma {:induction false} SpellIsPlain(v: Value)
    ensures forall k :: 0 <= k < |Spell(v)| ==>
              !Spell(v)[k].KeywordTok? && Spell(v)[k] != Space
              && Spell(v)[k] != LeftBracket && Spell(v)[k] != RightBracket
  {
    match v
    case Binary(e) =>
      SpellIsPlain(e.left);
      SpellIsPlain(e.right);
      var s := Spell(v);
      assert s == [OperatorToken(e.op)] + Spell(e.left) + Spell(e.right);
      forall k | 0 <= k < |s|
        ensures !s[k].KeywordTok? && s[k] != Space && s[k] != LeftBracket && s[k] != RightBracket
      {
        if k == 0 {
        } else if k <= |Spell(e.left)| {
          assert s[k] == Spell(e.left)[k - 1];
        } else {
          assert s[k] == Spell(e.right)[k - 1 - |Spell(e.left)|];
        }
      }
    case _ =>
  }

  lemma {:induction false} SpellAllIsPlain(vs: seq<Value>)
    ensures forall k :: 0 <= k < |SpellAll(vs)| ==>
              !SpellAll(vs)[k].KeywordTok? && SpellAll(vs)[k] != Space
  {
    if |vs| > 0 {
      SpellIsPlain(vs[0]);
      SpellAllIsPlain(vs[1..]);
      var s := SpellAll(vs);
      forall k | 0 <= k < |s|
        ensures !s[k].KeywordTok? && s[k] != Space
      {
        if k < |Spell(vs[0])| {
          assert s[k] == Spell(vs[0])[k];
        } else {
          assert s[k] == SpellAll(vs[1..])[k - |Spell(vs[0])|];
        }
      }
    }
  }

  /** A command followed by spelled operands parses to that command call
      exactly when the number of operands is the command's arity. */
  lemma ControlsRoundTrip(c: CommandType, vs: seq<Value>)
    requires forall k :: 0 <= k < |vs| ==> Parsable(vs[k])
    ensures ParseGroup([CommandTok(c)] + SpellAll(vs)) ==
            if |vs| == Arity(c) then Ok(CallStatement(CallExpression(CommandCallee(c), vs)))
            else Err(Syntax(WrongArity))
  {
    var g := [CommandTok(c)] + SpellAll(vs);
    assert g[1..] == SpellAll(vs);
    ParseAllSpellAll(vs);
  }

  /** A procedure name followed by spelled operands parses to a call of that
      procedure with those operands, whatever their number. */
  lemma CallRoundTrip(name: string, vs: seq<Value>)
    requires forall k :: 0 <= k < |vs| ==> Parsable(vs[k])
    ensures ParseGroup([IdentTok(Procedure(name))] + SpellAll(vs)) ==
            Ok(CallStatement(CallExpression(ProcedureCallee(name), vs)))
  {
    var g := [IdentTok(Procedure(name))] + SpellAll(vs);
    assert g[1..] == SpellAll(vs);
    CallIsNoDefinition(name, vs);
    ParseAllSpellAll(vs);
    assert ParseCall(g) == Ok(CallStatement(CallExpression(ProcedureCallee(name), vs)));
    DispatchProcedure(g);
  }

  /** Spelled operands never end in END, so a call is never taken for a
      malformed definition. */
  lemma CallIsNoDefinition(name: string, vs: seq<Value>)
    ensures ProcedureSyntax([IdentTok(Procedure(name))] + SpellAll(vs)) == Ok(Call)
  {
    var g := [IdentTok(Procedure(name))] + SpellAll(vs);
    SpellAllIsPlain(vs);
    if |g| > 1 {
      assert g[|g| - 1] == SpellAll(vs)[|SpellAll(vs)| - 1];
    }
  }

  /** MAKE or ADDASSIGN, a variable and a spelled operand parse to that
      assignment; whatever follows the operand is ignored. */
  lemma AssignmentRoundTrip(op: AssignmentType, name: string, v: Value, trailing: seq<Token>)
    requires Parsable(v)
    ensures ParseGroup([AssignTok(op), IdentTok(Variable(name))] + Spell(v) + trailing) ==
            Ok(Assignment(op, name, v))
  {
    var g := [AssignTok(op), IdentTok(Variable(name))] + Spell(v) + trailing;
    assert g[2..] == Spell(v) + trailing;
    ParseSpell(v, trailing);
  }

  lemma CountCons(t: Token, ts: seq<Token>, u: Token)
    ensures Count([t] + ts, u) == (if t == u then 1 else 0) + Count(ts, u)
  {
    assert ([t] + ts)[1..] == ts;
  }

  /** Two IF/WHILE groups that differ only in their keyword are taken apart
      identically. */
  lemma SameIfWhileParts(k1: KeywordType, k2: KeywordType, rest: seq<Token>)
    ensures ParseIfWhile([KeywordTok(k1)] + rest) == ParseIfWhile([KeywordTok(k2)] + rest)
  {
    var g1, g2 := [KeywordTok(k1)] + rest, [KeywordTok(k2)] + rest;
    CountCons(KeywordTok(k1), rest, LeftBracket);
    CountCons(KeywordTok(k2), rest, LeftBracket);
    CountCons(KeywordTok(k1), rest, RightBracket);
    CountCons(KeywordTok(k2), rest, RightBracket);
    assert g1[1..] == rest && g2[1..] == rest;
    assert IndexOf(g1, LeftBracket) == IndexOf(g2, LeftBracket);
    var n := IndexOf(g1, LeftBracket) + 2;
    assert Skip(g1, n) == Skip(g2, n);
    assert Skip(g1, 1) == Skip(g2, 1);
    assert CheckBrackets(g1) == CheckBrackets(g2);
    assert TestTokens(g1) == TestTokens(g2);
    assert BodyTokens(g1) == BodyTokens(g2);
  }

  /** IF and WHILE accept the same groups, fail with the same error, and
      produce the same test and body. */
  lemma IfWhileSymmetric(rest: seq<Token>)
    ensures var i := ParseGroup([KeywordTok(If)] + rest);
            var w := ParseGroup([KeywordTok(While)] + rest);
            && (i.Ok? <==> w.Ok?)
            && (i.Err? ==> w == Err(i.error))
            && (i.Ok? ==> i.value.IfStatement?
                          && w.value == WhileStatement(i.value.test, i.value.consequent))
  {
    SameIfWhileParts(If, While, rest);
    DispatchIf([KeywordTok(If)] + rest);
    DispatchWhile([KeywordTok(While)] + rest);
  }

  /** The tokens of an IF group written the usual way: keyword, test
      operand, `[`, one separator, body, `]`. */
  function IfGroup(v: Value, sep: Token, body: seq<Token>): seq<Token> {
    [KeywordTok(If)] + Spell(v) + ([LeftBracket, sep] + body + [RightBracket])
  }

  lemma IfGroupBrackets(v: Value, sep: Token, body: seq<Token>)
    requires Count(body, LeftBracket) == Count(body, RightBracket)
    requires sep != LeftBracket && sep != RightBracket
    ensures CheckBrackets(IfGroup(v, sep, body)).Ok?
  {
    var sv := Spell(v);
    var head, tail := [KeywordTok(If)] + sv, [LeftBracket, sep] + body + [RightBracket];
    SpellIsPlain(v);
    NoBracketCount(sv);
    CountCons(KeywordTok(If), sv, LeftBracket);
    CountCons(KeywordTok(If), sv, RightBracket);
    TailBrackets(sep, body, LeftBracket);
    TailBrackets(sep, body, RightBracket);
    CountAppend(head, tail, LeftBracket);
    CountAppend(head, tail, RightBracket);
  }

  /** The bracketed part of an IF group holds the body's brackets and one
      pair more. */
  lemma TailBrackets(sep: Token, body: seq<Token>, u: Token)
    requires u == LeftBracket || u == RightBracket
    requires sep != LeftBracket && sep != RightBracket
    ensures Count([LeftBracket, sep] + body + [RightBracket], u) == Count(body, u) + 1
  {
    var open := [LeftBracket, sep];
    assert open == [LeftBracket] + ([sep] + []);
    CountCons(LeftBracket, [sep] + [], u);
    CountCons(sep, [], u);
    CountCons(RightBracket, [], u);
    assert [RightBracket] == [RightBracket] + [];
    CountAppend(open, body, u);
    CountAppend(open + body, [RightBracket], u);
  }

  lemma IfGroupParts(v: Value, sep: Token, body: seq<Token>)
    ensures TestTokens(IfGroup(v, sep, body)) == Spell(v)
    ensures BodyTokens(IfGroup(v, sep, body)) == body
  {
    SpellIsPlain(v);
    IfGroupTest(Spell(v), [LeftBracket, sep] + body + [RightBracket]);
    IfGroupBody(Spell(v), sep, body);
  }

  lemma IfGroupTest(sv: seq<Token>, tail: seq<Token>)
    requires LeftBracket !in sv && |tail| > 0 && tail[0] == LeftBracket
    ensures TestTokens([KeywordTok(If)] + sv + tail) == sv
  {
    var g := [KeywordTok(If)] + sv + tail;
    assert Skip(g, 1) == sv + tail;
    FirstLeftBracket(sv, tail);
    assert (sv + tail)[..|sv|] == sv;
  }

  lemma IfGroupBody(sv: seq<Token>, sep: Token, body: seq<Token>)
    requires LeftBracket !in sv
    ensures BodyTokens([KeywordTok(If)] + sv + ([LeftBracket, sep] + body + [RightBracket])) == body
  {
    var head, tail := [KeywordTok(If)] + sv, [LeftBracket, sep] + body + [RightBracket];
    var g := head + tail;
    assert LeftBracket !in head by {
      assert forall k :: 0 < k < |head| ==> head[k] == sv[k - 1];
    }
    FirstLeftBracket(head, tail);
    assert g[|head| + 2..] == body + [RightBracket];
    assert Skip(g, IndexOf(g, LeftBracket) + 2) == body + [RightBracket];
    assert (body + [RightBracket])[..|body|] == body;
  }

  /** An IF group written the usual way parses to its test and body. */
  lemma IfRoundTrip(v: Value, sep: Token, body: seq<Token>, b: seq<Statement>)
    requires Parsable(v)
    requires Count(body, LeftBracket) == Count(body, RightBracket)
    requires ParseStatements(body) == Ok(b)
    requires sep != LeftBracket && sep != RightBracket
    ensures ParseGroup(IfGroup(v, sep, body)) == Ok(IfStatement(v, b))
  {
    var g := IfGroup(v, sep, body);
    IfGroupBrackets(v, sep, body);
    IfGroupParts(v, sep, body);
    ParseSpell(v, []);
    assert Spell(v) + [] == Spell(v);
    assert ParseIfWhile(g) == Ok((v, b));
    DispatchIf(g);
  }

  lemma {:induction false} NoBracketCount(ts: seq<Token>)
    requires forall k :: 0 <= k < |ts| ==> ts[k] != LeftBracket && ts[k] != RightBracket
    ensures Count(ts, LeftBracket) == 0 && Count(ts, RightBracket) == 0
  {
    if |ts| > 0 {
      NoBracketCount(ts[1..]);
    }
  }

  lemma {:induction false} FirstLeftBracket(a: seq<Token>, b: seq<Token>)
    requires LeftBracket !in a && |b| > 0 && b[0] == LeftBracket
    ensures IndexOf(a + b, LeftBracket) == |a|
  {
    if |a| > 0 {
      assert (a + b)[1..] == a[1..] + b;
      FirstLeftBracket(a[1..], b);
    } else {
      assert a + b == b;
    }
  }

  function SpellParameters(ps: seq<string>): (ts: seq<Token>)
    ensures |ts| == |ps|
    ensures forall k :: 0 <= k < |ps| ==> ts[k] == IdentTok(Variable(ps[k]))
  {
    if |ps| == 0 then [] else [IdentTok(Variable(ps[0]))] + SpellParameters(ps[1..])
  }

  /** The tokens of a TO group written the usual way: TO, the name, the
      parameters, one separator, the body, END. */
  function ProcedureGroup(name: string, ps: seq<string>, body: seq<Token>): seq<Token> {
    [KeywordTok(To), IdentTok(Procedure(name))] + SpellParameters(ps) + [Space] + body + [KeywordTok(End)]
  }

  lemma ProcedureGroupSyntax(name: string, ps: seq<string>, body: seq<Token>)
    ensures ProcedureSyntax(ProcedureGroup(name, ps, body)) == Ok(Define)
  {
    var g := ProcedureGroup(name, ps, body);
    assert g[0] == KeywordTok(To) && g[|g| - 1] == KeywordTok(End);
  }

  lemma ProcedureGroupParameters(name: string, ps: seq<string>, body: seq<Token>)
    ensures var g := ProcedureGroup(name, ps, body);
            |g| >= 2 && g[1] == IdentTok(Procedure(name)) && ParseParameters(g[2..]) == Ok(ps)
  {
    var sp := SpellParameters(ps);
    var tail := [Space] + body + [KeywordTok(End)];
    var g := ProcedureGroup(name, ps, body);
    assert g == [KeywordTok(To), IdentTok(Procedure(name))] + (sp + tail);
    assert g[2..] == sp + tail;
    ParametersRoundTrip(ps, tail);
  }

  lemma ProcedureGroupBody(name: string, ps: seq<string>, body: seq<Token>)
    ensures ProcedureBodyTokens(ProcedureGroup(name, ps, body)) == body
  {
    var sp := SpellParameters(ps);
    var head := [KeywordTok(To), IdentTok(Procedure(name))] + sp;
    var tail := [Space] + body + [KeywordTok(End)];
    var g := ProcedureGroup(name, ps, body);
    assert g == head + tail;
    assert Space !in head;
    FirstSpace(head, tail);
    assert g[|head| + 1..] == body + [KeywordTok(End)];
  }

  /** A TO group written the usual way parses to that declaration. */
  lemma ProcedureRoundTrip(name: string, ps: seq<string>, body: seq<Token>, b: seq<Statement>)
    requires ParseStatements(body) == Ok(b)
    ensures ParseGroup(ProcedureGroup(name, ps, body)) == Ok(ProcedureDeclaration(name, ps, b))
  {
    var g := ProcedureGroup(name, ps, body);
    ProcedureGroupSyntax(name, ps, body);
    ProcedureGroupParameters(name, ps, body);
    ProcedureGroupBody(name, ps, body);
    DefinitionParses(g, name, ps, b);
    DispatchProcedure(g);
  }

  lemma {:induction false} FirstSpace(a: seq<Token>, b: seq<Token>)
    requires Space !in a && |b| > 0 && b[0] == Space
    ensures IndexOf(a + b, Space) == |a|
  {
    if |a| > 0 {
      assert (a + b)[1..] == a[1..] + b;
      FirstSpace(a[1..], b);
    } else {
      assert a + b == b;
    }
  }

  lemma {:induction false} ParametersRoundTrip(ps: seq<string>, rest: seq<Token>)
    requires |rest| == 0 || rest[0] == Space
    ensures ParseParameters(SpellParameters(ps) + rest) == Ok(ps)
  {
    if |ps| == 0 {
      assert SpellParameters(ps) + rest == rest;
    } else {
      var ts := SpellParameters(ps) + rest;
      assert ts[1..] == SpellParameters(ps[1..]) + rest;
      ParametersRoundTrip(ps[1..], rest);
      assert [ps[0]] + ps[1..] == ps;
    }
  }

  lemma {:induction false} TakeLineOf(a: seq<Token>, rest: seq<Token>)
    requires Space !in a
    ensures TakeLine(a + [Space] + rest) == (a, rest)
  {
    var ts := a + [Space] + rest;
    if |a| == 0 {
      assert ts == [Space] + rest;
    } else {
      assert ts[1..] == a[1..] + [Space] + rest;
      TakeLineOf(a[1..], rest);
      assert [a[0]] + a[1..] == a;
    }
  }

  /** A line statement followed by the rest of the stream: the segmenter
      cuts at the line's separator and parses the line before the rest. */
  lemma ParseLineThenRest(g: seq<Token>, rest: seq<Token>)
    requires |g| > 0 && !g[0].KeywordTok? && Space !in g
    ensures ParseStatements(g + [Space] + rest) ==
            (match ParseGroup(g)
             case Err(e) => Err(e)
             case Ok(s) =>
               match ParseStatements(rest)
               case Err(e) => Err(e)
               case Ok(ss) => Ok([s] + ss))
  {
    var ts := g + [Space] + rest;
    assert ts[0] == g[0];
    assert ts[1..] == g[1..] + [Space] + rest;
    TakeLineOf(g[1..], rest);
    assert [g[0]] + g[1..] == g;
    assert NextGroup(ts) == Ok((g, rest));
  }
}
