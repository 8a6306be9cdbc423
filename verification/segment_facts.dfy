/** Properties of the segmenter on whole streams: an IF, WHILE or TO group
    written out in full, followed by the token the segmenter drops and by
    more statements, is cut exactly at its end, so the stream parses to
    that statement followed by whatever the rest parses to. */
module SegmentFacts {
  import opened Results
  import opened Tokens
  import opened Ast
  import opened Expressions
  import opened Statements
  import opened StatementFacts

  // ---------------------------------------------------------------------
  // The three scans, on an input whose stopping point is known

  /** The scan for `[` stops at the first one. */
  lemma {:induction false} TakeThroughLeftOf(a: seq<Token>, b: seq<Token>)
    requires LeftBracket !in a
    ensures TakeThroughLeft(a + [LeftBracket] + b) == (a + [LeftBracket], b)
    decreases |a|
  {
    if |a| == 0 {
      assert a + [LeftBracket] + b == [LeftBracket] + b;
    } else {
      assert (a + [LeftBracket] + b)[1..] == a[1..] + [LeftBracket] + b;
      TakeThroughLeftOf(a[1..], b);
      assert [a[0]] + (a[1..] + [LeftBracket]) == a + [LeftBracket];
    }
  }

  /** The bracket counter after one token, when that token is dropped from
      the front of a prefix that stays open. */
  lemma StaysOpenTail(t: Token, a: seq<Token>, depth: int)
    requires StaysOpen([t] + a, depth)
    ensures StaysOpen(a, depth + (if t == LeftBracket then 1 else 0) - (if t == RightBracket then 1 else 0))
  {
    var d := depth + (if t == LeftBracket then 1 else 0) - (if t == RightBracket then 1 else 0);
    forall j | 0 < j <= |a|
      ensures Count(a[..j], RightBracket) < Count(a[..j], LeftBracket) + d
    {
      var p := ([t] + a)[..j + 1];
      assert p[0] == t && p[1..] == a[..j];
      assert Count(p, RightBracket) < Count(p, LeftBracket) + depth;
    }
  }

  /** The bracket counter stops at the `]` that follows a prefix which stays
      open and is one `]` short of closing. */
  lemma {:induction false} TakeBalancedOf(p: seq<Token>, tail: seq<Token>, depth: int)
    requires depth >= 1
    requires StaysOpen(p, depth)
    requires Count(p, RightBracket) + 1 == Count(p, LeftBracket) + depth
    ensures TakeBalanced(p + [RightBracket] + tail, depth) == (p + [RightBracket], Drop1(tail), true)
    decreases |p|
  {
    var ts := p + [RightBracket] + tail;
    if |p| == 0 {
      assert ts == [RightBracket] + tail;
      assert ts[1..] == tail;
    } else {
      var t := p[0];
      assert ts[0] == t && ts[1..] == p[1..] + [RightBracket] + tail;
      assert [t] + p[1..] == p;
      StaysOpenFirst(t, p[1..], depth);
      CountCons(t, p[1..], RightBracket);
      CountCons(t, p[1..], LeftBracket);
      StaysOpenTail(t, p[1..], depth);
      var d := depth + (if t == LeftBracket then 1 else 0) - (if t == RightBracket then 1 else 0);
      TakeBalancedOf(p[1..], tail, d);
      assert [t] + (p[1..] + [RightBracket]) == p + [RightBracket];
    }
  }

  /** Counting a token in a stream with one more token in front. */
  lemma CountCons(t: Token, a: seq<Token>, x: Token)
    ensures Count([t] + a, x) == (if t == x then 1 else 0) + Count(a, x)
  {
    assert ([t] + a)[1..] == a;
  }

  /** The first token of a prefix that stays open leaves the counter
      positive. */
  lemma StaysOpenFirst(t: Token, a: seq<Token>, depth: int)
    requires StaysOpen([t] + a, depth)
    ensures depth + (if t == LeftBracket then 1 else 0) - (if t == RightBracket then 1 else 0) > 0
  {
    assert ([t] + a)[..1] == [t] && [t][1..] == [];
    assert Count([t], RightBracket) < Count([t], LeftBracket) + depth;
  }

  /** The scan for END stops at the first one. */
  lemma {:induction false} TakeThroughEndOf(a: seq<Token>, tail: seq<Token>)
    requires forall k :: 0 <= k < |a| ==> !a[k].IsKeyword(End)
    ensures TakeThroughEnd(a + [KeywordTok(End)] + tail) == (a + [KeywordTok(End)], Drop1(tail))
    decreases |a|
  {
    if |a| == 0 {
      assert a + [KeywordTok(End)] + tail == [KeywordTok(End)] + tail;
    } else {
      assert (a + [KeywordTok(End)] + tail)[0] == a[0];
      assert (a + [KeywordTok(End)] + tail)[1..] == a[1..] + [KeywordTok(End)] + tail;
      TakeThroughEndOf(a[1..], tail);
      assert [a[0]] + (a[1..] + [KeywordTok(End)]) == a + [KeywordTok(End)];
    }
  }

  // ---------------------------------------------------------------------
  // IF and WHILE groups

  /** An IF or WHILE written out: keyword, test, `[`, a separator, the body
      and the `]` that closes it. */
  function ControlGroup(k: KeywordType, v: Value, sep: Token, body: seq<Token>): seq<Token> {
    [KeywordTok(k)] + Spell(v) + ([LeftBracket, sep] + body + [RightBracket])
  }

  /** After a separator that is no bracket, a body that stays open and
      is balanced is closed by the `]` that follows it. */
  lemma BodyCloses(sep: Token, body: seq<Token>, tail: seq<Token>)
    requires StaysOpen(body, 1)
    requires Count(body, LeftBracket) == Count(body, RightBracket)
    requires sep != LeftBracket && sep != RightBracket
    ensures TakeBalanced([sep] + body + [RightBracket] + tail, 1) == ([sep] + body + [RightBracket], Drop1(tail), true)
  {
    StaysOpenCons(sep, body, 1);
    assert [sep][1..] == [];
    CountAppend([sep], body, LeftBracket);
    CountAppend([sep], body, RightBracket);
    TakeBalancedOf([sep] + body, tail, 1);
  }

  /** The scan for `[` of an IF or WHILE group stops after its test. */
  lemma ControlScanLeft(k: KeywordType, v: Value, after: seq<Token>)
    ensures TakeThroughLeft(([KeywordTok(k)] + Spell(v) + [LeftBracket] + after)[1..]) == (Spell(v) + [LeftBracket], after)
  {
    SpellIsPlain(v);
    assert LeftBracket !in Spell(v) by {
      forall i | 0 <= i < |Spell(v)| ensures Spell(v)[i] != LeftBracket { }
    }
    assert ([KeywordTok(k)] + Spell(v) + [LeftBracket] + after)[1..] == Spell(v) + [LeftBracket] + after;
    TakeThroughLeftOf(Spell(v), after);
  }

  /** A body that never closes the bracket before it, and closes as many as
      it opens, is cut at the `]` after it; the next token is dropped. */
  lemma ControlGroupCut(k: KeywordType, v: Value, sep: Token, body: seq<Token>, x: Token, rest: seq<Token>)
    requires k == If || k == While
    requires StaysOpen(body, 1)
    requires Count(body, LeftBracket) == Count(body, RightBracket)
    requires sep != LeftBracket && sep != RightBracket
    ensures NextGroup(ControlGroup(k, v, sep, body) + [x] + rest) == Ok((ControlGroup(k, v, sep, body), rest))
  {
    var inner := [sep] + body + [RightBracket];
    var after := inner + ([x] + rest);
    ControlGroupSplits(k, v, sep, body, x, rest);
    ControlScanLeft(k, v, after);
    BodyCloses(sep, body, [x] + rest);
  }

  /** How an IF or WHILE group and the stream after it split into the
      pieces the two scans see. */
  lemma ControlGroupSplits(k: KeywordType, v: Value, sep: Token, body: seq<Token>, x: Token, rest: seq<Token>)
    ensures var inner := [sep] + body + [RightBracket];
            var ts := [KeywordTok(k)] + Spell(v) + [LeftBracket] + (inner + ([x] + rest));
            && ControlGroup(k, v, sep, body) + [x] + rest == ts
            && ControlGroup(k, v, sep, body) == [ts[0]] + (Spell(v) + [LeftBracket]) + inner
            && ts[0] == KeywordTok(k)
            && Drop1([x] + rest) == rest
  {
    assert ([x] + rest)[1..] == rest;
  }

  /** A WHILE group parses like the IF group with the same test and body. */
  lemma WhileRoundTrip(v: Value, sep: Token, body: seq<Token>, b: seq<Statement>)
    requires Parsable(v)
    requires Count(body, LeftBracket) == Count(body, RightBracket)
    requires ParseStatements(body) == Ok(b)
    requires sep != LeftBracket && sep != RightBracket
    ensures ParseGroup(ControlGroup(While, v, sep, body)) == Ok(WhileStatement(v, b))
  {
    var tail := Spell(v) + ([LeftBracket, sep] + body + [RightBracket]);
    IfRoundTrip(v, sep, body, b);
    GroupTails(v, sep, body);
    IfWhileSymmetric(tail);
  }

  /** An IF or WHILE group is its keyword followed by the same tokens. */
  lemma GroupTails(v: Value, sep: Token, body: seq<Token>)
    ensures IfGroup(v, sep, body) == [KeywordTok(If)] + (Spell(v) + ([LeftBracket, sep] + body + [RightBracket]))
    ensures ControlGroup(While, v, sep, body) == [KeywordTok(While)] + (Spell(v) + ([LeftBracket, sep] + body + [RightBracket]))
  {
  }

  /** A stream that starts with an IF group parses to that IF statement,
      followed by what the rest of the stream parses to. */
  lemma IfStream(v: Value, sep: Token, body: seq<Token>, b: seq<Statement>, x: Token, rest: seq<Token>)
    requires Parsable(v)
    requires StaysOpen(body, 1)
    requires Count(body, LeftBracket) == Count(body, RightBracket)
    requires ParseStatements(body) == Ok(b)
    requires sep != LeftBracket && sep != RightBracket
    ensures ParseStatements(IfGroup(v, sep, body) + [x] + rest) ==
              match ParseStatements(rest)
              case Ok(ss) => Ok([IfStatement(v, b)] + ss)
              case Err(e) => Err(e)
  {
    assert IfGroup(v, sep, body) == ControlGroup(If, v, sep, body);
    ControlGroupCut(If, v, sep, body, x, rest);
    IfRoundTrip(v, sep, body, b);
  }

  /** The same for a WHILE group. */
  lemma WhileStream(v: Value, sep: Token, body: seq<Token>, b: seq<Statement>, x: Token, rest: seq<Token>)
    requires Parsable(v)
    requires StaysOpen(body, 1)
    requires Count(body, LeftBracket) == Count(body, RightBracket)
    requires ParseStatements(body) == Ok(b)
    requires sep != LeftBracket && sep != RightBracket
    ensures ParseStatements(ControlGroup(While, v, sep, body) + [x] + rest) ==
              match ParseStatements(rest)
              case Ok(ss) => Ok([WhileStatement(v, b)] + ss)
              case Err(e) => Err(e)
  {
    ControlGroupCut(While, v, sep, body, x, rest);
    WhileRoundTrip(v, sep, body, b);
  }

  // ---------------------------------------------------------------------
  // TO groups

  /** A procedure definition whose body holds no END is cut at the END
      that closes it; the next token is dropped. */
  lemma ProcedureGroupCut(name: string, ps: seq<string>, body: seq<Token>, x: Token, rest: seq<Token>)
    requires KeywordTok(End) !in body
    ensures NextGroup(ProcedureGroup(name, ps, body) + [x] + rest) == Ok((ProcedureGroup(name, ps, body), rest))
  {
    var a := [IdentTok(Procedure(name))] + SpellParameters(ps) + [Space] + body;
    ProcedureGroupSplits(name, ps, body, x, rest);
    DefinitionHasNoEnd(name, ps, body);
    TakeThroughEndOf(a, [x] + rest);
  }

  /** How a procedure definition and the stream after it split into the
      pieces the scan for END sees. */
  lemma ProcedureGroupSplits(name: string, ps: seq<string>, body: seq<Token>, x: Token, rest: seq<Token>)
    ensures var a := [IdentTok(Procedure(name))] + SpellParameters(ps) + [Space] + body;
            var ts := ProcedureGroup(name, ps, body) + [x] + rest;
            && ts[0] == KeywordTok(To)
            && ts[1..] == a + [KeywordTok(End)] + ([x] + rest)
            && ProcedureGroup(name, ps, body) == [ts[0]] + (a + [KeywordTok(End)])
            && Drop1([x] + rest) == rest
  {
    assert ([x] + rest)[1..] == rest;
  }

  /** Before its closing END, a definition whose body has no END has
      none. */
  lemma DefinitionHasNoEnd(name: string, ps: seq<string>, body: seq<Token>)
    requires KeywordTok(End) !in body
    ensures var a := [IdentTok(Procedure(name))] + SpellParameters(ps) + [Space] + body;
            forall k :: 0 <= k < |a| ==> !a[k].IsKeyword(End)
  {
    var a := [IdentTok(Procedure(name))] + SpellParameters(ps) + [Space] + body;
    forall k | 0 <= k < |a| ensures !a[k].IsKeyword(End) {
      if 1 + |ps| + 1 <= k {
        assert a[k] == body[k - |ps| - 2];
      } else if 1 <= k < 1 + |ps| {
        assert a[k] == SpellParameters(ps)[k - 1];
      }
    }
  }

  /** A stream that starts with a procedure definition parses to that
      declaration, followed by what the rest of the stream parses to. */
  lemma ProcedureStream(name: string, ps: seq<string>, body: seq<Token>, b: seq<Statement>, x: Token, rest: seq<Token>)
    requires KeywordTok(End) !in body
    requires ParseStatements(body) == Ok(b)
    ensures ParseStatements(ProcedureGroup(name, ps, body) + [x] + rest) ==
              match ParseStatements(rest)
              case Ok(ss) => Ok([ProcedureDeclaration(name, ps, b)] + ss)
              case Err(e) => Err(e)
  {
    ProcedureGroupCut(name, ps, body, x, rest);
    ProcedureRoundTrip(name, ps, body, b);
  }
}
