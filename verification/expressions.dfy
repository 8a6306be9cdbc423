/** Operand parsing: `to_value`, the query parser, `Value::parse_one`, the
    prefix binary-expression parser, and the "parse operands until the group
    is used up" loop of the command and call parsers. Every parser consumes
    a prefix of its tokens and returns the rest. */
module Expressions {
  import opened Results
  import opened Literals
  import opened Tokens
  import opened Ast

  /** `QueriesParser`: exactly one token, and it must be a query. */
  function ParseQuery(g: seq<Token>): (r: Result<Statement>)
    ensures r.Ok? <==> |g| == 1 && g[0].QueryTok?
    ensures r.Ok? ==> r.value == CallStatement(CallExpression(QueryCallee(g[0].query), []))
    ensures |g| != 1 ==> r == Err(Syntax(ExpectedSingleQuery))
    ensures |g| == 1 && !g[0].QueryTok? ==> r == Err(Syntax(ExpectedQuery))
  {
    if |g| != 1 then Err(Syntax(ExpectedSingleQuery))
    else match g[0]
      case QueryTok(q) => Ok(CallStatement(CallExpression(QueryCallee(q), [])))
      case _ => Err(Syntax(ExpectedQuery))
  }

  /** The tokens a parsed operand was read from, operator first. */
  function Spell(v: Value): seq<Token> {
    match v
    case Ident(id) => [IdentTok(id)]
    case Lit(l) => [ValueTok(l)]
    case Nested(c) => if c.callee.QueryCallee? then [QueryTok(c.callee.query)] else []
    case Binary(BinaryExpression(op, l, r)) => [OperatorToken(op)] + Spell(l) + Spell(r)
  }

  /** The operands the parser can produce: nested calls only ever come from
      a lone query token. */
  predicate Parsable(v: Value) {
    match v
    case Ident(_) => true
    case Lit(_) => true
    case Nested(c) => c.callee.QueryCallee? && c.arguments == []
    case Binary(e) => Parsable(e.left) && Parsable(e.right)
  }

  /** `TokenType::to_value`: identifiers and literals stand for themselves, a
      query becomes a call with no arguments, everything else is no operand. */
  function ToValue(t: Token): (r: Option<Value>)
    ensures r.Some? <==> t.IdentTok? || t.ValueTok? || t.QueryTok?
    ensures r.Some? ==> Parsable(r.value) && Spell(r.value) == [t] && !r.value.Binary?
  {
    match t
    case IdentTok(id) => Some(Ident(id))
    case ValueTok(l) => Some(Lit(l))
    case QueryTok(q) =>
      (match ParseQuery([t])
       case Ok(CallStatement(c)) => Some(Nested(c))
       case _ => None)
    case _ => None
  }

  /** An operand that was not itself a binary expression must convert. */
  function Leaf(t: Token, parsed: Option<BinaryExpression>): (r: Result<Value>)
    ensures parsed.Some? ==> r == Ok(Binary(parsed.value))
    ensures parsed.None? ==> (r.Ok? <==> ToValue(t).Some?)
    ensures parsed.None? && r.Ok? ==> r.value == ToValue(t).value
    ensures r.Err? ==> r.error == Syntax(NotAValue)
  {
    if parsed.Some? then Ok(Binary(parsed.value))
    else match ToValue(t)
      case Some(v) => Ok(v)
      case None => Err(Syntax(NotAValue))
  }

  /** `BinaryParser::_parse`: a non-operator `first` is no binary expression
      and consumes nothing. An operator reads its left operand (recursing when
      that is an operator too), then its right one; only then are leaf
      operands converted, left before right. What is consumed is exactly the
      prefix spelling of the tree. */
  function ParseBinary(first: Token, ts: seq<Token>): (r: Result<(Option<BinaryExpression>, seq<Token>)>)
    ensures r.Ok? ==> |r.value.1| <= |ts|
    ensures r.Ok? && r.value.0.None? ==> r.value.1 == ts && !first.IsBinary()
    ensures r.Ok? && r.value.0.Some? ==>
              var e := r.value.0.value;
              && Parsable(Binary(e))
              && [first] + ts == Spell(Binary(e)) + r.value.1
    ensures !first.IsBinary() ==> r == Ok((None, ts))
    decreases |ts|
  {
    if !first.IsBinary() then Ok((None, ts))
    else if |ts| == 0 then Err(Syntax(ExhaustedTokens))
    else
      var left := ts[0];
      var (lp, ts1) :- ParseBinary(left, ts[1..]);
      if |ts1| == 0 then Err(Syntax(ExhaustedTokens))
      else
        var right := ts1[0];
        var (rp, ts2) :- ParseBinary(right, ts1[1..]);
        var lv :- Leaf(left, lp);
        var rv :- Leaf(right, rp);
        var e := BinaryExpression(NewBinary(first), lv, rv);
        SpellBinary(first, ts, e, ts1, ts2);
        Ok((Some(e), ts2))
  }

  /** The bookkeeping step of `ParseBinary`: the two operands' spellings
      laid end to end after the operator rebuild the input. */
  lemma SpellBinary(first: Token, ts: seq<Token>, e: BinaryExpression, ts1: seq<Token>, ts2: seq<Token>)
    requires first.IsBinary() && |ts| > 0 && |ts1| > 0 && e.op == NewBinary(first)
    requires ts == Spell(e.left) + ts1
    requires ts1 == Spell(e.right) + ts2
    ensures [first] + ts == Spell(Binary(e)) + ts2
  {
    assert OperatorToken(e.op) == first;
  }

  /** `Value::parse_one`: the next token is an operand by itself, or starts
      a binary expression; anything else is an error. */
  function ParseOne(ts: seq<Token>): (r: Result<(Value, seq<Token>)>)
    ensures r.Ok? ==> |r.value.1| < |ts|
    ensures r.Ok? ==> Parsable(r.value.0) && ts == Spell(r.value.0) + r.value.1
    ensures |ts| == 0 ==> r == Err(Syntax(ExhaustedTokens))
  {
    if |ts| == 0 then Err(Syntax(ExhaustedTokens))
    else match ToValue(ts[0])
      case Some(v) => Ok((v, ts[1..]))
      case None =>
        var (b, rest) :- ParseBinary(ts[0], ts[1..]);
        if b.None? then Err(Syntax(NotAValue)) else Ok((Binary(b.value), rest))
  }

  /** `BinaryParser::parse`: the first operand of a buffer; any tokens after
      it are ignored. */
  function ParseBuffer(ts: seq<Token>): (r: Result<Value>)
    ensures r.Ok? <==> ParseOne(ts).Ok?
    ensures r.Ok? ==> Parsable(r.value) && |Spell(r.value)| <= |ts|
                      && ts[..|Spell(r.value)|] == Spell(r.value)
  {
    var (v, rest) :- ParseOne(ts);
    assert ts[..|Spell(v)|] == Spell(v);
    Ok(v)
  }

  function SpellAll(vs: seq<Value>): seq<Token> {
    if |vs| == 0 then [] else Spell(vs[0]) + SpellAll(vs[1..])
  }

  /** The argument loop of the command and call parsers: operands until the
      tokens run out. */
  function ParseAll(ts: seq<Token>): (r: Result<seq<Value>>)
    ensures r.Ok? ==> ts == SpellAll(r.value)
    ensures r.Ok? ==> forall k :: 0 <= k < |r.value| ==> Parsable(r.value[k])
    decreases |ts|
  {
    if |ts| == 0 then Ok([])
    else
      var (v, rest) :- ParseOne(ts);
      var vs :- ParseAll(rest);
      assert ([v] + vs)[1..] == vs;
      Ok([v] + vs)
  }

  // ---------------------------------------------------------------------
  // The parser inverts `Spell`

  /** Parsing the spelling of an operand, with anything after it, yields
      that operand and leaves the rest. */
  lemma {:induction false} ParseSpell(v: Value, rest: seq<Token>)
    requires Parsable(v)
    ensures ParseOne(Spell(v) + rest) == Ok((v, rest))
  {
    match v
    case Binary(e) =>
      ParseBinarySpell(e, rest);
      assert (Spell(v) + rest)[1..] == Spell(e.left) + Spell(e.right) + rest;
    case _ =>
      assert (Spell(v) + rest)[1..] == rest;
  }

  lemma {:induction false} ParseBinarySpell(e: BinaryExpression, rest: seq<Token>)
    requires Parsable(Binary(e))
    ensures ParseBinary(OperatorToken(e.op), Spell(e.left) + Spell(e.right) + rest)
            == Ok((Some(e), rest))
    decreases Binary(e), 0
  {
    var ts := Spell(e.left) + Spell(e.right) + rest;
    OperandSpell(e.left, Spell(e.right) + rest);
    assert ts == Spell(e.left) + (Spell(e.right) + rest);
    OperandSpell(e.right, rest);
  }

  /** One operand inside a binary expression: its first token, then the
      parse of the tokens after it, gives back that operand. */
  lemma {:induction false} OperandSpell(v: Value, rest: seq<Token>)
    requires Parsable(v)
    ensures |Spell(v) + rest| > 0
    ensures var ts := Spell(v) + rest;
            var r := ParseBinary(ts[0], ts[1..]);
            r.Ok? && r.value.1 == rest && Leaf(ts[0], r.value.0) == Ok(v)
    decreases v, 1
  {
    var ts := Spell(v) + rest;
    match v
    case Binary(e) =>
      assert ts[0] == OperatorToken(e.op);
      assert ts[1..] == Spell(e.left) + Spell(e.right) + rest;
      ParseBinarySpell(e, rest);
    case _ =>
      assert ts[0] == Spell(v)[0];
      assert ts[1..] == rest;
  }

  /** Operands spelled one after another parse back to the same list. */
  lemma {:induction false} ParseAllSpellAll(vs: seq<Value>)
    requires forall k :: 0 <= k < |vs| ==> Parsable(vs[k])
    ensures ParseAll(SpellAll(vs)) == Ok(vs)
  {
    if |vs| > 0 {
      var ts := SpellAll(vs);
      ParseSpell(vs[0], SpellAll(vs[1..]));
      ParseAllSpellAll(vs[1..]);
      assert [vs[0]] + vs[1..] == vs;
    }
  }

  /** The two directions together: `ParseOne` succeeds exactly on the
      spellings of parsable operands. */
  lemma ParseOneIff(ts: seq<Token>, v: Value, rest: seq<Token>)
    ensures ParseOne(ts) == Ok((v, rest)) <==> Parsable(v) && ts == Spell(v) + rest
  {
    if Parsable(v) && ts == Spell(v) + rest {
      ParseSpell(v, rest);
    }
  }
}
