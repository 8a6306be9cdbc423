/** What the translation promises beyond the shape of each rendering:
    a block's text is the texts of its parts one after another, IF and
    WHILE share one layout, and the two quirks of the original's naming
    and nesting. */
module TranspilerFacts {
  import opened Results
  import opened Floats
  import opened Literals
  import opened Tokens
  import opened Ast
  import opened Transpiler

  /** Rendering a block distributes over concatenation: the text of
      `a + b` is the text of `a` followed by the text of `b`, and it can
      be written exactly when both halves can. */
  lemma {:induction false} RenderBlockAppend(ops: FloatOps, a: seq<Statement>, b: seq<Statement>, n: nat)
    ensures var r := RenderBlock(ops, a + b, n);
            var ra := RenderBlock(ops, a, n);
            var rb := RenderBlock(ops, b, n);
            && (r.Ok? <==> ra.Ok? && rb.Ok?)
            && (r.Ok? ==> r.value == ra.value + rb.value)
    decreases |a|
  {
    if |a| == 0 {
      assert a + b == b;
    } else {
      assert (a + b)[0] == a[0];
      assert (a + b)[1..] == a[1..] + b;
      RenderBlockAppend(ops, a[1..], b, n);
    }
  }

  /** A block of one statement renders as that statement. */
  lemma RenderSingleton(ops: FloatOps, s: Statement, n: nat)
    ensures RenderBlock(ops, [s], n) == RenderStatement(ops, s, n)
  {
    assert [s][1..] == [];
    var r := RenderStatement(ops, s, n);
    if r.Ok? {
      assert r.value + "" == r.value;
    }
  }

  /** IF and WHILE are written alike: the same indentation, the same test
      and the same body, with only the keyword differing. */
  lemma IfWhileShareLayout(ops: FloatOps, test: Value, body: seq<Statement>, n: nat)
    ensures var i := RenderStatement(ops, IfStatement(test, body), n);
            var w := RenderStatement(ops, WhileStatement(test, body), n);
            && (i.Ok? <==> w.Ok?)
            && (i.Ok? ==> |i.value| >= 4 * n + 3
                          && i.value[..4 * n + 3] == Indent(n) + "if "
                          && w.value == Indent(n) + "while " + i.value[4 * n + 3..])
  {
    var t := RenderValue(ops, test);
    var b := RenderBlock(ops, body, n + 1);
    if t.Ok? && b.Ok? {
      assert RenderStatement(ops, IfStatement(test, body), n)
          == Ok(Indent(n) + "if " + t.value + ":\n" + b.value + "\n");
      assert RenderStatement(ops, WhileStatement(test, body), n)
          == Ok(Indent(n) + "while " + t.value + ":\n" + b.value + "\n");
      KeywordSwap(Indent(n), t.value, b.value);
    }
  }

  lemma KeywordSwap(ind: string, t: string, b: string)
    ensures var i := ind + "if " + t + ":\n" + b + "\n";
            && |i| >= |ind| + 3
            && i[..|ind| + 3] == ind + "if "
            && ind + "while " + t + ":\n" + b + "\n" == ind + "while " + i[|ind| + 3..]
  {
    var pre, tail := ind + "if ", t + ":\n" + b + "\n";
    var i := ind + "if " + t + ":\n" + b + "\n";
    assert i == pre + tail;
    assert i[..|pre|] == pre;
    assert i[|pre|..] == tail;
  }

  /** The translation cannot tell COLOR from PENDOWN: of the command and
      query names exactly this pair coincides. */
  lemma ColorNamedAsPendown(c: CommandType, q: QueryType)
    ensures CommandName(c) == QueryName(q) <==> c == Pendown && q == Color
  {
  }

  /** Hence a COLOR query and a PENDOWN command with the same arguments
      are written identically. */
  lemma ColorCallRendersAsPendown(ops: FloatOps, args: seq<Value>, n: nat)
    ensures RenderCall(ops, CallExpression(QueryCallee(Color), args), n)
            == RenderCall(ops, CallExpression(CommandCallee(Pendown), args), n)
  {
  }

  /** A nested call is written by the statement renderer at depth 0, so
      its newline lands inside the enclosing argument list:
      `FORWARD XCOR` becomes "forward(xcor()\n)\n". */
  lemma NestedCallKeepsNewline(ops: FloatOps)
    ensures RenderStatement(ops, CallStatement(CallExpression(CommandCallee(Forward),
                                                              [Nested(CallExpression(QueryCallee(Xcor), []))])), 0)
            == Ok("forward(xcor()\n)\n")
  {
    var inner := CallExpression(QueryCallee(Xcor), []);
    assert RenderArgs(ops, []) == Ok([]);
    assert Indent(0) == "";
    assert Join([], ", ") == "";
    assert "" + "xcor" + "(" + "" + ")\n" == "xcor()\n";
    assert RenderCall(ops, inner, 0) == Ok("xcor()\n");
    assert RenderValue(ops, Nested(inner)) == Ok("xcor()\n");
    assert [Nested(inner)][1..] == [];
    assert ["xcor()\n"] + [] == ["xcor()\n"];
    assert RenderArgs(ops, [Nested(inner)]) == Ok(["xcor()\n"]);
    assert Join(["xcor()\n"], ", ") == "xcor()\n";
    assert "" + "forward" + "(" + "xcor()\n" + ")\n" == "forward(xcor()\n)\n";
  }

  /** A procedure identifier in value position cannot be written, however
      deep it sits: the whole program's translation fails. */
  lemma ProcedureIdentifierAborts(ops: FloatOps, before: seq<Statement>, name: string, x: string, after: seq<Statement>)
    ensures Transpile(ops, before + [Assignment(Make, x, Ident(Procedure(name)))] + after) == Err(Unrenderable)
  {
    var bad := Assignment(Make, x, Ident(Procedure(name)));
    RenderBlockAppend(ops, before + [bad], after, 0);
    RenderBlockAppend(ops, before, [bad], 0);
    RenderSingleton(ops, bad, 0);
  }
}
