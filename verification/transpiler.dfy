/** The source-to-source translation (`Translater::to_python` and the
    `Display` impls it relies on): every statement becomes text at an
    indentation depth of four spaces per level, values are written infix
    and fully parenthesised. A procedure identifier in value position
    cannot be written and aborts the translation. */
module Transpiler {
  import opened Results
  import opened Numerals
  import opened Floats
  import opened Literals
  import opened Tokens
  import opened Ast

  /** `"    ".repeat(n)`. */
  function Indent(n: nat): (s: string)
    ensures |s| == 4 * n
    ensures forall i :: 0 <= i < |s| ==> s[i] == ' '
  {
    if n == 0 then "" else "    " + Indent(n - 1)
  }

  /** `Vec::join`. */
  function Join(parts: seq<string>, sep: string): string {
    if |parts| == 0 then ""
    else if |parts| == 1 then parts[0]
    else parts[0] + sep + Join(parts[1..], sep)
  }

  function CommandName(c: CommandType): string {
    match c
    case Penup => "penup"
    case Forward => "forward"
    case Pendown => "pendown"
    case Back => "back"
    case Left => "left"
    case Right => "right"
    case Setheading => "setheading"
    case Setpencolor => "setpencolor"
    case Turn => "turn"
    case Setx => "setx"
    case Sety => "sety"
  }

  /** COLOR is written as "pendown", exactly as the original does. */
  function QueryName(q: QueryType): string {
    match q
    case Xcor => "xcor"
    case Ycor => "ycor"
    case Heading => "heading"
    case Color => "pendown"
  }

  function CalleeName(c: Callee): string {
    match c
    case CommandCallee(cmd) => CommandName(cmd)
    case QueryCallee(q) => QueryName(q)
    case ProcedureCallee(name) => name
  }

  function OperatorName(op: BinaryOperation): string {
    match op
    case Calculation(Plus) => "+"
    case Calculation(Dash) => "-"
    case Calculation(Star) => "*"
    case Calculation(Slash) => "/"
    case Logic(And) => "&&"
    case Logic(Or) => "||"
    case Logic(Eq) => "=="
    case Logic(Ne) => "!="
    case Logic(Lt) => "<"
    case Logic(Gt) => ">"
  }

  function AssignName(op: AssignmentType): string {
    match op
    case Make => "="
    case Addassign => "+="
  }

  /** `Display` for `ValueType`: decimal integers, the float's own text,
      and Rust's `true`/`false`. */
  function ShowLiteral(ops: FloatOps, l: Literal): string {
    match l
    case Int(i) => ShowInt(i)
    case Float(f) => ops.show(f)
    case Bool(b) => if b then "true" else "false"
  }

  // ---------------------------------------------------------------------
  // What can be written: no procedure identifier in value position

  predicate RenderableValue(v: Value) {
    match v
    case Ident(id) => id.Variable?
    case Lit(_) => true
    case Nested(c) => RenderableCall(c)
    case Binary(e) => RenderableValue(e.left) && RenderableValue(e.right)
  }

  predicate RenderableCall(c: CallExpression) {
    RenderableArgs(c.arguments)
  }

  predicate RenderableArgs(args: seq<Value>) {
    forall k :: 0 <= k < |args| ==> RenderableValue(args[k])
  }

  predicate RenderableStatement(s: Statement) {
    match s
    case CallStatement(c) => RenderableCall(c)
    case Assignment(_, _, right) => RenderableValue(right)
    case IfStatement(test, body) => RenderableValue(test) && RenderableBlock(body)
    case WhileStatement(test, body) => RenderableValue(test) && RenderableBlock(body)
    case ProcedureDeclaration(_, _, body) => RenderableBlock(body)
  }

  predicate RenderableBlock(ss: seq<Statement>) {
    forall k :: 0 <= k < |ss| ==> RenderableStatement(ss[k])
  }

  // ---------------------------------------------------------------------
  // Rendering

  /** `Display` for `Value`: a nested call is written by `to_python(0)`,
      trailing newline included. */
  function RenderValue(ops: FloatOps, v: Value): (r: Result<string>)
    ensures r.Ok? <==> RenderableValue(v)
    ensures r.Err? ==> r.error == Unrenderable
    ensures v.Binary? && r.Ok? ==> |r.value| >= 2 && r.value[0] == '(' && r.value[|r.value| - 1] == ')'
    decreases v
  {
    match v
    case Ident(Procedure(_)) => Err(Unrenderable)
    case Ident(Variable(name)) => Ok(name)
    case Lit(l) => Ok(ShowLiteral(ops, l))
    case Nested(c) => RenderCall(ops, c, 0)
    case Binary(e) => RenderBinary(ops, e)
  }

  /** `BinaryExpression::to_python`: "(left op right)". */
  function RenderBinary(ops: FloatOps, e: BinaryExpression): (r: Result<string>)
    ensures r.Ok? <==> RenderableValue(e.left) && RenderableValue(e.right)
    ensures r.Err? ==> r.error == Unrenderable
    ensures r.Ok? ==> |r.value| >= 2 && r.value[0] == '(' && r.value[|r.value| - 1] == ')'
    decreases e
  {
    var left :- RenderValue(ops, e.left);
    var right :- RenderValue(ops, e.right);
    Ok("(" + left + " " + OperatorName(e.op) + " " + right + ")")
  }

  function RenderArgs(ops: FloatOps, args: seq<Value>): (r: Result<seq<string>>)
    ensures r.Ok? <==> RenderableArgs(args)
    ensures r.Err? ==> r.error == Unrenderable
    ensures r.Ok? ==> |r.value| == |args|
    decreases args
  {
    if |args| == 0 then Ok([])
    else
      var first :- RenderValue(ops, args[0]);
      var rest :- RenderArgs(ops, args[1..]);
      assert forall k :: 1 <= k < |args| ==> args[k] == args[1..][k - 1];
      Ok([first] + rest)
  }

  /** `CallExpression::to_python`: indented "callee(a, b)" and a newline. */
  function RenderCall(ops: FloatOps, c: CallExpression, n: nat): (r: Result<string>)
    ensures r.Ok? <==> RenderableCall(c)
    ensures r.Err? ==> r.error == Unrenderable
    ensures r.Ok? ==> |r.value| > 4 * n && r.value[..4 * n] == Indent(n) && r.value[|r.value| - 1] == '\n'
    decreases c
  {
    var args :- RenderArgs(ops, c.arguments);
    var s := Indent(n) + CalleeName(c.callee) + "(" + Join(args, ", ") + ")\n";
    assert s[..4 * n] == Indent(n);
    Ok(s)
  }

  /** `Statement::to_python` at depth `n`. Every statement but a procedure
      declaration starts at its own depth; a declaration is written at the
      left margin whatever the depth. Every rendering ends in a newline. */
  function RenderStatement(ops: FloatOps, s: Statement, n: nat): (r: Result<string>)
    ensures r.Ok? <==> RenderableStatement(s)
    ensures r.Err? ==> r.error == Unrenderable
    ensures r.Ok? ==> |r.value| > 0 && r.value[|r.value| - 1] == '\n'
    ensures r.Ok? && !s.ProcedureDeclaration? ==> |r.value| > 4 * n && r.value[..4 * n] == Indent(n)
    ensures r.Ok? && s.ProcedureDeclaration? ==> |r.value| > 4 && r.value[..4] == "def "
    decreases s
  {
    match s
    case CallStatement(c) => RenderCall(ops, c, n)
    case Assignment(op, left, right) =>
      var rhs :- RenderValue(ops, right);
      var text := Indent(n) + left + " " + AssignName(op) + " " + rhs + "\n";
      assert text[..4 * n] == Indent(n);
      Ok(text)
    case IfStatement(test, body) =>
      var t :- RenderValue(ops, test);
      var b :- RenderBlock(ops, body, n + 1);
      var text := Indent(n) + "if " + t + ":\n" + b + "\n";
      assert text[..4 * n] == Indent(n);
      Ok(text)
    case WhileStatement(test, body) =>
      var t :- RenderValue(ops, test);
      var b :- RenderBlock(ops, body, n + 1);
      var text := Indent(n) + "while " + t + ":\n" + b + "\n";
      assert text[..4 * n] == Indent(n);
      Ok(text)
    case ProcedureDeclaration(name, params, body) =>
      var b :- RenderBlock(ops, body, n + 1);
      var text := "def " + name + "(" + Join(params, ", ") + "):\n" + b + "\n";
      assert text[..4] == "def ";
      Ok(text)
  }

  /** The statements of a block one after another at the same depth. */
  function RenderBlock(ops: FloatOps, ss: seq<Statement>, n: nat): (r: Result<string>)
    ensures r.Ok? <==> RenderableBlock(ss)
    ensures r.Err? ==> r.error == Unrenderable
    ensures |ss| == 0 ==> r == Ok("")
    decreases ss
  {
    if |ss| == 0 then Ok("")
    else
      var first :- RenderStatement(ops, ss[0], n);
      var rest :- RenderBlock(ops, ss[1..], n);
      assert forall k :: 1 <= k < |ss| ==> ss[k] == ss[1..][k - 1];
      Ok(first + rest)
  }

  /** `Program::to_python`: the whole program at depth 0. */
  function Transpile(ops: FloatOps, ss: seq<Statement>): (r: Result<string>)
    ensures r.Ok? <==> RenderableBlock(ss)
    ensures r.Err? ==> r.error == Unrenderable
  {
    RenderBlock(ops, ss, 0)
  }
}
