/** Execution of the syntax tree against a `Heap`: evaluating operands
    (`expect_literal_r`, `BinaryExpression::calculate`), calling built-ins
    and procedures (`CallExpression::call`, the `Callable` implementations),
    assignments and the control statements (`Executable::execute`).

    Every abort of the original is an `Err`. The original's loops and
    procedure calls need not terminate; here each WHILE iteration and each
    procedure invocation spends one unit of `fuel`, and running out is the
    error `OutOfFuel`. */
module Evaluator {
  import opened Results
  import opened Numerals
  import opened Floats
  import opened Literals
  import opened Tokens
  import opened Ast
  import opened Turtles
  import opened Heaps

  // ---------------------------------------------------------------------
  // Pure pieces: operators, queries, command effects, assignments

  /** `BinaryExpression::calculate` once both operands are literals.
      AND and OR inspect their right operand only when the left one does
      not decide the result; any other non-Bool operand of theirs aborts. */
  function ApplyBinary(ops: FloatOps, op: BinaryOperation, a: Literal, b: Literal): (r: Result<Literal>)
    ensures op.Logic? && r.Ok? ==> r.value.Bool?
    ensures op == Logic(And) ==>
              (r == Ok(Bool(true)) <==> a == Bool(true) && b == Bool(true))
              && (a == Bool(false) ==> r == Ok(Bool(false)))
              && (r.Err? <==> !a.Bool? || (a.b && !b.Bool?))
    ensures op == Logic(Or) ==>
              (r == Ok(Bool(false)) <==> a == Bool(false) && b == Bool(false))
              && (a == Bool(true) ==> r == Ok(Bool(true)))
              && (r.Err? <==> !a.Bool? || (!a.b && !b.Bool?))
    ensures op == Logic(Eq) ==> r.Ok? == Equal(ops, a, b).Ok?
                                && (r.Ok? ==> r.value.b == Equal(ops, a, b).value)
    ensures op == Logic(Ne) ==> r.Ok? == Equal(ops, a, b).Ok?
                                && (r.Ok? ==> r.value.b == !Equal(ops, a, b).value)
    ensures op == Logic(Lt) || op == Logic(Gt) ==> (r.Err? <==> a.Bool? || b.Bool?)
    ensures op.Calculation? && r.Ok? ==>
              IsNumeric(a) && IsNumeric(b) && IsNumeric(r.value) && (r.value.Int? <==> a.Int? && b.Int?)
    ensures r.Err? ==> r.error in {TypeMismatch, Overflow, DivisionByZero}
  {
    match op
    case Calculation(Plus) => Add(ops, a, b)
    case Calculation(Dash) => Sub(ops, a, b)
    case Calculation(Star) => Mul(ops, a, b)
    case Calculation(Slash) => Div(ops, a, b)
    case Logic(Eq) => var e :- Equal(ops, a, b); Ok(Bool(e))
    case Logic(Ne) => var e :- NotEqual(ops, a, b); Ok(Bool(e))
    case Logic(Lt) => var e :- Less(ops, a, b); Ok(Bool(e))
    case Logic(Gt) => var e :- Greater(ops, a, b); Ok(Bool(e))
    case Logic(And) =>
      (match ExpectBool(a)
       case None => Err(TypeMismatch)
       case Some(false) => Ok(Bool(false))
       case Some(true) => if b.Bool? then Ok(b) else Err(TypeMismatch))
    case Logic(Or) =>
      (match ExpectBool(a)
       case None => Err(TypeMismatch)
       case Some(true) => Ok(Bool(true))
       case Some(false) => if b.Bool? then Ok(b) else Err(TypeMismatch))
  }

  /** The query built-ins (`XCorCommand` … `ColorCommand`): the turtle's
      position as floats, its heading and pen colour as integers. */
  function QueryResult(t: Turtle, q: QueryType): (r: Literal)
    ensures r.Float? <==> q == Xcor || q == Ycor
    ensures r.Int? <==> q == Heading || q == Color
    ensures q == Xcor ==> r.f == t.x
    ensures q == Ycor ==> r.f == t.y
    ensures q == Heading ==> r.i == t.direction
    ensures q == Color ==> r.i == t.color
  {
    match q
    case Xcor => Float(t.x)
    case Ycor => Float(t.y)
    case Heading => Int(t.direction)
    case Color => Int(t.color)
  }

  /** The heading offset each movement command draws at. */
  function Offset(c: CommandType): Int32 {
    match c
    case Back => BackOffset
    case Left => LeftOffset
    case Right => RightOffset
    case _ => ForwardOffset
  }

  predicate IsMove(c: CommandType) {
    c == Forward || c == Back || c == Left || c == Right
  }

  /** What a command taking one argument does to the turtle once that
      argument is a literal. Movement and SETX/SETY quietly do nothing for a
      Bool (their `expect_float()?` returns early); SETPENCOLOR, SETHEADING
      and TURN abort on anything `expect_int` rejects. */
  function CommandEffect(env: Env, c: CommandType, l: Literal, t: Turtle): (r: Result<Turtle>)
    requires c != Penup && c != Pendown
    ensures l.Bool? && (IsMove(c) || c == Setx || c == Sety) ==> r == Ok(t)
    ensures IsMove(c) && IsNumeric(l) ==> r == Move(env, t, AsFloat(env.ops, l), Offset(c))
    ensures c == Setx && IsNumeric(l) ==> r == Ok(t.(x := AsFloat(env.ops, l)))
    ensures c == Sety && IsNumeric(l) ==> r == Ok(t.(y := AsFloat(env.ops, l)))
    ensures c in {Setpencolor, Setheading, Turn} ==>
              (ExpectInt(env.ops, l).None? ==> r == Err(TypeMismatch))
    ensures c == Setpencolor && ExpectInt(env.ops, l).Some? ==>
              r == Ok(t.(color := ExpectInt(env.ops, l).value))
    ensures c == Setheading && ExpectInt(env.ops, l).Some? ==>
              r == Ok(t.(direction := ExpectInt(env.ops, l).value))
    ensures c == Turn && ExpectInt(env.ops, l).Some? ==> r == Turtles.Turn(t, ExpectInt(env.ops, l).value)
    ensures r.Ok? ==> r.value.pen == t.pen
  {
    match c
    case Setx =>
      (match ExpectFloat(env.ops, l)
       case None => Ok(t)
       case Some(x) => Ok(SetX(t, x)))
    case Sety =>
      (match ExpectFloat(env.ops, l)
       case None => Ok(t)
       case Some(y) => Ok(SetY(t, y)))
    case Setpencolor =>
      (match ExpectInt(env.ops, l)
       case None => Err(TypeMismatch)
       case Some(k) => Ok(SetColor(t, k)))
    case Setheading =>
      (match ExpectInt(env.ops, l)
       case None => Err(TypeMismatch)
       case Some(d) => Ok(SetDirection(t, d)))
    case Turn =>
      (match ExpectInt(env.ops, l)
       case None => Err(TypeMismatch)
       case Some(d) => Turtles.Turn(t, d))
    case _ =>
      (match ExpectFloat(env.ops, l)
       case None => Ok(t)
       case Some(d) => Move(env, t, d, Offset(c)))
  }

  /** MAKE binds the name; ADDASSIGN adds to a bound name's value and aborts
      on an unbound one. No other variable changes. */
  function Assign(ops: FloatOps, op: AssignmentType, name: string, v: Literal,
                  vars: map<string, Literal>): (r: Result<map<string, Literal>>)
    ensures op == Make ==> r == Ok(vars[name := v])
    ensures op == Addassign && name !in vars ==> r == Err(UndefinedVariable(name))
    ensures op == Addassign && name in vars ==>
              (r.Ok? <==> Add(ops, vars[name], v).Ok?)
              && (r.Ok? ==> r.value == vars[name := Add(ops, vars[name], v).value])
    ensures r.Ok? ==> r.value.Keys == vars.Keys + {name}
  {
    match op
    case Make => Ok(vars[name := v])
    case Addassign =>
      if name !in vars then Err(UndefinedVariable(name))
      else
        var sum :- Add(ops, vars[name], v);
        Ok(vars[name := sum])
  }

  // ---------------------------------------------------------------------
  // Evaluation. Every function threads the heap.

  /** `Value::expect_literal_r`: a variable's value, a literal itself, the
      result of a nested call (which must produce one), or a binary
      expression's value. */
  function EvalValue(env: Env, fuel: nat, v: Value, h: Heap): (r: Result<(Literal, Heap)>)
    ensures v.Lit? ==> r == Ok((v.lit, h))
    ensures v.Ident? && v.ident.Procedure? ==> r == Err(NotAVariable(v.ident.name))
    ensures v.Ident? && v.ident.Variable? ==>
              (r.Ok? <==> v.ident.name in h.variables)
              && (r.Ok? ==> r.value == (h.variables[v.ident.name], h))
              && (r.Err? ==> r.error == UndefinedVariable(v.ident.name))
    decreases fuel, v, 0
  {
    match v
    case Ident(Procedure(name)) => Err(NotAVariable(name))
    case Ident(Variable(name)) =>
      if name in h.variables then Ok((h.variables[name], h)) else Err(UndefinedVariable(name))
    case Lit(l) => Ok((l, h))
    case Nested(c) =>
      var (result, h1) :- Call(env, fuel, c, h);
      if result.None? then Err(MissingResult) else Ok((result.value, h1))
    case Binary(e) => EvalBinary(env, fuel, e, h)
  }

  /** Both operands are evaluated, left first, before the operator is
      applied. */
  function EvalBinary(env: Env, fuel: nat, e: BinaryExpression, h: Heap): (r: Result<(Literal, Heap)>)
    ensures e.op.Logic? && r.Ok? ==> r.value.0.Bool?
    ensures e.op.Calculation? && r.Ok? ==> !r.value.0.Bool?
    decreases fuel, e, 0
  {
    var (a, h1) :- EvalValue(env, fuel, e.left, h);
    var (b, h2) :- EvalValue(env, fuel, e.right, h1);
    var l :- ApplyBinary(env.ops, e.op, a, b);
    Ok((l, h2))
  }

  /** The arguments of a procedure call, evaluated in order. */
  function EvalArgs(env: Env, fuel: nat, args: seq<Value>, h: Heap): (r: Result<(seq<Literal>, Heap)>)
    ensures r.Ok? ==> |r.value.0| == |args|
    ensures |args| == 0 ==> r == Ok(([], h))
    decreases fuel, args, 0
  {
    if |args| == 0 then Ok(([], h))
    else
      var (l, h1) :- EvalValue(env, fuel, args[0], h);
      var (ls, h2) :- EvalArgs(env, fuel, args[1..], h1);
      Ok(([l] + ls, h2))
  }

  /** `Heap::execute_function`: look the callee up (building a built-in on
      first use) and run it. Only queries produce a literal. */
  function Call(env: Env, fuel: nat, c: CallExpression, h: Heap): (r: Result<(Option<Literal>, Heap)>)
    ensures c.callee.ProcedureCallee? && c.callee !in h.callables ==>
              r == Err(UndefinedProcedure(c.callee.name))
    decreases fuel, c, 2
  {
    var (impl, h1) :- GetCallable(h, c.callee);
    match impl
    case QueryImpl(q) => Ok((Some(QueryResult(h1.turtle, q)), h1))
    case CommandImpl(cmd) =>
      var h2 :- RunCommand(env, fuel, cmd, c, h1);
      Ok((None, h2))
    case ProcedureImpl(params, body) =>
      var h2 :- CallProcedure(env, fuel, params, body, c, h1);
      Ok((None, h2))
  }

  /** A command built-in. PENUP and PENDOWN ignore their arguments; the
      others do nothing without an argument (`args.get(0)?`), and otherwise
      evaluate only the first one. Only the turtle changes, apart from what
      evaluating that argument does. */
  function RunCommand(env: Env, fuel: nat, cmd: CommandType, c: CallExpression, h: Heap): (r: Result<Heap>)
    ensures cmd == Penup ==> r == Ok(h.(turtle := h.turtle.(pen := false)))
    ensures cmd == Pendown ==> r == Ok(h.(turtle := h.turtle.(pen := true)))
    ensures cmd != Penup && cmd != Pendown && |c.arguments| == 0 ==> r == Ok(h)
    decreases fuel, c, 1
  {
    if cmd == Penup then Ok(h.(turtle := PenUp(h.turtle)))
    else if cmd == Pendown then Ok(h.(turtle := PenDown(h.turtle)))
    else if |c.arguments| == 0 then Ok(h)
    else
      var (l, h1) :- EvalValue(env, fuel, c.arguments[0], h);
      var t :- CommandEffect(env, cmd, l, h1.turtle);
      Ok(h1.(turtle := t))
  }

  /** `Procedure::call`: evaluate every argument, then run the body in a
      fresh frame (`RunBody`). Calling costs one unit of fuel. */
  function CallProcedure(env: Env, fuel: nat, params: seq<string>, body: seq<Statement>,
                         c: CallExpression, h: Heap): (r: Result<Heap>)
    ensures fuel == 0 ==> r.Err?
    decreases fuel, c, 1
  {
    var (vals, h1) :- EvalArgs(env, fuel, c.arguments, h);
    if fuel == 0 then Err(OutOfFuel)
    else RunBody(env, fuel - 1, params, body, vals, h1)
  }

  /** Set the formals' current values aside, bind the formals to the
      argument values, run the body, then write the set-aside values back.
      Nothing else is undone: variables the body creates stay behind, and
      so do formals that had no value before. */
  function RunBody(env: Env, fuel: nat, params: seq<string>, body: seq<Statement>,
                   vals: seq<Literal>, h: Heap): (r: Result<Heap>)
    ensures |params| == 0 ==> r == ExecBlock(env, fuel, body, h)
    decreases fuel, body, 1
  {
    var (rest, buf) := HandleConflicts(h.variables, params);
    assert |params| == 0 ==> h.(variables := PushArguments(rest, params, vals)) == h;
    var h2 :- ExecBlock(env, fuel, body, h.(variables := PushArguments(rest, params, vals)));
    assert |params| == 0 ==> Restore(h2.variables, buf) == h2.variables;
    Ok(h2.(variables := Restore(h2.variables, buf)))
  }

  /** `Executable::execute` for one statement. */
  function ExecStatement(env: Env, fuel: nat, s: Statement, h: Heap): (r: Result<Heap>)
    ensures s.ProcedureDeclaration? ==>
              r == Ok(DeclareProcedure(h, s.name, ProcedureImpl(s.arguments, s.body)))
    decreases fuel, s, 2
  {
    match s
    case CallStatement(c) =>
      var (_, h1) :- Call(env, fuel, c, h);
      Ok(h1)
    case Assignment(op, name, right) =>
      var h1 := GetAssignable(h, op);
      var (v, h2) :- EvalValue(env, fuel, right, h1);
      var vars :- Assign(env.ops, op, name, v, h2.variables);
      Ok(h2.(variables := vars))
    case IfStatement(test, consequent) =>
      var (l, h1) :- EvalValue(env, fuel, test, h);
      if !l.Bool? then Err(TypeMismatch)
      else if l.b then ExecBlock(env, fuel, consequent, h1)
      else Ok(h1)
    case WhileStatement(_, _) => Loop(env, fuel, s, h)
    case ProcedureDeclaration(name, params, body) =>
      Ok(DeclareProcedure(h, name, ProcedureImpl(params, body)))
  }

  /** The WHILE loop: the test is evaluated before every iteration and must
      be a Bool; each iteration costs one unit of fuel. */
  function Loop(env: Env, fuel: nat, s: Statement, h: Heap): (r: Result<Heap>)
    requires s.WhileStatement?
    ensures s.test == Lit(Bool(false)) ==> r == Ok(h)
    ensures s.test.Lit? && !s.test.lit.Bool? ==> r == Err(TypeMismatch)
    ensures s.test == Lit(Bool(true)) ==> r.Err?
    decreases fuel, s, 1
  {
    var (l, h1) :- EvalValue(env, fuel, s.test, h);
    if !l.Bool? then Err(TypeMismatch)
    else if !l.b then Ok(h1)
    else if fuel == 0 then Err(OutOfFuel)
    else
      var h2 :- ExecBlock(env, fuel - 1, s.body, h1);
      Loop(env, fuel - 1, s, h2)
  }

  /** The statements of a block (or a program) in order; the first abort
      ends the run. */
  function ExecBlock(env: Env, fuel: nat, ss: seq<Statement>, h: Heap): (r: Result<Heap>)
    ensures |ss| == 0 ==> r == Ok(h)
    decreases fuel, ss, 0
  {
    if |ss| == 0 then Ok(h)
    else
      var h1 :- ExecStatement(env, fuel, ss[0], h);
      ExecBlock(env, fuel, ss[1..], h1)
  }
}
