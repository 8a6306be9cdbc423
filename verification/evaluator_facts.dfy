/** What the evaluator promises: operands the parser produces have no side
    effects, the procedure-call protocol on the one global variable map,
    commands and queries agreeing with each other, assignment, and the two
    control statements. */
module EvaluatorFacts {
  import opened Results
  import opened Numerals
  import opened Floats
  import opened Literals
  import opened Tokens
  import opened Ast
  import opened Expressions
  import opened Turtles
  import opened Heaps
  import opened Evaluator
  import opened FuelFacts
  import opened RegistryFacts

  // ---------------------------------------------------------------------
  // Operands

  /** Evaluating an operand the parser can produce spends no fuel and
      changes neither the variables nor the turtle; only the query cache
      may grow. */
  lemma {:induction false} ParsedOperandEval(env: Env, fuel: nat, v: Value, h: Heap)
    requires Parsable(v) && Consistent(h)
    ensures var r := EvalValue(env, fuel, v, h);
            && Fueled(r)
            && r == EvalValue(env, 0, v, h)
            && (r.Ok? ==> r.value.1.variables == h.variables && r.value.1.turtle == h.turtle)
    decreases v
  {
    match v
    case Binary(e) =>
      ParsedOperandEval(env, fuel, e.left, h);
      var a := EvalValue(env, fuel, e.left, h);
      EvalValueConsistent(env, fuel, e.left, h);
      if a.Ok? {
        ParsedOperandEval(env, fuel, e.right, a.value.1);
      }
    case Nested(c) =>
      var g := GetCallable(h, c.callee);
      GetCallableKeepsConsistent(h, c.callee);
      assert g.Ok? && g.value.0 == QueryImpl(c.callee.query);
    case _ =>
  }

  /** Arguments that are all literals evaluate to those literals and leave
      the heap alone. */
  lemma {:induction false} LiteralArgs(env: Env, fuel: nat, args: seq<Value>, h: Heap)
    requires forall k :: 0 <= k < |args| ==> args[k].Lit?
    ensures var r := EvalArgs(env, fuel, args, h);
            && r.Ok? && r.value.1 == h && |r.value.0| == |args|
            && forall k :: 0 <= k < |args| ==> r.value.0[k] == args[k].lit
  {
    if |args| > 0 {
      LiteralArgs(env, fuel, args[1..], h);
      var tail := EvalArgs(env, fuel, args[1..], h).value.0;
      assert EvalValue(env, fuel, args[0], h) == Ok((args[0].lit, h));
      assert EvalArgs(env, fuel, args, h) == Ok(([args[0].lit] + tail, h));
      assert forall k :: 1 <= k < |args| ==> ([args[0].lit] + tail)[k] == tail[k - 1] == args[1..][k - 1].lit;
    }
  }

  /** Parsed arguments are evaluated left to right on the caller's heap:
      the call goes ahead exactly when every argument has a value, each
      value is the one that argument has on its own, and otherwise the
      error is the first failing argument's. */
  lemma {:induction false} EvalArgsValues(env: Env, fuel: nat, args: seq<Value>, h: Heap)
    requires Consistent(h)
    requires forall k :: 0 <= k < |args| ==> Parsable(args[k])
    ensures var r := EvalArgs(env, fuel, args, h);
            && (r.Ok? <==> forall k :: 0 <= k < |args| ==> EvalValue(env, fuel, args[k], h).Ok?)
            && (r.Ok? ==> r.value.1.variables == h.variables && r.value.1.turtle == h.turtle)
            && (r.Ok? ==> forall k :: 0 <= k < |args| ==> r.value.0[k] == EvalValue(env, fuel, args[k], h).value.0)
            && (r.Err? ==> exists j :: 0 <= j < |args| && FirstFailure(env, fuel, args, h, j)
                                       && r.error == EvalValue(env, fuel, args[j], h).error)
    decreases |args|
  {
    if |args| > 0 {
      var a := EvalValue(env, fuel, args[0], h);
      ParsedOperandEval(env, fuel, args[0], h);
      if a.Err? {
        assert FirstFailure(env, fuel, args, h, 0);
      } else {
        var (l, h1) := a.value;
        EvalValueConsistent(env, fuel, args[0], h);
        var rest := args[1..];
        EvalArgsValues(env, fuel, rest, h1);
        forall k | 0 <= k < |rest|
          ensures var x := EvalValue(env, fuel, rest[k], h1);
                  var y := EvalValue(env, fuel, rest[k], h);
                  x.Ok? == y.Ok? && (x.Ok? ==> x.value.0 == y.value.0) && (x.Err? ==> x.error == y.error)
        {
          SameExceptCaches(env, fuel, rest[k], h1, h);
        }
        assert forall k :: 1 <= k < |args| ==> args[k] == rest[k - 1];
        var t := EvalArgs(env, fuel, rest, h1);
        if t.Ok? {
          assert EvalArgs(env, fuel, args, h) == Ok(([l] + t.value.0, t.value.1));
          assert forall k :: 1 <= k < |args| ==> ([l] + t.value.0)[k] == t.value.0[k - 1];
        } else {
          var j :| 0 <= j < |rest| && FirstFailure(env, fuel, rest, h1, j)
                   && t.error == EvalValue(env, fuel, rest[j], h1).error;
          assert FirstFailure(env, fuel, args, h, j + 1);
        }
      }
    }
  }

  /** Argument `j` is the first whose evaluation on `h` fails. */
  ghost predicate FirstFailure(env: Env, fuel: nat, args: seq<Value>, h: Heap, j: int)
    requires 0 <= j < |args|
  {
    && EvalValue(env, fuel, args[j], h).Err?
    && forall k :: 0 <= k < j ==> EvalValue(env, fuel, args[k], h).Ok?
  }

  /** Running `a + b` runs `a`, then `b` on the heap `a` leaves; an error in
      `a` ends the block before `b` starts. */
  lemma {:induction false} ExecBlockAppend(env: Env, fuel: nat, a: seq<Statement>, b: seq<Statement>, h: Heap)
    ensures ExecBlock(env, fuel, a + b, h) ==
              match ExecBlock(env, fuel, a, h)
              case Ok(h1) => ExecBlock(env, fuel, b, h1)
              case Err(e) => Err(e)
    decreases |a|
  {
    if |a| == 0 {
      assert a + b == b;
    } else {
      assert (a + b)[0] == a[0] && (a + b)[1..] == a[1..] + b;
      var s := ExecStatement(env, fuel, a[0], h);
      if s.Ok? {
        ExecBlockAppend(env, fuel, a[1..], b, s.value);
      }
    }
  }

  /** Both operands of a binary expression are evaluated, left first,
      before the operator looks at either: AND and OR do not short-circuit,
      so an unbound variable on the right aborts `AND "FALSE :x`; and when
      both sides fail, the left side's error is the one reported. */
  lemma OperandsBothEvaluated(env: Env, fuel: nat, op: LogicalOperation, x: string, y: string, h: Heap)
    requires x !in h.variables && y !in h.variables
    ensures EvalBinary(env, fuel, BinaryExpression(Logic(op), Lit(Bool(false)), Ident(Variable(y))), h)
            == Err(UndefinedVariable(y))
    ensures EvalBinary(env, fuel, BinaryExpression(Logic(op), Ident(Variable(x)), Ident(Variable(y))), h)
            == Err(UndefinedVariable(x))
  {
  }

  // ---------------------------------------------------------------------
  // The procedure-call protocol

  /** The variables a procedure body starts with: every non-formal keeps
      its value, each formal is bound to the value at its position (the
      last such position when a name repeats), and formals beyond the last
      argument are unbound. */
  lemma BodyStartBindings(vars: map<string, Literal>, params: seq<string>, vals: seq<Literal>)
    ensures var start := PushArguments(HandleConflicts(vars, params).0, params, vals);
            var n := Min(|params|, |vals|);
            && (forall k :: k in vars && k !in params ==> k in start && start[k] == vars[k])
            && (forall j :: 0 <= j < n && params[j] !in params[j + 1..n] ==>
                  params[j] in start && start[params[j]] == vals[j])
            && (forall k :: k in params && k !in params[..n] ==> k !in start)
  {
    HandleConflictsSplits(vars, params);
    var (rest, _) := HandleConflicts(vars, params);
    var start := PushArguments(rest, params, vals);
    var n := Min(|params|, |vals|);
    PushArgumentsBinds(rest, params, vals);
    var bound := set j | 0 <= j < |params| && j < |vals| :: params[j];
    assert start.Keys == rest.Keys + bound;
    forall k | k in vars && k !in params ensures k in start && start[k] == vars[k] {
      assert k in rest && rest[k] == vars[k];
      forall j | 0 <= j < n ensures params[..n][j] != k {
        assert params[..n][j] == params[j];
      }
    }
    forall k | k in params && k !in params[..n] ensures k !in start {
      assert k !in rest;
      forall j | 0 <= j < |params| && j < |vals| ensures params[j] != k {
        assert params[j] == params[..n][j];
      }
    }
  }

  /** After the body, the saved formals get their pre-call values back and
      everything else is as the body left it: formals that were unbound
      before the call stay bound, and so does every variable the body
      created. */
  lemma AfterCallBindings(before: map<string, Literal>, params: seq<string>, end: map<string, Literal>)
    ensures var r := Restore(end, HandleConflicts(before, params).1);
            && (forall k :: k in params && k in before ==> k in r && r[k] == before[k])
            && (forall k :: !(k in params && k in before) ==>
                  (k in r <==> k in end) && (k in end ==> r[k] == end[k]))
  {
    HandleConflictsSplits(before, params);
  }

  /** `Procedure::call` end to end: the arguments are evaluated first, in
      the caller's bindings; the body runs one fuel unit lower from the
      bindings of `BodyStartBindings`; afterwards the formals that were
      bound before the call are restored and nothing else is undone. */
  lemma ProcedureFrame(env: Env, fuel: nat, params: seq<string>, body: seq<Statement>,
                       c: CallExpression, h: Heap)
    requires CallProcedure(env, fuel, params, body, c, h).Ok?
    ensures fuel > 0 && EvalArgs(env, fuel, c.arguments, h).Ok?
    ensures var (vals, h1) := EvalArgs(env, fuel, c.arguments, h).value;
            var start := h1.(variables := PushArguments(HandleConflicts(h1.variables, params).0, params, vals));
            && ExecBlock(env, fuel - 1, body, start).Ok?
            && var end := ExecBlock(env, fuel - 1, body, start).value;
            var r := CallProcedure(env, fuel, params, body, c, h).value;
            && r.turtle == end.turtle && r.callables == end.callables
            && (forall k :: k in params && k in h1.variables ==> k in r.variables && r.variables[k] == h1.variables[k])
            && (forall k :: !(k in params && k in h1.variables) ==>
                  (k in r.variables <==> k in end.variables)
                  && (k in end.variables ==> r.variables[k] == end.variables[k]))
  {
    var (vals, h1) := EvalArgs(env, fuel, c.arguments, h).value;
    assert CallProcedure(env, fuel, params, body, c, h) == RunBody(env, fuel - 1, params, body, vals, h1);
    var start := h1.(variables := PushArguments(HandleConflicts(h1.variables, params).0, params, vals));
    var end := ExecBlock(env, fuel - 1, body, start).value;
    AfterCallBindings(h1.variables, params, end.variables);
  }

  /** A procedure call produces no value. */
  lemma ProcedureCallHasNoResult(env: Env, fuel: nat, c: CallExpression, h: Heap)
    requires c.callee in h.callables && h.callables[c.callee].ProcedureImpl?
    requires Call(env, fuel, c, h).Ok?
    ensures Call(env, fuel, c, h).value.0.None?
  {
    var impl := h.callables[c.callee];
    assert GetCallable(h, c.callee) == Ok((impl, h));
  }

  // ---------------------------------------------------------------------
  // Commands and queries

  function Command(c: CommandType, args: seq<Value>): CallExpression {
    CallExpression(CommandCallee(c), args)
  }

  function Query(q: QueryType): CallExpression {
    CallExpression(QueryCallee(q), [])
  }

  /** A query reads the turtle, whatever arguments it is given, and changes
      neither variables nor turtle. */
  lemma QueryIgnoresArguments(env: Env, fuel: nat, q: QueryType, args: seq<Value>, h: Heap)
    requires Consistent(h)
    ensures Call(env, fuel, CallExpression(QueryCallee(q), args), h) == Call(env, fuel, Query(q), h)
    ensures var r := Call(env, fuel, Query(q), h);
            r.Ok? && r.value.0 == Some(QueryResult(h.turtle, q))
            && r.value.1.variables == h.variables && r.value.1.turtle == h.turtle
  {
    var g := GetCallable(h, QueryCallee(q));
    GetCallableKeepsConsistent(h, QueryCallee(q));
    assert g.Ok? && g.value.0 == QueryImpl(q);
  }

  /** A command other than PENUP and PENDOWN evaluates its first argument
      and ignores the rest, which are never evaluated; its effect is the
      command's on the turtle the argument's evaluation left. The argument
      is evaluated after the command's implementation is looked up (and
      cached). */
  lemma CommandUsesFirstArgument(env: Env, fuel: nat, c: CommandType, a: Value, rest: seq<Value>, h: Heap)
    requires Consistent(h) && c != Penup && c != Pendown
    ensures Call(env, fuel, Command(c, [a] + rest), h) == Call(env, fuel, Command(c, [a]), h)
    ensures var r := Call(env, fuel, Command(c, [a]), h);
            var e := EvalValue(env, fuel, a, GetCallable(h, CommandCallee(c)).value.1);
            && (e.Err? ==> r == Err(e.error))
            && (e.Ok? ==> var (l, h1) := e.value;
                          r == match CommandEffect(env, c, l, h1.turtle)
                               case Ok(t) => Ok((None, h1.(turtle := t)))
                               case Err(err) => Err(err))
  {
    var g := GetCallable(h, CommandCallee(c));
    GetCallableKeepsConsistent(h, CommandCallee(c));
    assert g.Ok? && g.value.0 == CommandImpl(c);
    var h1 := g.value.1;
    var long, short := Command(c, [a] + rest), Command(c, [a]);
    assert long.arguments[0] == short.arguments[0] == a;
    assert RunCommand(env, fuel, c, long, h1) == RunCommand(env, fuel, c, short, h1);
  }

  /** A command given no argument at all does nothing (`args.get(0)?`). */
  lemma CommandWithoutArgument(env: Env, fuel: nat, c: CommandType, h: Heap)
    requires Consistent(h) && c != Penup && c != Pendown
    ensures var r := Call(env, fuel, Command(c, []), h);
            r.Ok? && r.value.0.None? && r.value.1.variables == h.variables && r.value.1.turtle == h.turtle
  {
    var g := GetCallable(h, CommandCallee(c));
    GetCallableKeepsConsistent(h, CommandCallee(c));
    assert g.Ok? && g.value.0 == CommandImpl(c);
  }

  /** PENUP and PENDOWN change only the pen flag and ignore their
      arguments, which are not even evaluated. */
  lemma PenCommands(env: Env, fuel: nat, args: seq<Value>, h: Heap)
    requires Consistent(h)
    ensures var r := Call(env, fuel, Command(Penup, args), h);
            r.Ok? && r.value.0.None? && r.value.1.variables == h.variables
            && r.value.1.turtle == h.turtle.(pen := false)
    ensures var r := Call(env, fuel, Command(Pendown, args), h);
            r.Ok? && r.value.0.None? && r.value.1.variables == h.variables
            && r.value.1.turtle == h.turtle.(pen := true)
  {
    var g := GetCallable(h, CommandCallee(Penup));
    GetCallableKeepsConsistent(h, CommandCallee(Penup));
    assert g.Ok? && g.value.0 == CommandImpl(Penup);
    var g' := GetCallable(h, CommandCallee(Pendown));
    GetCallableKeepsConsistent(h, CommandCallee(Pendown));
    assert g'.Ok? && g'.value.0 == CommandImpl(Pendown);
  }

  /** Movement and SETX/SETY given a Bool do nothing at all. */
  lemma BoolArgumentIgnored(env: Env, fuel: nat, c: CommandType, b: bool, h: Heap)
    requires Consistent(h)
    requires IsMove(c) || c == Setx || c == Sety
    ensures var r := Call(env, fuel, Command(c, [Lit(Bool(b))]), h);
            r.Ok? && r.value.0.None? && r.value.1.variables == h.variables && r.value.1.turtle == h.turtle
  {
    var g := GetCallable(h, CommandCallee(c));
    GetCallableKeepsConsistent(h, CommandCallee(c));
    assert g.Ok? && g.value.0 == CommandImpl(c);
  }

  /** Runs a command with one literal argument, then a query. */
  function SetThenQuery(env: Env, fuel: nat, c: CommandType, l: Literal, q: QueryType, h: Heap)
    : Result<Option<Literal>>
  {
    var (_, h1) :- Call(env, fuel, Command(c, [Lit(l)]), h);
    var (result, _) :- Call(env, fuel, Query(q), h1);
    Ok(result)
  }

  /** A query after a one-argument command reads the turtle that the
      command's effect produced; a failing command is the result. */
  lemma CommandThenQuery(env: Env, fuel: nat, c: CommandType, l: Literal, q: QueryType, h: Heap)
    requires Consistent(h) && c != Penup && c != Pendown
    ensures SetThenQuery(env, fuel, c, l, q, h) ==
              (match CommandEffect(env, c, l, h.turtle)
               case Ok(t) => Ok(Some(QueryResult(t, q)))
               case Err(e) => Err(e))
  {
    var g := GetCallable(h, CommandCallee(c));
    GetCallableKeepsConsistent(h, CommandCallee(c));
    assert g.Ok? && g.value.0 == CommandImpl(c);
    var h1 := g.value.1;
    assert EvalValue(env, fuel, Lit(l), h1) == Ok((l, h1));
    var e := CommandEffect(env, c, l, h1.turtle);
    assert RunCommand(env, fuel, c, Command(c, [Lit(l)]), h1)
        == if e.Ok? then Ok(h1.(turtle := e.value)) else Err(e.error);
    if e.Ok? {
      var h2 := h1.(turtle := e.value);
      assert Call(env, fuel, Command(c, [Lit(l)]), h) == Ok((None, h2));
      assert Consistent(h2);
      QueryIgnoresArguments(env, fuel, q, [], h2);
    }
  }

  /** What the setters write, the queries read back: SETX/XCOR and
      SETY/YCOR as floats (an Int argument widened), SETHEADING/HEADING and
      SETPENCOLOR/COLOR as integers. */
  lemma SettersAndQueries(env: Env, fuel: nat, l: Literal, h: Heap)
    requires Consistent(h)
    ensures IsNumeric(l) ==> SetThenQuery(env, fuel, Setx, l, Xcor, h) == Ok(Some(Float(AsFloat(env.ops, l))))
    ensures IsNumeric(l) ==> SetThenQuery(env, fuel, Sety, l, Ycor, h) == Ok(Some(Float(AsFloat(env.ops, l))))
    ensures ExpectInt(env.ops, l).Some? ==>
              SetThenQuery(env, fuel, Setheading, l, Heading, h) == Ok(Some(Int(ExpectInt(env.ops, l).value)))
    ensures ExpectInt(env.ops, l).Some? ==>
              SetThenQuery(env, fuel, Setpencolor, l, Color, h) == Ok(Some(Int(ExpectInt(env.ops, l).value)))
  {
    ReadBack(env, fuel, Setx, l, Xcor, h);
    ReadBack(env, fuel, Sety, l, Ycor, h);
    ReadBack(env, fuel, Setheading, l, Heading, h);
    ReadBack(env, fuel, Setpencolor, l, Color, h);
  }

  /** One setter and the query that reads its field. */
  lemma ReadBack(env: Env, fuel: nat, c: CommandType, l: Literal, q: QueryType, h: Heap)
    requires Consistent(h)
    requires (c, q) in {(Setx, Xcor), (Sety, Ycor), (Setheading, Heading), (Setpencolor, Color)}
    ensures (c == Setx || c == Sety) && IsNumeric(l) ==>
              SetThenQuery(env, fuel, c, l, q, h) == Ok(Some(Float(AsFloat(env.ops, l))))
    ensures (c == Setheading || c == Setpencolor) && ExpectInt(env.ops, l).Some? ==>
              SetThenQuery(env, fuel, c, l, q, h) == Ok(Some(Int(ExpectInt(env.ops, l).value)))
  {
    CommandThenQuery(env, fuel, c, l, q, h);
  }

  /** TURN adds to the heading, with no normalisation, and aborts when the
      sum leaves `i32`; the heading query reads the sum back. */
  lemma TurnThenHeading(env: Env, fuel: nat, d: Int32, h: Heap)
    requires Consistent(h)
    ensures InI32(h.turtle.direction + d) ==>
              SetThenQuery(env, fuel, Turn, Int(d), Heading, h) == Ok(Some(Int(h.turtle.direction + d)))
    ensures !InI32(h.turtle.direction + d) ==> SetThenQuery(env, fuel, Turn, Int(d), Heading, h) == Err(Overflow)
  {
    CommandThenQuery(env, fuel, Turn, Int(d), Heading, h);
    assert ExpectInt(env.ops, Int(d)) == Some(d);
    var e := CommandEffect(env, Turn, Int(d), h.turtle);
    assert e == Turtles.Turn(h.turtle, d);
    if e.Ok? {
      assert QueryResult(e.value, Heading) == Int(h.turtle.direction + d);
    }
  }

  /** SETPENCOLOR, SETHEADING and TURN abort on a Bool or a fractional
      float. */
  lemma IntegerCommandsReject(env: Env, fuel: nat, c: CommandType, l: Literal, h: Heap)
    requires Consistent(h)
    requires c in {Setpencolor, Setheading, Turn}
    requires ExpectInt(env.ops, l).None?
    ensures Call(env, fuel, Command(c, [Lit(l)]), h) == Err(TypeMismatch)
  {
    var g := GetCallable(h, CommandCallee(c));
    GetCallableKeepsConsistent(h, CommandCallee(c));
    assert g.Ok? && g.value.0 == CommandImpl(c);
  }

  /** The second lookup of a callee finds the entry the first one cached,
      and changes nothing. */
  lemma GetCallableTwice(h: Heap, callee: Callee)
    requires GetCallable(h, callee).Ok?
    ensures var (impl, h1) := GetCallable(h, callee).value;
            GetCallable(h1, callee) == Ok((impl, h1))
  {
  }

  // ---------------------------------------------------------------------
  // Assignment

  /** MAKE with an operand as the parser produces it: that one name is
      bound to the operand's value; no other variable changes. */
  lemma MakeBindsOneName(env: Env, fuel: nat, name: string, right: Value, h: Heap)
    requires Parsable(right) && Consistent(h)
    requires EvalValue(env, fuel, right, h).Ok?
    ensures var r := ExecStatement(env, fuel, Assignment(Make, name, right), h);
            r.Ok? && r.value.variables == h.variables[name := EvalValue(env, fuel, right, h).value.0]
            && r.value.turtle == h.turtle
  {
    ParsedOperandEval(env, fuel, right, GetAssignable(h, Make));
    ParsedOperandEval(env, fuel, right, h);
    assert EvalValue(env, fuel, right, GetAssignable(h, Make)).value.0
        == EvalValue(env, fuel, right, h).value.0 by {
      EvalValueIgnoresAssignables(env, fuel, right, h, Make);
    }
  }

  /** Recording an assignment implementation as built does not change what
      an operand evaluates to. */
  lemma {:induction false} EvalValueIgnoresAssignables(env: Env, fuel: nat, v: Value, h: Heap, op: AssignmentType)
    requires Parsable(v) && Consistent(h)
    ensures var a := EvalValue(env, fuel, v, h);
            var b := EvalValue(env, fuel, v, GetAssignable(h, op));
            a.Ok? == b.Ok? && (a.Ok? ==> a.value.0 == b.value.0)
    decreases v
  {
    match v
    case Binary(e) =>
      EvalValueIgnoresAssignables(env, fuel, e.left, h, op);
      var a := EvalValue(env, fuel, e.left, h);
      var b := EvalValue(env, fuel, e.left, GetAssignable(h, op));
      ParsedOperandEval(env, fuel, e.left, h);
      ParsedOperandEval(env, fuel, e.left, GetAssignable(h, op));
      EvalValueConsistent(env, fuel, e.left, h);
      EvalValueConsistent(env, fuel, e.left, GetAssignable(h, op));
      if a.Ok? {
        SameExceptCaches(env, fuel, e.right, a.value.1, b.value.1);
      }
    case Nested(c) =>
      var g := GetCallable(h, c.callee);
      GetCallableKeepsConsistent(h, c.callee);
      assert g.Ok? && g.value.0 == QueryImpl(c.callee.query);
      var g' := GetCallable(GetAssignable(h, op), c.callee);
      assert g'.Ok? && g'.value.0 == QueryImpl(c.callee.query);
    case _ =>
  }

  /** Two consistent heaps with the same variables and turtle give a parsed
      operand the same value: the caches do not matter. */
  lemma {:induction false} SameExceptCaches(env: Env, fuel: nat, v: Value, h: Heap, h': Heap)
    requires Parsable(v) && Consistent(h) && Consistent(h')
    requires h.variables == h'.variables && h.turtle == h'.turtle
    ensures var a := EvalValue(env, fuel, v, h);
            var b := EvalValue(env, fuel, v, h');
            a.Ok? == b.Ok? && (a.Ok? ==> a.value.0 == b.value.0) && (a.Err? ==> a.error == b.error)
    decreases v
  {
    match v
    case Binary(e) =>
      SameExceptCaches(env, fuel, e.left, h, h');
      var a := EvalValue(env, fuel, e.left, h);
      var b := EvalValue(env, fuel, e.left, h');
      ParsedOperandEval(env, fuel, e.left, h);
      ParsedOperandEval(env, fuel, e.left, h');
      EvalValueConsistent(env, fuel, e.left, h);
      EvalValueConsistent(env, fuel, e.left, h');
      if a.Ok? {
        SameExceptCaches(env, fuel, e.right, a.value.1, b.value.1);
      }
    case Nested(c) =>
      var g := GetCallable(h, c.callee);
      GetCallableKeepsConsistent(h, c.callee);
      assert g.Ok? && g.value.0 == QueryImpl(c.callee.query);
      var g' := GetCallable(h', c.callee);
      assert g'.Ok? && g'.value.0 == QueryImpl(c.callee.query);
    case _ =>
  }

  /** The right-hand side is read before the old value, so
      `ADDASSIGN "x :x` doubles x. */
  lemma AddAssignDoubles(env: Env, fuel: nat, x: string, i: Int32, h: Heap)
    requires x in h.variables && h.variables[x] == Int(i)
    ensures var r := ExecStatement(env, fuel, Assignment(Addassign, x, Ident(Variable(x))), h);
            && (InI32(i + i) ==> r.Ok? && r.value.variables == h.variables[x := Int(i + i)])
            && (!InI32(i + i) ==> r == Err(Overflow))
  {
  }

  /** ADDASSIGN to an unbound name aborts, once its right-hand side has
      been evaluated; a Bool on either side aborts too. */
  lemma AddAssignErrors(env: Env, fuel: nat, x: string, l: Literal, h: Heap)
    ensures x !in h.variables ==>
              ExecStatement(env, fuel, Assignment(Addassign, x, Lit(l)), h) == Err(UndefinedVariable(x))
    ensures x in h.variables && (l.Bool? || h.variables[x].Bool?) ==>
              ExecStatement(env, fuel, Assignment(Addassign, x, Lit(l)), h) == Err(TypeMismatch)
  {
  }

  // ---------------------------------------------------------------------
  // IF and WHILE

  /** IF evaluates its test once; the consequent runs exactly when it is
      `true`; a non-Bool test aborts. */
  lemma IfSemantics(env: Env, fuel: nat, test: Value, body: seq<Statement>, h: Heap)
    requires EvalValue(env, fuel, test, h).Ok?
    ensures var (l, h1) := EvalValue(env, fuel, test, h).value;
            var r := ExecStatement(env, fuel, IfStatement(test, body), h);
            && (l == Bool(true) ==> r == ExecBlock(env, fuel, body, h1))
            && (l == Bool(false) ==> r == Ok(h1))
            && (!l.Bool? ==> r == Err(TypeMismatch))
  {
  }

  /** A WHILE whose test is `false` is finished without spending fuel; one
      whose test is `true` runs the body and then starts over, a unit of
      fuel lower. */
  lemma WhileUnfolds(env: Env, fuel: nat, test: Value, body: seq<Statement>, h: Heap)
    requires EvalValue(env, fuel, test, h).Ok?
    ensures var (l, h1) := EvalValue(env, fuel, test, h).value;
            var s := WhileStatement(test, body);
            && (l == Bool(false) ==> ExecStatement(env, fuel, s, h) == Ok(h1))
            && (!l.Bool? ==> ExecStatement(env, fuel, s, h) == Err(TypeMismatch))
            && (l == Bool(true) && fuel == 0 ==> ExecStatement(env, fuel, s, h) == Err(OutOfFuel))
            && (l == Bool(true) && fuel > 0 ==>
                  ExecStatement(env, fuel, s, h) ==
                    (match ExecBlock(env, fuel - 1, body, h1)
                     case Ok(h2) => Loop(env, fuel - 1, s, h2)
                     case Err(e) => Err(e)))
  {
  }

  /** `WHILE "TRUE [ … ]` never finishes: with any fuel, the run ends in an
      error. */
  lemma {:induction false} WhileTrueNeverSucceeds(env: Env, fuel: nat, body: seq<Statement>, h: Heap)
    ensures Loop(env, fuel, WhileStatement(Lit(Bool(true)), body), h).Err?
    decreases fuel
  {
    var s := WhileStatement(Lit(Bool(true)), body);
    if fuel > 0 {
      var b := ExecBlock(env, fuel - 1, body, h);
      if b.Ok? {
        WhileTrueNeverSucceeds(env, fuel - 1, body, b.value);
      }
    }
  }
}
