/** Fuel is only a bound, never part of the meaning: a run that did not
    run out of fuel gives the same result, heap and all, with any larger
    bound. */
module FuelFacts {
  import opened Results
  import opened Literals
  import opened Tokens
  import opened Ast
  import opened Heaps
  import opened Turtles
  import opened Evaluator

  /** The result is not the out-of-fuel error. */
  predicate Fueled<T>(r: Result<T>) {
    !(r.Err? && r.error == OutOfFuel)
  }

  lemma {:induction false} EvalValueFuel(env: Env, fuel: nat, v: Value, h: Heap)
    requires Fueled(EvalValue(env, fuel, v, h))
    ensures EvalValue(env, fuel + 1, v, h) == EvalValue(env, fuel, v, h)
    decreases fuel, v, 0
  {
    match v
    case Nested(c) => CallFuel(env, fuel, c, h);
    case Binary(e) => EvalBinaryFuel(env, fuel, e, h);
    case _ =>
  }

  lemma {:induction false} EvalBinaryFuel(env: Env, fuel: nat, e: BinaryExpression, h: Heap)
    requires Fueled(EvalBinary(env, fuel, e, h))
    ensures EvalBinary(env, fuel + 1, e, h) == EvalBinary(env, fuel, e, h)
    decreases fuel, e, 0
  {
    var a := EvalValue(env, fuel, e.left, h);
    EvalValueFuel(env, fuel, e.left, h);
    if a.Ok? {
      EvalValueFuel(env, fuel, e.right, a.value.1);
    }
  }

  lemma {:induction false} EvalArgsFuel(env: Env, fuel: nat, args: seq<Value>, h: Heap)
    requires Fueled(EvalArgs(env, fuel, args, h))
    ensures EvalArgs(env, fuel + 1, args, h) == EvalArgs(env, fuel, args, h)
    decreases fuel, args, 0
  {
    if |args| > 0 {
      var a := EvalValue(env, fuel, args[0], h);
      EvalValueFuel(env, fuel, args[0], h);
      if a.Ok? {
        EvalArgsFuel(env, fuel, args[1..], a.value.1);
      }
    }
  }

  lemma {:induction false} CallFuel(env: Env, fuel: nat, c: CallExpression, h: Heap)
    requires Fueled(Call(env, fuel, c, h))
    ensures Call(env, fuel + 1, c, h) == Call(env, fuel, c, h)
    decreases fuel, c, 2
  {
    var g := GetCallable(h, c.callee);
    if g.Ok? {
      var (impl, h1) := g.value;
      match impl
      case CommandImpl(cmd) => RunCommandFuel(env, fuel, cmd, c, h1);
      case ProcedureImpl(params, body) => CallProcedureFuel(env, fuel, params, body, c, h1);
      case QueryImpl(_) =>
    }
  }

  lemma {:induction false} RunCommandFuel(env: Env, fuel: nat, cmd: CommandType, c: CallExpression, h: Heap)
    requires Fueled(RunCommand(env, fuel, cmd, c, h))
    ensures RunCommand(env, fuel + 1, cmd, c, h) == RunCommand(env, fuel, cmd, c, h)
    decreases fuel, c, 1
  {
    if cmd != Penup && cmd != Pendown && |c.arguments| > 0 {
      EvalValueFuel(env, fuel, c.arguments[0], h);
    }
  }

  lemma {:induction false} CallProcedureFuel(env: Env, fuel: nat, params: seq<string>, body: seq<Statement>,
                                             c: CallExpression, h: Heap)
    requires Fueled(CallProcedure(env, fuel, params, body, c, h))
    ensures CallProcedure(env, fuel + 1, params, body, c, h) == CallProcedure(env, fuel, params, body, c, h)
    decreases fuel, c, 1
  {
    var a := EvalArgs(env, fuel, c.arguments, h);
    EvalArgsFuel(env, fuel, c.arguments, h);
    if a.Ok? && fuel > 0 {
      var (vals, h1) := a.value;
      assert CallProcedure(env, fuel, params, body, c, h) == RunBody(env, fuel - 1, params, body, vals, h1);
      assert CallProcedure(env, fuel + 1, params, body, c, h) == RunBody(env, fuel, params, body, vals, h1);
      RunBodyFuel(env, fuel - 1, params, body, vals, h1);
    }
  }

  lemma {:induction false} RunBodyFuel(env: Env, fuel: nat, params: seq<string>, body: seq<Statement>,
                                       vals: seq<Literal>, h: Heap)
    requires Fueled(RunBody(env, fuel, params, body, vals, h))
    ensures RunBody(env, fuel + 1, params, body, vals, h) == RunBody(env, fuel, params, body, vals, h)
    decreases fuel, body, 1
  {
    var (rest, buf) := HandleConflicts(h.variables, params);
    ExecBlockFuel(env, fuel, body, h.(variables := PushArguments(rest, params, vals)));
  }

  lemma {:induction false} ExecStatementFuel(env: Env, fuel: nat, s: Statement, h: Heap)
    requires Fueled(ExecStatement(env, fuel, s, h))
    ensures ExecStatement(env, fuel + 1, s, h) == ExecStatement(env, fuel, s, h)
    decreases fuel, s, 2
  {
    match s
    case CallStatement(c) => CallFuel(env, fuel, c, h);
    case Assignment(op, _, right) => EvalValueFuel(env, fuel, right, GetAssignable(h, op));
    case IfStatement(test, consequent) =>
      var a := EvalValue(env, fuel, test, h);
      EvalValueFuel(env, fuel, test, h);
      if a.Ok? && a.value.0.Bool? && a.value.0.b {
        ExecBlockFuel(env, fuel, consequent, a.value.1);
      }
    case WhileStatement(_, _) => LoopFuel(env, fuel, s, h);
    case ProcedureDeclaration(_, _, _) =>
  }

  lemma {:induction false} LoopFuel(env: Env, fuel: nat, s: Statement, h: Heap)
    requires s.WhileStatement?
    requires Fueled(Loop(env, fuel, s, h))
    ensures Loop(env, fuel + 1, s, h) == Loop(env, fuel, s, h)
    decreases fuel, s, 1
  {
    var a := EvalValue(env, fuel, s.test, h);
    if a.Err? {
      assert Loop(env, fuel, s, h) == Err(a.error);
      EvalValueFuel(env, fuel, s.test, h);
    } else {
      EvalValueFuel(env, fuel, s.test, h);
      var (l, h1) := a.value;
      if l.Bool? && l.b && fuel > 0 {
        var b := ExecBlock(env, fuel - 1, s.body, h1);
        assert Loop(env, fuel, s, h) == if b.Ok? then Loop(env, fuel - 1, s, b.value) else Err(b.error);
        if b.Err? {
          assert Loop(env, fuel, s, h) == Err(b.error);
          ExecBlockFuel(env, fuel - 1, s.body, h1);
        } else {
          ExecBlockFuel(env, fuel - 1, s.body, h1);
          LoopFuel(env, fuel - 1, s, b.value);
        }
      }
    }
  }

  lemma {:induction false} ExecBlockFuel(env: Env, fuel: nat, ss: seq<Statement>, h: Heap)
    requires Fueled(ExecBlock(env, fuel, ss, h))
    ensures ExecBlock(env, fuel + 1, ss, h) == ExecBlock(env, fuel, ss, h)
    decreases fuel, ss, 0
  {
    if |ss| > 0 {
      var a := ExecStatement(env, fuel, ss[0], h);
      ExecStatementFuel(env, fuel, ss[0], h);
      if a.Ok? {
        ExecBlockFuel(env, fuel, ss[1..], a.value);
      }
    }
  }

  /** Any larger bound gives the same outcome for a whole program. */
  lemma {:induction false} MoreFuel(env: Env, fuel: nat, more: nat, ss: seq<Statement>, h: Heap)
    requires fuel <= more
    requires Fueled(ExecBlock(env, fuel, ss, h))
    ensures ExecBlock(env, more, ss, h) == ExecBlock(env, fuel, ss, h)
    decreases more - fuel
  {
    if fuel < more {
      ExecBlockFuel(env, fuel, ss, h);
      MoreFuel(env, fuel + 1, more, ss, h);
    }
  }
}
