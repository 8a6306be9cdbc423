/** The callable table stays consistent through any run: built-ins are
    only ever cached under their own key, and declarations only ever store
    procedures under procedure names. */
module RegistryFacts {
  import opened Results
  import opened Literals
  import opened Tokens
  import opened Ast
  import opened Heaps
  import opened Turtles
  import opened Evaluator

  lemma {:induction false} EvalValueConsistent(env: Env, fuel: nat, v: Value, h: Heap)
    requires Consistent(h)
    ensures var r := EvalValue(env, fuel, v, h); r.Ok? ==> Consistent(r.value.1)
    decreases fuel, v, 0
  {
    match v
    case Nested(c) => CallConsistent(env, fuel, c, h);
    case Binary(e) => EvalBinaryConsistent(env, fuel, e, h);
    case _ =>
  }

  lemma {:induction false} EvalBinaryConsistent(env: Env, fuel: nat, e: BinaryExpression, h: Heap)
    requires Consistent(h)
    ensures var r := EvalBinary(env, fuel, e, h); r.Ok? ==> Consistent(r.value.1)
    decreases fuel, e, 0
  {
    var a := EvalValue(env, fuel, e.left, h);
    EvalValueConsistent(env, fuel, e.left, h);
    if a.Ok? {
      EvalValueConsistent(env, fuel, e.right, a.value.1);
    }
  }

  lemma {:induction false} EvalArgsConsistent(env: Env, fuel: nat, args: seq<Value>, h: Heap)
    requires Consistent(h)
    ensures var r := EvalArgs(env, fuel, args, h); r.Ok? ==> Consistent(r.value.1)
    decreases fuel, args, 0
  {
    if |args| > 0 {
      var a := EvalValue(env, fuel, args[0], h);
      EvalValueConsistent(env, fuel, args[0], h);
      if a.Ok? {
        EvalArgsConsistent(env, fuel, args[1..], a.value.1);
      }
    }
  }

  lemma {:induction false} CallConsistent(env: Env, fuel: nat, c: CallExpression, h: Heap)
    requires Consistent(h)
    ensures var r := Call(env, fuel, c, h); r.Ok? ==> Consistent(r.value.1)
    decreases fuel, c, 2
  {
    var g := GetCallable(h, c.callee);
    GetCallableKeepsConsistent(h, c.callee);
    if g.Ok? {
      var (impl, h1) := g.value;
      match impl
      case CommandImpl(cmd) => RunCommandConsistent(env, fuel, cmd, c, h1);
      case ProcedureImpl(params, body) => CallProcedureConsistent(env, fuel, params, body, c, h1);
      case QueryImpl(_) =>
    }
  }

  lemma {:induction false} RunCommandConsistent(env: Env, fuel: nat, cmd: CommandType, c: CallExpression, h: Heap)
    requires Consistent(h)
    ensures var r := RunCommand(env, fuel, cmd, c, h); r.Ok? ==> Consistent(r.value)
    decreases fuel, c, 1
  {
    if cmd != Penup && cmd != Pendown && |c.arguments| > 0 {
      EvalValueConsistent(env, fuel, c.arguments[0], h);
    }
  }

  lemma {:induction false} CallProcedureConsistent(env: Env, fuel: nat, params: seq<string>, body: seq<Statement>,
                                                   c: CallExpression, h: Heap)
    requires Consistent(h)
    ensures var r := CallProcedure(env, fuel, params, body, c, h); r.Ok? ==> Consistent(r.value)
    decreases fuel, c, 1
  {
    var a := EvalArgs(env, fuel, c.arguments, h);
    EvalArgsConsistent(env, fuel, c.arguments, h);
    if a.Ok? && fuel > 0 {
      var (vals, h1) := a.value;
      assert CallProcedure(env, fuel, params, body, c, h) == RunBody(env, fuel - 1, params, body, vals, h1);
      RunBodyConsistent(env, fuel - 1, params, body, vals, h1);
    }
  }

  lemma {:induction false} RunBodyConsistent(env: Env, fuel: nat, params: seq<string>, body: seq<Statement>,
                                             vals: seq<Literal>, h: Heap)
    requires Consistent(h)
    ensures var r := RunBody(env, fuel, params, body, vals, h); r.Ok? ==> Consistent(r.value)
    decreases fuel, body, 1
  {
    var (rest, buf) := HandleConflicts(h.variables, params);
    ExecBlockConsistent(env, fuel, body, h.(variables := PushArguments(rest, params, vals)));
  }

  lemma {:induction false} ExecStatementConsistent(env: Env, fuel: nat, s: Statement, h: Heap)
    requires Consistent(h)
    ensures var r := ExecStatement(env, fuel, s, h); r.Ok? ==> Consistent(r.value)
    decreases fuel, s, 2
  {
    match s
    case CallStatement(c) => CallConsistent(env, fuel, c, h);
    case Assignment(op, _, right) => EvalValueConsistent(env, fuel, right, GetAssignable(h, op));
    case IfStatement(test, consequent) =>
      var a := EvalValue(env, fuel, test, h);
      EvalValueConsistent(env, fuel, test, h);
      if a.Ok? && a.value.0.Bool? && a.value.0.b {
        ExecBlockConsistent(env, fuel, consequent, a.value.1);
      }
    case WhileStatement(_, _) => LoopConsistent(env, fuel, s, h);
    case ProcedureDeclaration(name, params, body) => DeclareKeepsConsistent(h, name, ProcedureImpl(params, body));
  }

  lemma {:induction false} LoopConsistent(env: Env, fuel: nat, s: Statement, h: Heap)
    requires s.WhileStatement?
    requires Consistent(h)
    ensures var r := Loop(env, fuel, s, h); r.Ok? ==> Consistent(r.value)
    decreases fuel, s, 1
  {
    var a := EvalValue(env, fuel, s.test, h);
    EvalValueConsistent(env, fuel, s.test, h);
    if a.Ok? && a.value.0.Bool? && a.value.0.b && fuel > 0 {
      var b := ExecBlock(env, fuel - 1, s.body, a.value.1);
      ExecBlockConsistent(env, fuel - 1, s.body, a.value.1);
      if b.Ok? {
        LoopConsistent(env, fuel - 1, s, b.value);
      }
    }
  }

  lemma {:induction false} ExecBlockConsistent(env: Env, fuel: nat, ss: seq<Statement>, h: Heap)
    requires Consistent(h)
    ensures var r := ExecBlock(env, fuel, ss, h); r.Ok? ==> Consistent(r.value)
    decreases fuel, ss, 0
  {
    if |ss| > 0 {
      var a := ExecStatement(env, fuel, ss[0], h);
      ExecStatementConsistent(env, fuel, ss[0], h);
      if a.Ok? {
        ExecBlockConsistent(env, fuel, ss[1..], a.value);
      }
    }
  }

  /** `Program::run` from a fresh heap: whatever the program, the table it
      leaves behind is consistent, so every built-in it names still finds
      its own implementation. */
  lemma ProgramKeepsRegistry(env: Env, fuel: nat, ss: seq<Statement>, t: Turtle)
    ensures var r := ExecBlock(env, fuel, ss, NewHeap(t)); r.Ok? ==> Consistent(r.value)
  {
    ExecBlockConsistent(env, fuel, ss, NewHeap(t));
  }
}
