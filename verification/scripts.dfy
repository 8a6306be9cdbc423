/** Whole programs from the interpreter's own test suite, run from a fresh
    heap: what they leave in the variables. */
module Scripts {
  import opened Results
  import opened Numerals
  import opened Floats
  import opened Literals
  import opened Tokens
  import opened Ast
  import opened Turtles
  import opened Heaps
  import opened Evaluator
  import opened EvaluatorFacts
  import opened RegistryFacts

  /** An environment in which every move succeeds: the fresh turtle's
      colour 7 is in the palette and the line drawer never fails. */
  ghost predicate Draws(env: Env) {
    && 7 < env.paletteSize
    && forall pen, x, y, heading, d :: env.line(pen, x, y, heading, d).Some?
  }

  function Int32Lit(i: Int32): Value {
    Lit(Int(i))
  }

  function Var(name: string): Value {
    Ident(Variable(name))
  }

  /** An assignment whose right-hand side is a literal, one step: the
      assignment is built, then the variables are updated by `Assign`. */
  lemma AssignLiteral(env: Env, fuel: nat, op: AssignmentType, name: string, l: Literal, h: Heap)
    ensures var h1 := h.(assignables := h.assignables + {op});
            var a := Assign(env.ops, op, name, l, h.variables);
            ExecStatement(env, fuel, Assignment(op, name, Lit(l)), h)
              == if a.Ok? then Ok(h1.(variables := a.value)) else Err(a.error)
  {
  }

  // ---------------------------------------------------------------------
  // MAKE "variable "10  ADDASSIGN "variable "10  FORWARD :variable

  lemma VariablesScript(env: Env, fuel: nat, t: Turtle)
    requires Draws(env) && t.color == 7 && t.direction == 0
    ensures var r := ExecBlock(env, fuel, [Assignment(Make, "variable", Int32Lit(10)),
                                           Assignment(Addassign, "variable", Int32Lit(10)),
                                           ForwardVar("variable")],
                               NewHeap(t));
            r.Ok? && r.value.variables == map["variable" := Int(20)]
  {
    var h0 := NewHeap(t);
    var s1 := Assignment(Make, "variable", Int32Lit(10));
    var s2 := Assignment(Addassign, "variable", Int32Lit(10));
    var s3 := ForwardVar("variable");
    var h1 := h0.(assignables := {Make}, variables := map["variable" := Int(10)]);
    AssignLiteral(env, fuel, Make, "variable", Int(10), h0);
    assert h0.assignables + {Make} == {Make};
    assert ExecStatement(env, fuel, s1, h0) == Ok(h1);
    var h2 := h1.(assignables := {Make, Addassign}, variables := map["variable" := Int(20)]);
    AssignLiteral(env, fuel, Addassign, "variable", Int(10), h1);
    assert h1.assignables + {Addassign} == {Make, Addassign};
    assert Add(env.ops, Int(10), Int(10)) == Ok(Int(20));
    assert h1.variables["variable" := Int(20)] == map["variable" := Int(20)];
    assert ExecStatement(env, fuel, s2, h1) == Ok(h2);
    ForwardVariable(env, fuel, "variable", h2);
    Block3(env, fuel, s1, s2, s3, h0);
  }

  // ---------------------------------------------------------------------
  // MAKE "i "0  WHILE LT :i "10 [ ADDASSIGN "i "1 ]

  function Counter(): Statement {
    WhileStatement(Binary(BinaryExpression(Logic(Lt), Var("i"), Int32Lit(10))),
                   [Assignment(Addassign, "i", Int32Lit(1))])
  }

  /** From `i = k`, the loop reaches `i = 10` when it may run the
      remaining `10 - k` iterations, and runs out of fuel otherwise. */
  lemma {:induction false} CountUp(env: Env, fuel: nat, k: int, h: Heap)
    requires 0 <= k <= 10 && "i" in h.variables && h.variables["i"] == Int(k)
    ensures var r := Loop(env, fuel, Counter(), h);
            && (10 - k <= fuel ==> r.Ok? && r.value.variables == h.variables["i" := Int(10)])
            && (fuel < 10 - k ==> r == Err(OutOfFuel))
    decreases 10 - k
  {
    var s := Counter();
    assert EvalValue(env, fuel, s.test, h) == Ok((Bool(k < 10), h));
    if k < 10 && fuel > 0 {
      var h1 := h.(assignables := h.assignables + {Addassign}, variables := h.variables["i" := Int(k + 1)]);
      assert ExecStatement(env, fuel - 1, s.body[0], h) == Ok(h1);
      assert s.body[1..] == [];
      assert ExecBlock(env, fuel - 1, s.body, h) == Ok(h1);
      CountUp(env, fuel - 1, k + 1, h1);
      assert h1.variables["i" := Int(10)] == h.variables["i" := Int(10)];
    }
  }

  /** The counting loop ends with `i = 10` given ten units of fuel, and no
      fewer will do. */
  lemma CounterScript(env: Env, fuel: nat, t: Turtle)
    ensures var r := ExecBlock(env, fuel, [Assignment(Make, "i", Int32Lit(0)), Counter()], NewHeap(t));
            && (10 <= fuel ==> r.Ok? && r.value.variables == map["i" := Int(10)])
            && (fuel < 10 ==> r == Err(OutOfFuel))
  {
    var h0 := NewHeap(t);
    var s1 := Assignment(Make, "i", Int32Lit(0));
    var h1 := h0.(assignables := {Make}, variables := map["i" := Int(0)]);
    AssignLiteral(env, fuel, Make, "i", Int(0), h0);
    assert h0.assignables + {Make} == {Make};
    assert ExecStatement(env, fuel, s1, h0) == Ok(h1);
    CountUp(env, fuel, 0, h1);
    assert [s1, Counter()][1..] == [Counter()] && [Counter()][1..] == [];
    assert ExecBlock(env, fuel, [Counter()], h1) == Loop(env, fuel, Counter(), h1);
  }

  // ---------------------------------------------------------------------
  // MAKE "Arg "90  TO BOXX "Arg FORWARD :Arg FORWARD :Arg END  BOXX "50

  function BoxxBody(): seq<Statement> {
    [ForwardVar("Arg"), ForwardVar("Arg")]
  }

  function BoxxCall(): Statement {
    CallStatement(CallExpression(ProcedureCallee("BOXX"), [Int32Lit(50)]))
  }

  /** The formal `Arg` shadows the global of the same name during the call,
      and the global's value 90 is back afterwards. */
  lemma ProcedureScript(env: Env, fuel: nat, t: Turtle)
    requires Draws(env) && t.color == 7 && t.direction == 0
    ensures var r := ExecBlock(env, fuel, [Assignment(Make, "Arg", Int32Lit(90)),
                                           ProcedureDeclaration("BOXX", ["Arg"], BoxxBody()),
                                           BoxxCall()],
                               NewHeap(t));
            && (0 < fuel ==> r.Ok? && r.value.variables == map["Arg" := Int(90)])
            && (fuel == 0 ==> r == Err(OutOfFuel))
  {
    var h0 := NewHeap(t);
    var s1 := Assignment(Make, "Arg", Int32Lit(90));
    var s2 := ProcedureDeclaration("BOXX", ["Arg"], BoxxBody());
    var s3 := BoxxCall();
    var h1 := h0.(assignables := {Make}, variables := map["Arg" := Int(90)]);
    AssignLiteral(env, fuel, Make, "Arg", Int(90), h0);
    assert h0.assignables + {Make} == {Make};
    assert ExecStatement(env, fuel, s1, h0) == Ok(h1);
    var h2 := DeclareProcedure(h1, "BOXX", ProcedureImpl(["Arg"], BoxxBody()));
    assert ExecStatement(env, fuel, s2, h1) == Ok(h2);
    Block3(env, fuel, s1, s2, s3, h0);
    var c := s3.call;
    assert GetCallable(h2, c.callee) == Ok((ProcedureImpl(["Arg"], BoxxBody()), h2));
    assert c.arguments[1..] == [];
    assert EvalArgs(env, fuel, c.arguments[1..], h2) == Ok(([], h2));
    assert [Int(50)] + [] == [Int(50)];
    assert EvalArgs(env, fuel, c.arguments, h2) == Ok(([Int(50)], h2));
    if fuel > 0 {
      var r := RunBody(env, fuel - 1, ["Arg"], BoxxBody(), [Int(50)], h2);
      assert CallProcedure(env, fuel, ["Arg"], BoxxBody(), c, h2) == r;
      DeclareKeepsConsistent(h1, "BOXX", ProcedureImpl(["Arg"], BoxxBody()));
      BoxxRuns(env, fuel - 1, h2);
      assert Call(env, fuel, c, h2) == Ok((None, r.value));
      assert ExecStatement(env, fuel, s3, h2) == Ok(r.value);
    }
  }

  /** The body of BOXX, entered from the heap the script builds. */
  lemma BoxxRuns(env: Env, fuel: nat, h: Heap)
    requires Draws(env) && h.turtle.color == 7 && h.turtle.direction == 0 && Consistent(h)
    requires h.variables == map["Arg" := Int(90)]
    ensures var r := RunBody(env, fuel, ["Arg"], BoxxBody(), [Int(50)], h);
            r.Ok? && r.value.variables == map["Arg" := Int(90)]
  {
    HandleConflictsSplits(h.variables, ["Arg"]);
    assert HandleConflicts(h.variables, ["Arg"]) == (map[], map["Arg" := Int(90)]);
    assert PushArguments(map[], ["Arg"], [Int(50)]) == map["Arg" := Int(50)];
    var start := h.(variables := map["Arg" := Int(50)]);
    var f := BoxxBody()[0];
    ForwardVariable(env, fuel, "Arg", start);
    var h1 := ExecStatement(env, fuel, f, start).value;
    ForwardVariable(env, fuel, "Arg", h1);
    var h2 := ExecStatement(env, fuel, f, h1).value;
    assert BoxxBody()[1] == f && BoxxBody()[1..] == [f] && [f][1..] == [];
    assert ExecBlock(env, fuel, BoxxBody(), start) == Ok(h2);
    assert Restore(h2.variables, map["Arg" := Int(90)]) == map["Arg" := Int(90)];
  }

  function ForwardVar(x: string): Statement {
    CallStatement(CallExpression(CommandCallee(Forward), [Var(x)]))
  }

  /** FORWARD :x in a consistent heap that can draw, with x bound to a
      number: it succeeds and changes neither the variables nor the
      turtle's colour and heading. */
  lemma ForwardVariable(env: Env, fuel: nat, x: string, h: Heap)
    requires Draws(env) && h.turtle.color == 7 && h.turtle.direction == 0 && Consistent(h)
    requires x in h.variables && IsNumeric(h.variables[x])
    ensures var r := ExecStatement(env, fuel, ForwardVar(x), h);
            && r.Ok? && r.value.variables == h.variables && Consistent(r.value)
            && r.value.turtle.color == 7 && r.value.turtle.direction == 0
  {
    var call := ForwardVar(x).call;
    GetCallableKeepsConsistent(h, CommandCallee(Forward));
    CommandUsesFirstArgument(env, fuel, Forward, Var(x), [], h);
    assert [Var(x)] + [] == [Var(x)];
    var t := h.turtle;
    var d := AsFloat(env.ops, h.variables[x]);
    assert env.line(t.pen, t.x, t.y, 0, d).Some?;
    assert Move(env, t, d, ForwardOffset).Ok?;
    CallConsistent(env, fuel, call, h);
  }

  /** A block of three statements runs them in order. */
  lemma Block3(env: Env, fuel: nat, s1: Statement, s2: Statement, s3: Statement, h: Heap)
    ensures var a := ExecStatement(env, fuel, s1, h);
            ExecBlock(env, fuel, [s1, s2, s3], h)
              == if a.Err? then Err(a.error) else
                 var b := ExecStatement(env, fuel, s2, a.value);
                 if b.Err? then Err(b.error) else ExecStatement(env, fuel, s3, b.value)
  {
    assert [s1, s2, s3][1..] == [s2, s3] && [s2, s3][1..] == [s3] && [s3][1..] == [];
    var a := ExecStatement(env, fuel, s1, h);
    if a.Ok? {
      var b := ExecStatement(env, fuel, s2, a.value);
      assert ExecBlock(env, fuel, [s1, s2, s3], h) == ExecBlock(env, fuel, [s2, s3], a.value);
      if b.Ok? {
        assert ExecBlock(env, fuel, [s2, s3], a.value) == ExecBlock(env, fuel, [s3], b.value);
        var c := ExecStatement(env, fuel, s3, b.value);
        if c.Ok? {
          assert ExecBlock(env, fuel, [s3], b.value) == ExecBlock(env, fuel, [], c.value);
        }
      }
    }
  }
}
