/** The interpreter state (`Heap`): global variables, the caches of
    assignment and callable implementations, and the turtle. Built-in
    commands and queries are created on first use; procedures are entered
    by their declarations. Also the variable-frame steps of a procedure
    call. */
module Heaps {
  import opened Results
  import opened Literals
  import opened Tokens
  import opened Ast
  import opened Turtles

  /** An entry of the callable table. */
  datatype Callable =
    | CommandImpl(command: CommandType)
    | QueryImpl(query: QueryType)
    | ProcedureImpl(arguments: seq<string>, body: seq<Statement>)

  datatype Heap = Heap(
    variables: map<string, Literal>,
    assignables: set<AssignmentType>,   // the assignment implementations already built
    callables: map<Callee, Callable>,
    turtle: Turtle)

  /** A table entry agrees with its key: a command or query maps to its own
      built-in, a procedure name to a procedure. */
  predicate Matches(callee: Callee, c: Callable) {
    match callee
    case CommandCallee(cmd) => c == CommandImpl(cmd)
    case QueryCallee(q) => c == QueryImpl(q)
    case ProcedureCallee(_) => c.ProcedureImpl?
  }

  /** The invariant of the callable table: every entry agrees with its key. */
  predicate Consistent(h: Heap) {
    forall callee :: callee in h.callables ==> Matches(callee, h.callables[callee])
  }

  /** `Heap::new`, for a turtle already placed: no variables, nothing built
      or declared yet. */
  function NewHeap(t: Turtle): (h: Heap)
    ensures h.variables == map[] && h.callables == map[] && h.assignables == {} && h.turtle == t
    ensures Consistent(h)
  {
    Heap(map[], {}, map[], t)
  }

  /** `CallableFactory::build`: an implementation for every command and
      query, none for a procedure. */
  function BuildCallable(callee: Callee): (r: Option<Callable>)
    ensures r.None? <==> callee.ProcedureCallee?
    ensures callee.CommandCallee? ==> r == Some(CommandImpl(callee.command))
    ensures callee.QueryCallee? ==> r == Some(QueryImpl(callee.query))
    ensures r.Some? ==> Matches(callee, r.value)
  {
    match callee
    case CommandCallee(c) => Some(CommandImpl(c))
    case QueryCallee(q) => Some(QueryImpl(q))
    case ProcedureCallee(_) => None
  }

  /** `Heap::get_callable`: the table entry, building and caching a built-in
      on first use; a procedure that was never declared is an error. Only the
      entry for `callee` can change. */
  function GetCallable(h: Heap, callee: Callee): (r: Result<(Callable, Heap)>)
    ensures r.Ok? <==> callee in h.callables || !callee.ProcedureCallee?
    ensures r.Err? ==> r.error == UndefinedProcedure(callee.name)
    ensures callee in h.callables ==> r == Ok((h.callables[callee], h))
    ensures callee !in h.callables && r.Ok? ==>
              Some(r.value.0) == BuildCallable(callee)
              && r.value.1 == h.(callables := h.callables[callee := r.value.0])
    ensures r.Ok? ==> r.value.1.variables == h.variables && r.value.1.turtle == h.turtle
                      && r.value.1.assignables == h.assignables
  {
    if callee in h.callables then Ok((h.callables[callee], h))
    else match BuildCallable(callee)
      case Some(b) => Ok((b, h.(callables := h.callables[callee := b])))
      case None => Err(UndefinedProcedure(callee.name))
  }

  /** A lookup in a consistent table finds the entry its key calls for,
      and leaves the table consistent. */
  lemma GetCallableKeepsConsistent(h: Heap, callee: Callee)
    requires Consistent(h)
    ensures var r := GetCallable(h, callee);
            r.Ok? ==> Matches(callee, r.value.0) && Consistent(r.value.1)
  {
    if callee !in h.callables && !callee.ProcedureCallee? {
      var h1 := GetCallable(h, callee).value.1;
      assert forall k :: k in h1.callables ==> k == callee || k in h.callables;
    }
  }

  /** `Heap::get_assignable`: MAKE and ADDASSIGN always have an
      implementation; it is recorded as built. */
  function GetAssignable(h: Heap, op: AssignmentType): (r: Heap)
    ensures r == h.(assignables := h.assignables + {op})
    ensures op in r.assignables
  {
    if op in h.assignables then h else h.(assignables := h.assignables + {op})
  }

  /** `Heap::declare_procedure`: the entry for the procedure's name is set,
      replacing any earlier declaration of that name. */
  function DeclareProcedure(h: Heap, name: string, c: Callable): (r: Heap)
    ensures r.callables == h.callables[ProcedureCallee(name) := c]
    ensures r.variables == h.variables && r.turtle == h.turtle && r.assignables == h.assignables
  {
    h.(callables := h.callables[ProcedureCallee(name) := c])
  }

  /** Declaring a procedure keeps a consistent table consistent. */
  lemma DeclareKeepsConsistent(h: Heap, name: string, c: Callable)
    requires Consistent(h) && c.ProcedureImpl?
    ensures Consistent(DeclareProcedure(h, name, c))
  {
    var r := DeclareProcedure(h, name, c);
    assert forall k :: k in r.callables ==> k == ProcedureCallee(name) || k in h.callables;
  }

  // ---------------------------------------------------------------------
  // The variable frame of a procedure call

  /** `handel_variable_conflicts`: every parameter name is removed from the
      variables, and the values removed are kept aside. */
  function HandleConflicts(vars: map<string, Literal>, params: seq<string>)
    : (r: (map<string, Literal>, map<string, Literal>))
    ensures forall k :: k in r.0 ==> k in vars && k !in params && r.0[k] == vars[k]
    ensures forall k :: k in r.1 ==> k in vars && k in params && r.1[k] == vars[k]
  {
    if |params| == 0 then (vars, map[])
    else
      var p := params[0];
      var (rest, kept) := HandleConflicts(vars - {p}, params[1..]);
      (rest, if p in vars then kept[p := vars[p]] else kept)
  }

  /** What `HandleConflicts` splits off: the first map holds exactly the
      non-parameters, the second exactly the parameters that had values. */
  lemma {:induction false} HandleConflictsSplits(vars: map<string, Literal>, params: seq<string>)
    ensures HandleConflicts(vars, params).0 == map k | k in vars && k !in params :: vars[k]
    ensures HandleConflicts(vars, params).1 == map k | k in vars && k in params :: vars[k]
  {
    if |params| > 0 {
      HandleConflictsSplits(vars - {params[0]}, params[1..]);
      assert forall k :: k in params <==> k == params[0] || k in params[1..];
    }
  }

  /** `push_arguments`: parameter names are bound to the argument values
      pairwise, as far as the shorter of the two lists goes; a name bound
      twice keeps the later value. */
  function PushArguments(vars: map<string, Literal>, params: seq<string>, values: seq<Literal>)
    : (r: map<string, Literal>)
    ensures forall k :: k in vars ==> k in r
    ensures forall k :: k in r ==> k in vars || k in params
    ensures forall k :: k in vars && k !in params ==> r[k] == vars[k]
    decreases |params|
  {
    if |params| == 0 || |values| == 0 then vars
    else PushArguments(vars[params[0] := values[0]], params[1..], values[1..])
  }

  /** What `PushArguments` binds: exactly the paired names are added, a
      name not paired keeps its value, and a paired name not paired again
      later holds its argument. */
  lemma {:induction false} PushArgumentsBinds(vars: map<string, Literal>, params: seq<string>, values: seq<Literal>)
    ensures var r := PushArguments(vars, params, values);
            && r.Keys == vars.Keys + (set j | 0 <= j < |params| && j < |values| :: params[j])
            && (forall k :: k in vars && k !in params[..Min(|params|, |values|)] ==> r[k] == vars[k])
            && (forall j :: 0 <= j < |params| && j < |values| && params[j] !in params[j + 1..Min(|params|, |values|)]
                 ==> r[params[j]] == values[j])
    decreases |params|
  {
    if |params| > 0 && |values| > 0 {
      PushArgumentsBinds(vars[params[0] := values[0]], params[1..], values[1..]);
      PushArgumentsStep(vars, params, values, PushArguments(vars, params, values));
    }
  }

  function Min(a: nat, b: nat): nat {
    if a < b then a else b
  }

  lemma PushArgumentsStep(vars: map<string, Literal>, params: seq<string>, values: seq<Literal>,
                          r: map<string, Literal>)
    requires |params| > 0 && |values| > 0
    requires var v' := vars[params[0] := values[0]];
             var ps, vs := params[1..], values[1..];
             && r.Keys == v'.Keys + (set j | 0 <= j < |ps| && j < |vs| :: ps[j])
             && (forall k :: k in v' && k !in ps[..Min(|ps|, |vs|)] ==> r[k] == v'[k])
             && (forall j :: 0 <= j < |ps| && j < |vs| && ps[j] !in ps[j + 1..Min(|ps|, |vs|)]
                  ==> r[ps[j]] == vs[j])
    ensures r.Keys == vars.Keys + (set j | 0 <= j < |params| && j < |values| :: params[j])
    ensures forall k :: k in vars && k !in params[..Min(|params|, |values|)] ==> r[k] == vars[k]
    ensures forall j :: 0 <= j < |params| && j < |values| && params[j] !in params[j + 1..Min(|params|, |values|)]
              ==> r[params[j]] == values[j]
  {
    var ps, vs := params[1..], values[1..];
    var n, m := Min(|params|, |values|), Min(|ps|, |vs|);
    assert n == m + 1;
    assert params[..n] == [params[0]] + ps[..m];
    var s1 := set j | 0 <= j < |params| && j < |values| :: params[j];
    var s2 := set j | 0 <= j < |ps| && j < |vs| :: ps[j];
    assert s1 == {params[0]} + s2 by {
      forall k | k in s1 ensures k in {params[0]} + s2 {
        var j :| 0 <= j < |params| && j < |values| && params[j] == k;
        if j > 0 { assert ps[j - 1] == k; }
      }
      forall k | k in s2 ensures k in s1 {
        var j :| 0 <= j < |ps| && j < |vs| && ps[j] == k;
        assert params[j + 1] == k;
      }
    }
    forall j | 0 <= j < |params| && j < |values| && params[j] !in params[j + 1..n]
      ensures r[params[j]] == values[j]
    {
      if j == 0 {
        assert params[1..n] == ps[..m];
      } else {
        assert params[j + 1..n] == ps[j..m];
        assert ps[j - 1] == params[j];
      }
    }
  }

  /** `recovry_conflicted_variable`: the values kept aside are written back
      over whatever the procedure body left. */
  function Restore(vars: map<string, Literal>, buf: map<string, Literal>): (r: map<string, Literal>)
    ensures r.Keys == vars.Keys + buf.Keys
    ensures forall k :: k in buf ==> r[k] == buf[k]
    ensures forall k :: k in vars && k !in buf ==> r[k] == vars[k]
  {
    vars + buf
  }
}
