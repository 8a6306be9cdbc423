/** The syntax tree the parsers build and the evaluator and transpiler walk:
    values (the operands of commands and tests), binary and call
    expressions, and the five statement kinds. */
module Ast {
  import opened Literals
  import opened Tokens

  datatype BinaryOperation =
    | Logic(logic: LogicalOperation)
    | Calculation(calculation: CalculationOperation)

  /** What a call expression invokes; procedures are keyed by name. */
  datatype Callee =
    | CommandCallee(command: CommandType)
    | ProcedureCallee(name: string)
    | QueryCallee(query: QueryType)

  /** An operand: an identifier, a literal, a nested call (a query), or a
      prefix binary expression. */
  datatype Value =
    | Ident(ident: IdentifierType)
    | Lit(lit: Literal)
    | Nested(call: CallExpression)
    | Binary(expr: BinaryExpression)

  datatype BinaryExpression = BinaryExpression(op: BinaryOperation, left: Value, right: Value)

  datatype CallExpression = CallExpression(callee: Callee, arguments: seq<Value>)

  datatype Statement =
    | CallStatement(call: CallExpression)
    | Assignment(op: AssignmentType, left: string, right: Value)
    | IfStatement(test: Value, consequent: seq<Statement>)
    | WhileStatement(test: Value, body: seq<Statement>)
    | ProcedureDeclaration(name: string, arguments: seq<string>, body: seq<Statement>)

  /** `BinaryExpression::new`: the operator a binary token stands for. */
  function NewBinary(t: Token): (op: BinaryOperation)
    requires t.IsBinary()
    ensures t.LogicTok? ==> op == Logic(t.logic)
    ensures t.CalcTok? ==> op == Calculation(t.calculation)
  {
    if t.LogicTok? then Logic(t.logic) else Calculation(t.calculation)
  }

  /** The token a binary operator is written with, inverse of `NewBinary`. */
  function OperatorToken(op: BinaryOperation): (t: Token)
    ensures t.IsBinary() && NewBinary(t) == op
  {
    match op
    case Logic(l) => LogicTok(l)
    case Calculation(c) => CalcTok(c)
  }
}
