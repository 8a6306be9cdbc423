/** Failure-compatible result and option types shared by every stage of the
    interpreter. The original aborts the process on every failure; here each
    abort becomes an explicit `Error` value that names its kind. */
module Results {

  datatype Option<+T> = None | Some(value: T)

  /** Why a token group was rejected by the lexer/segmenter/parsers. */
  datatype SyntaxReason =
    | EndWithoutTo           // a group starts or ends with END without a leading TO
    | ToWithoutEnd           // a TO group whose last token is not a keyword
    | UnexpectedFirstToken   // no statement parser accepts the group's first token
    | ExhaustedTokens        // a value was expected but the tokens ran out
    | NotAValue              // a token is neither an operator nor convertible to a value
    | WrongArity             // a built-in command got the wrong number of arguments
    | MissingLeftBracket     // an IF/WHILE group has no `[`
    | UnbalancedBrackets     // an IF/WHILE group has different numbers of `[` and `]`
    | ExpectedProcedureName  // a procedure name position holds something else
    | ExpectedVariableName   // a variable name position holds something else
    | ExpectedAssignment     // an assignment group does not start with MAKE/ADDASSIGN
    | ExpectedCommand        // a command group does not start with a command
    | ExpectedSingleQuery    // a query group is not exactly one token long
    | ExpectedQuery          // a query group's token is not a query

  datatype Error =
    | Syntax(reason: SyntaxReason)
    | UndefinedVariable(name: string)   // read or ADDASSIGN of an unbound variable
    | NotAVariable(name: string)        // a procedure identifier read as a value
    | UndefinedProcedure(name: string)  // call of a procedure never declared
    | TypeMismatch                      // operator or command applied to the wrong literal kind
    | MissingResult                     // a call in value position produced no literal
    | Overflow                          // 32-bit signed arithmetic left its range
    | DivisionByZero                    // integer division by zero
    | InvalidColor                      // a move with a pen colour outside the palette
    | DrawFailed                        // the line drawer rejected a move
    | Unrenderable                      // the transpiler met a procedure identifier value
    | OutOfFuel                         // the evaluation step bound was exhausted

  datatype Result<+T> = Ok(value: T) | Err(error: Error) {

    predicate IsFailure() {
      Err?
    }

    function PropagateFailure<U>(): Result<U>
      requires Err?
    {
      Err(error)
    }

    function Extract(): T
      requires Ok?
    {
      value
    }
  }
}
