/** The lexical vocabulary: token kinds and the closed enumerations of
    commands, queries, keywords and operators. */
module Tokens {
  import opened Literals

  datatype IdentifierType = Variable(name: string) | Procedure(name: string)

  datatype AssignmentType = Make | Addassign

  datatype CommandType =
    | Penup | Pendown | Forward | Back | Left | Right
    | Setpencolor | Turn | Setheading | Setx | Sety

  datatype QueryType = Xcor | Ycor | Heading | Color

  datatype KeywordType = If | While | To | End

  datatype LogicalOperation = Eq | Ne | Gt | Lt | And | Or

  datatype CalculationOperation = Plus | Dash | Star | Slash

  datatype Token =
    | LeftBracket
    | RightBracket
    | Space                            // statement separator, one per source line
    | ValueTok(lit: Literal)
    | IdentTok(ident: IdentifierType)
    | CommandTok(command: CommandType)
    | QueryTok(query: QueryType)
    | KeywordTok(keyword: KeywordType)
    | LogicTok(logic: LogicalOperation)
    | CalcTok(calculation: CalculationOperation)
    | AssignTok(assign: AssignmentType)
  {
    /** An arithmetic or logical operator: the tokens that start a binary
        expression. */
    predicate IsBinary() {
      LogicTok? || CalcTok?
    }

    predicate IsKeyword(k: KeywordType) {
      KeywordTok? && keyword == k
    }
  }

  function Count(ts: seq<Token>, t: Token): nat {
    if |ts| == 0 then 0 else (if ts[0] == t then 1 else 0) + Count(ts[1..], t)
  }

  lemma {:induction false} CountAppend(a: seq<Token>, b: seq<Token>, t: Token)
    ensures Count(a + b, t) == Count(a, t) + Count(b, t)
  {
    if |a| == 0 {
      assert a + b == b;
    } else {
      assert (a + b)[1..] == a[1..] + b;
      CountAppend(a[1..], b, t);
    }
  }
}
