/** Properties of the tokenizer: the shape of one line's tokens, the count
    of separators in a whole script, `Words` as the inverse of joining, and a
    spelling for every token that scans back to it. */
module LexerFacts {
  import opened Results
  import opened Numerals
  import opened Floats
  import opened Literals
  import opened Tokens
  import opened Lexer

  /** A word never scans to a separator: only the whitespace entries of the
      character table do. */
  lemma WordIsNotSpace(ops: FloatOps, w: string)
    requires IsWord(w)
    ensures ScanToken(ops, w) != Space
  {
    assert !IsAsciiWhitespace(w[0]);
  }

  /** A skipped line yields nothing; any other line yields one token per word
      and then exactly one `Space`, which is its only separator. */
  lemma ScanLineShape(ops: FloatOps, line: string)
    ensures IsSkipped(line) ==> ScanLine(ops, line) == []
    ensures !IsSkipped(line) ==>
              var ts := ScanLine(ops, line);
              && |ts| == |Words(Trim(line))| + 1
              && ts[|ts| - 1] == Space
              && forall k :: 0 <= k < |ts| - 1 ==> ts[k] != Space
  {
    if !IsSkipped(line) {
      var ws := Words(Trim(line));
      forall k | 0 <= k < |ws|
        ensures ScanWords(ops, ws)[k] != Space
      {
        WordIsNotSpace(ops, ws[k]);
      }
    }
  }

  function NonSkipped(lines: seq<string>): nat {
    if |lines| == 0 then 0 else (if IsSkipped(lines[0]) then 0 else 1) + NonSkipped(lines[1..])
  }

  lemma {:induction false} SpaceCountOfLine(ops: FloatOps, line: string)
    ensures Count(ScanLine(ops, line), Space) == if IsSkipped(line) then 0 else 1
  {
    if !IsSkipped(line) {
      var ws := Words(Trim(line));
      var ts := ScanWords(ops, ws);
      assert ScanLine(ops, line) == ts + [Space];
      SpaceCountOfWords(ops, ws);
      CountAppend(ts, [Space], Space);
      assert Count([Space], Space) == 1 by {
        assert [Space][1..] == [];
      }
    }
  }

  lemma {:induction false} SpaceCountOfWords(ops: FloatOps, ws: seq<string>)
    requires forall k :: 0 <= k < |ws| ==> IsWord(ws[k])
    ensures Count(ScanWords(ops, ws), Space) == 0
  {
    if |ws| > 0 {
      WordIsNotSpace(ops, ws[0]);
      assert ScanWords(ops, ws)[1..] == ScanWords(ops, ws[1..]);
      SpaceCountOfWords(ops, ws[1..]);
    }
  }

  /** A script yields exactly one separator per line that is neither blank
      nor a comment. */
  lemma {:induction false} SpaceCountOfLines(ops: FloatOps, lines: seq<string>)
    ensures Count(ScanLines(ops, lines), Space) == NonSkipped(lines)
  {
    if |lines| > 0 {
      SpaceCountOfLine(ops, lines[0]);
      SpaceCountOfLines(ops, lines[1..]);
      CountAppend(ScanLine(ops, lines[0]), ScanLines(ops, lines[1..]), Space);
    }
  }

  lemma SpaceCountOfScan(ops: FloatOps, text: string)
    ensures Count(Scan(ops, text), Space) == NonSkipped(Lines(text))
  {
    SpaceCountOfLines(ops, Lines(text));
  }

  lemma WordSpanOfWord(w: string, rest: string)
    requires IsWord(w)
    requires |rest| == 0 || IsAsciiWhitespace(rest[0])
    ensures WordSpan(w + rest) == |w|
  {
    var s := w + rest;
    assert forall k :: 0 <= k < |w| ==> s[k] == w[k];
    if |rest| > 0 {
      assert s[|w|] == rest[0];
    }
  }

  /** Splitting words joined by single spaces gives the words back. */
  lemma {:induction false} WordsOfUnwords(ws: seq<string>)
    requires forall k :: 0 <= k < |ws| ==> IsWord(ws[k])
    ensures Words(Unwords(ws)) == ws
  {
    if |ws| == 1 {
      var w := ws[0];
      WordSpanOfWord(w, "");
      assert w + "" == w;
      assert w[..|w|] == w && w[|w|..] == "";
    } else if |ws| > 1 {
      var w, u := ws[0], Unwords(ws[1..]);
      var s := w + " " + u;
      assert s == w + (" " + u);
      WordSpanOfWord(w, " " + u);
      assert s[..|w|] == w;
      assert s[|w|..] == " " + u;
      assert (" " + u)[1..] == u;
      WordsOfUnwords(ws[1..]);
    }
  }

  // ---------------------------------------------------------------------
  // Spelling tokens back as words

  lemma KeywordsStartUppercase(k: string)
    requires k in KeywordTable
    ensures |k| > 0 && 'A' <= k[0] <= 'Z'
  {
  }

  /** A word that scans to `t`, for the tokens the keyword table names. */
  function KeywordSpelling(t: Token): string
    requires t.CommandTok? || t.QueryTok? || t.KeywordTok? || t.LogicTok? || t.AssignTok?
  {
    match t
    case CommandTok(c) =>
      (match c
       case Penup => "PENUP" case Pendown => "PENDOWN" case Forward => "FORWARD"
       case Back => "BACK" case Left => "LEFT" case Right => "RIGHT"
       case Setpencolor => "SETPENCOLOR" case Turn => "TURN"
       case Setheading => "SETHEADING" case Setx => "SETX" case Sety => "SETY")
    case AssignTok(a) => if a == Make then "MAKE" else "ADDASSIGN"
    case QueryTok(q) =>
      (match q case Xcor => "XCOR" case Ycor => "YCOR" case Heading => "HEADING" case Color => "COLOR")
    case KeywordTok(k) =>
      (match k case If => "IF" case While => "WHILE" case To => "TO" case End => "END")
    case LogicTok(o) =>
      (match o
       case Eq => "EQ" case Ne => "NE" case Gt => "GT" case Lt => "LT" case And => "AND" case Or => "OR")
  }

  /** A source word for every token. */
  function Unscan(ops: FloatOps, t: Token): string {
    match t
    case LeftBracket => "["
    case RightBracket => "]"
    case Space => "\n"
    case CalcTok(c) =>
      (match c case Plus => "+" case Dash => "-" case Star => "*" case Slash => "/")
    case IdentTok(Variable(n)) => ":" + n
    case IdentTok(Procedure(n)) => n
    case ValueTok(Int(i)) => "\"" + ShowInt(i)
    case ValueTok(Bool(b)) => if b then "\"TRUE" else "\"FALSE"
    case ValueTok(Float(f)) => "\"" + ops.show(f)
    case _ => KeywordSpelling(t)
  }

  /** The tokens whose spelling is unambiguous: a procedure name must not be
      a keyword, a symbol, or start with `:` or `"`; a Bool word must not read
      as a float; a float must print as text that reads back as that float
      and not as an `i32`. */
  predicate Rescannable(ops: FloatOps, t: Token) {
    match t
    case IdentTok(Procedure(n)) =>
      n !in KeywordTable && n !in CharTable && (|n| == 0 || (n[0] != ':' && n[0] != '"'))
    case ValueTok(Bool(b)) => ops.parse(if b then "TRUE" else "FALSE").None?
    case ValueTok(Float(f)) => ParseI32(ops.show(f)).None? && ops.parse(ops.show(f)) == Some(f)
    case _ => true
  }

  lemma KeywordSpellingInTable(t: Token)
    requires t.CommandTok? || t.QueryTok? || t.KeywordTok? || t.LogicTok? || t.AssignTok?
    ensures KeywordSpelling(t) in KeywordTable && KeywordTable[KeywordSpelling(t)] == t
  {
  }

  lemma NotKeyword(w: string)
    requires |w| > 0 && (w[0] == ':' || w[0] == '"')
    ensures w !in KeywordTable
  {
    if w in KeywordTable {
      KeywordsStartUppercase(w);
    }
  }

  lemma ScanUnscanValue(ops: FloatOps, lit: Literal)
    requires Rescannable(ops, ValueTok(lit))
    ensures ScanToken(ops, Unscan(ops, ValueTok(lit))) == ValueTok(lit)
  {
    var w := Unscan(ops, ValueTok(lit));
    NotKeyword(w);
    match lit {
      case Int(i) =>
        assert w[1..] == ShowInt(i);
        ParseShowInt(i);
      case Bool(b) =>
        assert w[1..] == (if b then "TRUE" else "FALSE");
        assert ParseI32(w[1..]).None?;
      case Float(f) =>
        assert w[1..] == ops.show(f);
    }
  }

  /** Every rescannable token's spelling scans back to that token. */
  lemma ScanUnscan(ops: FloatOps, t: Token)
    requires Rescannable(ops, t)
    ensures ScanToken(ops, Unscan(ops, t)) == t
  {
    var w := Unscan(ops, t);
    match t
    case IdentTok(Variable(n)) =>
      NotKeyword(w);
      assert w[1..] == n;
    case ValueTok(lit) =>
      ScanUnscanValue(ops, lit);
    case IdentTok(Procedure(n)) =>
    case LeftBracket =>
    case RightBracket =>
    case Space =>
    case CalcTok(_) =>
    case _ =>
      KeywordSpellingInTable(t);
  }
}
