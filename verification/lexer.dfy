/** The tokenizer (`Tokenizer::scan` and its helpers). It works line by
    line: comment and blank lines produce nothing; every other line is split
    on ASCII whitespace, each word becomes one token, and a `Space` separator
    closes the line. */
module Lexer {
  import opened Results
  import opened Numerals
  import opened Floats
  import opened Literals
  import opened Tokens

  // ---------------------------------------------------------------------
  // Text utilities: `str::lines`, `str::trim`, `split_ascii_whitespace`

  /** `u8::is_ascii_whitespace`: space, tab, line feed, form feed, carriage return. */
  predicate IsAsciiWhitespace(c: char) {
    c == ' ' || c == '\t' || c == '\n' || c as int == 0x0C || c == '\r'
  }

  /** The Unicode `White_Space` property, which `str::trim` strips. */
  predicate IsWhitespace(c: char) {
    var n := c as int;
    || 0x09 <= n <= 0x0D || n == 0x20 || n == 0x85 || n == 0xA0 || n == 0x1680
    || 0x2000 <= n <= 0x200A || n == 0x2028 || n == 0x2029 || n == 0x202F
    || n == 0x205F || n == 0x3000
  }

  function TrimStart(s: string): (t: string)
    ensures |t| <= |s| && t == s[|s| - |t|..]
    ensures |t| > 0 ==> !IsWhitespace(t[0])
    ensures forall k :: 0 <= k < |s| - |t| ==> IsWhitespace(s[k])
  {
    if |s| > 0 && IsWhitespace(s[0]) then TrimStart(s[1..]) else s
  }

  function TrimEnd(s: string): (t: string)
    ensures |t| <= |s| && t == s[..|t|]
    ensures |t| > 0 ==> !IsWhitespace(t[|t| - 1])
    ensures forall k :: |t| <= k < |s| ==> IsWhitespace(s[k])
  {
    if |s| > 0 && IsWhitespace(s[|s| - 1]) then TrimEnd(s[..|s| - 1]) else s
  }

  function Trim(s: string): string {
    TrimEnd(TrimStart(s))
  }

  /** A piece `split_ascii_whitespace` can return: non-empty, with no ASCII
      whitespace inside. */
  predicate IsWord(w: string) {
    |w| > 0 && forall k :: 0 <= k < |w| ==> !IsAsciiWhitespace(w[k])
  }

  /** Length of the longest prefix of `s` free of ASCII whitespace. */
  function WordSpan(s: string): (n: nat)
    ensures n <= |s|
    ensures forall k :: 0 <= k < n ==> !IsAsciiWhitespace(s[k])
    ensures n < |s| ==> IsAsciiWhitespace(s[n])
  {
    if |s| == 0 || IsAsciiWhitespace(s[0]) then 0 else 1 + WordSpan(s[1..])
  }

  /** `split_ascii_whitespace`: the maximal runs of non-whitespace, in order. */
  function Words(s: string): (ws: seq<string>)
    ensures forall k :: 0 <= k < |ws| ==> IsWord(ws[k])
    decreases |s|
  {
    if |s| == 0 then []
    else if IsAsciiWhitespace(s[0]) then Words(s[1..])
    else
      var n := WordSpan(s);
      [s[..n]] + Words(s[n..])
  }

  /** Words joined with single spaces, the inverse of `Words` on words. */
  function Unwords(ws: seq<string>): string {
    if |ws| == 0 then "" else if |ws| == 1 then ws[0] else ws[0] + " " + Unwords(ws[1..])
  }

  function StripCarriageReturn(line: string): string {
    if |line| > 0 && line[|line| - 1] == '\r' then line[..|line| - 1] else line
  }

  function IndexOfNewline(s: string): (i: nat)
    ensures i <= |s| && (i < |s| ==> s[i] == '\n')
    ensures forall k :: 0 <= k < i ==> s[k] != '\n'
  {
    if |s| == 0 || s[0] == '\n' then 0 else 1 + IndexOfNewline(s[1..])
  }

  /** `str::lines`: pieces between `\n`, each without a trailing `\r`; a final
      line ending does not start an extra empty line. */
  function Lines(s: string): (r: seq<string>)
    ensures |r| == 0 <==> |s| == 0
    ensures forall k :: 0 <= k < |r| ==> '\n' !in r[k]
    decreases |s|
  {
    if |s| == 0 then []
    else
      var i := IndexOfNewline(s);
      if i == |s| then [StripCarriageReturn(s)]
      else [StripCarriageReturn(s[..i])] + Lines(s[i + 1..])
  }

  /** A line that yields no tokens: blank, or a `//` comment once trimmed. */
  predicate IsSkipped(line: string) {
    var t := Trim(line);
    |t| == 0 || (|t| >= 2 && t[..2] == "//")
  }

  // ---------------------------------------------------------------------
  // Word classification (`scan_token` and the four scanners it tries)

  /** The exact, case-sensitive name table of `scan_keywords`. */
  const KeywordTable: map<string, Token> := map[
    "PENUP" := CommandTok(Penup), "PENDOWN" := CommandTok(Pendown),
    "FORWARD" := CommandTok(Forward), "BACK" := CommandTok(Back),
    "LEFT" := CommandTok(Left), "RIGHT" := CommandTok(Right),
    "SETPENCOLOR" := CommandTok(Setpencolor), "TURN" := CommandTok(Turn),
    "SETHEADING" := CommandTok(Setheading), "SETX" := CommandTok(Setx),
    "SETY" := CommandTok(Sety),
    "MAKE" := AssignTok(Make), "ADDASSIGN" := AssignTok(Addassign),
    "XCOR" := QueryTok(Xcor), "YCOR" := QueryTok(Ycor),
    "HEADING" := QueryTok(Heading), "COLOR" := QueryTok(Color),
    "IF" := KeywordTok(If), "WHILE" := KeywordTok(While),
    "TO" := KeywordTok(To), "END" := KeywordTok(End),
    "EQ" := LogicTok(Eq), "NE" := LogicTok(Ne), "GT" := LogicTok(Gt),
    "LT" := LogicTok(Lt), "AND" := LogicTok(And), "OR" := LogicTok(Or)]

  /** The single-character table of `scan_char` (its whitespace entries can
      never match a word of a split line). */
  const CharTable: map<string, Token> := map[
    "[" := LeftBracket, "]" := RightBracket,
    "+" := CalcTok(Plus), "-" := CalcTok(Dash), "*" := CalcTok(Star), "/" := CalcTok(Slash),
    "\n" := Space, "\t" := Space, "\r\n" := Space]

  function ScanKeyword(w: string): Option<Token> {
    if w in KeywordTable then Some(KeywordTable[w]) else None
  }

  function ScanVariable(w: string): Option<Token> {
    if |w| > 0 && w[0] == ':' then Some(IdentTok(Variable(w[1..]))) else None
  }

  function AsciiLower(c: char): char {
    if 'A' <= c <= 'Z' then (c as int - 'A' as int + 'a' as int) as char else c
  }

  function AsciiLowercase(s: string): (t: string)
    ensures |t| == |s|
    ensures forall k :: 0 <= k < |s| ==> t[k] == AsciiLower(s[k])
  {
    if |s| == 0 then "" else [AsciiLower(s[0])] + AsciiLowercase(s[1..])
  }

  /** What the text after a `"` denotes: an `i32` if it parses as one, else
      an `f32`, else a Bool (case-insensitively), else a variable name. */
  function ScanQuoted(ops: FloatOps, v: string): (t: Token)
    ensures t.ValueTok? || t == IdentTok(Variable(v))
    ensures ParseI32(v).Some? ==> t == ValueTok(Int(ParseI32(v).value))
    ensures ParseI32(v).None? && ops.parse(v).Some? ==> t == ValueTok(Float(ops.parse(v).value))
    ensures ParseI32(v).None? && ops.parse(v).None? && AsciiLowercase(v) == "true" ==> t == ValueTok(Bool(true))
    ensures ParseI32(v).None? && ops.parse(v).None? && AsciiLowercase(v) == "false" ==> t == ValueTok(Bool(false))
    ensures t == IdentTok(Variable(v)) <==>
              ParseI32(v).None? && ops.parse(v).None? && AsciiLowercase(v) != "true"
              && AsciiLowercase(v) != "false"
  {
    var p := ParseI32(v);
    if p.Some? then ValueTok(Int(p.value))
    else if ops.parse(v).Some? then ValueTok(Float(ops.parse(v).value))
    else if AsciiLowercase(v) == "true" then ValueTok(Bool(true))
    else if AsciiLowercase(v) == "false" then ValueTok(Bool(false))
    else IdentTok(Variable(v))
  }

  function ScanValue(ops: FloatOps, w: string): Option<Token> {
    if |w| > 0 && w[0] == '"' then Some(ScanQuoted(ops, w[1..])) else None
  }

  function ScanChar(w: string): Option<Token> {
    if w in CharTable then Some(CharTable[w]) else None
  }

  /** `scan_token`: keyword table, then `:` variable, then `"` value, then
      single-character symbol; anything else names a procedure. */
  function ScanToken(ops: FloatOps, w: string): (t: Token)
    ensures w in KeywordTable ==> t == KeywordTable[w]
    ensures t.IdentTok? && t.ident.Procedure? <==>
              w !in KeywordTable && w !in CharTable && (|w| == 0 || (w[0] != ':' && w[0] != '"'))
    ensures t.IdentTok? && t.ident.Procedure? ==> t.ident.name == w
    ensures t == Space <==> w == "\n" || w == "\t" || w == "\r\n"
  {
    if ScanKeyword(w).Some? then ScanKeyword(w).value
    else if ScanVariable(w).Some? then ScanVariable(w).value
    else if ScanValue(ops, w).Some? then ScanValue(ops, w).value
    else if ScanChar(w).Some? then ScanChar(w).value
    else IdentTok(Procedure(w))
  }

  function ScanWords(ops: FloatOps, ws: seq<string>): (ts: seq<Token>)
    ensures |ts| == |ws|
    ensures forall k :: 0 <= k < |ws| ==> ts[k] == ScanToken(ops, ws[k])
  {
    if |ws| == 0 then [] else [ScanToken(ops, ws[0])] + ScanWords(ops, ws[1..])
  }

  /** The tokens of one source line. */
  function ScanLine(ops: FloatOps, line: string): (r: seq<Token>)
    ensures IsSkipped(line) <==> |r| == 0
    ensures |r| > 0 ==> r[|r| - 1] == Space
  {
    if IsSkipped(line) then [] else ScanWords(ops, Words(Trim(line))) + [Space]
  }

  function ScanLines(ops: FloatOps, lines: seq<string>): (r: seq<Token>)
    ensures |r| == 0 <==> forall k :: 0 <= k < |lines| ==> IsSkipped(lines[k])
    ensures |r| > 0 ==> r[|r| - 1] == Space
  {
    if |lines| == 0 then [] else ScanLine(ops, lines[0]) + ScanLines(ops, lines[1..])
  }

  /** `Tokenizer::scan` on a whole script. */
  function Scan(ops: FloatOps, text: string): (r: seq<Token>)
    ensures |r| > 0 ==> r[|r| - 1] == Space
  {
    ScanLines(ops, Lines(text))
  }
}
