/** The fragment of Trino SQL that a row filter is read back in: a lexer, a parser and an
    evaluator for `false` and `"column" IN (literal, ...)`. Quoting follows section 5.3 of
    ISO/IEC 9075-2: inside a quoted token the quote is written twice. */
module Sql {
  import opened Wrappers

  datatype Token =
    | Ident(name: string)
    | TextToken(value: string)
    | NumberToken(digits: string)
    | Minus
    | LParen
    | RParen
    | Comma
    | Word(word: string)

  predicate IsSpace(c: char) { c == ' ' || c == '\t' || c == '\n' || c == '\r' }

  predicate IsDigit(c: char) { '0' <= c <= '9' }

  predicate IsLetter(c: char) { 'a' <= c <= 'z' || 'A' <= c <= 'Z' || c == '_' }

  /** The inside of a quoted token up to its closing quote, unescaped, and what follows. */
  function Quoted(s: string, q: char): (r: Option<(string, string)>)
    ensures r.Some? ==> |r.value.1| < |s|
  {
    if s == [] then None
    else if s[0] != q then
      match Quoted(s[1..], q)
      case Some((v, rest)) => Some(([s[0]] + v, rest))
      case None => None
    else if |s| > 1 && s[1] == q then
      match Quoted(s[2..], q)
      case Some((v, rest)) => Some(([q] + v, rest))
      case None => None
    else Some(([], s[1..]))
  }

  function DigitRun(s: string): (n: nat)
    ensures n <= |s|
    ensures forall i | 0 <= i < n :: IsDigit(s[i])
    ensures n < |s| ==> !IsDigit(s[n])
  {
    if s == [] || !IsDigit(s[0]) then 0 else 1 + DigitRun(s[1..])
  }

  function LetterRun(s: string): (n: nat)
    ensures n <= |s|
  {
    if s == [] || !IsLetter(s[0]) then 0 else 1 + LetterRun(s[1..])
  }

  /** Length of the longest numeric literal at the front: digits, then perhaps a point and
      more digits. */
  function NumberRun(s: string): (n: nat)
    ensures n <= |s|
    ensures s != [] && IsDigit(s[0]) ==> n > 0
  {
    var n := DigitRun(s);
    if n < |s| && s[n] == '.' && DigitRun(s[n + 1..]) > 0 then n + 1 + DigitRun(s[n + 1..]) else n
  }

  /** What follows the end of the line, for `--` comments. */
  function SkipLine(s: string): (r: string)
    ensures |r| <= |s|
  {
    if s == [] || s[0] == '\n' then s else SkipLine(s[1..])
  }

  function Prepend(t: Token, rest: Option<seq<Token>>): Option<seq<Token>>
  {
    if rest.Some? then Some([t] + rest.value) else None
  }

  function Lex(s: string): Option<seq<Token>>
    decreases |s|
  {
    if s == [] then Some([])
    else if IsSpace(s[0]) then Lex(s[1..])
    else if s[0] == '\'' then
      match Quoted(s[1..], '\'')
      case Some((v, rest)) => Prepend(TextToken(v), Lex(rest))
      case None => None
    else if s[0] == '"' then
      match Quoted(s[1..], '"')
      case Some((v, rest)) => Prepend(Ident(v), Lex(rest))
      case None => None
    else if s[0] == '-' then
      if |s| > 1 && s[1] == '-' then Lex(SkipLine(s[2..])) else Prepend(Minus, Lex(s[1..]))
    else if s[0] == '(' then Prepend(LParen, Lex(s[1..]))
    else if s[0] == ')' then Prepend(RParen, Lex(s[1..]))
    else if s[0] == ',' then Prepend(Comma, Lex(s[1..]))
    else if IsDigit(s[0]) then Prepend(NumberToken(s[..NumberRun(s)]), Lex(s[NumberRun(s)..]))
    else if IsLetter(s[0]) then Prepend(Word(s[..LetterRun(s)]), Lex(s[LetterRun(s)..]))
    else None
  }

  datatype Literal = TextLiteral(value: string) | NumberLiteral(negative: bool, digits: string)

  datatype Expr = Never | In(column: string, values: seq<Literal>)

  /** One literal at the front of the tokens. */
  function ParseLiteral(ts: seq<Token>): (r: Option<(Literal, seq<Token>)>)
    ensures r.Some? ==> |r.value.1| < |ts|
  {
    if ts != [] && ts[0].TextToken? then Some((TextLiteral(ts[0].value), ts[1..]))
    else if ts != [] && ts[0].NumberToken? then Some((NumberLiteral(false, ts[0].digits), ts[1..]))
    else if |ts| > 1 && ts[0].Minus? && ts[1].NumberToken? then Some((NumberLiteral(true, ts[1].digits), ts[2..]))
    else None
  }

  /** Literals separated by commas, up to a closing parenthesis that ends the input. */
  function ParseList(ts: seq<Token>): Option<seq<Literal>>
    decreases |ts|
  {
    match ParseLiteral(ts)
    case None => None
    case Some((l, rest)) =>
      if rest == [RParen] then Some([l])
      else if rest != [] && rest[0].Comma? then
        match ParseList(rest[1..])
        case Some(ls) => Some([l] + ls)
        case None => None
      else None
  }

  function ParseTokens(ts: seq<Token>): Option<Expr>
  {
    if ts == [Word("false")] then Some(Never)
    else if |ts| > 3 && ts[0].Ident? && ts[1] == Word("IN") && ts[2].LParen? then
      match ParseList(ts[3..])
      case Some(ls) => Some(In(ts[0].name, ls))
      case None => None
    else None
  }

  function Parse(text: string): Option<Expr>
  {
    match Lex(text)
    case Some(ts) => ParseTokens(ts)
    case None => None
  }

  // --- Meaning ---

  datatype Cell = Null | TextCell(value: string) | NumberCell(number: real)

  function DigitsValue(digits: string): int
  {
    if digits == [] then 0
    else 10 * DigitsValue(digits[..|digits| - 1]) + (digits[|digits| - 1] as int - '0' as int)
  }

  function PowerOfTen(n: nat): (p: real)
    ensures p >= 1.0
  {
    if n == 0 then 1.0 else 10.0 * PowerOfTen(n - 1)
  }

  /** The value of digits with an optional fraction. */
  function NumberValue(digits: string): real
  {
    var n := DigitRun(digits);
    if n < |digits| then
      var fraction := digits[n + 1..];
      DigitsValue(digits[..n]) as real + DigitsValue(fraction) as real / PowerOfTen(|fraction|)
    else DigitsValue(digits) as real
  }

  predicate Equals(cell: Cell, l: Literal)
  {
    match l
    case TextLiteral(v) => cell == TextCell(v)
    case NumberLiteral(negative, digits) =>
      cell == NumberCell(if negative then -NumberValue(digits) else NumberValue(digits))
  }

  type Row = map<string, Cell>

  /** Whether a row passes; NULL and a missing column never do. */
  predicate Satisfies(row: Row, e: Expr)
  {
    match e
    case Never => false
    case In(column, values) => column in row && exists l | l in values :: Equals(row[column], l)
  }
}
