/** The emitted SQL means what was granted: printing and parsing back are inverse, and a row
    passes the filters exactly when the user was granted its values. */
module RowFilterTheorems {
  import opened Strings
  import opened Wrappers
  import opened Sql
  import opened RowFilters

  // --- Printing literals and reading them back ---

  predicate Printable(l: Literal)
  {
    l.NumberLiteral? ==> UnsignedNumber(l.digits)
  }

  function Print(l: Literal): string
  {
    match l
    case TextLiteral(v) => "'" + Escape(v) + "'"
    case NumberLiteral(negative, digits) => if negative then "-" + digits else digits
  }

  function PrintAll(ls: seq<Literal>): (r: seq<string>)
    ensures |r| == |ls|
  {
    if ls == [] then [] else [Print(ls[0])] + PrintAll(ls[1..])
  }

  /** Unescaping reads an escaped value to its closing quote and no further. */
  lemma {:induction false} QuotedEscape(v: string, rest: string)
    requires rest == [] || rest[0] != '\''
    ensures Quoted(Escape(v) + "'" + rest, '\'') == Some((v, rest))
  {
    if v == [] {
      assert Escape(v) + "'" + rest == "'" + rest;
      assert ("'" + rest)[1..] == rest;
    } else {
      QuotedEscape(v[1..], rest);
      var tail := Escape(v[1..]) + "'" + rest;
      assert v == [v[0]] + v[1..];
      if v[0] == '\'' {
        assert Escape(v) + "'" + rest == "''" + tail;
        assert ("''" + tail)[2..] == tail;
      } else {
        assert Escape(v) + "'" + rest == [v[0]] + tail;
        assert ([v[0]] + tail)[1..] == tail;
      }
    }
  }

  /** A quoted identifier without quotes inside is read back as it is. */
  lemma {:induction false} QuotedPlain(v: string, rest: string)
    requires '"' !in v && (rest == [] || rest[0] != '"')
    ensures Quoted(v + "\"" + rest, '"') == Some((v, rest))
  {
    if v == [] {
      assert v + "\"" + rest == "\"" + rest;
      assert ("\"" + rest)[1..] == rest;
    } else {
      QuotedPlain(v[1..], rest);
      assert (v + "\"" + rest)[1..] == v[1..] + "\"" + rest;
      assert v == [v[0]] + v[1..];
    }
  }

  lemma {:induction false} DigitRunExtend(d: string, rest: string)
    requires DigitRun(d) == |d| && (rest == [] || !IsDigit(rest[0]))
    ensures DigitRun(d + rest) == |d|
  {
    if d == [] {
      assert d + rest == rest;
    } else {
      DigitRunExtend(d[1..], rest);
      assert (d + rest)[1..] == d[1..] + rest;
    }
  }

  lemma {:induction false} DigitRunPrefix(s: string, n: nat)
    requires n <= |s| && forall i | 0 <= i < n :: IsDigit(s[i])
    ensures DigitRun(s[..n]) == n
  {
    if n > 0 {
      DigitRunPrefix(s[1..], n - 1);
      assert s[..n][1..] == s[1..][..n - 1];
    }
  }

  /** The literal ends where the list goes on. */
  predicate Ends(rest: string)
  {
    rest != [] && (rest[0] == ',' || rest[0] == ')')
  }

  lemma NumberRunExtend(d: string, rest: string)
    requires UnsignedNumber(d) && Ends(rest)
    ensures NumberRun(d + rest) == |d|
  {
    var n := DigitRun(d);
    if n == |d| {
      DigitRunExtend(d, rest);
    } else {
      var whole, frac := d[..n], d[n + 1..];
      DigitRunPrefix(d, n);
      assert d + rest == whole + (['.'] + (frac + rest));
      FractionRun(d + rest, whole, frac, frac + rest, rest);
    }
  }

  lemma FractionRun(s: string, whole: string, frac: string, tail: string, rest: string)
    requires whole != [] && frac != [] && DigitRun(whole) == |whole| && DigitRun(frac) == |frac| && Ends(rest)
    requires tail == frac + rest && s == whole + (['.'] + tail)
    ensures NumberRun(s) == |whole| + 1 + |frac|
  {
    DigitRunExtend(whole, ['.'] + tail);
    DigitRunExtend(frac, rest);
    assert s[|whole|] == '.' && s[|whole| + 1..] == tail;
  }

  function LiteralTokens(l: Literal): seq<Token>
  {
    match l
    case TextLiteral(v) => [TextToken(v)]
    case NumberLiteral(negative, digits) => if negative then [Minus, NumberToken(digits)] else [NumberToken(digits)]
  }

  function PrependAll(ts: seq<Token>, rest: Option<seq<Token>>): Option<seq<Token>>
  {
    if rest.Some? then Some(ts + rest.value) else None
  }

  lemma PrependCons(t: Token, ts: seq<Token>, rest: Option<seq<Token>>)
    ensures Prepend(t, PrependAll(ts, rest)) == PrependAll([t] + ts, rest)
  {
    if rest.Some? {
      assert [t] + (ts + rest.value) == ([t] + ts) + rest.value;
    }
  }

  lemma LexNumber(d: string, rest: string)
    requires UnsignedNumber(d) && Ends(rest)
    ensures Lex(d + rest) == Prepend(NumberToken(d), Lex(rest))
  {
    NumberRunExtend(d, rest);
    assert IsDigit((d + rest)[0]);
    assert (d + rest)[..|d|] == d && (d + rest)[|d|..] == rest;
  }

  lemma LexText(v: string, rest: string)
    requires Ends(rest)
    ensures Lex("'" + Escape(v) + "'" + rest) == Prepend(TextToken(v), Lex(rest))
  {
    QuotedEscape(v, rest);
    var s := "'" + Escape(v) + "'" + rest;
    assert s[1..] == Escape(v) + "'" + rest;
  }

  lemma LexNegative(d: string, rest: string)
    requires UnsignedNumber(d) && Ends(rest)
    ensures Lex("-" + (d + rest)) == PrependAll([Minus, NumberToken(d)], Lex(rest))
  {
    LexNumber(d, rest);
    var s := "-" + (d + rest);
    assert s[1..] == d + rest;
    assert IsDigit(d[0]) && s[1] == d[0];
    assert [Minus] + [NumberToken(d)] == [Minus, NumberToken(d)];
    PrependCons(Minus, [NumberToken(d)], Lex(rest));
  }

  lemma LexLiteral(l: Literal, rest: string)
    requires Printable(l) && Ends(rest)
    ensures Lex(Print(l) + rest) == PrependAll(LiteralTokens(l), Lex(rest))
  {
    match l
    case TextLiteral(v) =>
      LexText(v, rest);
    case NumberLiteral(negative, digits) =>
      if negative {
        LexNegative(digits, rest);
        assert Print(l) + rest == "-" + (digits + rest);
      } else {
        LexNumber(digits, rest);
      }
  }

  function ListTokens(ls: seq<Literal>): seq<Token>
    requires ls != []
  {
    if |ls| == 1 then LiteralTokens(ls[0]) + [RParen]
    else LiteralTokens(ls[0]) + [Comma] + ListTokens(ls[1..])
  }

  lemma LexClose()
    ensures Lex(")") == Some([RParen])
  {
    assert Lex([]) == Some([]);
    assert ")"[1..] == [];
    assert [RParen] + [] == [RParen];
  }

  lemma LexSeparator(rest: string)
    ensures Lex(", " + rest) == Prepend(Comma, Lex(rest))
  {
    var s := ", " + rest;
    assert s[1..] == " " + rest;
    assert (" " + rest)[1..] == rest;
  }

  lemma {:induction false} LexList(ls: seq<Literal>)
    requires ls != [] && forall l | l in ls :: Printable(l)
    ensures Lex(Join(PrintAll(ls), ", ") + ")") == Some(ListTokens(ls))
  {
    assert ls[0] in ls;
    if |ls| == 1 {
      LexLiteral(ls[0], ")");
      LexClose();
    } else {
      var texts := PrintAll(ls);
      var rest := Join(PrintAll(ls[1..]), ", ") + ")";
      assert texts[1..] == PrintAll(ls[1..]);
      assert Join(texts, ", ") + ")" == Print(ls[0]) + (", " + rest);
      LexList(ls[1..]);
      LexSeparator(rest);
      LexLiteral(ls[0], ", " + rest);
      assert LiteralTokens(ls[0]) + ([Comma] + ListTokens(ls[1..])) == ListTokens(ls);
    }
  }

  lemma ParseOne(l: Literal, tail: seq<Token>)
    ensures ParseLiteral(LiteralTokens(l) + tail) == Some((l, tail))
  {
    var ts := LiteralTokens(l) + tail;
    assert ts[|LiteralTokens(l)|..] == tail;
  }

  lemma ParseMore(l: Literal, tail: seq<Token>, ls: seq<Literal>)
    requires ParseList(tail) == Some(ls)
    ensures ParseList(LiteralTokens(l) + ([Comma] + tail)) == Some([l] + ls)
  {
    var rest := [Comma] + tail;
    ParseOne(l, rest);
    assert rest[0] == Comma && rest[1..] == tail;
  }

  lemma {:induction false} ParseListTokens(ls: seq<Literal>)
    requires ls != []
    ensures ParseList(ListTokens(ls)) == Some(ls)
  {
    if |ls| == 1 {
      ParseOne(ls[0], [RParen]);
      assert ls == [ls[0]];
    } else {
      ParseListTokens(ls[1..]);
      ParseMore(ls[0], ListTokens(ls[1..]), ls[1..]);
      assert LiteralTokens(ls[0]) + ([Comma] + ListTokens(ls[1..])) == ListTokens(ls);
      assert ls == [ls[0]] + ls[1..];
    }
  }

  lemma LexHead(column: string, rest: string)
    requires '"' !in column
    ensures Lex("\"" + column + "\"" + " IN (" + rest) == PrependAll([Ident(column), Word("IN"), LParen], Lex(rest))
  {
    var s := "\"" + column + "\"" + " IN (" + rest;
    var t := " IN (" + rest;
    QuotedPlain(column, t);
    assert s[1..] == column + "\"" + t;
    LexIn(rest);
    assert Lex(s) == Prepend(Ident(column), Lex(t));
    PrependCons(Ident(column), [Word("IN"), LParen], Lex(rest));
    assert [Ident(column)] + [Word("IN"), LParen] == [Ident(column), Word("IN"), LParen];
  }

  lemma LexIn(rest: string)
    ensures Lex(" IN (" + rest) == PrependAll([Word("IN"), LParen], Lex(rest))
  {
    var u := "IN (" + rest;
    assert (" IN (" + rest)[1..] == u;
    var v := " (" + rest;
    assert u[1..][1..] == v;
    assert LetterRun(v) == 0;
    assert LetterRun(u[1..]) == 1;
    assert LetterRun(u) == 2;
    assert u[..2] == "IN" && u[2..] == v;
    assert v[1..] == "(" + rest;
    assert ("(" + rest)[1..] == rest;
    assert Lex(v) == PrependAll([LParen], Lex(rest));
    assert Lex(u) == Prepend(Word("IN"), Lex(v));
    PrependCons(Word("IN"), [LParen], Lex(rest));
    assert [Word("IN")] + [LParen] == [Word("IN"), LParen];
  }

  /** Printer and parser are inverse: for every column without a quote and every non-empty
      list of literals, the emitted text reads back as that column and those literals,
      whatever quotes, commas or parentheses the values hold. */
  lemma InClauseRoundTrip(column: string, ls: seq<Literal>)
    requires '"' !in column
    requires ls != [] && forall l | l in ls :: Printable(l)
    ensures Parse(InClause(column, PrintAll(ls))) == Some(In(column, ls))
  {
    var body := Join(PrintAll(ls), ", ") + ")";
    assert InClause(column, PrintAll(ls)) == "\"" + column + "\"" + " IN (" + body;
    LexHead(column, body);
    LexList(ls);
    ParseListTokens(ls);
    var ts := [Ident(column), Word("IN"), LParen] + ListTokens(ls);
    assert ts[3..] == ListTokens(ls);
    assert ts[0] != Word("false");
  }

  lemma {:induction false} AllLetters(s: string)
    requires forall i | 0 <= i < |s| :: IsLetter(s[i])
    ensures LetterRun(s) == |s|
  {
    if s != [] {
      AllLetters(s[1..]);
    }
  }

  lemma LexWord(s: string)
    requires s != [] && forall i | 0 <= i < |s| :: IsLetter(s[i])
    ensures Lex(s) == Some([Word(s)])
  {
    AllLetters(s);
    assert s[..|s|] == s && s[|s|..] == [];
    assert Lex([]) == Some([]) && [Word(s)] + [] == [Word(s)];
  }

  lemma FalseRoundTrip()
    ensures Parse("false") == Some(Never)
  {
    LexWord("false");
  }

  // --- Meaning ---

  /** The literal that a permitted value is printed as. */
  function LiteralOf(numeric: bool, value: string): Literal
  {
    if !numeric then TextLiteral(value)
    else if value != [] && value[0] == '-' then NumberLiteral(true, value[1..])
    else NumberLiteral(false, value)
  }

  /** The values that a filter can print. */
  function Usable(f: Filter, values: seq<string>): seq<Literal>
  {
    if values == [] then []
    else if SqlLiteral(f, values[0]).Some? then [LiteralOf(f.numeric, values[0])] + Usable(f, values[1..])
    else Usable(f, values[1..])
  }

  lemma {:induction false} NegativeIsNotUnsigned(v: string)
    requires v != [] && v[0] == '-'
    ensures !UnsignedNumber(v)
  {
    assert DigitRun(v) == 0;
  }

  lemma {:induction false} LiteralsPrint(f: Filter, values: seq<string>)
    ensures Literals(f, values) == PrintAll(Usable(f, values))
    ensures forall l | l in Usable(f, values) :: Printable(l)
  {
    if values != [] {
      LiteralsPrint(f, values[1..]);
      var v := values[0];
      if f.numeric && v != [] && v[0] == '-' {
        NegativeIsNotUnsigned(v);
        assert "-" + v[1..] == v;
      }
    }
  }

  /** The number a well-formed numeric value stands for. */
  function NumericValue(v: string): real
    requires MatchesNumber(v)
  {
    if v[0] == '-' then -NumberValue(v[1..]) else NumberValue(v)
  }

  predicate AllDigits(s: string) { forall i | 0 <= i < |s| :: '0' <= s[i] <= '9' }

  /** A numeral as a person writes it: sign, whole part and, if there is one, a fraction. */
  function Numeral(negative: bool, whole: string, fraction: string): string
  {
    (if negative then "-" else "") + whole + if fraction == "" then "" else "." + fraction
  }

  function NumeralValue(negative: bool, whole: string, fraction: string): real
  {
    var x := DigitsValue(whole) as real + DigitsValue(fraction) as real / PowerOfTen(|fraction|);
    if negative then -x else x
  }

  ghost predicate Spells(v: string, x: real)
  {
    exists negative, whole, fraction ::
      && v == Numeral(negative, whole, fraction) && x == NumeralValue(negative, whole, fraction)
      && whole != "" && AllDigits(whole) && AllDigits(fraction)
  }

  lemma DigitsRun(s: string)
    requires AllDigits(s)
    ensures DigitRun(s) == |s|
  {
  }

  lemma UnsignedSpelled(v: string) returns (whole: string, fraction: string)
    requires UnsignedNumber(v)
    ensures v == Numeral(false, whole, fraction) && NumberValue(v) == NumeralValue(false, whole, fraction)
    ensures whole != "" && AllDigits(whole) && AllDigits(fraction)
  {
    var n := DigitRun(v);
    whole, fraction := v[..n], if n == |v| then "" else v[n + 1..];
    if n == |v| {
      assert whole == v;
    } else {
      assert v == whole + ("." + fraction);
    }
    assert v == Numeral(false, whole, fraction);
  }

  lemma NumeralUnsigned(whole: string, fraction: string)
    requires whole != "" && AllDigits(whole) && AllDigits(fraction)
    ensures var v := Numeral(false, whole, fraction);
            UnsignedNumber(v) && NumberValue(v) == NumeralValue(false, whole, fraction)
  {
    var v := Numeral(false, whole, fraction);
    DigitsRun(whole);
    DigitsRun(fraction);
    DigitRunExtend(whole, if fraction == "" then "" else "." + fraction);
    if fraction == "" {
      assert v == whole;
    } else {
      assert v == whole + ("." + fraction);
      assert v[..|whole|] == whole && v[|whole| + 1..] == fraction;
    }
  }

  lemma MatchedSpells(v: string)
    requires MatchesNumber(v)
    ensures Spells(v, NumericValue(v))
  {
    var negative := v[0] == '-';
    if negative {
      NegativeIsNotUnsigned(v);
      SignedSpells(v, v[1..]);
    } else {
      var whole, fraction := UnsignedSpelled(v);
    }
  }

  lemma SignedSpells(v: string, u: string)
    requires v == "-" + u && UnsignedNumber(u)
    ensures Spells(v, -NumberValue(u))
  {
    var whole, fraction := UnsignedSpelled(u);
    assert v == Numeral(true, whole, fraction);
    assert NumeralValue(true, whole, fraction) == -NumeralValue(false, whole, fraction);
  }

  lemma NumeralMatches(negative: bool, whole: string, fraction: string)
    requires whole != "" && AllDigits(whole) && AllDigits(fraction)
    ensures var v := Numeral(negative, whole, fraction);
            MatchesNumber(v) && NumericValue(v) == NumeralValue(negative, whole, fraction)
  {
    NumeralUnsigned(whole, fraction);
    var v, u := Numeral(negative, whole, fraction), Numeral(false, whole, fraction);
    assert u[0] == whole[0];
    if negative { assert v[1..] == u; }
  }

  /** The pattern admits exactly the numerals, and the literal's value is the numeral's. */
  lemma NumberExact(v: string, x: real)
    ensures MatchesNumber(v) && x == NumericValue(v) <==> Spells(v, x)
  {
    if MatchesNumber(v) {
      MatchedSpells(v);
    }
    if Spells(v, x) {
      var negative, whole, fraction :| v == Numeral(negative, whole, fraction)
        && x == NumeralValue(negative, whole, fraction)
        && whole != "" && AllDigits(whole) && AllDigits(fraction);
      NumeralMatches(negative, whole, fraction);
    }
  }

  /** The cell holds the value: as text, or, for a numeric filter, as a number that the
      value spells. */
  ghost predicate Holds(numeric: bool, cell: Cell, value: string)
  {
    if numeric then cell.NumberCell? && Spells(value, cell.number) else cell == TextCell(value)
  }

  lemma {:induction false} UsableMeaning(f: Filter, values: seq<string>, cell: Cell)
    ensures (exists l | l in Usable(f, values) :: Equals(cell, l)) <==>
              exists v | v in values :: Holds(f.numeric, cell, v)
  {
    if values != [] {
      var v, rest := values[0], values[1..];
      UsableMeaning(f, rest, cell);
      if cell.NumberCell? { NumberExact(v, cell.number); }
      assert forall x :: x in values <==> x == v || x in rest;
      if SqlLiteral(f, v).Some? {
        var l := LiteralOf(f.numeric, v);
        if f.numeric && v[0] == '-' { NegativeIsNotUnsigned(v); }
        assert Equals(cell, l) <==> Holds(f.numeric, cell, v);
        assert forall x :: x in Usable(f, values) <==> x == l || x in Usable(f, rest);
      } else {
        assert !Holds(f.numeric, cell, v);
      }
    }
  }

  /** The user holds the filter's relation on an object whose id is the row's value. */
  ghost predicate Granted(fga: OpenFga, f: Filter, user: string, row: Row)
  {
    && f.column in row
    && ListObjects(fga, f.fgaType, f.relation, user).Some?
    && exists v ::
      f.fgaType + ":" + v in ListObjects(fga, f.fgaType, f.relation, user).value && Holds(f.numeric, row[f.column], v)
  }

  lemma PermittedExact(fga: OpenFga, f: Filter, user: string, v: string)
    ensures v in PermittedValues(fga, f, user) <==>
              && ListObjects(fga, f.fgaType, f.relation, user).Some?
              && f.fgaType + ":" + v in ListObjects(fga, f.fgaType, f.relation, user).value
  {
    match ListObjects(fga, f.fgaType, f.relation, user)
    case Some(objects) =>
      var xs := Stripped(objects, f.fgaType + ":");
      SortElements(xs);
      assert v in Sort(xs) <==> v in Elements(Sort(xs));
      assert v in xs <==> v in Elements(xs);
    case None =>
  }

  /** One filter: its text parses, and a row satisfies it exactly when granted. */
  lemma ExpressionMeaning(fga: OpenFga, f: Filter, user: string, row: Row)
    requires '"' !in f.column
    ensures Parse(Expression(fga, f, user)).Some?
    ensures Satisfies(row, Parse(Expression(fga, f, user)).value) <==> Granted(fga, f, user, row)
  {
    var values := PermittedValues(fga, f, user);
    var ls := Usable(f, values);
    LiteralsPrint(f, values);
    forall v ensures v in values <==>
              && ListObjects(fga, f.fgaType, f.relation, user).Some?
              && f.fgaType + ":" + v in ListObjects(fga, f.fgaType, f.relation, user).value
    {
      PermittedExact(fga, f, user, v);
    }
    if f.column in row {
      UsableMeaning(f, values, row[f.column]);
    }
    if ls == [] {
      FalseRoundTrip();
    } else {
      InClauseRoundTrip(f.column, ls);
    }
  }

  /** Trino keeps a row when it satisfies every filter expression. */
  ghost predicate Visible(expressions: set<string>, row: Row)
  {
    forall e | e in expressions :: Parse(e).Some? && Satisfies(row, Parse(e).value)
  }

  /** A non-admin sees exactly the rows granted by every filter on the table, and every
      emitted expression is SQL of the intended form. */
  lemma RowFiltersExact(filters: seq<Filter>, admins: set<string>, fga: OpenFga, user: string, t: TableRef, row: Row)
    requires user !in admins
    requires forall f | f in filters :: '"' !in f.column
    ensures forall e | e in RowFilterExpressions(filters, admins, fga, user, t) :: Parse(e).Some?
    ensures Visible(RowFilterExpressions(filters, admins, fga, user, t), row) <==>
              forall f | f in filters && MatchesResource(f, t) :: Granted(fga, f, user, row)
  {
    var es := RowFilterExpressions(filters, admins, fga, user, t);
    forall f | f in filters && MatchesResource(f, t)
      ensures Expression(fga, f, user) in es
      ensures Parse(Expression(fga, f, user)).Some?
      ensures Satisfies(row, Parse(Expression(fga, f, user)).value) <==> Granted(fga, f, user, row)
    {
      ExpressionMeaning(fga, f, user, row);
    }
  }

  /** Failing closed: without a store, or when OpenFGA does not answer, a filtered table
      shows no row. */
  lemma FailuresHideEveryRow(filters: seq<Filter>, admins: set<string>, fga: OpenFga, user: string, t: TableRef,
                             f: Filter, row: Row)
    requires user !in admins
    requires forall g | g in filters :: '"' !in g.column
    requires f in filters && MatchesResource(f, t)
    requires fga.storeId == "" || fga.listObjects(f.fgaType, f.relation, "user:" + user).status != 200
    ensures !Visible(RowFilterExpressions(filters, admins, fga, user, t), row)
  {
    RowFiltersExact(filters, admins, fga, user, t, row);
    assert !Granted(fga, f, user, row);
  }

  /** Admins, and users of tables without a filter, see every row. */
  lemma UnfilteredRows(filters: seq<Filter>, admins: set<string>, fga: OpenFga, user: string, t: TableRef, row: Row)
    requires user in admins || forall f | f in filters :: !MatchesResource(f, t)
    ensures Visible(RowFilterExpressions(filters, admins, fga, user, t), row)
  {
  }
}
