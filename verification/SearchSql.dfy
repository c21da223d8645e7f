/** The SQL predicate of a search, and what a SQL lexer makes of it. */
module SearchSql {
  import opened Seqs

  // ----------------------------------------------------------------- literals

  /** `value.replace('\'', "''")`. */
  function Doubled(value: string): string {
    if value == [] then [] else (if value[0] == '\'' then "''" else [value[0]]) + Doubled(value[1..])
  }

  function SqlLiteral(value: string): string {
    "'" + Doubled(value) + "'"
  }

  /** The rest of a character string literal after its opening quote (section 5.3 of
      ISO/IEC 9075-2): its value, and the text after the closing quote. */
  function LexLiteral(text: string): Option<(string, string)> {
    if text == [] then None
    else if text[0] != '\'' then
      match LexLiteral(text[1..])
      case None => None
      case Some(v) => Some(([text[0]] + v.0, v.1))
    else if |text| > 1 && text[1] == '\'' then
      match LexLiteral(text[2..])
      case None => None
      case Some(v) => Some((['\''] + v.0, v.1))
    else Some(([], text[1..]))
  }

  /** Every literal reads back as its value and ends at its own closing quote. */
  lemma {:induction false} LiteralLexes(value: string, rest: string)
    requires rest == [] || rest[0] != '\''
    ensures LexLiteral(Doubled(value) + "'" + rest) == Some((value, rest))
  {
    var text := Doubled(value) + "'" + rest;
    if value == [] {
      assert text == "'" + rest;
      assert text[1..] == rest;
    } else {
      LiteralLexes(value[1..], rest);
      var inner := Doubled(value[1..]) + "'" + rest;
      assert value == [value[0]] + value[1..];
      if value[0] == '\'' {
        assert text == "''" + inner;
        assert text[2..] == inner;
      } else {
        assert text == [value[0]] + inner;
        assert text[1..] == inner;
      }
    }
  }

  // ------------------------------------------------------------------- lexing

  datatype Token = Code(c: char) | Literal(value: string)

  lemma {:induction false} LexLiteralShorter(text: string)
    ensures LexLiteral(text).Some? ==> |LexLiteral(text).value.1| < |text|
  {
    if text != [] {
      if text[0] != '\'' {
        LexLiteralShorter(text[1..]);
      } else if |text| > 1 && text[1] == '\'' {
        LexLiteralShorter(text[2..]);
      }
    }
  }

  /** Code character by character, literals whole. */
  function Lex(text: string): Option<seq<Token>>
    decreases |text|
  {
    if text == [] then Some([])
    else if text[0] == '\'' then
      LexLiteralShorter(text[1..]);
      (match LexLiteral(text[1..])
       case None => None
       case Some(v) =>
         match Lex(v.1)
         case None => None
         case Some(tokens) => Some([Literal(v.0)] + tokens))
    else
      match Lex(text[1..])
      case None => None
      case Some(tokens) => Some([Code(text[0])] + tokens)
  }

  /** A predicate as it is meant: code that holds no quote, and literal values. */
  datatype Piece = Sql(code: string) | Value(value: string)

  function Rendered(pieces: seq<Piece>): string {
    if pieces == [] then []
    else (match pieces[0] case Sql(code) => code case Value(v) => SqlLiteral(v)) + Rendered(pieces[1..])
  }

  function Codes(code: string): seq<Token> {
    seq(|code|, i requires 0 <= i < |code| => Code(code[i]))
  }

  function Tokens(pieces: seq<Piece>): seq<Token> {
    if pieces == [] then []
    else (match pieces[0] case Sql(code) => Codes(code) case Value(v) => [Literal(v)]) + Tokens(pieces[1..])
  }

  /** Code holds no quote, and no two literals touch. */
  ghost predicate Separated(pieces: seq<Piece>) {
    && (forall i | 0 <= i < |pieces| && pieces[i].Sql? :: pieces[i].code != [] && '\'' !in pieces[i].code)
    && (forall i | 0 < i < |pieces| && pieces[i - 1].Value? :: pieces[i].Sql?)
  }

  lemma {:induction false} CodeLexes(code: string, rest: string)
    requires '\'' !in code
    ensures Lex(code + rest) == match Lex(rest) { case None => None case Some(tokens) => Some(Codes(code) + tokens) }
  {
    if code == [] {
      assert code + rest == rest;
      assert Codes(code) == [];
      if Lex(rest).Some? {
        assert [] + Lex(rest).value == Lex(rest).value;
      }
    } else {
      var text := code + rest;
      assert text[0] == code[0] && text[1..] == code[1..] + rest;
      CodeLexes(code[1..], rest);
      if Lex(rest).Some? {
        assert [Code(code[0])] + (Codes(code[1..]) + Lex(rest).value) == Codes(code) + Lex(rest).value;
      }
    }
  }

  lemma QuoteFirst(inner: string, rest: string)
    ensures var text := "'" + inner + "'" + rest;
            |rest| < |text| && text[0] == '\'' && text[1..] == inner + "'" + rest
  {
  }

  lemma LiteralIs(v: string)
    ensures SqlLiteral(v) == "'" + Doubled(v) + "'"
  {
  }

  lemma ValueLexes(v: string, rest: string)
    requires rest == [] || rest[0] != '\''
    ensures Lex(SqlLiteral(v) + rest)
            == match Lex(rest) { case None => None case Some(tokens) => Some([Literal(v)] + tokens) }
  {
    hide *;
    LiteralLexes(v, rest);
    LiteralIs(v);
    QuoteFirst(Doubled(v), rest);
    LexOpensLiteral("'" + Doubled(v) + "'" + rest, v, rest);
  }

  lemma LexOpensLiteral(text: string, v: string, rest: string)
    requires text != [] && text[0] == '\'' && LexLiteral(text[1..]) == Some((v, rest)) && |rest| < |text|
    ensures Lex(text) == match Lex(rest) { case None => None case Some(tokens) => Some([Literal(v)] + tokens) }
  {
    hide LexLiteral;
  }

  /** Whatever the values hold, the rendered predicate lexes to exactly the tokens meant. */
  lemma {:induction false} RenderedLexes(pieces: seq<Piece>)
    requires Separated(pieces)
    ensures Lex(Rendered(pieces)) == Some(Tokens(pieces))
  {
    if pieces != [] {
      RenderedLexes(pieces[1..]);
      match pieces[0]
      case Sql(code) =>
        CodeLexes(code, Rendered(pieces[1..]));
        hide Lex;
      case Value(v) =>
        NoQuoteNext(pieces);
        ValueLexes(v, Rendered(pieces[1..]));
        hide Lex, SqlLiteral;
    }
  }

  lemma NoQuoteNext(pieces: seq<Piece>)
    requires Separated(pieces) && pieces != [] && pieces[0].Value?
    ensures Rendered(pieces[1..]) == [] || Rendered(pieces[1..])[0] != '\''
  {
    if |pieces| > 1 {
      assert pieces[1].Sql?;
      assert pieces[1..][0] == pieces[1];
      assert pieces[1].code[0] in pieces[1].code;
    }
  }
}
