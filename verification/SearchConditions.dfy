/** Conditions of a search: how a term is read, and the predicate `where_clause` writes. */
module SearchConditions {
  import opened Seqs
  import opened SearchText
  import opened SearchSql

  // ------------------------------------------------------------ string helpers

  function TrimStart(s: string): string {
    if s != [] && IsWhitespace(s[0]) then TrimStart(s[1..]) else s
  }

  function TrimEnd(s: string): string {
    if s != [] && IsWhitespace(s[|s| - 1]) then TrimEnd(s[..|s| - 1]) else s
  }

  function Trim(s: string): string {
    TrimEnd(TrimStart(s))
  }

  /** `find([':', '='])`. */
  function FindSeparator(s: string): (i: Option<nat>)
    ensures i.Some? ==> i.value < |s| && s[i.value] in ":=" && forall j | 0 <= j < i.value :: s[j] !in ":="
    ensures i.None? ==> forall j | 0 <= j < |s| :: s[j] !in ":="
  {
    if s == [] then None
    else if s[0] in ":=" then Some(0)
    else
      match FindSeparator(s[1..])
      case None => None
      case Some(i) => Some(i + 1)
  }

  function Lower(c: char): char {
    if 'A' <= c <= 'Z' then c + 32 as char else c
  }

  function Upper(c: char): char {
    if 'a' <= c <= 'z' then c - 32 as char else c
  }

  function ToLower(s: string): string {
    seq(|s|, i requires 0 <= i < |s| => Lower(s[i]))
  }

  function ToUpper(s: string): string {
    seq(|s|, i requires 0 <= i < |s| => Upper(s[i]))
  }

  predicate IsFieldName(s: string) {
    s != [] && forall i | 0 <= i < |s| :: 'a' <= s[i] <= 'z' || 'A' <= s[i] <= 'Z' || '0' <= s[i] <= '9' || s[i] == '_'
  }

  predicate Enclosed(s: string, quote: char) {
    |s| >= 2 && s[0] == quote && s[|s| - 1] == quote
  }

  function StripQuotes(s: string): string {
    if Enclosed(s, '"') || Enclosed(s, '\'') then s[1..|s| - 1] else s
  }

  const LEVELS := ["TRACE", "DEBUG", "INFO", "WARN", "ERROR", "FATAL", "CRITICAL", "UNKNOWN"]

  function NormalizeLevel(level: string): string {
    var upper := ToUpper(Trim(level));
    if upper in LEVELS then upper else "UNKNOWN"
  }

  // --------------------------------------------------------------- conditions

  datatype Condition =
    | Since(moment: string)
    | Contains(field: string, value: string)
    | LevelIs(level: string)
    | ServiceIs(service: string)
    | FreeText(text: string)

  /** The reading of a term in `term_condition`; no condition for an empty term or an unknown field. */
  function ParseTerm(term: string): Option<Condition> {
    var trimmed := Trim(term);
    if trimmed == [] then None
    else
      match FindSeparator(trimmed)
      case None => ParseFreeText(trimmed)
      case Some(i) =>
        var field, value := Trim(trimmed[..i]), StripQuotes(Trim(trimmed[i + 1..]));
        if IsFieldName(field) && value != [] then ParseField(field, value) else ParseFreeText(trimmed)
  }

  function ParseField(field: string, value: string): Option<Condition> {
    var name := ToLower(field);
    if name == "message" || name == "raw_body" then Some(Contains(field, value))
    else if name == "level" then Some(LevelIs(NormalizeLevel(value)))
    else if name == "service" then Some(ServiceIs(value))
    else None
  }

  function ParseFreeText(trimmed: string): Option<Condition> {
    var text := StripQuotes(trimmed);
    if text == [] then None else Some(FreeText(text))
  }

  /** The SQL written for a condition. */
  function Written(c: Condition): string {
    match c
    case Since(moment) => "timestamp_us >= " + ("TIMESTAMP '" + moment + "'")
    case Contains(field, value) => field + " ILIKE " + SqlLiteral("%" + value + "%")
    case LevelIs(level) => "level = " + SqlLiteral(level)
    case ServiceIs(service) => "service = " + SqlLiteral(service)
    case FreeText(text) =>
      var needle := SqlLiteral("%" + text + "%");
      "(message ILIKE " + needle + " OR service ILIKE " + needle + " OR raw_body ILIKE " + needle
      + " OR LOWER(level) = " + SqlLiteral(ToLower(text)) + ")"
  }

  /** What it is meant to be: user text in literals only. */
  function Meant(c: Condition): seq<Piece> {
    match c
    case Since(moment) => [Sql("timestamp_us >= TIMESTAMP "), Value(moment)]
    case Contains(field, value) => [Sql(field + " ILIKE "), Value("%" + value + "%")]
    case LevelIs(level) => [Sql("level = "), Value(level)]
    case ServiceIs(service) => [Sql("service = "), Value(service)]
    case FreeText(text) =>
      [Sql("(message ILIKE "), Value("%" + text + "%"), Sql(" OR service ILIKE "), Value("%" + text + "%"),
       Sql(" OR raw_body ILIKE "), Value("%" + text + "%"), Sql(" OR LOWER(level) = "), Value(ToLower(text)), Sql(")")]
  }

  /** Field names and formatted moments hold no quote. */
  predicate Plain(c: Condition) {
    match c
    case Since(moment) => '\'' !in moment
    case Contains(field, _) => '\'' !in field
    case _ => true
  }

  /** The only fields a term can search, in any letter case. */
  const TEXT_FIELDS := {"message", "raw_body"}

  lemma ParsedField(term: string)
    ensures ParseTerm(term).Some? ==> !ParseTerm(term).value.Since?
    ensures ParseTerm(term).Some? && ParseTerm(term).value.Contains? ==>
              IsFieldName(ParseTerm(term).value.field) && ToLower(ParseTerm(term).value.field) in TEXT_FIELDS
  {
    hide Trim, StripQuotes, NormalizeLevel, ToLower;
  }

  lemma ParsedIsPlain(term: string)
    ensures ParseTerm(term).Some? ==> Plain(ParseTerm(term).value)
  {
    ParsedField(term);
    hide ParseTerm, ToLower;
  }

  /** The code that can stand in a condition read from a term. */
  ghost predicate FixedCode(code: string) {
    || code in {"level = ", "service = ", "(message ILIKE ", " OR service ILIKE ", " OR raw_body ILIKE ",
                " OR LOWER(level) = ", ")"}
    || exists field :: ToLower(field) in TEXT_FIELDS && code == field + " ILIKE "
  }

  /** Whatever a user types, the code of a condition read from it is fixed, up to the
      letter case of the field's name. */
  lemma ParsedCodeIsFixed(term: string)
    ensures ParseTerm(term).Some? ==> forall p | p in Meant(ParseTerm(term).value) && p.Sql? :: FixedCode(p.code)
  {
    ParsedField(term);
    hide ParseTerm, ToLower;
  }

  lemma {:induction false} DoubledPlain(s: string)
    requires '\'' !in s
    ensures Doubled(s) == s
  {
    if s != [] {
      assert s == [s[0]] + s[1..];
      DoubledPlain(s[1..]);
    }
  }

  lemma {:induction false} RenderedAppend(a: seq<Piece>, b: seq<Piece>)
    ensures Rendered(a + b) == Rendered(a) + Rendered(b)
  {
    if a == [] {
      assert a + b == b;
    } else {
      hide SqlLiteral;
      assert (a + b)[0] == a[0] && (a + b)[1..] == a[1..] + b;
      RenderedAppend(a[1..], b);
    }
  }

  lemma RenderedTwo(code: string, value: string)
    ensures Rendered([Sql(code), Value(value)]) == code + SqlLiteral(value)
  {
    var pieces := [Sql(code), Value(value)];
    var last := [Value(value)];
    assert pieces[1..] == last && last[1..] == [];
    hide SqlLiteral;
    assert Rendered(last) == SqlLiteral(value) + [];
    assert SqlLiteral(value) + [] == SqlLiteral(value);
  }

  lemma RenderedCode(code: string)
    ensures Rendered([Sql(code)]) == code
  {
    var pieces := [Sql(code)];
    assert pieces[1..] == [];
    assert code + [] == code;
  }

  lemma SplitFreeText(text: string)
    ensures var v := "%" + text + "%";
            Meant(FreeText(text)) == [Sql("(message ILIKE "), Value(v)] + ([Sql(" OR service ILIKE "), Value(v)]
              + ([Sql(" OR raw_body ILIKE "), Value(v)] + ([Sql(" OR LOWER(level) = "), Value(ToLower(text))]
                  + [Sql(")")])))
  {
    hide ToLower;
  }

  lemma FreeTextIsMeant(text: string)
    ensures Rendered(Meant(FreeText(text))) == Written(FreeText(text))
  {
    var v, l := "%" + text + "%", ToLower(text);
    var a, b, c, d, e := [Sql("(message ILIKE "), Value(v)], [Sql(" OR service ILIKE "), Value(v)],
                         [Sql(" OR raw_body ILIKE "), Value(v)], [Sql(" OR LOWER(level) = "), Value(l)], [Sql(")")];
    SplitFreeText(text);
    hide SqlLiteral, Rendered, Meant, ToLower;
    RenderedAppend(a, b + (c + (d + e)));
    RenderedAppend(b, c + (d + e));
    RenderedAppend(c, d + e);
    RenderedAppend(d, e);
    RenderedTwo("(message ILIKE ", v);
    RenderedTwo(" OR service ILIKE ", v);
    RenderedTwo(" OR raw_body ILIKE ", v);
    RenderedTwo(" OR LOWER(level) = ", l);
    RenderedCode(")");
  }

  /** What is written is what is meant. */
  lemma WrittenIsMeant(c: Condition)
    requires Plain(c)
    ensures Rendered(Meant(c)) == Written(c)
  {
    match c
    case Since(moment) =>
      RenderedTwo("timestamp_us >= TIMESTAMP ", moment);
      DoubledPlain(moment);
    case Contains(field, value) => RenderedTwo(field + " ILIKE ", "%" + value + "%");
    case LevelIs(level) => RenderedTwo("level = ", level);
    case ServiceIs(service) => RenderedTwo("service = ", service);
    case FreeText(text) => FreeTextIsMeant(text);
  }

  // ------------------------------------------------------------- where_clause

  /** `parts.join(" AND ")`. */
  function Joined(parts: seq<string>): string {
    if parts == [] then []
    else if |parts| == 1 then parts[0]
    else parts[0] + (" AND " + Joined(parts[1..]))
  }

  function JoinedPieces(cs: seq<Condition>): seq<Piece> {
    if cs == [] then []
    else if |cs| == 1 then Meant(cs[0])
    else Meant(cs[0]) + ([Sql(" AND ")] + JoinedPieces(cs[1..]))
  }

  function Conditions(terms: seq<string>): seq<Condition> {
    if terms == [] then []
    else
      var rest := Conditions(terms[..|terms| - 1]);
      match ParseTerm(terms[|terms| - 1])
      case None => rest
      case Some(c) => rest + [c]
  }

  /** The conditions of a search, in order. */
  function SearchConditions(moment: string, level: Option<string>, service: Option<string>,
        search: Option<string>): seq<Condition> {
    [Since(moment)]
    + (if level.Some? then [LevelIs(NormalizeLevel(level.value))] else [])
    + (if service.Some? then [ServiceIs(service.value)] else [])
    + (if search.Some? then Conditions(Terms(search.value)) else [])
  }

  function AllWritten(cs: seq<Condition>): seq<string> {
    seq(|cs|, i requires 0 <= i < |cs| => Written(cs[i]))
  }

  lemma WrittenSnoc(cs: seq<Condition>, c: Condition)
    ensures AllWritten(cs + [c]) == AllWritten(cs) + [Written(c)]
  {
    hide Written;
  }

  lemma ConditionsNext(terms: seq<string>, i: nat)
    requires i < |terms|
    ensures Conditions(terms[..i + 1]) == Conditions(terms[..i])
                                          + (if ParseTerm(terms[i]).Some? then [ParseTerm(terms[i]).value] else [])
  {
    hide ParseTerm;
    assert terms[..i + 1][..i] == terms[..i];
  }

  lemma {:induction false} ConditionsArePlain(terms: seq<string>)
    ensures forall c | c in Conditions(terms) :: Plain(c)
  {
    if terms != [] {
      hide Plain, ParseTerm;
      ConditionsArePlain(terms[..|terms| - 1]);
      ParsedIsPlain(terms[|terms| - 1]);
    }
  }

  lemma {:induction false} JoinedIsMeant(cs: seq<Condition>)
    requires forall c | c in cs :: Plain(c)
    ensures Rendered(JoinedPieces(cs)) == Joined(AllWritten(cs))
  {
    if cs != [] {
      WrittenIsMeant(cs[0]);
      if |cs| > 1 {
        assert AllWritten(cs)[1..] == AllWritten(cs[1..]);
        assert forall c | c in cs[1..] :: c in cs;
        JoinedIsMeant(cs[1..]);
        hide Written, Meant, Plain;
        RenderedAppend(Meant(cs[0]), [Sql(" AND ")] + JoinedPieces(cs[1..]));
        RenderedAppend([Sql(" AND ")], JoinedPieces(cs[1..]));
        RenderedCode(" AND ");
      }
    }
  }

  lemma SeparatedJoin(a: seq<Piece>, b: seq<Piece>)
    requires Separated(a) && Separated(b) && (b != [] ==> b[0].Sql?)
    ensures Separated(a + b)
  {
  }

  lemma PairIsSeparated(code: string, value: string)
    requires code != [] && '\'' !in code
    ensures Separated([Sql(code), Value(value)])
  {
  }

  lemma FiveAreSeparated(a: seq<Piece>, b: seq<Piece>, c: seq<Piece>, d: seq<Piece>, e: seq<Piece>)
    requires Separated(a) && Separated(b) && Separated(c) && Separated(d) && Separated(e)
    requires b != [] && b[0].Sql? && c != [] && c[0].Sql? && d != [] && d[0].Sql? && e != [] && e[0].Sql?
    ensures Separated(a + (b + (c + (d + e))))
  {
    hide Separated;
    SeparatedJoin(d, e);
    SeparatedJoin(c, d + e);
    SeparatedJoin(b, c + (d + e));
    SeparatedJoin(a, b + (c + (d + e)));
  }

  lemma FreeTextIsSeparated(text: string)
    ensures Separated(Meant(FreeText(text)))
  {
    var v := "%" + text + "%";
    SplitFreeText(text);
    hide *;
    FirstTwoAreSeparated(v);
    LastTwoAreSeparated(v, ToLower(text));
    CloseIsSeparated();
    FiveAreSeparated([Sql("(message ILIKE "), Value(v)], [Sql(" OR service ILIKE "), Value(v)],
                     [Sql(" OR raw_body ILIKE "), Value(v)], [Sql(" OR LOWER(level) = "), Value(ToLower(text))],
                         [Sql(")")]);
  }

  lemma FirstTwoAreSeparated(v: string)
    ensures Separated([Sql("(message ILIKE "), Value(v)]) && Separated([Sql(" OR service ILIKE "), Value(v)])
  {
    hide Separated;
    PairIsSeparated("(message ILIKE ", v);
    PairIsSeparated(" OR service ILIKE ", v);
  }

  lemma LastTwoAreSeparated(v: string, l: string)
    ensures Separated([Sql(" OR raw_body ILIKE "), Value(v)]) && Separated([Sql(" OR LOWER(level) = "), Value(l)])
  {
    hide Separated;
    PairIsSeparated(" OR raw_body ILIKE ", v);
    PairIsSeparated(" OR LOWER(level) = ", l);
  }

  lemma CloseIsSeparated()
    ensures Separated([Sql(")")])
  {
  }

  lemma MeantIsSeparated(c: Condition)
    requires Plain(c)
    ensures Separated(Meant(c)) && Meant(c)[0].Sql?
  {
    hide Separated;
    match c
    case Since(moment) => PairIsSeparated("timestamp_us >= TIMESTAMP ", moment);
    case Contains(field, value) => PairIsSeparated(field + " ILIKE ", "%" + value + "%");
    case LevelIs(level) => PairIsSeparated("level = ", level);
    case ServiceIs(service) => PairIsSeparated("service = ", service);
    case FreeText(text) => FreeTextIsSeparated(text);
  }

  lemma {:induction false} JoinedIsSeparated(cs: seq<Condition>)
    requires forall c | c in cs :: Plain(c)
    ensures Separated(JoinedPieces(cs)) && (cs != [] ==> JoinedPieces(cs) != [] && JoinedPieces(cs)[0].Sql?)
  {
    if cs != [] {
      MeantIsSeparated(cs[0]);
      if |cs| > 1 {
        assert forall c | c in cs[1..] :: c in cs;
        JoinedIsSeparated(cs[1..]);
        hide Meant, Plain;
        AndIsSeparated();
        SeparatedJoin([Sql(" AND ")], JoinedPieces(cs[1..]));
        SeparatedJoin(Meant(cs[0]), [Sql(" AND ")] + JoinedPieces(cs[1..]));
      }
    }
  }

  lemma AndIsSeparated()
    ensures Separated([Sql(" AND ")])
  {
  }

  lemma SearchIsPlain(moment: string, level: Option<string>, service: Option<string>, search: Option<string>)
    requires '\'' !in moment
    ensures forall c | c in SearchConditions(moment, level, service, search) :: Plain(c)
  {
    if search.Some? {
      ConditionsArePlain(Terms(search.value));
    }
    hide Terms, NormalizeLevel;
  }

  /** Whatever a user types, the predicate lexes to the meant code with each of the
      user's values in one literal of its own, unchanged. */
  lemma WhereClauseLexes(moment: string, level: Option<string>, service: Option<string>, search: Option<string>)
    requires '\'' !in moment
    ensures var cs := SearchConditions(moment, level, service, search);
            Lex(Joined(AllWritten(cs))) == Some(Tokens(JoinedPieces(cs)))
  {
    var cs := SearchConditions(moment, level, service, search);
    SearchIsPlain(moment, level, service, search);
    JoinedIsMeant(cs);
    JoinedIsSeparated(cs);
    RenderedLexes(JoinedPieces(cs));
  }

  // ---------------------------------------------------- what the clause says

  /** What a term adds: AND and its condition, or nothing. */
  function TokensOf(c: Option<Condition>): seq<Token> {
    if c.Some? then Codes(" AND ") + Tokens(Meant(c.value)) else []
  }

  function TermTokens(terms: seq<string>): seq<Token> {
    if terms == [] then []
    else TermTokens(terms[..|terms| - 1]) + TokensOf(ParseTerm(terms[|terms| - 1]))
  }

  function AndTokens(cs: seq<Condition>): seq<Token> {
    if cs == [] then [] else TokensOf(Some(cs[0])) + AndTokens(cs[1..])
  }

  lemma {:induction false} TokensAppend(a: seq<Piece>, b: seq<Piece>)
    ensures Tokens(a + b) == Tokens(a) + Tokens(b)
  {
    if a == [] {
      assert a + b == b;
    } else {
      hide Codes;
      assert (a + b)[0] == a[0] && (a + b)[1..] == a[1..] + b;
      TokensAppend(a[1..], b);
    }
  }

  lemma TokensOfCode(code: string)
    ensures Tokens([Sql(code)]) == Codes(code)
  {
    assert [Sql(code)][1..] == [];
  }

  lemma {:induction false} AndTokensAppend(a: seq<Condition>, b: seq<Condition>)
    ensures AndTokens(a + b) == AndTokens(a) + AndTokens(b)
  {
    if a == [] {
      assert a + b == b;
    } else {
      hide TokensOf;
      assert (a + b)[0] == a[0] && (a + b)[1..] == a[1..] + b;
      AndTokensAppend(a[1..], b);
      Assoc(TokensOf(Some(a[0])), AndTokens(a[1..]), AndTokens(b));
    }
  }

  lemma AndTokensOne(c: Condition)
    ensures AndTokens([c]) == TokensOf(Some(c))
  {
    hide TokensOf;
    assert [c][1..] == [];
  }

  lemma {:induction false} JoinedTokens(c: Condition, rest: seq<Condition>)
    ensures Tokens(JoinedPieces([c] + rest)) == Tokens(Meant(c)) + AndTokens(rest)
    decreases |rest|
  {
    var cs := [c] + rest;
    hide Meant, Tokens, Codes;
    if rest == [] {
      assert Tokens(Meant(c)) + [] == Tokens(Meant(c));
    } else {
      assert cs[1..] == rest && rest == [rest[0]] + rest[1..];
      JoinedTokens(rest[0], rest[1..]);
      TokensAppend(Meant(c), [Sql(" AND ")] + JoinedPieces(rest));
      TokensAppend([Sql(" AND ")], JoinedPieces(rest));
      TokensOfCode(" AND ");
    }
  }

  lemma {:induction false} TermsAdd(terms: seq<string>)
    ensures AndTokens(Conditions(terms)) == TermTokens(terms)
  {
    if terms != [] {
      hide ParseTerm, TokensOf;
      var n := |terms| - 1;
      TermsAdd(terms[..n]);
      match ParseTerm(terms[n])
      case None => NothingAdded();
      case Some(c) =>
        AndTokensAppend(Conditions(terms[..n]), [c]);
        AndTokensOne(c);
    }
  }

  lemma NothingAdded()
    ensures TokensOf(None) == []
  {
  }

  lemma TwoTokens(code: string, value: string)
    ensures Tokens([Sql(code), Value(value)]) == Codes(code) + [Literal(value)]
  {
    assert [Sql(code), Value(value)] == [Sql(code)] + [Value(value)];
    TokensAppend([Sql(code)], [Value(value)]);
    TokensOfCode(code);
    assert [Value(value)][1..] == [];
    hide Codes;
  }

  lemma AfterAnd(c: Condition, code: string, value: string)
    requires Meant(c) == [Sql(code), Value(value)]
    ensures TokensOf(Some(c)) == Codes(" AND " + code) + [Literal(value)]
  {
    TwoTokens(code, value);
    assert Codes(" AND ") + Codes(code) == Codes(" AND " + code);
    hide Meant, Tokens, Codes;
    Assoc(Codes(" AND "), Codes(code), [Literal(value)]);
  }

  /** What the facets add. */
  lemma FacetTokens(level: string, service: string)
    ensures AndTokens([LevelIs(level)]) == Codes(" AND level = ") + [Literal(level)]
    ensures AndTokens([ServiceIs(service)]) == Codes(" AND service = ") + [Literal(service)]
    ensures AndTokens([]) == []
  {
    assert " AND " + "level = " == " AND level = " && " AND " + "service = " == " AND service = ";
    AfterAnd(LevelIs(level), "level = ", level);
    AfterAnd(ServiceIs(service), "service = ", service);
    AndTokensOne(LevelIs(level));
    AndTokensOne(ServiceIs(service));
    hide TokensOf, Codes;
  }

  lemma ThreeParts(c: Condition, l: seq<Condition>, v: seq<Condition>, t: seq<Condition>)
    ensures Tokens(JoinedPieces([c] + (l + v + t))) == Tokens(Meant(c)) + AndTokens(l) + AndTokens(v) + AndTokens(t)
  {
    JoinedTokens(c, l + v + t);
    AndTokensAppend(l + v, t);
    AndTokensAppend(l, v);
    hide *;
    Assoc(Tokens(Meant(c)), AndTokens(l) + AndTokens(v), AndTokens(t));
    Assoc(Tokens(Meant(c)), AndTokens(l), AndTokens(v));
  }

  lemma PartsOfSearch(moment: string, level: Option<string>, service: Option<string>, search: Option<string>)
    ensures SearchConditions(moment, level, service, search)
            == [Since(moment)] + ((if level.Some? then [LevelIs(NormalizeLevel(level.value))] else [])
                                  + (if service.Some? then [ServiceIs(service.value)] else [])
                                  + (if search.Some? then Conditions(Terms(search.value)) else []))
  {
    hide Conditions, NormalizeLevel, Terms;
  }

  /** The clause is, in order, the window, the level if that facet is given, the service
      if that facet is given, and what each term adds. */
  lemma ClauseSays(moment: string, level: Option<string>, service: Option<string>, search: Option<string>)
    requires '\'' !in moment
    ensures Lex(Joined(AllWritten(SearchConditions(moment, level, service, search))))
            == Some(Codes("timestamp_us >= TIMESTAMP ") + [Literal(moment)]
                + (if level.Some? then Codes(" AND level = ") + [Literal(NormalizeLevel(level.value))] else [])
                + (if service.Some? then Codes(" AND service = ") + [Literal(service.value)] else [])
                + (if search.Some? then TermTokens(Terms(search.value)) else []))
  {
    assert Meant(Since(moment)) == [Sql("timestamp_us >= TIMESTAMP "), Value(moment)];
    hide *;
    var l := if level.Some? then [LevelIs(NormalizeLevel(level.value))] else [];
    var v := if service.Some? then [ServiceIs(service.value)] else [];
    var t := if search.Some? then Conditions(Terms(search.value)) else [];
    WhereClauseLexes(moment, level, service, search);
    PartsOfSearch(moment, level, service, search);
    ThreeParts(Since(moment), l, v, t);
    TwoTokens("timestamp_us >= TIMESTAMP ", moment);
    FacetTokens(if level.Some? then NormalizeLevel(level.value) else [], if service.Some? then service.value else []);
    if search.Some? {
      TermsAdd(Terms(search.value));
    }
  }

  /** `where_clause`, given the cutoff as it is formatted. */
  method WhereClause(moment: string, level: Option<string>, service: Option<string>, search: Option<string>)
    returns (clause: string)
    ensures clause == Joined(AllWritten(SearchConditions(moment, level, service, search)))
    ensures '\'' !in moment ==>
              Lex(clause) == Some(Codes("timestamp_us >= TIMESTAMP ") + [Literal(moment)]
                + (if level.Some? then Codes(" AND level = ") + [Literal(NormalizeLevel(level.value))] else [])
                + (if service.Some? then Codes(" AND service = ") + [Literal(service.value)] else [])
                + (if search.Some? then TermTokens(Terms(search.value)) else []))
  {
    ghost var cs := [Since(moment)];
    var parts := [Written(Since(moment))];
    hide Written, ParseTerm, NormalizeLevel, Terms, Joined, Conditions;
    assert parts == AllWritten(cs);
    if level.Some? {
      WrittenSnoc(cs, LevelIs(NormalizeLevel(level.value)));
      parts, cs := parts + [Written(LevelIs(NormalizeLevel(level.value)))], cs + [LevelIs(NormalizeLevel(level.value))];
    }
    if service.Some? {
      WrittenSnoc(cs, ServiceIs(service.value));
      parts, cs := parts + [Written(ServiceIs(service.value))], cs + [ServiceIs(service.value)];
    }
    if search.Some? {
      var terms := SplitTerms(search.value);
      ghost var before := cs;
      NoTerms(terms);
      assert before + [] == before;
      var i := 0;
      while i < |terms|
        invariant i <= |terms| && cs == before + Conditions(terms[..i]) && parts == AllWritten(cs)
      {
        ConditionsNext(terms, i);
        var condition := ParseTerm(terms[i]);
        if condition.Some? {
          WrittenSnoc(cs, condition.value);
          parts, cs := parts + [Written(condition.value)], cs + [condition.value];
        }
        i := i + 1;
      }
      assert terms[..|terms|] == terms;
    }
    assert cs == SearchConditions(moment, level, service, search);
    clause := Joined(parts);
    if '\'' !in moment {
      ClauseSays(moment, level, service, search);
    }
  }

  lemma NoTerms(terms: seq<string>)
    ensures Conditions(terms[..0]) == []
  {
  }

  // -------------------------------------------------------- reading of terms

  lemma TrimKeeps(s: string)
    requires s != [] && !IsWhitespace(s[0]) && !IsWhitespace(s[|s| - 1])
    ensures Trim(s) == s
  {
  }

  lemma EnclosedIsTrim(v: string)
    ensures var q := "'" + v + "'"; Trim(q) == q && StripQuotes(q) == v
  {
    var q := "'" + v + "'";
    TrimKeeps(q);
    assert q[1..|q| - 1] == v;
  }

  lemma FieldTermIsRead(term: string, field: string, rest: string, v: string)
    requires term != [] && Trim(term) == term && FindSeparator(term) == Some(|field|)
    requires |field| < |term| && term[..|field|] == field && term[|field| + 1..] == rest
    requires Trim(field) == field && IsFieldName(field) && StripQuotes(Trim(rest)) == v && v != []
    ensures ParseTerm(term) == ParseField(field, v)
  {
    hide Trim, StripQuotes, FindSeparator, IsFieldName, ParseField;
  }

  lemma FieldIsRead(field: string, v: string)
    ensures ParseField(field, v)
            == var name := ToLower(field);
               if name == "message" || name == "raw_body" then Some(Contains(field, v))
               else if name == "level" then Some(LevelIs(NormalizeLevel(v)))
               else if name == "service" then Some(ServiceIs(v))
               else None
  {
    hide ToLower, NormalizeLevel;
  }

  /** A field with a quoted value is read whatever the value holds; a field of another
      name makes no condition. */
  lemma QuotedFieldIsRead(field: string, separator: char, v: string)
    requires IsFieldName(field) && separator in ":=" && v != []
    ensures ParseTerm(field + [separator] + ("'" + v + "'"))
            == var name := ToLower(field);
               if name == "message" || name == "raw_body" then Some(Contains(field, v))
               else if name == "level" then Some(LevelIs(NormalizeLevel(v)))
               else if name == "service" then Some(ServiceIs(v))
               else None
  {
    var q := "'" + v + "'";
    var term := field + [separator] + q;
    NameIsPlain(field);
    assert term[0] == field[0] && term[|term| - 1] == '\'';
    TrimKeeps(term);
    TrimKeeps(field);
    EnclosedIsTrim(v);
    SeparatorAt(field, separator, q);
    assert term[..|field|] == field && term[|field| + 1..] == q;
    hide *;
    FieldTermIsRead(term, field, q, v);
    FieldIsRead(field, v);
  }

  lemma NameIsPlain(field: string)
    requires IsFieldName(field)
    ensures !IsWhitespace(field[0]) && !IsWhitespace(field[|field| - 1])
    ensures forall i | 0 <= i < |field| :: field[i] !in ":="
  {
  }

  lemma SeparatorAt(field: string, separator: char, rest: string)
    requires separator in ":=" && forall i | 0 <= i < |field| :: field[i] !in ":="
    ensures FindSeparator(field + [separator] + rest) == Some(|field|)
  {
    var term := field + [separator] + rest;
    assert forall i | 0 <= i < |field| :: term[i] == field[i];
    assert term[|field|] == separator;
    hide FindSeparator;
  }
}
