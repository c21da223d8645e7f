/** How the terms of a search are read, and what each adds to the predicate. */
module SearchReading {
  import opened Seqs
  import opened SearchText
  import opened SearchSql
  import opened SearchConditions

  // ------------------------------------------------------------------- letters

  const CAPITALS := "ABCDEFGHIJKLMNOPQRSTUVWXYZ"
  const SMALL_LETTERS := "abcdefghijklmnopqrstuvwxyz"

  /** Letter case is that of ASCII. */
  lemma LettersPair(i: nat, c: char)
    requires i < 26
    ensures Lower("ABCDEFGHIJKLMNOPQRSTUVWXYZ"[i]) == "abcdefghijklmnopqrstuvwxyz"[i]
    ensures Upper("abcdefghijklmnopqrstuvwxyz"[i]) == "ABCDEFGHIJKLMNOPQRSTUVWXYZ"[i]
    ensures c !in "ABCDEFGHIJKLMNOPQRSTUVWXYZ" ==> Lower(c) == c
    ensures c !in "abcdefghijklmnopqrstuvwxyz" ==> Upper(c) == c
  {
    Alphabet(CAPITALS, 'A', c);
    Alphabet(SMALL_LETTERS, 'a', c);
    assert CAPITALS[i] == 'A' + i as char && SMALL_LETTERS[i] == 'a' + i as char;
  }

  lemma Alphabet(letters: string, first: char, c: char)
    requires first in "Aa" && |letters| == 26 && forall i | 0 <= i < 26 :: letters[i] as int == first as int + i
    ensures c in letters <==> 0 <= c as int - first as int < 26
  {
    var i := c as int - first as int;
    if 0 <= i < 26 {
      assert letters[i] == c;
    }
  }

  lemma DigitsAre(c: char)
    ensures c in "0123456789" <==> '0' <= c <= '9'
  {
    var digits := "0123456789";
    assert forall i | 0 <= i < 10 :: digits[i] as int == '0' as int + i;
    if '0' <= c <= '9' {
      assert digits[c as int - '0' as int] == c;
    }
  }

  /** A field name is made of ASCII letters, digits and underscores. */
  lemma FieldNamesAre(s: string)
    ensures IsFieldName(s)
            <==> s != [] && forall i | 0 <= i < |s| ::
                   s[i] in "ABCDEFGHIJKLMNOPQRSTUVWXYZ" || s[i] in "abcdefghijklmnopqrstuvwxyz"
                   || s[i] in "0123456789" || s[i] == '_'
  {
    forall i | 0 <= i < |s|
      ensures s[i] in CAPITALS <==> 'A' <= s[i] <= 'Z'
      ensures s[i] in SMALL_LETTERS <==> 'a' <= s[i] <= 'z'
      ensures s[i] in "0123456789" <==> '0' <= s[i] <= '9'
    {
      Alphabet(CAPITALS, 'A', s[i]);
      Alphabet(SMALL_LETTERS, 'a', s[i]);
      DigitsAre(s[i]);
    }
    hide *;
    NamesByCharacter(s);
  }

  lemma NamesByCharacter(s: string)
    ensures IsFieldName(s)
            <==> s != [] && forall i | 0 <= i < |s| ::
                   'a' <= s[i] <= 'z' || 'A' <= s[i] <= 'Z' || '0' <= s[i] <= '9' || s[i] == '_'
  {
  }

  // ---------------------------------------------------------------- trimming

  predicate Blank(s: string) {
    forall i | 0 <= i < |s| :: IsWhitespace(s[i])
  }

  /** Neither begins nor ends with whitespace, and is not empty. */
  predicate Trimmed(s: string) {
    s != [] && !IsWhitespace(s[0]) && !IsWhitespace(s[|s| - 1])
  }

  lemma {:induction false} TrimStartPads(a: string, s: string)
    requires Blank(a) && s != [] && !IsWhitespace(s[0])
    ensures TrimStart(a + s) == s
  {
    hide IsWhitespace;
    if a == [] {
      assert a + s == s;
    } else {
      assert (a + s)[0] == a[0] && (a + s)[1..] == a[1..] + s;
      TrimStartPads(a[1..], s);
    }
  }

  lemma {:induction false} TrimEndPads(s: string, b: string)
    requires Blank(b) && s != [] && !IsWhitespace(s[|s| - 1])
    ensures TrimEnd(s + b) == s
  {
    hide IsWhitespace;
    if b == [] {
      assert s + b == s;
    } else {
      var n := |b| - 1;
      assert (s + b)[|s + b| - 1] == b[n] && (s + b)[..|s + b| - 1] == s + b[..n];
      TrimEndPads(s, b[..n]);
    }
  }

  /** Trimming takes the whitespace off both ends, and nothing else. */
  lemma TrimPads(a: string, s: string, b: string)
    requires Blank(a) && Blank(b) && Trimmed(s)
    ensures Trim(a + s + b) == s
  {
    hide IsWhitespace;
    assert a + s + b == a + (s + b) && (s + b)[0] == s[0];
    TrimStartPads(a, s + b);
    TrimEndPads(s, b);
  }

  // ------------------------------------------------------------------ levels

  /** A known level is found in any letter case and with whitespace around it; every
      other text is the level UNKNOWN. */
  lemma LevelsAreKnown(a: string, w: string, b: string)
    requires Blank(a) && Blank(b) && Trimmed(w)
    ensures NormalizeLevel(a + w + b)
            == if ToUpper(w) in {"TRACE", "DEBUG", "INFO", "WARN", "ERROR", "FATAL", "CRITICAL"} then ToUpper(w)
               else "UNKNOWN"
  {
    TrimPads(a, w, b);
    hide Trim, ToUpper;
  }

  // -------------------------------------------------------------- field terms

  /** `v` as it may be typed: bare, or in single or double quotes. */
  predicate Typed(value: string, v: string) {
    && v != []
    && (|| value == "'" + v + "'" || value == "\"" + v + "\""
        || (value == v && Trimmed(v) && !(v[0] == v[|v| - 1] && v[0] in "'\"" && |v| >= 2)))
  }

  lemma TypedIsRead(value: string, v: string)
    requires Typed(value, v)
    ensures Trimmed(value) && StripQuotes(value) == v
  {
    if value == "'" + v + "'" {
      assert value[1..|value| - 1] == v && !IsWhitespace('\'');
    } else if value == "\"" + v + "\"" {
      assert value[1..|value| - 1] == v && !IsWhitespace('"');
    }
  }

  /** The parts of a field term with whitespace anywhere around them. */
  lemma PaddedTerm(a: string, field: string, b: string, separator: char, c: string, value: string, d: string)
    requires Blank(a) && Blank(d) && Trimmed(field) && Trimmed(value)
    ensures var s := field + b + [separator] + (c + value);
            Trim(a + s + d) == s && s != []
  {
    var s := field + b + [separator] + (c + value);
    assert s[0] == field[0] && s[|s| - 1] == value[|value| - 1];
    hide Trim, IsWhitespace;
    TrimPads(a, s, d);
  }

  lemma BlankHasNoSeparator(b: string)
    requires Blank(b)
    ensures forall i | 0 <= i < |b| :: b[i] !in ":="
  {
    assert !IsWhitespace(':') && !IsWhitespace('=');
    hide IsWhitespace;
  }

  /** A field and a value, with whitespace anywhere around them and the value in quotes or
      not: the fields are message and raw_body, level, and service, in any letter case; a
      field of another name makes no condition. */
  lemma FieldTermIs(a: string, field: string, b: string, separator: char, c: string, value: string, d: string,
                    v: string)
    requires Blank(a) && Blank(b) && Blank(c) && Blank(d) && IsFieldName(field) && separator in ":=" && Typed(value, v)
    ensures ParseTerm(a + (field + b + [separator] + (c + value)) + d)
            == var name := ToLower(field);
               if name == "message" || name == "raw_body" then Some(Contains(field, v))
               else if name == "level" then Some(LevelIs(NormalizeLevel(v)))
               else if name == "service" then Some(ServiceIs(v))
               else None
  {
    var s := field + b + [separator] + (c + value);
    NameIsPlain(field);
    TypedIsRead(value, v);
    BlankHasNoSeparator(b);
    PaddedTerm(a, field, b, separator, c, value, d);
    assert Trim(field + b) == field by {
      assert field + b == [] + field + b;
      TrimPads([], field, b);
    }
    assert Trim(c + value) == value by {
      assert c + value == c + value + [];
      TrimPads(c, value, []);
    }
    SeparatorAt(field + b, separator, c + value);
    assert s[..|field + b|] == field + b && s[|field + b| + 1..] == c + value;
    hide *;
    ParseFieldTerm(a + s + d, s, field + b, c + value, field, value, v);
    FieldIsRead(field, v);
  }

  lemma ParseFieldTerm(term: string, s: string, left: string, right: string, field: string, value: string, v: string)
    requires Trim(term) == s && s != [] && FindSeparator(s) == Some(|left|) && |left| < |s|
    requires s[..|left|] == left && s[|left| + 1..] == right && Trim(left) == field && Trim(right) == value
    requires IsFieldName(field) && StripQuotes(value) == v && v != []
    ensures ParseTerm(term) == ParseField(field, v)
  {
    hide Trim, StripQuotes, FindSeparator, IsFieldName, ParseField;
  }

  /** Any other term is searched as text, without enclosing quotes: one without a
      separator, one whose left side is no name, and one without a value. */
  lemma OtherTermIsText(a: string, s: string, b: string)
    requires Blank(a) && Blank(b) && Trimmed(s)
    requires forall i | 0 <= i < |s| && s[i] in ":=" && (forall j | 0 <= j < i :: s[j] !in ":=") ::
               !IsFieldName(Trim(s[..i])) || StripQuotes(Trim(s[i + 1..])) == []
    ensures ParseTerm(a + s + b) == if StripQuotes(s) == [] then None else Some(FreeText(StripQuotes(s)))
  {
    TrimPads(a, s, b);
    hide Trim, StripQuotes, FindSeparator, IsFieldName, IsWhitespace;
  }

  // -------------------------------------------------------- what a term adds

  /** The tokens each kind of condition adds to the predicate. */
  lemma ConditionTokens(field: string, v: string, level: string, service: string)
    ensures TokensOf(Some(Contains(field, v))) == Codes(" AND " + (field + " ILIKE ")) + [Literal("%" + v + "%")]
    ensures TokensOf(Some(LevelIs(level))) == Codes(" AND level = ") + [Literal(level)]
    ensures TokensOf(Some(ServiceIs(service))) == Codes(" AND service = ") + [Literal(service)]
  {
    AfterAnd(Contains(field, v), field + " ILIKE ", "%" + v + "%");
    FacetTokens(level, service);
    AndTokensOne(LevelIs(level));
    AndTokensOne(ServiceIs(service));
    hide TokensOf, Codes;
  }

  /** Text is looked for in message, service and raw body, or is the level, in lower case. */
  lemma TextTokens(text: string)
    ensures var v := [Literal("%" + text + "%")];
            TokensOf(Some(FreeText(text)))
            == Codes(" AND ") + (Codes("(message ILIKE ") + v + (Codes(" OR service ILIKE ") + v
               + (Codes(" OR raw_body ILIKE ") + v + (Codes(" OR LOWER(level) = ") + [Literal(ToLower(text))]
               + Codes(")")))))
  {
    var v, l := "%" + text + "%", ToLower(text);
    var a, b, c, d, e := [Sql("(message ILIKE "), Value(v)], [Sql(" OR service ILIKE "), Value(v)],
                         [Sql(" OR raw_body ILIKE "), Value(v)], [Sql(" OR LOWER(level) = "), Value(l)], [Sql(")")];
    SplitFreeText(text);
    TwoTokens("(message ILIKE ", v);
    TwoTokens(" OR service ILIKE ", v);
    TwoTokens(" OR raw_body ILIKE ", v);
    TwoTokens(" OR LOWER(level) = ", l);
    TokensOfCode(")");
    hide Meant, Tokens, Codes, ToLower;
    TokensAppend(a, b + (c + (d + e)));
    TokensAppend(b, c + (d + e));
    TokensAppend(c, d + e);
    TokensAppend(d, e);
  }

  /** A word of letters. */
  predicate Letters(w: string) {
    w != [] && forall i | 0 <= i < |w| :: 'a' <= w[i] <= 'z' || 'A' <= w[i] <= 'Z'
  }

  function KnownLevel(w: string): string {
    if ToUpper(w) in {"TRACE", "DEBUG", "INFO", "WARN", "ERROR", "FATAL", "CRITICAL"} then ToUpper(w) else "UNKNOWN"
  }

  lemma BareLevel(w: string)
    requires Letters(w)
    ensures NormalizeLevel(w) == KnownLevel(w)
  {
    LettersAreTyped(w);
    hide NormalizeLevel, ToUpper;
    LevelsAreKnown([], w, []);
    assert [] + w + [] == w;
  }

  lemma BareTermIs(field: string, separator: char, w: string)
    requires Letters(field) && ToLower(field) in {"level", "service"} && separator in ":=" && Letters(w)
    ensures ParseTerm(field + [separator] + w)
            == Some(if ToLower(field) == "service" then ServiceIs(w) else LevelIs(KnownLevel(w)))
  {
    LettersAreTyped(field);
    LettersAreTyped(w);
    hide *;
    BareLevel(w);
    PadNothing(field, separator, w);
    FieldTermIs([], field, [], separator, [], w, [], w);
  }

  /** The bare words `level:error` ask for the level ERROR; so does every known level in
      any letter case, and so does `service=api` for its service. */
  lemma BareFieldWord(field: string, separator: char, w: string)
    requires Letters(field) && ToLower(field) in {"level", "service"} && separator in ":=" && Letters(w)
    ensures TermTokens(Terms(field + [separator] + w))
            == if ToLower(field) == "service" then Codes(" AND service = ") + [Literal(w)]
               else Codes(" AND level = ") + [Literal(KnownLevel(w))]
  {
    LettersAreTyped(field);
    LettersAreTyped(w);
    hide *;
    WordIsTerm(field + [separator] + w, field, separator, w);
    BareTermIs(field, separator, w);
    OneTermTokens(field + [separator] + w);
    ConditionTokens(field, w, KnownLevel(w), w);
  }

  lemma LettersAreTyped(w: string)
    requires Letters(w)
    ensures Trimmed(w) && Typed(w, w) && IsFieldName(w) && Blank([])
    ensures forall i | 0 <= i < |w| :: w[i] != '"' && !IsWhitespace(w[i])
  {
  }

  lemma WordIsTerm(term: string, field: string, separator: char, w: string)
    requires term == field + [separator] + w && separator in ":="
    requires forall i | 0 <= i < |field| :: field[i] != '"' && !IsWhitespace(field[i])
    requires forall i | 0 <= i < |w| :: w[i] != '"' && !IsWhitespace(w[i])
    ensures Terms(term) == [term]
  {
    assert !IsWhitespace(':') && !IsWhitespace('=');
    hide Terms, IsWhitespace;
    assert IsWord(term);
    assert SpacedWords([term]) == term;
    WordsAreTerms([term]);
  }

  lemma PadNothing(field: string, separator: char, w: string)
    ensures [] + (field + [] + [separator] + ([] + w)) + [] == field + [separator] + w
  {
    assert field + [] == field && [] + w == w;
  }

  lemma OneTermTokens(term: string)
    ensures TermTokens([term]) == TokensOf(ParseTerm(term))
  {
    hide ParseTerm, TokensOf;
    assert [term][..0] == [];
    assert TermTokens([term]) == TermTokens([term][..0]) + TokensOf(ParseTerm(term));
  }
}
