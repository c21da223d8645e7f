/** The text of a search: quoted terms, conditions, and the SQL predicate built from them. */
module SearchText {
  import opened Seqs

  /** `char::is_whitespace`: Unicode's White_Space. */
  predicate IsWhitespace(c: char) {
    var n := c as int;
    9 <= n <= 13 || n == 0x20 || n == 0x85 || n == 0xA0 || n == 0x1680 || 0x2000 <= n <= 0x200A
    || n == 0x2028 || n == 0x2029 || n == 0x202F || n == 0x205F || n == 0x3000
  }

  // ------------------------------------------------------------- split_terms

  datatype Splitting = Splitting(terms: seq<string>, current: string, inQuotes: bool)

  function Flushed(s: Splitting): Splitting {
    if s.current == [] then s else s.(terms := s.terms + [s.current], current := [])
  }

  function Read(s: Splitting, c: char): Splitting {
    if c == '"' then s.(inQuotes := !s.inQuotes)
    else if IsWhitespace(c) && !s.inQuotes then Flushed(s)
    else s.(current := s.current + [c])
  }

  function ReadAll(s: Splitting, text: string): Splitting
    decreases |text|
  {
    if text == [] then s else ReadAll(Read(s, text[0]), text[1..])
  }

  function Terms(query: string): seq<string> {
    Flushed(ReadAll(Splitting([], [], false), query)).terms
  }

  method SplitTerms(query: string) returns (terms: seq<string>)
    ensures terms == Terms(query)
  {
    terms := [];
    var current: string, inQuotes := [], false;
    var i := 0;
    while i < |query|
      invariant i <= |query|
      invariant ReadAll(Splitting([], [], false), query) == ReadAll(Splitting(terms, current, inQuotes), query[i..])
    {
      var character := query[i];
      if character == '"' {
        inQuotes := !inQuotes;
      } else if IsWhitespace(character) && !inQuotes {
        if current != [] {
          terms, current := terms + [current], [];
        }
      } else {
        current := current + [character];
      }
      i := i + 1;
    }
    if current != [] {
      terms := terms + [current];
    }
  }

  /** The characters of a query that belong to some term: all but quotes and unquoted whitespace. */
  function Content(text: string, inQuotes: bool): string {
    if text == [] then []
    else if text[0] == '"' then Content(text[1..], !inQuotes)
    else if IsWhitespace(text[0]) && !inQuotes then Content(text[1..], inQuotes)
    else [text[0]] + Content(text[1..], inQuotes)
  }

  function Held(s: Splitting): string {
    Flat(s.terms) + s.current
  }

  lemma FlushKeeps(s: Splitting)
    ensures Held(Flushed(s)) == Held(s)
    ensures (forall t | t in s.terms :: t != []) ==> forall t | t in Flushed(s).terms :: t != []
  {
    FlatAppend(s.terms, [s.current]);
    FlatOne(s.current);
  }

  /** What one character adds. */
  function Kept(c: char, inQuotes: bool): string {
    if c == '"' || (IsWhitespace(c) && !inQuotes) then [] else [c]
  }

  lemma ReadKeepsOne(s: Splitting, c: char)
    ensures Held(Read(s, c)) == Held(s) + Kept(c, s.inQuotes)
    ensures (forall t | t in s.terms :: t != []) ==> forall t | t in Read(s, c).terms :: t != []
  {
    hide IsWhitespace;
    FlushKeeps(s);
    assert Held(s) + [] == Held(s);
    assert Flat(s.terms) + (s.current + [c]) == Held(s) + [c];
  }

  lemma ContentNext(text: string, inQuotes: bool)
    requires text != []
    ensures Content(text, inQuotes)
            == Kept(text[0], inQuotes) + Content(text[1..], if text[0] == '"' then !inQuotes else inQuotes)
  {
    hide IsWhitespace;
  }

  lemma {:induction false} ReadKeeps(s: Splitting, text: string)
    ensures Held(ReadAll(s, text)) == Held(s) + Content(text, s.inQuotes)
    ensures (forall t | t in s.terms :: t != []) ==> forall t | t in ReadAll(s, text).terms :: t != []
    decreases |text|
  {
    if text == [] {
      assert Held(s) + [] == Held(s);
    } else {
      ReadKeepsOne(s, text[0]);
      ContentNext(text, s.inQuotes);
      var next := Read(s, text[0]);
      assert next.inQuotes == if text[0] == '"' then !s.inQuotes else s.inQuotes;
      hide IsWhitespace, Read, Held, Content, Kept;
      ReadKeeps(next, text[1..]);
      Assoc(Held(s), Kept(text[0], s.inQuotes), Content(text[1..], next.inQuotes));
    }
  }

  /** Splitting loses nothing but quotes and unquoted whitespace, and yields no empty term. */
  lemma SplitKeepsContent(query: string)
    ensures Flat(Terms(query)) == Content(query, false)
    ensures forall t | t in Terms(query) :: t != []
  {
    var s := Splitting([], [], false);
    ReadKeeps(s, query);
    FlushKeeps(ReadAll(s, query));
    assert Flat(Terms(query)) + [] == Flat(Terms(query));
  }

  /** Terms in double quotes, separated by single spaces. */
  function Quoted(terms: seq<string>): string {
    if terms == [] then []
    else if |terms| == 1 then "\"" + terms[0] + "\""
    else "\"" + terms[0] + "\"" + (" " + Quoted(terms[1..]))
  }

  lemma {:induction false} ReadAllAppend(s: Splitting, a: string, b: string)
    ensures ReadAll(s, a + b) == ReadAll(ReadAll(s, a), b)
    decreases |a|
  {
    if a == [] {
      assert a + b == b;
    } else {
      hide Read;
      assert (a + b)[0] == a[0] && (a + b)[1..] == a[1..] + b;
      ReadAllAppend(Read(s, a[0]), a[1..], b);
    }
  }

  lemma {:induction false} ReadInQuotes(s: Splitting, text: string)
    requires s.inQuotes && '"' !in text
    ensures ReadAll(s, text) == s.(current := s.current + text)
    decreases |text|
  {
    if text == [] {
      assert s.current + text == s.current;
    } else {
      hide IsWhitespace;
      var next := s.(current := s.current + [text[0]]);
      assert Read(s, text[0]) == next;
      ReadInQuotes(next, text[1..]);
      assert s.current + [text[0]] + text[1..] == s.current + text;
    }
  }

  lemma ReadQuoted(s: Splitting, term: string)
    requires !s.inQuotes && s.current == [] && '"' !in term
    ensures ReadAll(s, "\"" + term + "\"") == s.(current := term)
  {
    var text := "\"" + term + "\"";
    var open := s.(inQuotes := true);
    assert text[0] == '"' && text[1..] == term + "\"";
    ReadAllAppend(open, term, "\"");
    ReadInQuotes(open, term);
    assert [] + term == term;
    var read := open.(current := term);
    assert ReadAll(read, "\"") == read.(inQuotes := false) by { assert "\""[1..] == []; }
  }

  lemma ReadSpace(done: seq<string>, term: string, rest: string)
    requires term != []
    ensures ReadAll(Splitting(done, term, false), " " + rest) == ReadAll(Splitting(done + [term], [], false), rest)
  {
    assert (" " + rest)[0] == ' ' && (" " + rest)[1..] == rest;
  }

  lemma QuotedIs(terms: seq<string>)
    ensures terms == [] ==> Quoted(terms) == []
    ensures |terms| == 1 ==> Quoted(terms) == "\"" + terms[0] + "\""
    ensures |terms| > 1 ==> Quoted(terms) == "\"" + terms[0] + "\"" + (" " + Quoted(terms[1..]))
  {
  }

  lemma NothingRead(s: Splitting)
    ensures ReadAll(s, []) == s
  {
  }

  lemma FlushedTerm(done: seq<string>, term: string)
    ensures term != [] ==> Flushed(Splitting(done, term, false)) == Splitting(done + [term], [], false)
    ensures Flushed(Splitting(done, [], false)) == Splitting(done, [], false)
  {
  }

  lemma {:induction false} ReadAllQuoted(done: seq<string>, terms: seq<string>)
    requires forall t | t in terms :: t != [] && '"' !in t
    ensures Flushed(ReadAll(Splitting(done, [], false), Quoted(terms))) == Splitting(done + terms, [], false)
    decreases |terms|
  {
    hide *;
    var s := Splitting(done, [], false);
    QuotedIs(terms);
    if terms == [] {
      NothingRead(s);
      FlushedTerm(done, []);
      assert done + terms == done;
    } else if |terms| == 1 {
      ReadQuoted(s, terms[0]);
      FlushedTerm(done, terms[0]);
      assert terms == [terms[0]];
    } else {
      var quoted, rest := "\"" + terms[0] + "\"", Quoted(terms[1..]);
      ReadQuoted(s, terms[0]);
      ReadAllAppend(s, quoted, " " + rest);
      ReadSpace(done, terms[0], rest);
      assert forall t | t in terms[1..] :: t in terms;
      ReadAllQuoted(done + [terms[0]], terms[1..]);
      assert done + [terms[0]] + terms[1..] == done + terms;
    }
  }

  /** Splitting undoes quoting and joining. */
  lemma SplitUndoesQuoting(terms: seq<string>)
    requires forall t | t in terms :: t != [] && '"' !in t
    ensures Terms(Quoted(terms)) == terms
  {
    ReadAllQuoted([], terms);
    assert [] + terms == terms;
  }

  /** A word has no quote and no whitespace. */
  predicate IsWord(w: string) {
    w != [] && forall i | 0 <= i < |w| :: w[i] != '"' && !IsWhitespace(w[i])
  }

  function SpacedWords(words: seq<string>): string {
    if words == [] then []
    else if |words| == 1 then words[0]
    else words[0] + (" " + SpacedWords(words[1..]))
  }

  lemma {:induction false} ReadWord(s: Splitting, w: string)
    requires !s.inQuotes && forall i | 0 <= i < |w| :: w[i] != '"' && !IsWhitespace(w[i])
    ensures ReadAll(s, w) == s.(current := s.current + w)
    decreases |w|
  {
    if w == [] {
      assert s.current + w == s.current;
    } else {
      hide IsWhitespace;
      var next := s.(current := s.current + [w[0]]);
      assert Read(s, w[0]) == next;
      assert forall i | 0 <= i < |w[1..]| :: w[1..][i] == w[i + 1];
      ReadWord(next, w[1..]);
      assert s.current + [w[0]] + w[1..] == s.current + w;
    }
  }

  lemma SpacedWordsIs(words: seq<string>)
    ensures words == [] ==> SpacedWords(words) == []
    ensures |words| == 1 ==> SpacedWords(words) == words[0]
    ensures |words| > 1 ==> SpacedWords(words) == words[0] + (" " + SpacedWords(words[1..]))
  {
  }

  lemma ReadFirstWord(done: seq<string>, w: string)
    requires IsWord(w)
    ensures ReadAll(Splitting(done, [], false), w) == Splitting(done, w, false) && w != []
  {
    hide IsWhitespace, ReadAll;
    ReadWord(Splitting(done, [], false), w);
    assert [] + w == w;
  }

  lemma {:induction false} ReadAllWords(done: seq<string>, words: seq<string>)
    requires forall w | w in words :: IsWord(w)
    ensures Flushed(ReadAll(Splitting(done, [], false), SpacedWords(words))) == Splitting(done + words, [], false)
    decreases |words|
  {
    hide *;
    var s := Splitting(done, [], false);
    SpacedWordsIs(words);
    if words == [] {
      NothingRead(s);
      FlushedTerm(done, []);
      assert done + words == done;
    } else {
      assert words[0] in words;
      ReadFirstWord(done, words[0]);
      if |words| == 1 {
        FlushedTerm(done, words[0]);
        assert words == [words[0]];
      } else {
        ReadAllAppend(s, words[0], " " + SpacedWords(words[1..]));
        ReadSpace(done, words[0], SpacedWords(words[1..]));
        assert forall w | w in words[1..] :: w in words;
        ReadAllWords(done + [words[0]], words[1..]);
        assert done + [words[0]] + words[1..] == done + words;
      }
    }
  }

  /** Words with spaces between them are the terms. */
  lemma WordsAreTerms(words: seq<string>)
    requires forall w | w in words :: IsWord(w)
    ensures Terms(SpacedWords(words)) == words
  {
    ReadAllWords([], words);
    assert [] + words == words;
  }

  /** Unicode's White_Space, character by character. */
  lemma WhitespaceIs(c: char)
    ensures IsWhitespace(c)
            <==> c as int in {0x09, 0x0A, 0x0B, 0x0C, 0x0D, 0x20, 0x85, 0xA0, 0x1680, 0x2000, 0x2001, 0x2002, 0x2003,
                              0x2004, 0x2005, 0x2006, 0x2007, 0x2008, 0x2009, 0x200A, 0x2028, 0x2029, 0x202F, 0x205F,
                              0x3000}
  {
  }
}
