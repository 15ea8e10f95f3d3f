/** The in-memory cache behind the rate cards: patterns turned into regular expressions,
    read-through with expiry, and invalidation on every write to the cards. */
module RateCache {
  import opened Wrappers

  // ---- Patterns ----

  /** Characters that the pattern translation escapes. */
  predicate Special(c: char) {
    c in "-/\\^$*+?.()|[]{}"
  }

  /** The text between the anchors: a star becomes `.*`, other special characters are escaped. */
  function RegexBody(pattern: string): string {
    if pattern == [] then []
    else (if pattern[0] == '*' then ".*" else if Special(pattern[0]) then ['\\', pattern[0]] else [pattern[0]])
         + RegexBody(pattern[1..])
  }

  function RegexText(pattern: string): string {
    "^" + RegexBody(pattern) + "$"
  }

  datatype Token = Literal(c: char) | AnyChars

  /** The meaning of a regular expression made of escaped and plain characters and `.*`;
      other expressions are not part of this model. */
  function Compile(body: string): Option<seq<Token>> {
    if body == [] then Some([])
    else if body[0] == '\\' then
      if |body| > 1 && Special(body[1]) then Then(Literal(body[1]), Compile(body[2..])) else None
    else if body[0] == '.' then
      if |body| > 1 && body[1] == '*' then Then(AnyChars, Compile(body[2..])) else None
    else if Special(body[0]) then None
    else Then(Literal(body[0]), Compile(body[1..]))
  }

  function Then(t: Token, rest: Option<seq<Token>>): Option<seq<Token>> {
    if rest.None? then None else Some([t] + rest.value)
  }

  function CompileAnchored(text: string): Option<seq<Token>> {
    if |text| >= 2 && text[0] == '^' && text[|text| - 1] == '$' then Compile(text[1..|text| - 1]) else None
  }

  function Tokens(pattern: string): seq<Token> {
    if pattern == [] then []
    else [if pattern[0] == '*' then AnyChars else Literal(pattern[0])] + Tokens(pattern[1..])
  }

  /** The dot does not match a line terminator. */
  predicate LineTerminator(c: char) {
    c == '\n' || c == '\r' || c == '\U{2028}' || c == '\U{2029}'
  }

  predicate Matches(ts: seq<Token>, s: string)
    decreases |ts| + |s|
  {
    if ts == [] then s == []
    else
      match ts[0]
      case Literal(c) => s != [] && s[0] == c && Matches(ts[1..], s[1..])
      case AnyChars => Matches(ts[1..], s) || (s != [] && !LineTerminator(s[0]) && Matches(ts, s[1..]))
  }

  /** Does the regular expression built from the pattern accept the key? */
  predicate RegexTest(pattern: string, key: string) {
    var ts := CompileAnchored(RegexText(pattern));
    ts.Some? && Matches(ts.value, key)
  }

  /** Glob matching as it is meant: a star stands for any characters at all. */
  predicate Glob(pattern: string, s: string)
    decreases |pattern| + |s|
  {
    if pattern == [] then s == []
    else if pattern[0] == '*' then Glob(pattern[1..], s) || (s != [] && Glob(pattern, s[1..]))
    else s != [] && s[0] == pattern[0] && Glob(pattern[1..], s[1..])
  }

  predicate OneLine(s: string) {
    forall i | 0 <= i < |s| :: !LineTerminator(s[i])
  }

  lemma {:induction false} CompileBody(pattern: string)
    ensures Compile(RegexBody(pattern)) == Some(Tokens(pattern))
  {
    if pattern != [] {
      var rest := RegexBody(pattern[1..]);
      CompileBody(pattern[1..]);
      var body := RegexBody(pattern);
      if pattern[0] == '*' {
        assert body == ['.', '*'] + rest && body[2..] == rest;
      } else if Special(pattern[0]) {
        assert body == ['\\', pattern[0]] + rest && body[2..] == rest;
      } else {
        assert body == [pattern[0]] + rest && body[1..] == rest;
      }
    }
  }

  /** The translation is read back as the pattern's own tokens: nothing escapes wrongly. */
  lemma CompileRegexText(pattern: string)
    ensures CompileAnchored(RegexText(pattern)) == Some(Tokens(pattern))
  {
    CompileBody(pattern);
    var text := RegexText(pattern);
    assert text[1..|text| - 1] == RegexBody(pattern);
  }

  lemma {:induction false} MatchesIsGlob(pattern: string, s: string)
    ensures Matches(Tokens(pattern), s) ==> Glob(pattern, s)
    ensures OneLine(s) && Glob(pattern, s) ==> Matches(Tokens(pattern), s)
    decreases |pattern| + |s|
  {
    if pattern != [] {
      assert Tokens(pattern)[1..] == Tokens(pattern[1..]);
      if pattern[0] == '*' {
        MatchesIsGlob(pattern[1..], s);
        if s != [] {
          MatchesIsGlob(pattern, s[1..]);
        }
      } else if s != [] {
        MatchesIsGlob(pattern[1..], s[1..]);
      }
    }
  }

  /** The regular expression accepts only what the glob accepts, and on keys of one line
      exactly that. */
  lemma RegexIsGlob(pattern: string, key: string)
    ensures RegexTest(pattern, key) ==> Glob(pattern, key)
    ensures OneLine(key) ==> (RegexTest(pattern, key) <==> Glob(pattern, key))
  {
    CompileRegexText(pattern);
    MatchesIsGlob(pattern, key);
  }

  predicate Starless(s: string) {
    forall i | 0 <= i < |s| :: s[i] != '*'
  }

  lemma {:induction false} StarMatchesAll(s: string)
    ensures Glob("*", s)
  {
    if s != [] {
      StarMatchesAll(s[1..]);
    }
  }

  /** A prefix and a star cover exactly the keys with that prefix. */
  lemma {:induction false} PrefixGlob(prefix: string, key: string)
    requires Starless(prefix)
    ensures Glob(prefix + "*", key) <==> prefix <= key
  {
    var p := prefix + "*";
    if prefix == [] {
      assert p == "*";
      StarMatchesAll(key);
    } else {
      assert p[1..] == prefix[1..] + "*" && p[0] == prefix[0];
      if key != [] {
        PrefixGlob(prefix[1..], key[1..]);
        assert prefix == [prefix[0]] + prefix[1..] && key == [key[0]] + key[1..];
      }
    }
  }

  /** The star of the regular expression takes exactly the rest of a line. */
  lemma {:induction false} StarIsLine(s: string)
    ensures Matches([AnyChars], s) <==> OneLine(s)
  {
    assert [AnyChars][1..] == [];
    if s != [] {
      StarIsLine(s[1..]);
      assert s == [s[0]] + s[1..];
    }
  }

  lemma {:induction false} PrefixMatches(prefix: string, key: string)
    requires Starless(prefix)
    ensures Matches(Tokens(prefix + "*"), key) <==> prefix <= key && OneLine(key[|prefix|..])
  {
    var p := prefix + "*";
    if prefix == [] {
      assert p == "*" && Tokens("*") == [AnyChars] && key[0..] == key;
      StarIsLine(key);
    } else {
      assert p[1..] == prefix[1..] + "*" && p[0] == prefix[0];
      assert Tokens(p)[1..] == Tokens(p[1..]);
      if key != [] {
        PrefixMatches(prefix[1..], key[1..]);
        assert prefix == [prefix[0]] + prefix[1..] && key == [key[0]] + key[1..];
        assert prefix <= key ==> key[|prefix|..] == key[1..][|prefix[1..]|..];
      }
    }
  }

  /** Deleting by a prefix and a star deletes exactly the keys with that prefix and no line
      terminator after it. */
  lemma PrefixTestExactly(prefix: string, key: string)
    requires Starless(prefix)
    ensures RegexTest(prefix + "*", key) <==> prefix <= key && OneLine(key[|prefix|..])
  {
    CompileRegexText(prefix + "*");
    PrefixMatches(prefix, key);
  }

  /** So the keys that a pattern is meant to cover and misses are exactly those with a line
      terminator after the prefix. */
  lemma EscapesExactly(prefix: string, key: string)
    requires Starless(prefix)
    ensures Glob(prefix + "*", key) && !RegexTest(prefix + "*", key) <==> prefix <= key && !OneLine(key[|prefix|..])
  {
    PrefixGlob(prefix, key);
    PrefixTestExactly(prefix, key);
  }

  /** For one: a key with a line feed escapes the pattern that is meant to cover it. */
  lemma LineFeedEscapes()
    ensures Glob("a*", "a\n") && !RegexTest("a*", "a\n")
  {
    assert "a*" == "a" + "*" && "a\n"[1..][0] == '\n';
    EscapesExactly("a", "a\n");
  }
}
