/** Recognising `logger = get_logger(` lines, as several scripts do. */
module LoggerLines {
  import opened Text

  /** What is left of a line after `\s*token` matched at its start. */
  datatype Rest = NoMatch | Rest(text: string)

  function Eat(s: Rest, token: string): Rest {
    if s.NoMatch? then NoMatch
    else
      var r := LStrip(s.text);
      if token <= r then Rest(r[|token|..]) else NoMatch
  }

  /** The four tokens in this order, each after optional white space. */
  predicate Matches(line: string, a: string, b: string, c: string, d: string) {
    Eat(Eat(Eat(Eat(Rest(line), a), b), c), d).Rest?
  }

  /** The regular expression `^\s*logger\s*=\s*get_logger\s*\(`. */
  predicate IsLoggerDefinition(line: string) {
    Matches(line, "logger", "=", "get_logger", "(")
  }

  /** The usual spelling. */
  const CANONICAL := "logger = get_logger("

  lemma EatToken(s: string, token: string, rest: string)
    requires s == token + rest || s == [' '] + (token + rest)
    requires token != "" && !IsSpace(token[0])
    ensures Eat(Rest(s), token) == Rest(rest)
  {
    if s == token + rest {
      assert LStrip(s) == token + rest;
    } else {
      assert s[1..] == token + rest;
      assert LStrip(s[1..]) == token + rest;
    }
  }

  lemma Spelled(s0: string, s1: string, s2: string, s3: string, tail: string,
                a: string, b: string, c: string, d: string)
    requires s0 == a + s1 && s1 == [' '] + (b + s2) && s2 == [' '] + (c + s3) && s3 == d + tail
    requires a != "" && b != "" && c != "" && d != ""
    requires !IsSpace(a[0]) && !IsSpace(b[0]) && !IsSpace(c[0]) && !IsSpace(d[0])
    ensures Matches(s0, a, b, c, d)
  {
    EatToken(s0, a, s1);
    EatToken(s1, b, s2);
    EatToken(s2, c, s3);
    EatToken(s3, d, tail);
  }

  lemma Regroup(a: string, b: string, c: string, d: string, tail: string)
    ensures a + ([' '] + (b + ([' '] + (c + d)))) + tail == a + ([' '] + (b + ([' '] + (c + (d + tail)))))
  {
  }

  lemma CanonicalSpelling()
    ensures CANONICAL == "logger" + ([' '] + ("=" + ([' '] + ("get_logger" + "("))))
  {
  }

  lemma CanonicalIsDefinition(tail: string)
    ensures Matches(CANONICAL + tail, "logger", "=", "get_logger", "(")
  {
    CanonicalSpelling();
    Regroup("logger", "=", "get_logger", "(", tail);
    var s3 := "(" + tail;
    var s2 := [' '] + ("get_logger" + s3);
    var s1 := [' '] + ("=" + s2);
    Spelled(CANONICAL + tail, s1, s2, s3, tail, "logger", "=", "get_logger", "(");
  }

  lemma CanonicalLine(tail: string) returns (line: string)
    ensures line == CANONICAL + tail && IsLoggerDefinition(line)
  {
    line := CANONICAL + tail;
    CanonicalIsDefinition(tail);
  }

  lemma NotADefinition(line: string)
    requires line == "" || (!IsSpace(line[0]) && line[0] != 'l')
    ensures !IsLoggerDefinition(line)
  {
  }

  // ---- what the expression means ----

  predicate White(s: string) {
    forall i :: 0 <= i < |s| ==> IsSpace(s[i])
  }

  /** The first token stands at `i` behind white space only. */
  predicate TokenAt(s: string, token: string, i: nat) {
    i <= |s| && White(s[..i]) && token <= s[i..]
  }

  /** `rest` is what follows the token. */
  ghost predicate Follows(s: string, token: string, rest: string) {
    exists i :: 0 <= i <= |s| && TokenAt(s, token, i) && rest == s[i + |token|..]
  }

  /** `s` starts with these tokens in this order, each behind optional white space. */
  ghost predicate Spells(s: string, tokens: seq<string>)
    decreases |tokens|
  {
    tokens == [] || exists rest :: Follows(s, tokens[0], rest) && Spells(rest, tokens[1..])
  }

  predicate Visible(token: string) {
    token != "" && !IsSpace(token[0])
  }

  /** There is only one place for the first token. */
  lemma TokenIsEaten(s: string, token: string, i: nat)
    requires Visible(token) && TokenAt(s, token, i)
    ensures Eat(Rest(s), token) == Rest(s[i + |token|..])
  {
    assert s[i] == token[0];
    forall k | 0 <= k < i ensures IsSpace(s[k]) {
      assert s[..i][k] == s[k];
    }
    StrippedFrom(s, i);
  }

  lemma StrippedFrom(s: string, i: nat)
    requires i < |s| && !IsSpace(s[i]) && forall k :: 0 <= k < i ==> IsSpace(s[k])
    ensures LStrip(s) == s[i..]
  {
    assert |s| - |LStrip(s)| == i;
  }

  lemma EatenIsToken(s: string, token: string)
    requires Eat(Rest(s), token).Rest?
    ensures TokenAt(s, token, |s| - |LStrip(s)|)
    ensures Eat(Rest(s), token) == Rest(s[|s| - |LStrip(s)| + |token|..])
  {
    var r := LStrip(s);
    assert r == s[|s| - |r|..];
  }

  /** The tokens one after the other; `eat` is Eat. */
  function EatAll(eat: (Rest, string) -> Rest, s: Rest, tokens: seq<string>): Rest
    decreases |tokens|
  {
    if tokens == [] then s else EatAll(eat, eat(s, tokens[0]), tokens[1..])
  }

  lemma {:induction false} NothingLeft(tokens: seq<string>)
    ensures EatAll(Eat, NoMatch, tokens) == NoMatch
    decreases |tokens|
  {
    if tokens != [] {
      NothingLeft(tokens[1..]);
    }
  }

  lemma FollowsIff(s: string, token: string)
    requires Visible(token)
    ensures forall rest :: Follows(s, token, rest) <==> Eat(Rest(s), token) == Rest(rest)
  {
    forall rest ensures Follows(s, token, rest) <==> Eat(Rest(s), token) == Rest(rest) {
      if Follows(s, token, rest) {
        var i :| 0 <= i <= |s| && TokenAt(s, token, i) && rest == s[i + |token|..];
        TokenIsEaten(s, token, i);
      }
      if Eat(Rest(s), token) == Rest(rest) {
        EatenIsToken(s, token);
      }
    }
  }

  lemma SpellsNext(s: string, tokens: seq<string>, eaten: Rest)
    requires tokens != [] && forall rest :: Follows(s, tokens[0], rest) <==> eaten == Rest(rest)
    ensures Spells(s, tokens) <==> eaten.Rest? && Spells(eaten.text, tokens[1..])
  {
    if eaten.Rest? {
      assert Follows(s, tokens[0], eaten.text);
    }
  }

  lemma {:induction false} EatenIffSpelled(s: string, tokens: seq<string>)
    requires forall k :: 0 <= k < |tokens| ==> Visible(tokens[k])
    ensures EatAll(Eat, Rest(s), tokens).Rest? <==> Spells(s, tokens)
    decreases |tokens|
  {
    if tokens != [] {
      var token, rest := tokens[0], tokens[1..];
      var eaten := Eat(Rest(s), token);
      assert EatAll(Eat, Rest(s), tokens) == EatAll(Eat, eaten, rest);
      FollowsIff(s, token);
      SpellsNext(s, tokens, eaten);
      if eaten.Rest? {
        EatenIffSpelled(eaten.text, rest);
      } else {
        NothingLeft(rest);
      }
    }
  }

  lemma FourTokens(eat: (Rest, string) -> Rest, s: Rest, tokens: seq<string>)
    requires |tokens| == 4
    ensures EatAll(eat, s, tokens) == eat(eat(eat(eat(s, tokens[0]), tokens[1]), tokens[2]), tokens[3])
  {
    var one, two, three := tokens[1..], tokens[2..], tokens[3..];
    assert one[1..] == two && two[1..] == three && three[1..] == [];
    var first := eat(s, tokens[0]);
    var second := eat(first, tokens[1]);
    var third := eat(second, tokens[2]);
    assert EatAll(eat, s, tokens) == EatAll(eat, first, one) == EatAll(eat, second, two) == EatAll(eat, third, three);
    assert EatAll(eat, third, three) == EatAll(eat, eat(third, tokens[3]), []);
  }

  lemma MatchesIff(s: string, tokens: seq<string>)
    requires |tokens| == 4 && forall k :: 0 <= k < 4 ==> Visible(tokens[k])
    ensures Matches(s, tokens[0], tokens[1], tokens[2], tokens[3]) <==> Spells(s, tokens)
  {
    FourTokens(Eat, Rest(s), tokens);
    EatenIffSpelled(s, tokens);
  }

  /** A line is a definition exactly when it starts with `logger`, `=`, `get_logger` and `(` in this order,
      each behind optional white space. */
  lemma DefinitionIff(line: string)
    ensures IsLoggerDefinition(line) <==> Spells(line, ["logger", "=", "get_logger", "("])
  {
    MatchesIff(line, ["logger", "=", "get_logger", "("]);
  }
}
