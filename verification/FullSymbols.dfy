/** The two generators of full stock symbols: scripts/fix_null_full_symbol.py and
    scripts/fix_full_symbol_index.py. */
module FullSymbols {
  import opened Common
  import opened Text

  /** The exchange suffix decided by the first digits of a code. */
  function Suffix(code: string): (r: Option<string>)
    ensures r.Some? ==> |r.value| == 3 && r.value[0] == '.' && !IsSpace(r.value[2])
  {
    if StartsWith(code, "60") || StartsWith(code, "68") || StartsWith(code, "90") then Some(".SS")
    else if StartsWith(code, "00") || StartsWith(code, "30") || StartsWith(code, "20") then Some(".SZ")
    else if StartsWith(code, "8") || StartsWith(code, "4") then Some(".BJ")
    else None
  }

  /** generate_full_symbol of fix_null_full_symbol.py. */
  function Generate(code: string): string {
    if code == "" then "" else WithSuffix(Strip(code))
  }

  /** Only six-character codes get a suffix. */
  function WithSuffix(c: string): string {
    if |c| != 6 || Suffix(c).None? then c else c + Suffix(c).value
  }

  /** generate_full_symbol of fix_full_symbol_index.py; unknown prefixes count as Shenzhen. */
  function GenerateForIndex(code: string): Option<string> {
    if |code| != 6 then None
    else Some(code + if Suffix(code).Some? then Suffix(code).value else ".SZ")
  }

  lemma GenerateStrips(code: string)
    ensures Generate(code) == WithSuffix(Strip(code))
  {
    StripTrims(code);
    if code == "" {
      assert Strip(code) == "";
    }
  }

  /** The first two digits of the codes listed in Shanghai and in Shenzhen, the first digit of those in Beijing. */
  const SHANGHAI := {"60", "68", "90"}
  const SHENZHEN := {"00", "30", "20"}
  const BEIJING := {'8', '4'}

  /** `symbol` is the six-character code `c` with the ending of its exchange, or `other` at an unknown one. */
  predicate NamesExchange(c: string, symbol: string, other: string)
    requires |c| == 6
  {
    && (c[..2] in SHANGHAI ==> symbol == c + ".SS")
    && (c[..2] in SHENZHEN ==> symbol == c + ".SZ")
    && (c[0] in BEIJING ==> symbol == c + ".BJ")
    && (c[..2] !in SHANGHAI + SHENZHEN && c[0] !in BEIJING ==> symbol == other)
  }

  lemma Prefixes(c: string)
    requires |c| == 6
    ensures StartsWith(c, "60") || StartsWith(c, "68") || StartsWith(c, "90") <==> c[..2] in SHANGHAI
    ensures StartsWith(c, "00") || StartsWith(c, "30") || StartsWith(c, "20") <==> c[..2] in SHENZHEN
    ensures StartsWith(c, "8") || StartsWith(c, "4") <==> c[0] in BEIJING
    ensures c[..2] in SHANGHAI ==> c[..2] !in SHENZHEN && c[0] !in BEIJING
    ensures c[..2] in SHENZHEN ==> c[0] !in BEIJING
  {
    forall p: string | |p| == 2 ensures StartsWith(c, p) <==> c[..2] == p {
    }
    assert |"60"| == |"68"| == |"90"| == |"00"| == |"30"| == |"20"| == 2;
  }

  /** Which exchange a symbol names: a six-character code gets the ending of its exchange, or, at an
      unknown one, no ending in the first script and `.SZ` in the second; other codes get none. */
  lemma SymbolNamesExchange(code: string)
    ensures |Strip(code)| == 6 ==> NamesExchange(Strip(code), Generate(code), Strip(code))
    ensures |Strip(code)| != 6 ==> Generate(code) == Strip(code)
    ensures |code| == 6 ==>
              && GenerateForIndex(code).Some?
              && NamesExchange(code, GenerateForIndex(code).value, code + ".SZ")
    ensures |code| != 6 ==> GenerateForIndex(code).None?
  {
    GenerateStrips(code);
    if |Strip(code)| == 6 {
      Prefixes(Strip(code));
    }
    if |code| == 6 {
      Prefixes(code);
    }
  }

  /** The stripped code is a prefix of the symbol; six characters give it back. */
  lemma CodeRecovered(code: string)
    ensures Strip(code) <= Generate(code)
    ensures |Strip(code)| == 6 ==> Generate(code)[..6] == Strip(code)
    ensures |code| == 6 ==> GenerateForIndex(code).Some? && GenerateForIndex(code).value[..6] == code
  {
    GenerateStrips(code);
    PrefixKept(Strip(code));
  }

  lemma PrefixKept(c: string)
    ensures c <= WithSuffix(c)
    ensures |c| == 6 ==> WithSuffix(c)[..6] == c
  {
  }

  /** A symbol is trimmed when its code is, and gets no second suffix. */
  lemma SuffixOnce(c: string)
    requires Trimmed(c)
    ensures Trimmed(WithSuffix(c)) && WithSuffix(WithSuffix(c)) == WithSuffix(c)
  {
    var g := WithSuffix(c);
    if g != c {
      assert |g| == 9 && g[0] == c[0] && g[8] == Suffix(c).value[2];
    }
  }

  /** A generated symbol is its own full symbol. */
  lemma GenerateIdempotent(code: string)
    ensures Generate(Generate(code)) == Generate(code)
  {
    StripTrims(code);
    SuffixOnce(Strip(code));
    GenerateStrips(code);
    GenerateStrips(Generate(code));
    StripTrims(Generate(code));
  }

  /** Two codes get the same symbol exactly when they are the same up to white space around them,
      or one of them already is the full symbol of the other. */
  lemma SameSymbol(a: string, b: string)
    ensures Generate(a) == Generate(b) <==>
            Strip(a) == Strip(b) || Strip(a) == Generate(b) || Strip(b) == Generate(a)
  {
    GenerateStrips(a);
    GenerateStrips(b);
    StripTrims(a);
    StripTrims(b);
    SuffixOnce(Strip(a));
    SuffixOnce(Strip(b));
    SameSuffixed(Strip(a), Strip(b));
  }

  lemma SameSuffixed(c: string, d: string)
    requires WithSuffix(WithSuffix(c)) == WithSuffix(c) && WithSuffix(WithSuffix(d)) == WithSuffix(d)
    ensures WithSuffix(c) == WithSuffix(d) <==> c == d || c == WithSuffix(d) || d == WithSuffix(c)
  {
    PrefixKept(c);
    PrefixKept(d);
  }

  /** On six-character codes both generators are injective. */
  lemma InjectiveOnSix(a: string, b: string)
    ensures |Strip(a)| == |Strip(b)| == 6 ==> (Generate(a) == Generate(b) <==> Strip(a) == Strip(b))
    ensures |a| == 6 && |b| == 6 ==> (GenerateForIndex(a) == GenerateForIndex(b) <==> a == b)
  {
    CodeRecovered(a);
    CodeRecovered(b);
    GenerateStrips(a);
    GenerateStrips(b);
  }

  /** The generators agree exactly on trimmed six-character codes with a known prefix. */
  lemma GeneratorsAgree(code: string)
    ensures GenerateForIndex(code) == Some(Generate(code)) <==>
            |code| == 6 && Trimmed(code) && Suffix(code).Some?
  {
    StripTrims(code);
    GenerateStrips(code);
    AgreeOn(code, Strip(code));
  }

  lemma AgreeOn(code: string, c: string)
    requires |c| <= |code| && (|c| == |code| <==> c == code)
    ensures GenerateForIndex(code) == Some(WithSuffix(c)) <==> |code| == 6 && c == code && Suffix(code).Some?
  {
  }
}
