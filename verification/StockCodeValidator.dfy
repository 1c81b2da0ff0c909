/** scripts/stock_code_validator.py: known wrong stock codes are replaced by the requested one. */
module StockCodeValidator {
  import opened Text

  /** The wrong codes corrected for each original code, in the order they are replaced. */
  const ERROR_MAPPINGS: map<string, seq<string>> :=
    map["002027" := ["002021", "002026", "002028"], "002021" := ["002027"]]

  // ---- reference: one simultaneous correction, character by character ----

  /** A wrong code for `original` ends at position `i`. */
  predicate WrongCodeEndsAt(original: string, text: string, i: int) {
    && original in ERROR_MAPPINGS
    && 5 <= i < |text|
    && text[i - 5..i + 1] in ERROR_MAPPINGS[original]
  }

  /** Every wrong code occurring in the *input* gets its last digit corrected; nothing else changes. */
  function Corrected(original: string, text: string): (r: string)
    ensures |r| == |text|
  {
    seq(|text|, i requires 0 <= i < |text| =>
      if WrongCodeEndsAt(original, text, i) then original[|original| - 1] else text[i])
  }

  // ---- the same on the code family "00202x" ----

  function Code(d: char): string {
    "00202" + [d]
  }

  predicate CodeEndsAt(s: string, digits: set<char>, i: int) {
    && 5 <= i < |s| && s[i] in digits
    && s[i - 5] == '0' && s[i - 4] == '0' && s[i - 3] == '2' && s[i - 2] == '0' && s[i - 1] == '2'
  }

  function Swap(s: string, digits: set<char>, d: char): (r: string)
    ensures |r| == |s|
    ensures forall i :: 0 <= i < |s| ==> r[i] == if CodeEndsAt(s, digits, i) then d else s[i]
  {
    seq(|s|, i requires 0 <= i < |s| => if CodeEndsAt(s, digits, i) then d else s[i])
  }

  predicate LastDigits(digits: set<char>) {
    '0' !in digits && '2' !in digits
  }

  lemma CodeIsPrefix(s: string, a: char)
    ensures Code(a) <= s <==> CodeEndsAt(s, {a}, 5)
  {
    if CodeEndsAt(s, {a}, 5) {
      assert s[..6] == Code(a);
    }
  }

  /** Occurrences never overlap, and a replacement never completes a code across its boundary. */
  lemma {:induction false} ReplaceIsSwap(s: string, a: char, d: char)
    requires LastDigits({a, d})
    ensures Replace(s, Code(a), Code(d)) == Swap(s, {a}, d)
    decreases |s|
  {
    CodeIsPrefix(s, a);
    if |s| < 6 {
    } else if Code(a) <= s {
      ReplaceIsSwap(s[6..], a, d);
      forall i | 6 <= i < |s|
        ensures CodeEndsAt(s, {a}, i) <==> CodeEndsAt(s[6..], {a}, i - 6)
      {
      }
      assert Swap(s, {a}, d) == Code(d) + Swap(s[6..], {a}, d);
    } else {
      ReplaceIsSwap(s[1..], a, d);
      forall i | 1 <= i < |s|
        ensures CodeEndsAt(s, {a}, i) <==> CodeEndsAt(s[1..], {a}, i - 1)
      {
      }
      assert Swap(s, {a}, d) == [s[0]] + Swap(s[1..], {a}, d);
    }
  }

  /** Swapping last digits moves no occurrence of the family. */
  lemma SwapKeepsFamily(s: string, first: set<char>, d: char, second: set<char>, i: int)
    requires LastDigits(first + {d} + second)
    ensures CodeEndsAt(Swap(s, first, d), second, i) <==>
            if CodeEndsAt(s, first, i) then d in second else CodeEndsAt(s, second, i)
  {
    var r := Swap(s, first, d);
    forall k | 0 <= k < |s|
      ensures r[k] == s[k] || (s[k] in first && r[k] == d)
    {
    }
  }

  lemma SwapSwap(s: string, first: set<char>, second: set<char>, d: char)
    requires LastDigits(first + {d} + second)
    ensures Swap(Swap(s, first, d), second, d) == Swap(s, first + second, d)
  {
    var r := Swap(s, first, d);
    forall i | 0 <= i < |s|
      ensures Swap(r, second, d)[i] == Swap(s, first + second, d)[i]
    {
      SwapKeepsFamily(s, first, d, second, i);
    }
  }

  /** Which digits are wrong for each mapped code. */
  function WrongDigits(original: string): set<char> {
    if original == "002027" then {'1', '6', '8'} else {'7'}
  }

  lemma WrongCodeIsFamily(original: string, text: string, i: nat)
    requires original in ERROR_MAPPINGS && i < |text|
    ensures WrongCodeEndsAt(original, text, i) <==> CodeEndsAt(text, WrongDigits(original), i)
  {
    if 5 <= i {
      var w := text[i - 5..i + 1];
      assert w == [text[i - 5], text[i - 4], text[i - 3], text[i - 2], text[i - 1], text[i]];
      if CodeEndsAt(text, WrongDigits(original), i) {
        assert w == Code(text[i]);
      }
    }
  }

  lemma CorrectedIsSwap(original: string, text: string)
    requires original in ERROR_MAPPINGS
    ensures Corrected(original, text) == Swap(text, WrongDigits(original), original[5])
  {
    forall i | 0 <= i < |text|
      ensures WrongCodeEndsAt(original, text, i) <==> CodeEndsAt(text, WrongDigits(original), i)
    {
      WrongCodeIsFamily(original, text, i);
    }
  }

  // ---- the code ----

  lemma SwapNothing(s: string, digits: set<char>, d: char)
    requires forall i :: 0 <= i < |s| ==> !CodeEndsAt(s, digits, i)
    ensures Swap(s, digits, d) == s
  {
  }

  lemma ContainsCode(s: string, a: char)
    ensures Contains(s, Code(a)) <==> exists i :: 0 <= i < |s| && CodeEndsAt(s, {a}, i)
  {
    if Contains(s, Code(a)) {
      var k :| 0 <= k <= |s| && OccursAt(s, Code(a), k);
      var w := s[k..k + 6];
      assert w == Code(a) && w[0] == s[k] && w[1] == s[k + 1] && w[2] == s[k + 2] && w[3] == s[k + 3] && w[4] == s[k + 4];
      assert CodeEndsAt(s, {a}, k + 5);
    }
    if i :| 0 <= i < |s| && CodeEndsAt(s, {a}, i) {
      assert s[i - 5..i + 1] == Code(a);
      assert OccursAt(s, Code(a), i - 5);
    }
  }

  /** The body of the loop, for two codes that differ in their last digits `a` and `d`. */
  method ReplaceWrong(content: string, wrong: string, original: string, ghost a: char, ghost d: char)
    returns (processed: string)
    requires wrong == Code(a) && original == Code(d) && LastDigits({a, d})
    ensures processed == Swap(content, {a}, d)
  {
    processed := content;
    ContainsCode(content, a);
    if Contains(content, wrong) {
      ReplaceIsSwap(content, a, d);
      processed := Replace(content, wrong, original);
    } else {
      SwapNothing(content, {a}, d);
    }
  }

  /** The loop of successive `replace` calls is the simultaneous correction. */
  method ValidateStockCode(original: string, content: string) returns (processed: string)
    ensures processed == Corrected(original, content)
  {
    processed := content;
    if original in ERROR_MAPPINGS {
      var wrongCodes := ERROR_MAPPINGS[original];
      ghost var done: set<char> := {};
      SwapNothing(content, {}, original[5]);
      for n := 0 to |wrongCodes|
        invariant done == set k | 0 <= k < n :: wrongCodes[k][5]
        invariant processed == Swap(content, done, original[5])
      {
        ghost var a := wrongCodes[n][5];
        processed := ReplaceWrong(processed, wrongCodes[n], original, a, original[5]);
        SwapSwap(content, done, {a}, original[5]);
        done := done + {a};
      }
      assert done == WrongDigits(original) by {
        assert wrongCodes[0][5] in done && (|wrongCodes| == 3 ==> wrongCodes[1][5] in done && wrongCodes[2][5] in done);
      }
      CorrectedIsSwap(original, content);
    } else {
      assert processed == Corrected(original, content);
    }
  }

  // ---- what a caller may rely on ----

  /** No wrong code survives anywhere, not even one completed across a replacement boundary. */
  lemma NoWrongCodeRemains(original: string, text: string, wrong: string)
    requires original in ERROR_MAPPINGS && wrong in ERROR_MAPPINGS[original]
    ensures !Contains(Corrected(original, text), wrong)
  {
    var digits := WrongDigits(original);
    CorrectedIsSwap(original, text);
    assert wrong == Code(wrong[5]) && wrong[5] in digits;
    ContainsCode(Corrected(original, text), wrong[5]);
    forall i | 0 <= i < |text|
      ensures !CodeEndsAt(Corrected(original, text), {wrong[5]}, i)
    {
      SwapKeepsFamily(text, digits, original[5], {wrong[5]}, i);
    }
  }

  /** A character changes exactly when it is the last digit of a wrong code of the input. */
  lemma OnlyLastDigitsChange(original: string, text: string, i: nat)
    requires i < |text|
    ensures Corrected(original, text)[i] != text[i] <==> WrongCodeEndsAt(original, text, i)
  {
    if WrongCodeEndsAt(original, text, i) {
      assert text[i] == text[i - 5..i + 1][5];
    }
  }

  lemma SwappedWindow(s: string, digits: set<char>, d: char, i: nat)
    requires CodeEndsAt(s, digits, i) && LastDigits(digits + {d})
    ensures Swap(s, digits, d)[i - 5..i + 1] == Code(d)
  {
    var r := Swap(s, digits, d);
    SwapKeepsFamily(s, digits, d, {d}, i);
    assert CodeEndsAt(r, {d}, i);
  }

  /** Where a wrong code stood, the output holds the original code. */
  lemma WrongBecomesOriginal(original: string, text: string, i: nat)
    requires WrongCodeEndsAt(original, text, i)
    ensures Corrected(original, text)[i - 5..i + 1] == original
  {
    CorrectedIsSwap(original, text);
    WrongCodeIsFamily(original, text, i);
    SwappedWindow(text, WrongDigits(original), original[5], i);
  }

  lemma Idempotent(original: string, text: string)
    ensures Corrected(original, Corrected(original, text)) == Corrected(original, text)
  {
    if original in ERROR_MAPPINGS {
      CorrectedIsSwap(original, text);
      CorrectedIsSwap(original, Corrected(original, text));
      SwapSwap(text, WrongDigits(original), WrongDigits(original), original[5]);
      assert WrongDigits(original) + WrongDigits(original) == WrongDigits(original);
    }
  }

  /** Going through 002021 on the way to 002027 makes no difference. */
  lemma ThroughTheReverseMapping(text: string)
    ensures Corrected("002027", Corrected("002021", text)) == Corrected("002027", text)
  {
    var mid := Corrected("002021", text);
    CorrectedIsSwap("002021", text);
    CorrectedIsSwap("002027", text);
    CorrectedIsSwap("002027", mid);
    forall i | 0 <= i < |text|
      ensures Swap(mid, {'1', '6', '8'}, '7')[i] == Swap(text, {'1', '6', '8'}, '7')[i]
    {
      SwapKeepsFamily(text, {'7'}, '1', {'1', '6', '8'}, i);
    }
  }

  lemma DetourOnFamily(text: string)
    ensures Swap(Swap(text, {'1', '6', '8'}, '7'), {'7'}, '1') == Swap(text, {'7'}, '1')
            <==> forall i :: 0 <= i < |text| ==> !CodeEndsAt(text, {'6', '8'}, i)
  {
    var mid := Swap(text, {'1', '6', '8'}, '7');
    var twice, once := Swap(mid, {'7'}, '1'), Swap(text, {'7'}, '1');
    forall i | 0 <= i < |text|
      ensures twice[i] == once[i] <==> !CodeEndsAt(text, {'6', '8'}, i)
    {
      SwapKeepsFamily(text, {'1', '6', '8'}, '7', {'7'}, i);
    }
    assert twice == once <==> forall i :: 0 <= i < |text| ==> twice[i] == once[i];
  }

  /** The other way round the detour is harmless exactly when neither 002026 nor 002028 occurs. */
  lemma ThroughTheForwardMapping(text: string)
    ensures Corrected("002021", Corrected("002027", text)) == Corrected("002021", text)
            <==> !Contains(text, "002026") && !Contains(text, "002028")
  {
    var mid := Corrected("002027", text);
    CorrectedIsSwap("002027", text);
    CorrectedIsSwap("002021", text);
    CorrectedIsSwap("002021", mid);
    DetourOnFamily(text);
    assert "002026" == Code('6') && "002028" == Code('8');
    ContainsEither(text, '6', '8');
  }

  lemma ContainsEither(text: string, a: char, b: char)
    ensures Contains(text, Code(a)) || Contains(text, Code(b))
            <==> exists i :: 0 <= i < |text| && CodeEndsAt(text, {a, b}, i)
  {
    ContainsCode(text, a);
    ContainsCode(text, b);
    forall i | 0 <= i < |text|
      ensures CodeEndsAt(text, {a, b}, i) <==> CodeEndsAt(text, {a}, i) || CodeEndsAt(text, {b}, i)
    {
    }
  }
}
