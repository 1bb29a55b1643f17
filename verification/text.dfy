/**
 * The string operations the ledger relies on: `toLowerCase`, `includes`, `trim`,
 * the amount sanitiser `replace(/[^\d.]/g, '')` and `parseFloat` on its output.
 */
module Text {
  import opened Seqs

  predicate IsDigit(c: char) { '0' <= c <= '9' }

  /** `toLowerCase` on one character (the ASCII letters; see README for the rest of Unicode). */
  function LowerChar(c: char): char
  {
    if 'A' <= c <= 'Z' then (c as int + 32) as char else c
  }

  /** `toLowerCase`: the same length, and no upper-case ASCII letter is left. */
  function Lower(s: string): (r: string)
    ensures |r| == |s|
    ensures forall i :: 0 <= i < |r| ==> !('A' <= r[i] <= 'Z')
  {
    seq(|s|, i requires 0 <= i < |s| => LowerChar(s[i]))
  }

  /** Lower-casing twice is lower-casing once, so a lower-cased search term is stable. */
  lemma LowerIdempotent(s: string)
    ensures Lower(Lower(s)) == Lower(s)
  {
  }

  predicate StartsWith(s: string, prefix: string)
  {
    |prefix| <= |s| && s[..|prefix|] == prefix
  }

  /** `sub` occurs in `s` starting at position `i`. */
  predicate OccursAt(s: string, sub: string, i: int)
  {
    0 <= i <= |s| - |sub| && s[i..i + |sub|] == sub
  }

  /** `s.includes(sub)`, searching from every start position in turn. */
  predicate Contains(s: string, sub: string)
    decreases |s|
  {
    StartsWith(s, sub) || (s != [] && Contains(s[1..], sub))
  }

  /** An occurrence after the first character is an occurrence in the tail, one position earlier. */
  lemma OccursInTail(s: string, sub: string, i: nat)
    requires s != []
    ensures OccursAt(s, sub, i + 1) <==> OccursAt(s[1..], sub, i)
  {
    if 0 <= i <= |s| - 1 - |sub| {
      assert i + |sub| <= |s| - 1;
      assert forall k :: i + 1 <= k < i + 1 + |sub| ==> s[k] == s[1..][k - 1];
      assert s[i + 1..i + 1 + |sub|] == s[1..][i..i + |sub|];
    }
  }

  /** `Contains` holds exactly when `sub` occurs in `s` at some position. */
  lemma {:induction false} ContainsIff(s: string, sub: string)
    ensures Contains(s, sub) <==> exists i :: OccursAt(s, sub, i)
    decreases |s|
  {
    if StartsWith(s, sub) {
      assert OccursAt(s, sub, 0);
    } else if s == [] {
    } else {
      ContainsIff(s[1..], sub);
      if Contains(s, sub) {
        var i :| OccursAt(s[1..], sub, i);
        OccursInTail(s, sub, i);
      } else {
        forall i | OccursAt(s, sub, i)
          ensures false
        {
          if i != 0 {
            OccursInTail(s, sub, i - 1);
          }
        }
      }
    }
  }

  /** The characters `trim()` removes: ECMAScript WhiteSpace and LineTerminator. */
  predicate IsWhitespace(c: char)
  {
    c == '\t' || c == '\n' || c == '\U{B}' || c == '\U{C}' || c == '\r' || c == ' ' ||
    c == '\U{A0}' || c == '\U{1680}' || ('\U{2000}' <= c <= '\U{200A}') ||
    c == '\U{2028}' || c == '\U{2029}' || c == '\U{202F}' || c == '\U{205F}' ||
    c == '\U{3000}' || c == '\U{FEFF}'
  }

  function TrimStart(s: string): string
  {
    if s != [] && IsWhitespace(s[0]) then TrimStart(s[1..]) else s
  }

  function TrimEnd(s: string): string
  {
    if s != [] && IsWhitespace(s[|s| - 1]) then TrimEnd(s[..|s| - 1]) else s
  }

  /** `trim()`: whitespace removed from both ends. */
  function Trim(s: string): string
  {
    TrimEnd(TrimStart(s))
  }

  lemma {:induction false} TrimStartEmpty(s: string)
    ensures TrimStart(s) == [] <==> forall i :: 0 <= i < |s| ==> IsWhitespace(s[i])
  {
    if s != [] && IsWhitespace(s[0]) {
      TrimStartEmpty(s[1..]);
      assert forall i :: 1 <= i < |s| ==> s[i] == s[1..][i - 1];
    }
  }

  lemma {:induction false} TrimEndEmpty(s: string)
    ensures TrimEnd(s) == [] <==> forall i :: 0 <= i < |s| ==> IsWhitespace(s[i])
  {
    if s != [] && IsWhitespace(s[|s| - 1]) {
      TrimEndEmpty(s[..|s| - 1]);
    }
  }

  /** A string trims to nothing exactly when every character of it is whitespace. */
  lemma BlankIff(s: string)
    ensures Trim(s) == [] <==> forall i :: 0 <= i < |s| ==> IsWhitespace(s[i])
  {
    TrimStartEmpty(s);
    TrimEndEmpty(TrimStart(s));
    TrimStartSuffix(s);
  }

  /** Trimming the start removes a whitespace prefix and stops at the end or at a non-whitespace character. */
  lemma {:induction false} TrimStartSuffix(s: string)
    ensures exists k :: 0 <= k <= |s| && TrimStart(s) == s[k..] &&
                        (forall i :: 0 <= i < k ==> IsWhitespace(s[i])) &&
                        (k == |s| || !IsWhitespace(s[k]))
  {
    if s != [] && IsWhitespace(s[0]) {
      TrimStartSuffix(s[1..]);
      var k :| 0 <= k <= |s[1..]| && TrimStart(s[1..]) == s[1..][k..] &&
               (forall i :: 0 <= i < k ==> IsWhitespace(s[1..][i])) &&
               (k == |s[1..]| || !IsWhitespace(s[1..][k]));
      assert TrimStart(s) == s[k + 1..];
      assert k + 1 == |s| || s[k + 1] == s[1..][k];
      forall i | 0 <= i < k + 1
        ensures IsWhitespace(s[i])
      {
        if i > 0 {
          assert s[i] == s[1..][i - 1];
        }
      }
    } else {
      assert TrimStart(s) == s[0..];
    }
  }

  predicate IsAmountChar(c: char) { IsDigit(c) || c == '.' }

  /** The amount sanitiser: every character other than an ASCII digit or `.` is deleted. */
  function SanitizeAmount(s: string): (r: string)
    ensures forall i :: 0 <= i < |r| ==> IsAmountChar(r[i])
    ensures forall c :: c in r <==> c in s && IsAmountChar(c)
  {
    Filter(s, IsAmountChar)
  }

  /** Sanitising works character by character, keeping the order of what it keeps. */
  lemma SanitizeConcat(a: string, b: string)
    ensures SanitizeAmount(a + b) == SanitizeAmount(a) + SanitizeAmount(b)
  {
    FilterConcat(a, b, IsAmountChar);
  }

  /** Sanitising is idempotent: a sanitised amount passes through unchanged. */
  lemma SanitizeIdempotent(s: string)
    ensures SanitizeAmount(SanitizeAmount(s)) == SanitizeAmount(s)
  {
    FilterIdempotent(s, IsAmountChar);
  }

  /** A string of digits and dots only is left as it is. */
  lemma SanitizeKeepsClean(s: string)
    requires forall i :: 0 <= i < |s| ==> IsAmountChar(s[i])
    ensures SanitizeAmount(s) == s
  {
    FilterAll(s, IsAmountChar);
  }

  /** The longest prefix of `s` made of digits. */
  function LeadingDigits(s: string): (r: string)
    ensures |r| <= |s| && r == s[..|r|]
    ensures forall i :: 0 <= i < |r| ==> IsDigit(r[i])
    ensures |r| < |s| ==> !IsDigit(s[|r|])
  {
    if s != [] && IsDigit(s[0]) then [s[0]] + LeadingDigits(s[1..]) else []
  }

  /** The value of a string of decimal digits, most significant first. */
  function DigitsValue(d: string): nat
  {
    if d == [] then 0
    else
      var last := d[|d| - 1];
      DigitsValue(d[..|d| - 1]) * 10 + (if IsDigit(last) then last as int - '0' as int else 0)
  }

  function Pow10(n: nat): (r: nat)
    ensures r >= 1
  {
    if n == 0 then 1 else 10 * Pow10(n - 1)
  }

  lemma QuotientNonNegative(x: real, y: real)
    requires x >= 0.0 && y > 0.0
    ensures x / y >= 0.0
  {
  }

  /** The value of the decimal numeral `whole.fraction`. */
  function DecimalValue(whole: string, fraction: string): (r: real)
    ensures r >= DigitsValue(whole) as real
    ensures fraction == [] ==> r == DigitsValue(whole) as real
  {
    var part := DigitsValue(fraction) as real / Pow10(|fraction|) as real;
    QuotientNonNegative(DigitsValue(fraction) as real, Pow10(|fraction|) as real);
    assert fraction == [] ==> part == 0.0;
    DigitsValue(whole) as real + part
  }

  /**
   * `parseFloat` of a sanitised amount: integer digits, then an optional `.`
   * followed by fraction digits; anything after that (a second `.`) is ignored.
   */
  function ParseAmount(s: string): (r: real)
    ensures r >= 0.0
    ensures (forall i :: 0 <= i < |s| ==> IsDigit(s[i])) ==> r == DigitsValue(s) as real
  {
    var whole := LeadingDigits(s);
    var rest := s[|whole|..];
    var fraction := if rest != [] && rest[0] == '.' then LeadingDigits(rest[1..]) else [];
    assert (forall i :: 0 <= i < |s| ==> IsDigit(s[i])) ==> whole == s;
    DecimalValue(whole, fraction)
  }

  /** Leading digits stop exactly where the digits stop. */
  lemma {:induction false} LeadingDigitsOf(w: string, rest: string)
    requires forall i :: 0 <= i < |w| ==> IsDigit(w[i])
    requires rest == [] || !IsDigit(rest[0])
    ensures LeadingDigits(w + rest) == w
  {
    if w != [] {
      assert (w + rest)[1..] == w[1..] + rest;
      LeadingDigitsOf(w[1..], rest);
    } else {
      assert w + rest == rest;
    }
  }

  /**
   * A decimal amount `w.f` followed by anything that does not continue the
   * fraction's digits is read as `w + f / 10^|f|`: "12.50" gives 12.5.
   */
  lemma ParseDecimal(w: string, f: string, rest: string)
    requires forall i :: 0 <= i < |w| ==> IsDigit(w[i])
    requires forall i :: 0 <= i < |f| ==> IsDigit(f[i])
    requires rest == [] || !IsDigit(rest[0])
    ensures ParseAmount(w + "." + f + rest) == DecimalValue(w, f)
  {
    var tail := "." + f + rest;
    var s := w + tail;
    assert w + "." + f + rest == s;
    LeadingDigitsOf(w, tail);
    assert s[|w|..] == tail;
    assert tail != [] && tail[0] == '.';
    assert tail[1..] == f + rest;
    LeadingDigitsOf(f, rest);
    assert ParseAmount(s) == DecimalValue(LeadingDigits(s), LeadingDigits(s[|w|..][1..]));
  }

  /** The usual two-decimal amount: "12.50" is read as 12.5. */
  lemma ParseTwoDecimals()
    ensures ParseAmount("12.50") == 12.5
  {
    assert "12.50" == "12" + "." + "50" + "";
    ParseDecimal("12", "50", "");
    assert DigitsValue("12") == 12 by {
      assert "12"[..1] == "1";
      assert "1"[..0] == "";
    }
    assert DigitsValue("50") == 50 by {
      assert "50"[..1] == "5";
      assert "5"[..0] == "";
    }
    assert Pow10(|"50"|) == 100;
    assert DecimalValue("12", "50") == 12.0 + 50.0 / 100.0;
  }
}
