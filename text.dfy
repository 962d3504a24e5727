/** Text helpers the app relies on: decimal rendering (`%d`, `%02d` and string
    interpolation of an `Int`), Swift's truncating integer division, the "MM:SS" clock format,
    whitespace trimming, ASCII lower-casing and substring search. Strings are `seq<char>`;
    Unicode case folding and the non-ASCII whitespace characters are outside the model. */
module Text {
  import opened Seqs

  predicate IsDigit(c: char) { '0' <= c <= '9' }

  predicate AllDigits(s: string) { forall i :: 0 <= i < |s| ==> IsDigit(s[i]) }

  function DigitChar(d: nat): (c: char)
    requires d < 10
    ensures IsDigit(c)
  {
    (48 + d) as char
  }

  function DigitValue(c: char): (d: nat)
    requires IsDigit(c)
    ensures d < 10
  {
    c as int - 48
  }

  /** The decimal digits of `n`, most significant first, with no leading zero. */
  function Digits(n: nat): (s: string)
    ensures |s| >= 1 && AllDigits(s)
    ensures n >= 10 ==> s[0] != '0'
  {
    if n < 10 then [DigitChar(n)] else Digits(n / 10) + [DigitChar(n % 10)]
  }

  /** Reads a string of decimal digits back as a number. */
  function ParseNat(s: string): nat
    requires AllDigits(s)
  {
    if s == [] then 0 else 10 * ParseNat(s[..|s| - 1]) + DigitValue(s[|s| - 1])
  }

  lemma {:induction false} DigitsRoundTrip(n: nat)
    ensures ParseNat(Digits(n)) == n
  {
    if n >= 10 {
      DigitsRoundTrip(n / 10);
      var s := Digits(n);
      assert s[..|s| - 1] == Digits(n / 10);
    }
  }

  /** `String(format: "%d", n)` and `"\(n)"` for an `Int`. */
  function IntString(n: int): (s: string)
    ensures n >= 0 ==> s == Digits(n)
    ensures n < 0 ==> |s| >= 2 && s[0] == '-' && s[1..] == Digits(-n)
  {
    if n < 0 then "-" + Digits(-n) else Digits(n)
  }

  /** `String(format: "%02d", n)`: at least two characters, zero-padded, sign first. */
  function Pad2(n: int): (s: string)
  {
    if n < 0 then "-" + Digits(-n)
    else if n < 10 then "0" + Digits(n)
    else Digits(n)
  }

  lemma Pad2Spec(n: nat)
    ensures |Pad2(n)| >= 2 && AllDigits(Pad2(n))
    ensures n < 100 ==> |Pad2(n)| == 2
    ensures ParseNat(Pad2(n)) == n
  {
    DigitsRoundTrip(n);
    if n < 10 {
      assert Pad2(n)[..1] == "0";
    } else if n < 100 {
      assert Digits(n / 10) == [DigitChar(n / 10)];
    }
  }

  /** Swift's `/` on `Int`, which rounds toward zero (the divisor here is always positive). */
  function TruncDiv(a: int, b: int): int
    requires b > 0
  {
    if a >= 0 then a / b else -((-a) / b)
  }

  /** Swift's `%` on `Int`: the remainder takes the sign of the dividend. */
  function TruncRem(a: int, b: int): int
    requires b > 0
  {
    a - b * TruncDiv(a, b)
  }

  /** `String(format: "%02d:%02d", Int(t) / 60, Int(t) % 60)`. */
  function FormatClock(t: int): string
  {
    Pad2(TruncDiv(t, 60)) + ":" + Pad2(TruncRem(t, 60))
  }

  /** The clock text of a non-negative time reads back as its whole minutes and its seconds:
      digits, a colon, then exactly two digits. */
  lemma FormatClockRoundTrip(t: nat)
    ensures var s := FormatClock(t); var k := |s| - 3;
            |s| >= 5 && s[k] == ':' && AllDigits(s[..k]) && AllDigits(s[k + 1..]) &&
            ParseNat(s[..k]) == t / 60 && ParseNat(s[k + 1..]) == t % 60
  {
    Pad2Spec(t / 60);
    Pad2Spec(t % 60);
    var s := FormatClock(t);
    var k := |s| - 3;
    assert s[..k] == Pad2(t / 60);
    assert s[k + 1..] == Pad2(t % 60);
  }

  lemma FormatClockHasColon(t: int)
    ensures ':' in FormatClock(t)
  {
    var s := FormatClock(t);
    assert s[|Pad2(TruncDiv(t, 60))|] == ':';
  }

  /** The characters of `CharacterSet.whitespacesAndNewlines` in the ASCII range. */
  predicate IsWhitespace(c: char)
  {
    c == ' ' || c == '\t' || c == '\n' || c == '\r' || c == '\U{B}' || c == '\U{C}'
  }

  predicate AllWhitespace(s: string) { forall i :: 0 <= i < |s| ==> IsWhitespace(s[i]) }

  function TrimStart(s: string): (r: string)
    ensures |r| <= |s| && r == s[|s| - |r|..]
    ensures r == [] || !IsWhitespace(r[0])
    ensures AllWhitespace(s[..|s| - |r|])
  {
    if s != [] && IsWhitespace(s[0]) then TrimStart(s[1..]) else s
  }

  function TrimEnd(s: string): (r: string)
    ensures |r| <= |s| && r == s[..|r|]
    ensures r == [] || !IsWhitespace(r[|r| - 1])
    ensures AllWhitespace(s[|r|..])
  {
    if s != [] && IsWhitespace(s[|s| - 1]) then TrimEnd(s[..|s| - 1]) else s
  }

  /** `trimmingCharacters(in: .whitespacesAndNewlines)`. */
  function Trim(s: string): string
  {
    TrimEnd(TrimStart(s))
  }

  /** Trimming yields a contiguous middle slice with no whitespace at either end, and it is
      empty exactly when the input is whitespace only. */
  lemma TrimSpec(s: string)
    ensures exists i, j :: 0 <= i <= j <= |s| && Trim(s) == s[i..j]
    ensures Trim(s) == [] || (!IsWhitespace(Trim(s)[0]) && !IsWhitespace(Trim(s)[|Trim(s)| - 1]))
    ensures Trim(s) == [] <==> AllWhitespace(s)
  {
    TrimSlice(s);
    TrimEmpty(s);
  }

  lemma TrimSlice(s: string)
    ensures var i := |s| - |TrimStart(s)|; Trim(s) == s[i..i + |Trim(s)|]
    ensures Trim(s) == [] || (!IsWhitespace(Trim(s)[0]) && !IsWhitespace(Trim(s)[|Trim(s)| - 1]))
  {
    var a := TrimStart(s);
    var r := TrimEnd(a);
    if r != [] {
      assert r[0] == a[0];
    }
  }

  lemma TrimEmpty(s: string)
    ensures Trim(s) == [] <==> AllWhitespace(s)
  {
    var a := TrimStart(s);
    var r := TrimEnd(a);
    var i := |s| - |a|;
    TrimSlice(s);
    if r == [] {
      assert a[|r|..] == a;
      assert a == [];
      assert s[..i] == s;
    } else {
      assert r[0] == s[i];
    }
  }

  function LowerChar(c: char): char
  {
    if 'A' <= c <= 'Z' then (c as int + 32) as char else c
  }

  /** `lowercased()` on the ASCII letters. */
  function Lower(s: string): (r: string)
    ensures |r| == |s|
    ensures forall i :: 0 <= i < |s| ==> r[i] == LowerChar(s[i])
  {
    if s == [] then [] else [LowerChar(s[0])] + Lower(s[1..])
  }

  /** `haystack.contains(needle)`: `needle` occurs as a contiguous run. */
  predicate Contains(haystack: string, needle: string)
    decreases |haystack|
  {
    needle <= haystack || (haystack != [] && Contains(haystack[1..], needle))
  }

  /** `needle` occurs in `haystack` starting at position `i`. */
  predicate OccursAt(haystack: string, needle: string, i: int)
  {
    0 <= i <= |haystack| - |needle| && haystack[i..i + |needle|] == needle
  }

  /** The recursive search agrees with the positional definition of an occurrence. */
  lemma {:induction false} ContainsSpec(haystack: string, needle: string)
    ensures Contains(haystack, needle) <==> exists i :: OccursAt(haystack, needle, i)
    decreases |haystack|
  {
    if needle <= haystack {
      assert OccursAt(haystack, needle, 0);
    }
    if haystack != [] {
      ContainsSpec(haystack[1..], needle);
      if exists i :: OccursAt(haystack, needle, i) {
        var i :| OccursAt(haystack, needle, i);
        if i > 0 {
          assert OccursAt(haystack[1..], needle, i - 1);
        } else {
          assert needle <= haystack;
        }
      }
      if Contains(haystack[1..], needle) && !(needle <= haystack) {
        var i :| OccursAt(haystack[1..], needle, i);
        assert OccursAt(haystack, needle, i + 1);
      }
    } else if exists i :: OccursAt(haystack, needle, i) {
      var i :| OccursAt(haystack, needle, i);
      assert needle == [];
    }
  }

  /** `localizedCaseInsensitiveContains`, folding ASCII letters only. */
  predicate ContainsIgnoringCase(haystack: string, needle: string)
  {
    Contains(Lower(haystack), Lower(needle))
  }

  /** The `preview` of notes and clipboard items: the text itself when it has at most `maxLength`
      characters, otherwise its first `maxLength` characters followed by "...". */
  function Ellipsized(s: string, maxLength: nat): string
  {
    if |s| > maxLength then s[..maxLength] + "..." else s
  }

  lemma EllipsizedSpec(s: string, maxLength: nat)
    ensures |s| <= maxLength ==> Ellipsized(s, maxLength) == s
    ensures |s| > maxLength ==>
              |Ellipsized(s, maxLength)| == maxLength + 3 &&
              Ellipsized(s, maxLength)[..maxLength] == s[..maxLength] &&
              Ellipsized(s, maxLength)[maxLength..] == "..."
    ensures |Ellipsized(s, maxLength)| <= maxLength + 3
  {
  }

  /** `components(separatedBy: .whitespacesAndNewlines)`: the pieces between separators, empty
      pieces included, so the result always has at least one element. */
  function Components(s: string): (r: seq<string>)
    ensures |r| >= 1
    ensures r[0] == [] <==> s == [] || IsWhitespace(s[0])
  {
    if s == [] then [[]]
    else
      var rest := Components(s[1..]);
      if IsWhitespace(s[0]) then [[]] + rest else [[s[0]] + rest[0]] + rest[1..]
  }

  predicate NonEmpty(w: string) { w != [] }

  /** The number of positions where a word ends: a non-separator followed by a separator or the end. */
  function WordEnds(s: string): nat
  {
    if s == [] then 0
    else (if !IsWhitespace(s[0]) && (|s| == 1 || IsWhitespace(s[1])) then 1 else 0) + WordEnds(s[1..])
  }

  /** The word count (non-empty components) equals the number of word ends. */
  lemma {:induction false} WordCountIsWordEnds(s: string)
    ensures |Filter(Components(s), NonEmpty)| == WordEnds(s)
  {
    if s != [] {
      WordCountIsWordEnds(s[1..]);
      var rest := Components(s[1..]);
      assert rest == [rest[0]] + rest[1..];
      assert Filter(rest, NonEmpty) == (if NonEmpty(rest[0]) then [rest[0]] else []) + Filter(rest[1..], NonEmpty);
      var r := Components(s);
      if IsWhitespace(s[0]) {
        assert r[1..] == rest;
      } else {
        assert r[0] == [s[0]] + rest[0] && r[1..] == rest[1..];
      }
    }
  }

  lemma {:induction false} WordEndsBounds(s: string)
    ensures WordEnds(s) <= |s|
    ensures WordEnds(s) == 0 <==> AllWhitespace(s)
  {
    if s != [] {
      WordEndsBounds(s[1..]);
      assert AllWhitespace(s) <==> IsWhitespace(s[0]) && AllWhitespace(s[1..]);
    }
  }

  /** `content.components(separatedBy: .whitespacesAndNewlines).filter { !$0.isEmpty }.count`. */
  function WordCount(s: string): nat
  {
    |Filter(Components(s), NonEmpty)|
  }

  /** There are never more words than characters, and there are none exactly when the text is
      whitespace only. */
  lemma WordCountSpec(s: string)
    ensures WordCount(s) <= |s|
    ensures WordCount(s) == 0 <==> AllWhitespace(s)
  {
    WordCountIsWordEnds(s);
    WordEndsBounds(s);
  }
}
