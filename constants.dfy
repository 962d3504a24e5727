/** App constants: the focus timer's default durations, and the colour initializer that reads a
    hexadecimal string as 12-bit RGB, 24-bit RGB or 32-bit ARGB. Characters count as letters and
    digits only in the ASCII range; the final conversion of each channel to a `Double` is
    written with exact real division. */
module Constants {
  import Settings

  // ---------------------------------------------------------------------------------------------
  // Timer defaults

  const DefaultFocusDuration := 25 * 60
  const DefaultBreakDuration := 5 * 60
  const DefaultLongBreakDuration := 15 * 60
  const DefaultSessionsBeforeLongBreak := 4

  /** The constants agree with what the settings load from an empty store. */
  lemma TimerDefaultsSpec()
    ensures DefaultFocusDuration == 1500 && DefaultBreakDuration == 300 && DefaultLongBreakDuration == 900
    ensures var s := Settings.Load(map[]);
            Settings.FocusDuration(s) == DefaultFocusDuration &&
            Settings.BreakDuration(s) == DefaultBreakDuration &&
            Settings.LongBreakDuration(s) == DefaultLongBreakDuration &&
            s.sessionsBeforeLongBreak == DefaultSessionsBeforeLongBreak
  {
    Settings.LoadDefaults(map[]);
  }

  // ---------------------------------------------------------------------------------------------
  // Color(hex:)

  predicate IsAlphanumeric(c: char)
  {
    '0' <= c <= '9' || 'a' <= c <= 'z' || 'A' <= c <= 'Z'
  }

  predicate IsHexDigit(c: char)
  {
    '0' <= c <= '9' || 'a' <= c <= 'f' || 'A' <= c <= 'F'
  }

  function HexDigitValue(c: char): (v: nat)
    requires IsHexDigit(c)
    ensures v < 16
  {
    if '0' <= c <= '9' then c as int - '0' as int
    else if 'a' <= c <= 'f' then c as int - 'a' as int + 10
    else c as int - 'A' as int + 10
  }

  /** `trimmingCharacters(in: CharacterSet.alphanumerics.inverted)`: drops everything that is not
      a letter or digit from both ends, and only from the ends. */
  function TrimNonAlphanumeric(s: string): (r: string)
    ensures |r| <= |s|
    ensures r == [] || (IsAlphanumeric(r[0]) && IsAlphanumeric(r[|r| - 1]))
    decreases |s|
  {
    if s == [] then []
    else if !IsAlphanumeric(s[0]) then TrimNonAlphanumeric(s[1..])
    else if !IsAlphanumeric(s[|s| - 1]) then TrimNonAlphanumeric(s[..|s| - 1])
    else s
  }

  /** The run of hexadecimal digits `scanHexInt64` consumes from the start. */
  function LeadingHex(s: string): (r: string)
    ensures r <= s
    ensures forall i :: 0 <= i < |r| ==> IsHexDigit(r[i])
    ensures |r| < |s| ==> !IsHexDigit(s[|r|])
  {
    if s != [] && IsHexDigit(s[0]) then [s[0]] + LeadingHex(s[1..]) else []
  }

  function Pow16(n: nat): (p: nat)
    ensures p >= 1
  {
    if n == 0 then 1 else 16 * Pow16(n - 1)
  }

  /** The value of a string of hexadecimal digits, most significant first. */
  function HexValue(d: string): (v: nat)
    requires forall i :: 0 <= i < |d| ==> IsHexDigit(d[i])
    ensures v < Pow16(|d|)
  {
    if d == [] then 0 else 16 * HexValue(d[..|d| - 1]) + HexDigitValue(d[|d| - 1])
  }

  datatype Argb = Argb(a: nat, r: nat, g: nat, b: nat)

  /** Whether the string opens with a `0x` or `0X` prefix followed by a hexadecimal digit. */
  predicate HasHexPrefix(h: string)
  {
    |h| >= 3 && h[0] == '0' && (h[1] == 'x' || h[1] == 'X') && IsHexDigit(h[2])
  }

  /** The digits `scanHexInt64` reads: it skips an optional `0x` or `0X` prefix when a digit
      follows it, and then takes the run of hexadecimal digits. Without a digit after the prefix
      it reads the "0" alone. */
  function ScannedDigits(h: string): (r: string)
    ensures |r| <= |h|
    ensures forall i :: 0 <= i < |r| ==> IsHexDigit(r[i])
  {
    if HasHexPrefix(h) then LeadingHex(h[2..]) else LeadingHex(h)
  }

  /** The integer `scanHexInt64` produces for the trimmed string. */
  function ScannedValue(h: string): nat
  {
    HexValue(ScannedDigits(h))
  }

  /** The `(a, r, g, b)` channels chosen by the number of characters left after trimming. Shifts
      right by `k` are divisions by `2^k`, and masks with `0xF` and `0xFF` are remainders by 16
      and 256, which agree on these non-negative values. */
  function ColorChannels(hex: string): Argb
  {
    var h := TrimNonAlphanumeric(hex);
    var v := ScannedValue(h);
    if |h| == 3 then Argb(255, (v / 256) * 17, (v / 16 % 16) * 17, (v % 16) * 17)
    else if |h| == 6 then Argb(255, v / 65536, v / 256 % 256, v % 256)
    else if |h| == 8 then Argb(v / 16777216, v / 65536 % 256, v / 256 % 256, v % 256)
    else Argb(255, 0, 0, 0)
  }

  predicate InByteRange(c: Argb)
  {
    c.a <= 255 && c.r <= 255 && c.g <= 255 && c.b <= 255
  }

  /** The scanned value has no more digits than the trimmed string has characters. */
  lemma ScannedValueBound(h: string)
    ensures ScannedValue(h) < Pow16(|h|)
  {
    PowMonotone(|ScannedDigits(h)|, |h|);
  }

  lemma {:induction false} PowMonotone(m: nat, n: nat)
    requires m <= n
    ensures Pow16(m) <= Pow16(n)
    decreases n
  {
    if m < n {
      PowMonotone(m, n - 1);
    }
  }

  /** Whatever the string, every channel is a byte: the scanned digits never outnumber the
      characters that select the format. */
  lemma ChannelsInRange(hex: string)
    ensures InByteRange(ColorChannels(hex))
  {
    var h := TrimNonAlphanumeric(hex);
    ScannedValueBound(h);
    var v := ScannedValue(h);
    if |h| == 3 {
      assert Pow16(3) == 4096;
      assert v / 256 < 16;
    } else if |h| == 8 {
      assert Pow16(8) == 4294967296;
      assert v / 16777216 < 256;
    }
  }

  /** `Double(x) / 255` for each channel. */
  function Normalized(x: nat): real
  {
    x as real / 255.0
  }

  /** Every colour component passed to the initializer lies between 0 and 1. */
  lemma ComponentsInUnitRange(hex: string)
    ensures var c := ColorChannels(hex);
            0.0 <= Normalized(c.a) <= 1.0 && 0.0 <= Normalized(c.r) <= 1.0 &&
            0.0 <= Normalized(c.g) <= 1.0 && 0.0 <= Normalized(c.b) <= 1.0
  {
    ChannelsInRange(hex);
  }

  predicate AllHex(h: string)
  {
    forall i :: 0 <= i < |h| ==> IsHexDigit(h[i])
  }

  /** On all-hex input the scan reads every character. */
  lemma ScanAllHex(h: string)
    requires AllHex(h)
    ensures LeadingHex(h) == h
    ensures ScannedDigits(h) == h
  {
  }

  /** Six digits are red, green and blue bytes, high to low, fully opaque: the channels put back
      together give the number written. */
  lemma SixDigitSpec(hex: string)
    requires var h := TrimNonAlphanumeric(hex); |h| == 6 && AllHex(h)
    ensures var c := ColorChannels(hex);
            c.a == 255 && c.r * 65536 + c.g * 256 + c.b == HexValue(TrimNonAlphanumeric(hex))
  {
    ScanAllHex(TrimNonAlphanumeric(hex));
    ByteSplit(HexValue(TrimNonAlphanumeric(hex)));
  }

  /** Eight digits are alpha, red, green and blue bytes, alpha first. */
  lemma EightDigitSpec(hex: string)
    requires var h := TrimNonAlphanumeric(hex); |h| == 8 && AllHex(h)
    ensures var c := ColorChannels(hex);
            c.a * 16777216 + c.r * 65536 + c.g * 256 + c.b == HexValue(TrimNonAlphanumeric(hex))
  {
    ScanAllHex(TrimNonAlphanumeric(hex));
    ByteSplit(HexValue(TrimNonAlphanumeric(hex)));
  }

  /** Cutting a number into bytes and weighting them back gives the number. */
  lemma ByteSplit(v: nat)
    ensures (v / 16777216) * 16777216 + (v / 65536 % 256) * 65536 + (v / 256 % 256) * 256 + v % 256 == v
    ensures (v / 65536) * 65536 + (v / 256 % 256) * 256 + v % 256 == v
  {
    var q1 := v / 256;
    var q2 := q1 / 256;
    assert v == q1 * 256 + v % 256;
    assert q1 == q2 * 256 + q1 % 256;
    assert v / 65536 == q2;
    assert q2 == (q2 / 256) * 256 + q2 % 256;
    assert v / 16777216 == q2 / 256;
  }

  /** Three digits are one nibble per channel, each repeated (nibble times 17), fully opaque. */
  lemma ThreeDigitSpec(hex: string)
    requires var h := TrimNonAlphanumeric(hex); |h| == 3 && AllHex(h)
    ensures var h := TrimNonAlphanumeric(hex); var c := ColorChannels(hex);
            c == Argb(255, HexDigitValue(h[0]) * 17, HexDigitValue(h[1]) * 17, HexDigitValue(h[2]) * 17)
  {
    var h := TrimNonAlphanumeric(hex);
    ScanAllHex(h);
    var d0, d1, d2 := HexDigitValue(h[0]), HexDigitValue(h[1]), HexDigitValue(h[2]);
    assert h[..2][..1] == h[..1];
    assert HexValue(h[..1]) == d0;
    assert HexValue(h[..2]) == 16 * d0 + d1;
    assert HexValue(h) == 256 * d0 + 16 * d1 + d2;
    var v := HexValue(h);
    assert v / 256 == d0;
    assert v / 16 == 16 * d0 + d1;
    assert v / 16 % 16 == d1;
    assert v % 16 == d2;
  }

  /** Any other length after trimming is opaque black. */
  lemma OtherLengthSpec(hex: string)
    requires var n := |TrimNonAlphanumeric(hex)|; n != 3 && n != 6 && n != 8
    ensures ColorChannels(hex) == Argb(255, 0, 0, 0)
  {
  }

  /** A `0x` or `0X` prefix is skipped: the value is that of the digits after it. The prefix
      still counts toward the length that selects the format. */
  lemma HexPrefixSpec(h: string)
    requires |h| >= 3 && h[0] == '0' && (h[1] == 'x' || h[1] == 'X') && AllHex(h[2..])
    ensures ScannedValue(h) == HexValue(h[2..])
  {
    ScanAllHex(h[2..]);
  }

  /** "0x1234" keeps six characters, so it is read as six digits, but the scan reads 0x1234:
      red 0, green 0x12, blue 0x34. */
  lemma HexPrefixSixExample()
    ensures ColorChannels("0x1234") == Argb(255, 0, 0x12, 0x34)
  {
    assert TrimNonAlphanumeric("0x1234") == "0x1234";
    assert "0x1234"[2..] == "1234";
    HexPrefixSpec("0x1234");
    assert HexValue("1234") == 0x1234 by {
      assert "1234"[..3] == "123" && "123"[..2] == "12" && "12"[..1] == "1";
    }
  }

  /** "0x1" is read as three digits whose value is 1: blue 17. */
  lemma HexPrefixThreeExample()
    ensures ColorChannels("0x1") == Argb(255, 0, 0, 17)
  {
    assert TrimNonAlphanumeric("0x1") == "0x1";
    assert "0x1"[2..] == "1";
    HexPrefixSpec("0x1");
    assert HexValue("1") == 1 by {
      assert "1"[..0] == "";
    }
  }

  /** "#FFF" is treated as three digits: the leading "#" is trimmed and white comes out. */
  lemma HashPrefixExample()
    ensures ColorChannels("#FFF") == Argb(255, 255, 255, 255)
  {
    assert TrimNonAlphanumeric("#FFF") == "FFF" by {
      assert "#FFF"[1..] == "FFF";
    }
    ThreeDigitSpec("#FFF");
  }
}
