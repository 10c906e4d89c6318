/** Colour formatting: `toHex` (an RGB triple written as `#` and the base-16
    form of each channel, each padded to two characters) and `saneHex` (the
    validator/normaliser for `#?` followed by six hex digits). Channels are
    unbounded integers: the source does not clamp, so a channel outside
    0..255 yields a string that is not six hex digits. */
module Hex {
  import opened Wrappers
  import opened Text

  /** A colour as it appears in the catalog and in custom share tokens. */
  datatype Rgb = Rgb(r: int, g: int, b: int)

  predicate InByteRange(c: Rgb) {
    0 <= c.r < 256 && 0 <= c.g < 256 && 0 <= c.b < 256
  }

  predicate IsLowerHexDigit(c: char) {
    ('0' <= c <= '9') || ('a' <= c <= 'f')
  }

  /** One character of the class `[0-9a-fA-F]`. */
  predicate IsHexDigit(c: char) {
    IsLowerHexDigit(c) || ('A' <= c <= 'F')
  }

  predicate AllHex(s: string) {
    forall i :: 0 <= i < |s| ==> IsHexDigit(s[i])
  }

  predicate AllLowerHex(s: string) {
    forall i :: 0 <= i < |s| ==> IsLowerHexDigit(s[i])
  }

  function DigitValue(c: char): (d: nat)
    requires IsHexDigit(c)
    ensures d < 16
  {
    if '0' <= c <= '9' then (c as int) - ('0' as int)
    else if 'a' <= c <= 'f' then (c as int) - ('a' as int) + 10
    else (c as int) - ('A' as int) + 10
  }

  /** The lower-case digit that `toString(16)` writes for `d`. */
  function HexDigit(d: nat): (c: char)
    requires d < 16
    ensures IsLowerHexDigit(c) && DigitValue(c) == d
  {
    if d < 10 then (('0' as int) + d) as char else (('a' as int) + d - 10) as char
  }

  /** The number a string of hex digits denotes (most significant first);
      the reading-back side of `Radix16`. */
  function HexValue(s: string): nat
    requires AllHex(s)
  {
    if |s| == 0 then 0 else 16 * HexValue(s[..|s| - 1]) + DigitValue(s[|s| - 1])
  }

  /** The byte written by the two hex digits at `s[i]` and `s[i + 1]`. */
  function PairValue(s: string, i: nat): nat
    requires i + 1 < |s| && IsHexDigit(s[i]) && IsHexDigit(s[i + 1])
  {
    16 * DigitValue(s[i]) + DigitValue(s[i + 1])
  }

  /** `n.toString(16)` for a non-negative integer. */
  function Radix16(n: nat): string
    decreases n
  {
    if n < 16 then [HexDigit(n)] else Radix16(n / 16) + [HexDigit(n % 16)]
  }

  /** `Radix16` writes lower-case digits without leading zeros that read
      back as the number; one digit below 16, at most two below 256. */
  lemma {:induction false} Radix16Digits(n: nat)
    ensures 1 <= |Radix16(n)|
    ensures AllLowerHex(Radix16(n)) && HexValue(Radix16(n)) == n
    ensures |Radix16(n)| == 1 <==> n < 16
    ensures |Radix16(n)| <= 2 <==> n < 256
    ensures n > 0 ==> Radix16(n)[0] != '0'
    decreases n
  {
    if n >= 16 {
      Radix16Digits(n / 16);
      var high := Radix16(n / 16);
      var r := Radix16(n);
      assert r == high + [HexDigit(n % 16)];
      assert r[..|r| - 1] == high;
    }
  }

  /** `v.toString(16)` for any integer: a negative value gets a leading `-`. */
  function ToString16(v: int): string {
    if v < 0 then "-" + Radix16(-v) else Radix16(v)
  }

  /** `s.padStart(width, fill)` with a one-character filler. */
  function PadStart(s: string, width: nat, fill: char): (r: string)
    ensures |r| == if |s| >= width then |s| else width
  {
    if |s| >= width then s else seq(width - |s|, _ => fill) + s
  }

  /** What `padStart` writes: the input, unchanged, at the end, and only
      the filler before it. (Kept apart from `PadStart` so that formatting
      a colour does not drag these quantified facts along.) */
  lemma PadStartContents(s: string, width: nat, fill: char)
    ensures var r := PadStart(s, width, fill);
      && r[|r| - |s|..] == s
      && (forall i :: 0 <= i < |r| - |s| ==> r[i] == fill)
  {
  }

  /** One channel as `toHex` writes it: `v.toString(16).padStart(2, '0')`. */
  function ChannelHex(v: int): (r: string)
    ensures |r| >= 2
  {
    Radix16Digits(if v < 0 then -v else v);
    PadStart(ToString16(v), 2, '0')
  }

  /** `toHex`: `#` followed by the three padded channels. */
  function ToHex(c: Rgb): (r: string)
    ensures |r| >= 7 && r[0] == '#'
  {
    "#" + ChannelHex(c.r) + ChannelHex(c.g) + ChannelHex(c.b)
  }

  /** A channel is written as exactly two hex digits precisely when it is a
      byte, and those two digits read back as the channel. */
  lemma {:induction false} ChannelHexIsByte(v: int)
    ensures (|ChannelHex(v)| == 2 && AllHex(ChannelHex(v))) <==> 0 <= v < 256
    ensures 0 <= v < 256 ==> AllLowerHex(ChannelHex(v)) && PairValue(ChannelHex(v), 0) == v
    ensures v >= 256 ==> |ChannelHex(v)| >= 3
    ensures v < 0 ==> ChannelHex(v)[0] == '-'
  {
    var t := ToString16(v);
    var h := ChannelHex(v);
    Radix16Digits(if v < 0 then -v else v);
    if v < 0 {
      assert h == t;
      assert !IsHexDigit(h[0]);
    } else if v < 16 {
      var d := Radix16(v);
      assert h == seq(1, _ => '0') + d;
      assert h == "0" + d;
      assert HexValue(d) == 16 * HexValue(d[..0]) + DigitValue(d[0]);
    } else if v < 256 {
      var d := Radix16(v);
      assert h == d;
      assert d[..1][..0] == [];
      assert HexValue(d[..1]) == DigitValue(d[0]);
      assert HexValue(d) == 16 * HexValue(d[..1]) + DigitValue(d[1]);
    }
  }

  /** For byte channels `toHex` yields `#` and six lower-case hex digits whose
      pairs read back as r, g and b. */
  lemma ToHexOfBytes(c: Rgb)
    requires InByteRange(c)
    ensures |ToHex(c)| == 7
    ensures forall i :: 1 <= i < 7 ==> IsLowerHexDigit(ToHex(c)[i])
    ensures PairValue(ToHex(c), 1) == c.r
    ensures PairValue(ToHex(c), 3) == c.g
    ensures PairValue(ToHex(c), 5) == c.b
  {
    ChannelHexIsByte(c.r);
    ChannelHexIsByte(c.g);
    ChannelHexIsByte(c.b);
    ThreePairs(ChannelHex(c.r), ChannelHex(c.g), ChannelHex(c.b));
  }

  lemma ThreePairs(a: string, b: string, d: string)
    requires |a| == 2 && |b| == 2 && |d| == 2
    requires AllLowerHex(a) && AllLowerHex(b) && AllLowerHex(d)
    ensures var s := "#" + a + b + d;
      && |s| == 7 && (forall i :: 1 <= i < 7 ==> IsLowerHexDigit(s[i]))
      && s[1] == a[0] && s[2] == a[1] && s[3] == b[0] && s[4] == b[1] && s[5] == d[0] && s[6] == d[1]
  {
    var s := "#" + a + b + d;
    forall i | 1 <= i < 7 ensures IsLowerHexDigit(s[i]) {
      if i < 3 { assert s[i] == a[i - 1]; }
      else if i < 5 { assert s[i] == b[i - 3]; }
      else { assert s[i] == d[i - 5]; }
    }
  }

  /** No clamping: a channel of 256 or more makes the string longer than seven. */
  lemma ToHexOfWideChannel(c: Rgb)
    requires c.r >= 256 || c.g >= 256 || c.b >= 256
    ensures |ToHex(c)| > 7
  {
    ChannelHexIsByte(c.r);
    ChannelHexIsByte(c.g);
    ChannelHexIsByte(c.b);
  }

  /** Worked values: zero padding and lower-case digits. */
  lemma ToHexExamples()
    ensures ToHex(Rgb(10, 20, 30)) == "#0a141e"
    ensures ToHex(Rgb(1, 2, 3)) == "#010203"
    ensures ToHex(Rgb(255, 0, 0)) == "#ff0000"
  {
    assert ChannelHex(10) == "0a" by { assert Radix16(10) == "a"; }
    assert ChannelHex(20) == "14" by { assert Radix16(1) == "1"; assert Radix16(20) == "14"; }
    assert ChannelHex(30) == "1e" by { assert Radix16(1) == "1"; assert Radix16(30) == "1e"; }
    assert ChannelHex(1) == "01" by { assert Radix16(1) == "1"; }
    assert ChannelHex(2) == "02" by { assert Radix16(2) == "2"; }
    assert ChannelHex(3) == "03" by { assert Radix16(3) == "3"; }
    assert ChannelHex(0) == "00" by { assert Radix16(0) == "0"; }
    assert ChannelHex(255) == "ff" by { assert Radix16(15) == "f"; assert Radix16(255) == "ff"; }
  }

  /** The regular expression `^#?[0-9a-fA-F]{6}$`. */
  predicate HexPattern(s: string) {
    || (|s| == 6 && AllHex(s))
    || (|s| == 7 && s[0] == '#' && AllHex(s[1..]))
  }

  /** `saneHex`: accepts a (possibly absent) string matching the pattern and
      returns it with exactly one leading `#`, digits' case preserved. */
  function SaneHex(x: Option<string>): (r: Option<string>)
    ensures r.Some? <==> x.Some? && HexPattern(x.value)
    ensures r.Some? ==> |r.value| == 7 && r.value[0] == '#' && r.value[1..] == x.value[|x.value| - 6..]
  {
    match x
    case None => None
    case Some(s) =>
      if s != "" && HexPattern(s) then
        assert |s| == 6 ==> '#' !in s;
        Some("#" + RemoveFirst(s, '#'))
      else
        None
  }

  /** A colour in the normalised form `saneHex` produces. */
  predicate IsSaneColor(s: string) {
    |s| == 7 && s[0] == '#' && AllHex(s[1..])
  }

  /** `saneHex` is idempotent, and what it returns is in normalised form. */
  lemma SaneHexIdempotent(x: Option<string>)
    ensures SaneHex(SaneHex(x)) == SaneHex(x)
    ensures SaneHex(x).Some? ==> IsSaneColor(SaneHex(x).value)
  {
    var r := SaneHex(x);
    if r.Some? {
      var s := x.value;
      assert r.value[1..] == s[|s| - 6..];
      assert AllHex(s[|s| - 6..]) by {
        if |s| == 7 {
          assert s[|s| - 6..] == s[1..];
        } else {
          assert s[|s| - 6..] == s;
        }
      }
      assert HexPattern(r.value);
      assert SaneHex(r).value[1..] == r.value[1..];
    }
  }

  /** If `#` followed by three chunks of at least two characters matches the
      pattern, each chunk is exactly two hex digits. */
  lemma PatternSplitsIntoPairs(a: string, b: string, d: string)
    requires |a| >= 2 && |b| >= 2 && |d| >= 2
    requires HexPattern("#" + a + b + d)
    ensures |a| == 2 && |b| == 2 && |d| == 2
    ensures AllHex(a) && AllHex(b) && AllHex(d)
  {
    var s := "#" + a + b + d;
    assert |s| == 7 && AllHex(s[1..]);
    assert s[1..] == a + b + d;
    forall i | 0 <= i < 2 ensures IsHexDigit(a[i]) && IsHexDigit(b[i]) && IsHexDigit(d[i]) {
      assert a[i] == s[1..][i];
      assert b[i] == s[1..][i + 2];
      assert d[i] == s[1..][i + 4];
    }
  }

  lemma SaneHexKeepsByteHex(c: Rgb)
    requires InByteRange(c)
    ensures SaneHex(Some(ToHex(c))) == Some(ToHex(c))
  {
    ToHexOfBytes(c);
    SaneHexKeepsLowerHex(ToHex(c));
  }

  lemma SaneHexKeepsLowerHex(s: string)
    requires |s| == 7 && s[0] == '#'
    requires forall i :: 1 <= i < 7 ==> IsLowerHexDigit(s[i])
    ensures SaneHex(Some(s)) == Some(s)
  {
    assert AllHex(s[1..]) by {
      forall i | 0 <= i < 6 ensures IsHexDigit(s[1..][i]) {
        assert s[1..][i] == s[i + 1];
      }
    }
    assert HexPattern(s);
    assert "#" + s[1..] == s;
  }

  lemma SaneHexRejectsNonByteHex(c: Rgb)
    requires !InByteRange(c)
    ensures SaneHex(Some(ToHex(c))) == None
  {
    if HexPattern(ToHex(c)) {
      var a, b, d := ChannelHex(c.r), ChannelHex(c.g), ChannelHex(c.b);
      assert ToHex(c) == "#" + a + b + d;
      PatternSplitsIntoPairs(a, b, d);
      ChannelHexIsByte(c.r);
      ChannelHexIsByte(c.g);
      ChannelHexIsByte(c.b);
      assert false;
    }
  }

  /** `saneHex` accepts a `toHex` result precisely when every channel is a
      byte, and then returns it unchanged. */
  lemma SaneHexOfToHex(c: Rgb)
    ensures SaneHex(Some(ToHex(c))).Some? <==> InByteRange(c)
    ensures InByteRange(c) ==> SaneHex(Some(ToHex(c))) == Some(ToHex(c))
  {
    if InByteRange(c) {
      SaneHexKeepsByteHex(c);
    } else {
      SaneHexRejectsNonByteHex(c);
    }
  }
}
