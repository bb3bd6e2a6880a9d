/** `hexToRGBA` and the palette selection of hooks/useTheme.ts, with the palettes of
    constants/themes.ts.

    `hexToRGBA` is JavaScript number arithmetic, written out here step by step:
    `parseInt(s, 16)` (leading white space, an optional sign, an optional `0x`, then the
    longest run of hex digits, and NaN when that run is empty), then ToInt32 before the
    signed shift `>>`, and `& 255`. */
module Theme {
  import opened Types

  /** ECMAScript's WhiteSpace and LineTerminator code points, which `parseInt` skips. */
  predicate IsJsWhiteSpace(c: char)
  {
    var u := c as int;
    u == 0x09 || u == 0x0A || u == 0x0B || u == 0x0C || u == 0x0D || u == 0x20 || u == 0xA0
    || u == 0x1680 || (0x2000 <= u <= 0x200A) || u == 0x2028 || u == 0x2029 || u == 0x202F
    || u == 0x205F || u == 0x3000 || u == 0xFEFF
  }

  function TrimStart(s: string): string
  {
    if s != [] && IsJsWhiteSpace(s[0]) then TrimStart(s[1..]) else s
  }

  predicate IsHexDigit(c: char)
  {
    '0' <= c <= '9' || 'a' <= c <= 'f' || 'A' <= c <= 'F'
  }

  function HexDigitValue(c: char): (d: nat)
    requires IsHexDigit(c)
    ensures d < 16
  {
    if '0' <= c <= '9' then c as int - '0' as int
    else if 'a' <= c <= 'f' then c as int - 'a' as int + 10
    else c as int - 'A' as int + 10
  }

  predicate AllHex(s: string)
  {
    s == [] || (IsHexDigit(s[0]) && AllHex(s[1..]))
  }

  /** The longest prefix of `s` made of hex digits. */
  function DigitRun(s: string): (ds: string)
    ensures AllHex(ds)
  {
    if s != [] && IsHexDigit(s[0]) then [s[0]] + DigitRun(s[1..]) else []
  }

  /** The run is a prefix of `s`, and whatever follows it is not a hex digit. */
  lemma {:induction false} DigitRunLongest(s: string)
    ensures |DigitRun(s)| <= |s| && DigitRun(s) == s[..|DigitRun(s)|]
    ensures |DigitRun(s)| < |s| ==> !IsHexDigit(s[|DigitRun(s)|])
  {
    if s != [] && IsHexDigit(s[0]) {
      DigitRunLongest(s[1..]);
      assert DigitRun(s) == [s[0]] + DigitRun(s[1..]);
    }
  }

  /** `parseInt`'s digit loop: each digit multiplies what came before by the radix. */
  function HexValueFrom(acc: nat, ds: string): nat
    requires AllHex(ds)
    decreases ds
  {
    if ds == [] then acc else HexValueFrom(acc * 16 + HexDigitValue(ds[0]), ds[1..])
  }

  /** The number the hex digits `ds` spell, most significant first. */
  function HexValue(ds: string): nat
    requires AllHex(ds)
  {
    HexValueFrom(0, ds)
  }

  function Pow16(n: nat): (p: nat)
    ensures p > 0
  {
    if n == 0 then 1 else 16 * Pow16(n - 1)
  }

  /** `n` more digits multiply the value so far by less than 16^n, plus less than 16^n. */
  lemma {:induction false} HexValueFromBound(acc: nat, ds: string)
    requires AllHex(ds)
    ensures HexValueFrom(acc, ds) < (acc + 1) * Pow16(|ds|)
    decreases ds
  {
    if ds != [] {
      var next := acc * 16 + HexDigitValue(ds[0]);
      var p := Pow16(|ds| - 1);
      assert Pow16(|ds|) == 16 * p;
      HexValueFromBound(next, ds[1..]);
      MulLeq(next + 1, (acc + 1) * 16, p);
      MulAssoc(acc + 1, 16, p);
    }
  }

  lemma MulAssoc(a: nat, b: nat, c: nat)
    ensures a * b * c == a * (b * c)
  {
  }

  lemma MulLeq(a: nat, b: nat, p: nat)
    requires a <= b
    ensures a * p <= b * p
  {
  }

  /** `n` hex digits spell a number below 16^n. */
  lemma HexValueBound(ds: string)
    requires AllHex(ds)
    ensures HexValue(ds) < Pow16(|ds|)
  {
    HexValueFromBound(0, ds);
  }

  /** A JavaScript number, as far as `parseInt` can produce one here. */
  datatype Number = NaN | Int(value: int)

  /** What `parseInt` is left with once white space, the sign and a `0x` prefix are gone. */
  function AfterPrefix(s: string): string
  {
    var t := TrimStart(s);
    var u := if t != [] && (t[0] == '-' || t[0] == '+') then t[1..] else t;
    if |u| >= 2 && u[0] == '0' && (u[1] == 'x' || u[1] == 'X') then u[2..] else u
  }

  /** At most 13 hex digits are parsed, so the value is below 2^52 and a double holds it
      exactly. */
  predicate ExactParse(s: string)
  {
    |DigitRun(AfterPrefix(s))| <= 13
  }

  /** `parseInt(s, 16)` */
  function ParseInt16(s: string): (n: Number)
    requires ExactParse(s)
    ensures n.NaN? <==> DigitRun(AfterPrefix(s)) == []
  {
    var t := TrimStart(s);
    var negative := t != [] && t[0] == '-';
    var ds := DigitRun(AfterPrefix(s));
    if ds == [] then NaN
    else if negative then Int(0 - HexValue(ds)) else Int(HexValue(ds))
  }

  const TwoTo31: int := 0x8000_0000
  const TwoTo32: int := 0x1_0000_0000

  /** ECMAScript ToInt32: NaN becomes 0, an integer is wrapped into [-2^31, 2^31). */
  function ToInt32(n: Number): (r: int)
    ensures -TwoTo31 <= r < TwoTo31
    ensures n.NaN? ==> r == 0
    ensures n.Int? ==> (n.value - r) % TwoTo32 == 0
    ensures n.Int? && -TwoTo31 <= n.value < TwoTo31 ==> r == n.value
  {
    match n
    case NaN => 0
    case Int(v) => var m := v % TwoTo32; if m >= TwoTo31 then m - TwoTo32 else m
  }

  /** `x >> bits` on a 32-bit integer: the sign-propagating shift, which rounds towards
      minus infinity, as Dafny's `/` by a positive divisor does. */
  function ShiftRight(x: int, bits: nat): (r: int)
    ensures Pow2(bits) * r <= x < Pow2(bits) * r + Pow2(bits)
  {
    x / Pow2(bits)
  }

  function Pow2(n: nat): (p: nat)
    ensures p > 0
  {
    if n == 0 then 1 else 2 * Pow2(n - 1)
  }

  lemma Pow2Bytes()
    ensures Pow2(8) == 256 && Pow2(16) == 65536
  {
    assert Pow2(4) == 16;
  }

  /** `x & 255` on a 32-bit integer: the low byte of its two's complement. */
  function LowByte(x: int): (b: int)
    ensures 0 <= b < 256
    ensures (x - b) % 256 == 0
  {
    x % 256
  }

  datatype Rgb = Rgb(r: int, g: int, b: int)

  /** Deleting `#` from the colour: replacing a string pattern touches its first occurrence only. */
  function StripFirstHash(color: string): (r: string)
    ensures |r| + 1 == |color| || r == color
  {
    if color == [] then []
    else if color[0] == '#' then color[1..]
    else [color[0]] + StripFirstHash(color[1..])
  }

  /** Everything before the first '#' and everything after it is kept. */
  lemma {:induction false} StripFirstHashSpec(color: string, k: nat)
    requires k < |color| && color[k] == '#'
    requires forall j :: 0 <= j < k ==> color[j] != '#'
    ensures StripFirstHash(color) == color[..k] + color[k + 1..]
  {
    if k > 0 {
      StripFirstHashSpec(color[1..], k - 1);
      assert color[1..][..k - 1] == color[1..k];
      assert color[..k] == [color[0]] + color[1..k];
    }
  }

  /** A color without '#' is left as it is. */
  lemma {:induction false} StripFirstHashNone(color: string)
    requires forall j :: 0 <= j < |color| ==> color[j] != '#'
    ensures StripFirstHash(color) == color
  {
    if color != [] {
      StripFirstHashNone(color[1..]);
    }
  }

  /** The three channels `hexToRGBA` computes from `color`. */
  function Channels(color: string): (c: Rgb)
    requires ExactParse(StripFirstHash(color))
    ensures 0 <= c.r < 256 && 0 <= c.g < 256 && 0 <= c.b < 256
  {
    Bytes(ToInt32(ParseInt16(StripFirstHash(color))))
  }

  /** `(v >> 16) & 255`, `(v >> 8) & 255` and `v & 255` for the 32-bit integer `v`. */
  function Bytes(v: int): (c: Rgb)
    ensures 0 <= c.r < 256 && 0 <= c.g < 256 && 0 <= c.b < 256
  {
    Rgb(LowByte(ShiftRight(v, 16)), LowByte(ShiftRight(v, 8)), LowByte(v))
  }

  /** Dropping two bytes is dropping one byte twice. */
  lemma ShiftTwice(x: int)
    ensures x / 65536 == (x / 256) / 256
  {
    var q := (x / 256) / 256;
    var r1 := x % 256;
    var r2 := (x / 256) % 256;
    assert x == (q * 256 + r2) * 256 + r1;
    assert x == q * 65536 + (r2 * 256 + r1);
  }

  /** For a value in 0 .. 2^24 - 1 (six hex digits or fewer) the channels are its three
      bytes, so they recombine into it. */
  lemma ChannelsRecombine(color: string)
    requires ExactParse(StripFirstHash(color))
    requires ParseInt16(StripFirstHash(color)).Int?
    requires 0 <= ParseInt16(StripFirstHash(color)).value < 0x100_0000
    ensures var c := Channels(color); c.r * 65536 + c.g * 256 + c.b == ParseInt16(StripFirstHash(color)).value
  {
    var v := ParseInt16(StripFirstHash(color)).value;
    assert ToInt32(ParseInt16(StripFirstHash(color))) == v;
    BytesRecombine(v);
  }

  /** Whatever the parsed integer, even one that ToInt32 wraps or a negative one, the
      channels are bytes 2, 1 and 0 of its two's complement. */
  lemma WrappedBytes(v: int)
    ensures var c := Bytes(ToInt32(Int(v)));
      c.r == (v / 65536) % 256 && c.g == (v / 256) % 256 && c.b == v % 256
  {
    Pow2Bytes();
    var w := ToInt32(Int(v));
    var k := (v - w) / TwoTo32;
    assert v == w + k * TwoTo32;
    DropWhole(w, k * 0x100_0000, 256);
    assert v / 256 == w / 256 + k * 0x100_0000 by {
      DivShift(w, k * 0x100_0000, 256);
    }
    assert v / 65536 == w / 65536 + k * 0x1_0000 by {
      DivShift(w, k * 0x1_0000, 65536);
    }
    DropWhole(w / 256, k * 0x1_0000, 256);
    DropWhole(w / 65536, k * 0x100, 256);
  }

  /** Adding whole multiples of `d` does not change the remainder ... */
  lemma DropWhole(x: int, m: int, d: nat)
    requires d > 0
    ensures (x + m * d) % d == x % d
  {
    DivShift(x, m, d);
  }

  /** ... and adds their number to the quotient. */
  lemma DivShift(x: int, m: int, d: nat)
    requires d > 0
    ensures (x + m * d) / d == x / d + m && (x + m * d) % d == x % d
  {
    var q := x / d;
    assert x + m * d == (q + m) * d + x % d by {
      assert (q + m) * d == q * d + m * d;
    }
    DivModUnique(x + m * d, d, q + m, x % d);
  }

  lemma DivModUnique(a: int, d: int, q: int, r: int)
    requires d > 0 && 0 <= r < d && a == q * d + r
    ensures a / d == q && a % d == r
  {
    var q0, r0 := a / d, a % d;
    assert (q - q0) * d == r0 - r by {
      assert (q - q0) * d == q * d - q0 * d;
    }
    if q > q0 {
      assert (q - q0) * d >= d by {
        MulLeq(1, q - q0, d);
      }
    } else if q < q0 {
      assert (q0 - q) * d >= d by {
        MulLeq(1, q0 - q, d);
      }
    }
  }

  lemma BytesRecombine(v: int)
    requires 0 <= v < 0x100_0000
    ensures var c := Bytes(v); c.r * 65536 + c.g * 256 + c.b == v
  {
    Pow2Bytes();
    ShiftTwice(v);
    var hi := v / 65536;
    var mid := v / 256;
    assert Bytes(v) == Rgb(hi % 256, mid % 256, v % 256);
    assert hi < 256;
    assert mid == hi * 256 + mid % 256;
    assert v == mid * 256 + v % 256;
  }

  /** A color of one to six digits after its `#`, as the palettes use, spells a value the
      channels recombine into. */
  lemma ShortColorRecombines(color: string)
    requires |color| >= 2 && color[0] == '#' && |color| <= 7
    requires AllHex(color[1..])
    ensures ExactParse(StripFirstHash(color))
    ensures var c := Channels(color); c.r * 65536 + c.g * 256 + c.b == HexValue(color[1..])
  {
    var s := color[1..];
    assert StripFirstHash(color) == s;
    assert TrimStart(s) == s;
    assert !(|s| >= 2 && s[0] == '0' && (s[1] == 'x' || s[1] == 'X'));
    assert AfterPrefix(s) == s;
    DigitRunAll(s);
    HexValueBound(s);
    Pow16Mono(|s|, 6);
    assert Pow16(6) == 0x100_0000;
    ChannelsRecombine(color);
  }

  lemma {:induction false} DigitRunAll(s: string)
    requires AllHex(s)
    ensures DigitRun(s) == s
  {
    if s != [] {
      DigitRunAll(s[1..]);
    }
  }

  lemma {:induction false} Pow16Mono(m: nat, n: nat)
    requires m <= n
    ensures Pow16(m) <= Pow16(n)
  {
    if m < n {
      Pow16Mono(m, n - 1);
    }
  }

  predicate AllDecimal(s: string)
  {
    s == [] || (AllDecimal(s[..|s| - 1]) && '0' <= s[|s| - 1] <= '9')
  }

  /** The decimal text of `n`, as a template literal prints an integer. */
  function Decimal(n: nat): (s: string)
    ensures s != [] && AllDecimal(s)
  {
    if n < 10 then [(n + '0' as int) as char]
    else
      var s := Decimal(n / 10) + [(n % 10 + '0' as int) as char];
      assert s[..|s| - 1] == Decimal(n / 10);
      s
  }

  /** Reading decimal digits back. */
  function DecimalValue(s: string): nat
    requires AllDecimal(s)
  {
    if s == [] then 0 else DecimalValue(s[..|s| - 1]) * 10 + (s[|s| - 1] as int - '0' as int)
  }

  /** The printed number reads back as itself ... */
  lemma {:induction false} DecimalRoundTrip(n: nat)
    ensures DecimalValue(Decimal(n)) == n
  {
    if n >= 10 {
      DecimalRoundTrip(n / 10);
      var s := Decimal(n);
      assert s[..|s| - 1] == Decimal(n / 10);
    }
  }

  /** ... and has no leading zero. */
  lemma {:induction false} DecimalNoLeadingZero(n: nat)
    ensures |Decimal(n)| > 1 ==> Decimal(n)[0] != '0'
    ensures Decimal(n)[0] == '0' ==> n == 0
  {
    if n >= 10 {
      DecimalNoLeadingZero(n / 10);
    }
  }

  /** `hexToRGBA(color, alpha)`; `alpha` is the text the number prints as, "1" by default. */
  function HexToRgba(color: string, alpha: string): (t: string)
    requires ExactParse(StripFirstHash(color))
    ensures |t| > 5 + |alpha| && t[..5] == "rgba(" && t[|t| - |alpha| - 1..] == alpha + ")"
  {
    RgbaText(Channels(color), alpha)
  }

  /** The printed colour: the three channels in decimal and the alpha, comma separated,
      inside `rgba(` and `)`. */
  function RgbaText(c: Rgb, alpha: string): (t: string)
    requires c.r >= 0 && c.g >= 0 && c.b >= 0
    ensures |t| > 5 + |alpha| && t[..5] == "rgba(" && t[|t| - |alpha| - 1..] == alpha + ")"
  {
    "rgba(" + Decimal(c.r) + ", " + Decimal(c.g) + ", " + Decimal(c.b) + ", " + alpha + ")"
  }

  const DefaultAlpha := "1"

  /** "#fff" parses as the number 0xfff. */
  lemma ShortWhiteParse()
    ensures ExactParse(StripFirstHash("#fff"))
    ensures ParseInt16(StripFirstHash("#fff")) == Int(0xfff)
  {
    assert StripFirstHash("#fff") == "fff";
    assert AfterPrefix("fff") == "fff";
    assert DigitRun("fff") == "fff";
    assert HexValue("fff") == 0xfff;
  }

  /** Three-digit colours are not expanded: "#fff" is not white but rgb(0, 15, 255). */
  lemma ShortWhiteChannels()
    ensures ExactParse(StripFirstHash("#fff"))
    ensures Channels("#fff") == Rgb(0, 15, 255)
  {
    ShortWhiteParse();
    Pow2Bytes();
    var v := ToInt32(ParseInt16(StripFirstHash("#fff")));
    assert v == 0xfff;
    assert ShiftRight(v, 16) == 0 && ShiftRight(v, 8) == 15;
  }

  /** ... which the theme's `rgba` prints with the default alpha. */
  lemma ShortWhite()
    ensures ExactParse(StripFirstHash("#fff"))
    ensures HexToRgba("#fff", DefaultAlpha) == "rgba(0, 15, 255, 1)"
  {
    ShortWhiteChannels();
    PrintedChannels();
  }

  lemma PrintedChannels()
    ensures RgbaText(Rgb(0, 15, 255), DefaultAlpha) == "rgba(0, 15, 255, 1)"
  {
    assert Decimal(0) == "0" && Decimal(15) == "15";
    assert Decimal(25) == "25" && Decimal(255) == "255";
  }

  /** Only the first '#' goes, and a second one stops `parseInt` before any digit: NaN,
      which ToInt32 makes 0. */
  lemma DoubleHash()
    ensures ExactParse(StripFirstHash("##fff"))
    ensures Channels("##fff") == Rgb(0, 0, 0)
  {
    assert StripFirstHash("##fff") == "#fff";
    assert TrimStart("#fff") == "#fff";
    assert AfterPrefix("#fff") == "#fff";
    assert DigitRun("#fff") == [];
  }

  /** A palette (`ThemeHex`). */
  datatype ThemeHex = ThemeHex(
    background: string, backgroundAlt: string, foreground: string,
    primary: string, warn: string, danger: string)

  const Dark := ThemeHex("#151513", "#282C25", "#ffffff", "#b7e570", "#FACC15", "#EF4444")
  const Light := ThemeHex("#fff", "#eee", "#000", "#b7e570", "#FACC15", "#EF4444")

  /** `useTheme()` for the system colour scheme `scheme` (which may be missing); both
      results carry the same `rgba`, `HexToRgba`. */
  function UseTheme(scheme: Option<string>): (t: ThemeHex)
    ensures t == Dark <==> scheme == Some("dark")
    ensures t == Light <==> scheme != Some("dark")
  {
    if scheme == Some("dark") then Dark else Light
  }
}
