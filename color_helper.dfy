/** `adjust_color_brightness`: scales each channel of a colour by `1 + level / 10`, clamps it
    to 0..255 and formats the result as a `#RRGGBB` string with upper-case hex digits. */
module ColorHelper {
  import opened Wrappers
  import opened Strings

  /** The `level` argument: a Python int, or a value of any other type. */
  datatype Level = IntLevel(n: int) | NotInt

  /** The `color` argument: a string, a tuple of numbers, or a value of any other type. */
  datatype ColorArg = Str(s: string) | Tuple(items: seq<real>) | OtherColor

  /** Three channel values. */
  datatype Rgb<T> = Rgb(r: T, g: T, b: T)

  predicate ValidLevel(level: Level) {
    level.IntLevel? && -5 <= level.n <= 5
  }

  /** The value of an ASCII hex digit of either case. */
  function HexDigit(c: char): Option<nat> {
    if '0' <= c <= '9' then Some(c as int - '0' as int)
    else if 'a' <= c <= 'f' then Some(c as int - 'a' as int + 10)
    else if 'A' <= c <= 'F' then Some(c as int - 'A' as int + 10)
    else None
  }

  /** `int(p, 16)` on a two-character string: two hex digits, a sign and one digit, or one
      digit with surrounding whitespace; anything else is refused with a ValueError. */
  function ParsePair(p: string): (r: Option<int>)
    requires |p| == 2
    ensures r.Some? ==> -15 <= r.value <= 255
  {
    var hi, lo := HexDigit(p[0]), HexDigit(p[1]);
    if hi.Some? && lo.Some? then Some(16 * hi.value + lo.value)
    else if p[0] == '+' && lo.Some? then Some(lo.value)
    else if p[0] == '-' && lo.Some? then Some(-(lo.value as int))
    else if IsWhitespace(p[0]) && lo.Some? then Some(lo.value)
    else if hi.Some? && IsWhitespace(p[1]) then Some(hi.value)
    else None
  }

  /** The channels the colour argument stands for, before any scaling. */
  function Channels(color: ColorArg): Result<Rgb<real>, PyError> {
    match color
    case Str(s) =>
      var t := LStrip(s, '#');
      if |t| != 6 then Failure(ValueError)
      else
        var r, g, b := ParsePair(t[0..2]), ParsePair(t[2..4]), ParsePair(t[4..6]);
        if r.Some? && g.Some? && b.Some? then Success(Rgb(r.value as real, g.value as real, b.value as real))
        else Failure(ValueError)
    case Tuple(items) =>
      if |items| == 3 then Success(Rgb(items[0], items[1], items[2])) else Failure(ValueError)
    case OtherColor => Failure(ValueError)
  }

  /** Python's `round` on a number: to the nearest integer, a tie to the even one. */
  function RoundHalfEven(x: real): (n: int)
    ensures x - 1.0 / 2.0 <= n as real <= x + 1.0 / 2.0
    ensures n as real - x == 1.0 / 2.0 || x - n as real == 1.0 / 2.0 ==> n % 2 == 0
  {
    var f := x.Floor;
    var d := x - f as real;
    if d < 1.0 / 2.0 then f
    else if d > 1.0 / 2.0 then f + 1
    else if f % 2 == 0 then f
    else f + 1
  }

  function Clamp(n: int): (c: int)
    ensures 0 <= c <= 255
    ensures 0 <= n <= 255 ==> c == n
    ensures n < 0 ==> c == 0
    ensures n > 255 ==> c == 255
  {
    if n < 0 then 0 else if n > 255 then 255 else n
  }

  /** One channel after `clamp(c * factor)`, with `factor = 1 + level / 10`. */
  function AdjustChannel(c: real, level: int): int {
    Clamp(RoundHalfEven(c * (10 + level) as real / 10.0))
  }

  function AdjustAll(rgb: Rgb<real>, level: int): Rgb<int> {
    Rgb(AdjustChannel(rgb.r, level), AdjustChannel(rgb.g, level), AdjustChannel(rgb.b, level))
  }

  /** The upper-case hex digit of `d`. */
  function UpperDigit(d: nat): char
    requires d < 16
  {
    if d < 10 then ('0' as int + d) as char else ('A' as int + d - 10) as char
  }

  /** `"{:02X}".format(n)`. */
  function Hex2(n: int): string
    requires 0 <= n <= 255
  {
    [UpperDigit(n / 16), UpperDigit(n % 16)]
  }

  /** `"#{:02X}{:02X}{:02X}".format(r, g, b)`. */
  function FormatHex(c: Rgb<int>): string
    requires 0 <= c.r <= 255 && 0 <= c.g <= 255 && 0 <= c.b <= 255
  {
    "#" + Hex2(c.r) + Hex2(c.g) + Hex2(c.b)
  }

  /** Reads a `#RRGGBB` string with upper-case digits back as its three channels. */
  function ParseOutput(s: string): Option<Rgb<int>> {
    if |s| == 7 && s[0] == '#' && forall i :: 1 <= i < 7 ==> IsUpperHex(s[i]) then
      Some(Rgb(16 * HexDigit(s[1]).value + HexDigit(s[2]).value,
               16 * HexDigit(s[3]).value + HexDigit(s[4]).value,
               16 * HexDigit(s[5]).value + HexDigit(s[6]).value))
    else None
  }

  predicate IsUpperHex(c: char) {
    '0' <= c <= '9' || 'A' <= c <= 'F'
  }

  /** `adjust_color_brightness(color, level)`. The level is checked first, then the colour;
      every refusal is a ValueError. The result is a string, not the tuple the docstring names. */
  function AdjustColorBrightness(color: ColorArg, level: Level): (r: Result<string, PyError>)
    ensures r.Success? <==> ValidLevel(level) && Channels(color).Success?
    ensures r.Failure? ==> r.error == ValueError
    ensures r.Success? ==> ParseOutput(r.value) == Some(AdjustAll(Channels(color).value, level.n))
  {
    if !ValidLevel(level) then Failure(ValueError)
    else
      match Channels(color)
      case Failure(e) => Failure(e)
      case Success(rgb) =>
        var out := AdjustAll(rgb, level.n);
        FormatOutputRoundTrip(out);
        Success(FormatHex(out))
  }

  lemma Hex2RoundTrip(n: int)
    requires 0 <= n <= 255
    ensures IsUpperHex(Hex2(n)[0]) && IsUpperHex(Hex2(n)[1])
    ensures 16 * HexDigit(Hex2(n)[0]).value + HexDigit(Hex2(n)[1]).value == n
  {
  }

  /** Every formatted colour is read back as the channels it was made from. */
  lemma FormatOutputRoundTrip(c: Rgb<int>)
    requires 0 <= c.r <= 255 && 0 <= c.g <= 255 && 0 <= c.b <= 255
    ensures |FormatHex(c)| == 7 && FormatHex(c)[0] == '#'
    ensures ParseOutput(FormatHex(c)) == Some(c)
  {
    var s := FormatHex(c);
    Hex2RoundTrip(c.r);
    Hex2RoundTrip(c.g);
    Hex2RoundTrip(c.b);
    assert s[1..3] == Hex2(c.r) && s[3..5] == Hex2(c.g) && s[5..7] == Hex2(c.b);
  }

  /** Rounding never reverses the order of two numbers. */
  lemma RoundMonotone(x: real, y: real)
    requires x <= y
    ensures RoundHalfEven(x) <= RoundHalfEven(y)
  {
  }

  /** A higher level never darkens a channel. */
  lemma AdjustChannelMonotone(c: real, l1: int, l2: int)
    requires -5 <= l1 <= l2 <= 5
    ensures AdjustChannel(c, l1) <= AdjustChannel(c, l2)
  {
    var x1, x2 := c * (10 + l1) as real / 10.0, c * (10 + l2) as real / 10.0;
    if c >= 0.0 {
      assert c * (10 + l1) as real <= c * (10 + l2) as real by {
        assert c * (10 + l2) as real - c * (10 + l1) as real == c * (l2 - l1) as real;
      }
      RoundMonotone(x1, x2);
    } else {
      assert c * (10 + l1) as real < 0.0;
      assert x1 < 0.0;
      RoundMonotone(x1, 0.0);
    }
  }

  /** For every colour, a higher level yields channels that are each at least as large. */
  lemma BrighterWithLevel(color: ColorArg, l1: int, l2: int)
    requires -5 <= l1 <= l2 <= 5 && Channels(color).Success?
    ensures var r1, r2 := AdjustColorBrightness(color, IntLevel(l1)), AdjustColorBrightness(color, IntLevel(l2));
      && r1.Success? && r2.Success?
      && var c1, c2 := ParseOutput(r1.value).value, ParseOutput(r2.value).value;
      c1.r <= c2.r && c1.g <= c2.g && c1.b <= c2.b
  {
    var rgb := Channels(color).value;
    AdjustChannelMonotone(rgb.r, l1, l2);
    AdjustChannelMonotone(rgb.g, l1, l2);
    AdjustChannelMonotone(rgb.b, l1, l2);
  }

  /** An ASCII hex digit in upper case. */
  function Upper(c: char): char {
    if 'a' <= c <= 'f' then (c as int - 'a' as int + 'A' as int) as char else c
  }

  /** The six-digit hex colour `t` (after its leading `#` are stripped). */
  predicate PlainHex(t: string) {
    |t| == 6 && forall i :: 0 <= i < 6 ==> HexDigit(t[i]).Some?
  }

  /** At level 0 the factor is exactly 1: a hex colour comes back as itself, upper-cased,
      behind a single `#`. */
  lemma LevelZeroIdentity(s: string)
    requires PlainHex(LStrip(s, '#'))
    ensures var t := LStrip(s, '#');
      AdjustColorBrightness(Str(s), IntLevel(0))
        == Success(['#', Upper(t[0]), Upper(t[1]), Upper(t[2]), Upper(t[3]), Upper(t[4]), Upper(t[5])])
  {
    var t := LStrip(s, '#');
    forall i | 0 <= i < 6 ensures HexDigit(t[i]).Some? { }
    PairIdentity(t[0..2]);
    PairIdentity(t[2..4]);
    PairIdentity(t[4..6]);
    var n1, n2, n3 := ParsePair(t[0..2]).value, ParsePair(t[2..4]).value, ParsePair(t[4..6]).value;
    assert Channels(Str(s)) == Success(Rgb(n1 as real, n2 as real, n3 as real));
    assert AdjustAll(Channels(Str(s)).value, 0) == Rgb(n1, n2, n3);
    assert t[0..2][0] == t[0] && t[0..2][1] == t[1] && t[2..4][0] == t[2] && t[2..4][1] == t[3];
    assert t[4..6][0] == t[4] && t[4..6][1] == t[5];
    assert FormatHex(Rgb(n1, n2, n3))
      == ['#', Upper(t[0]), Upper(t[1]), Upper(t[2]), Upper(t[3]), Upper(t[4]), Upper(t[5])];
  }

  /** A pair of hex digits, scaled by 1, formats back to the same digits in upper case. */
  lemma PairIdentity(p: string)
    requires |p| == 2 && HexDigit(p[0]).Some? && HexDigit(p[1]).Some?
    ensures var n := ParsePair(p).value;
      && 0 <= n <= 255
      && AdjustChannel(n as real, 0) == n
      && Hex2(n) == [Upper(p[0]), Upper(p[1])]
  {
    var n := ParsePair(p).value;
    var hi, lo := HexDigit(p[0]).value, HexDigit(p[1]).value;
    assert n == 16 * hi + lo;
    assert n / 16 == hi && n % 16 == lo;
    assert n as real * (10 + 0) as real / 10.0 == n as real;
    assert RoundHalfEven(n as real) == n;
    DigitUpper(p[0]);
    DigitUpper(p[1]);
  }

  lemma DigitUpper(c: char)
    requires HexDigit(c).Some?
    ensures UpperDigit(HexDigit(c).value) == Upper(c)
  {
  }
}
