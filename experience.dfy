/** The experience levels of `RhythmGame` (`xpLevels`,
    `getCurrentLevelConfig`, `getNextLevelConfig`) and the colour helper
    `adjustColorBrightness` that shades a level colour. */
module Experience {
  import opened Wrappers

  datatype LevelConfig = LevelConfig(level: int, color: string, pointsRequired: int, name: string)

  /** `xpLevels`: seven levels, every one 100 points wide. */
  const XPLevels: seq<LevelConfig> := [
    LevelConfig(1, "#7cb342", 100, "green"),
    LevelConfig(2, "#42a5f5", 100, "blue"),
    LevelConfig(3, "#ab47bc", 100, "purple"),
    LevelConfig(4, "#ef5350", 100, "red"),
    LevelConfig(5, "#ff7043", 100, "orange"),
    LevelConfig(6, "#ffd54f", 100, "gold"),
    LevelConfig(7, "#ffffff", 100, "white")
  ]

  /** `xpPerChallenge`: the points a full victory awards. */
  const XPPerChallenge: int := 60

  /** `xpLevels[level - 1]`, falling back to the last level. */
  function GetCurrentLevelConfig(level: int): (c: LevelConfig)
    ensures c in XPLevels && c.pointsRequired == 100
    ensures 1 <= level <= 7 ==> c.level == level
    ensures !(1 <= level <= 7) ==> c.level == 7
  {
    if 1 <= level <= |XPLevels| then XPLevels[level - 1] else XPLevels[|XPLevels| - 1]
  }

  /** The points the level `level` requires, as `addXP` reads them. */
  function PointsRequired(level: int): (n: int)
    ensures n == 100
  {
    GetCurrentLevelConfig(level).pointsRequired
  }

  /** `xpLevels.length`. */
  function LevelCount(): (n: nat)
    ensures n == |XPLevels| && n == 7
  {
    |XPLevels|
  }

  /** `xpLevels[level]`, or nothing past the last level. */
  function GetNextLevelConfig(level: int): (c: Option<LevelConfig>)
    ensures c.Some? <==> 0 <= level < 7
    ensures c.Some? ==> c.value in XPLevels && c.value.level == level + 1
  {
    if 0 <= level < |XPLevels| then Some(XPLevels[level]) else None
  }

  /** Every level colour is a lower-case `#rrggbb` colour. */
  lemma LevelColorsWellFormed(i: nat)
    requires i < |XPLevels|
    ensures IsLowerHexColor(XPLevels[i].color)
    ensures XPLevels[i].level == i + 1
  {
  }

  predicate IsHexDigit(c: char)
  {
    ('0' <= c <= '9') || ('a' <= c <= 'f') || ('A' <= c <= 'F')
  }

  predicate IsLowerHexDigit(c: char)
  {
    ('0' <= c <= '9') || ('a' <= c <= 'f')
  }

  function DigitValue(c: char): (d: nat)
    requires IsHexDigit(c)
    ensures d < 16
  {
    if '0' <= c <= '9' then (c as int) - ('0' as int)
    else if 'a' <= c <= 'f' then (c as int) - ('a' as int) + 10
    else (c as int) - ('A' as int) + 10
  }

  /** The lower-case digit `Number.prototype.toString(16)` writes. */
  function HexDigit(d: nat): (c: char)
    requires d < 16
    ensures IsLowerHexDigit(c) && DigitValue(c) == d
  {
    if d < 10 then ('0' as int + d) as char else ('a' as int + d - 10) as char
  }

  lemma HexDigitOfValue(c: char)
    requires IsLowerHexDigit(c)
    ensures HexDigit(DigitValue(c)) == c
  {
  }

  predicate AllHex(s: string)
  {
    forall i :: 0 <= i < |s| ==> IsHexDigit(s[i])
  }

  /** `parseInt(s, 16)` of a string of hex digits. */
  function ParseHex(s: string): (v: nat)
    requires AllHex(s)
    ensures v < Pow16(|s|)
  {
    if s == [] then 0
    else ParseHex(s[..|s| - 1]) * 16 + DigitValue(s[|s| - 1])
  }

  function Pow16(k: nat): (p: nat)
    ensures p >= 1
  {
    if k == 0 then 1 else 16 * Pow16(k - 1)
  }

  /** `v` written with exactly `k` lower-case hex digits. */
  function FixedHex(v: nat, k: nat): (s: string)
    ensures |s| == k
    ensures forall i :: 0 <= i < |s| ==> IsLowerHexDigit(s[i])
  {
    if k == 0 then "" else FixedHex(v / 16, k - 1) + [HexDigit(v % 16)]
  }

  /** `Number.prototype.toString(16)` of a non-negative integer. */
  function ToHexString(n: nat): string
  {
    if n < 16 then [HexDigit(n)] else ToHexString(n / 16) + [HexDigit(n % 16)]
  }

  /** `16^k + v` prints as a 1 followed by `v` in exactly `k` digits, which
      is why `adjustColorBrightness` adds `0x1000000` and drops one digit. */
  lemma {:induction false} ToHexLeadingOne(k: nat, v: nat)
    requires v < Pow16(k)
    ensures ToHexString(Pow16(k) + v) == "1" + FixedHex(v, k)
  {
    if k > 0 {
      var p := Pow16(k - 1);
      var n := Pow16(k) + v;
      assert n == 16 * (p + v / 16) + v % 16;
      assert n / 16 == p + v / 16 && n % 16 == v % 16;
      ToHexLeadingOne(k - 1, v / 16);
    }
  }

  /** Parsing undoes fixed-width printing. */
  lemma {:induction false} ParseFixedHex(v: nat, k: nat)
    requires v < Pow16(k)
    ensures AllHex(FixedHex(v, k)) && ParseHex(FixedHex(v, k)) == v
  {
    if k > 0 {
      var s := FixedHex(v, k);
      assert s[..|s| - 1] == FixedHex(v / 16, k - 1);
      ParseFixedHex(v / 16, k - 1);
    }
  }

  /** Printing a parsed lower-case string gives the string back. */
  lemma {:induction false} FixedHexOfParse(s: string)
    requires AllHex(s) && forall i :: 0 <= i < |s| ==> IsLowerHexDigit(s[i])
    ensures FixedHex(ParseHex(s), |s|) == s
  {
    if s != [] {
      var init := s[..|s| - 1];
      var v := ParseHex(s);
      var c := s[|s| - 1];
      assert v / 16 == ParseHex(init) && v % 16 == DigitValue(c);
      FixedHexOfParse(init);
      HexDigitOfValue(c);
      assert s == init + [c];
    }
  }

  predicate IsHexColor(hex: string)
  {
    |hex| == 7 && hex[0] == '#' && AllHex(hex[1..])
  }

  predicate IsLowerHexColor(hex: string)
  {
    |hex| == 7 && hex[0] == '#' && forall i :: 1 <= i < 7 ==> IsLowerHexDigit(hex[i])
  }

  /** The packed value of a colour, `parseInt(hex.replace('#', ''), 16)`. */
  function ColorValue(hex: string): (v: nat)
    requires IsHexColor(hex)
    ensures v < 0x1000000
  {
    assert Pow16(6) == 0x1000000;
    ParseHex(hex[1..])
  }

  datatype Rgb = Rgb(r: int, g: int, b: int)

  /** The channels: `num >> 16`, `(num >> 8) & 0xFF` and `num & 0xFF`. */
  function Channels(hex: string): (c: Rgb)
    requires IsHexColor(hex)
    ensures 0 <= c.r <= 255 && 0 <= c.g <= 255 && 0 <= c.b <= 255
  {
    var num := ColorValue(hex);
    Rgb(num / 0x10000, (num / 0x100) % 0x100, num % 0x100)
  }

  /** `Math.min(255, Math.max(0, x))`. */
  function Clamp(x: int): (r: int)
    ensures 0 <= r <= 255
    ensures 0 <= x <= 255 ==> r == x
    ensures x < 0 ==> r == 0
    ensures x > 255 ==> r == 255
  {
    if x > 255 then 255 else if x < 0 then 0 else x
  }

  /** `adjustColorBrightness` with the step `Math.round(2.55 * percent)`
      already taken as the integer `amt`: every channel moves by `amt`,
      clamped to [0, 255], and the colour is printed back as `#rrggbb`. */
  function AdjustColorBrightness(hex: string, amt: int): (out: string)
    requires IsHexColor(hex)
    ensures IsLowerHexColor(out) && IsHexColor(out)
    ensures Channels(out) == Rgb(Clamp(Channels(hex).r + amt), Clamp(Channels(hex).g + amt), Clamp(Channels(hex).b + amt))
  {
    var c := Channels(hex);
    var r, g, b := Clamp(c.r + amt), Clamp(c.g + amt), Clamp(c.b + amt);
    PrintedColor(r, g, b);
    PrintColor(r, g, b)
  }

  /** `'#' + (0x1000000 + (r << 16) + (g << 8) + b).toString(16).slice(1)`. */
  function PrintColor(r: int, g: int, b: int): string
    requires 0 <= r <= 255 && 0 <= g <= 255 && 0 <= b <= 255
  {
    "#" + ToHexString(0x1000000 + (r * 0x10000 + g * 0x100 + b))[1..]
  }

  /** A printed colour is a lower-case `#rrggbb` colour with the channels it
      was printed from. */
  lemma PrintedColor(r: int, g: int, b: int)
    requires 0 <= r <= 255 && 0 <= g <= 255 && 0 <= b <= 255
    ensures IsLowerHexColor(PrintColor(r, g, b)) && IsHexColor(PrintColor(r, g, b))
    ensures Channels(PrintColor(r, g, b)) == Rgb(r, g, b)
  {
    var v := r * 0x10000 + g * 0x100 + b;
    assert Pow16(6) == 0x1000000;
    ToHexLeadingOne(6, v);
    var out := PrintColor(r, g, b);
    assert out[1..] == FixedHex(v, 6);
    ParseFixedHex(v, 6);
    PackChannels(r, g, b);
  }

  /** Packing three bytes and splitting them again gives the three bytes. */
  lemma PackChannels(r: int, g: int, b: int)
    requires 0 <= r <= 255 && 0 <= g <= 255 && 0 <= b <= 255
    ensures var v := r * 0x10000 + g * 0x100 + b;
      v / 0x10000 == r && (v / 0x100) % 0x100 == g && v % 0x100 == b
  {
    var v := r * 0x10000 + g * 0x100 + b;
    assert v == 0x100 * (r * 0x100 + g) + b;
    assert v / 0x100 == r * 0x100 + g;
  }

  /** A zero step leaves a lower-case colour exactly as it was. */
  lemma AdjustByZero(hex: string)
    requires IsLowerHexColor(hex)
    ensures IsHexColor(hex) && AdjustColorBrightness(hex, 0) == hex
  {
    var s := hex[1..];
    assert AllHex(s);
    var v := ColorValue(hex);
    var c := Channels(hex);
    assert v == c.r * 0x10000 + c.g * 0x100 + c.b;
    FixedHexOfParse(s);
    var out := AdjustColorBrightness(hex, 0);
    ToHexLeadingOne(6, v);
    assert Pow16(6) == 0x1000000;
    assert out[1..] == FixedHex(v, 6);
    assert hex == "#" + s;
  }
}
