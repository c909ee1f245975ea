/** The theme hook and its colour helpers: which scheme is in effect (the
    stored preference, or the system's for 'auto'), the palette and the
    shadows that follow from it, `#RRGGBB` parsing for `hexToRgba`, and
    the black-or-white text colour `getContrastColor` picks for a
    background. */
module Theme {
  import opened Common
  import Stores

  // ---------------------------------------------------------------------
  // Effective scheme, palette and shadows
  // ---------------------------------------------------------------------

  /** A concrete colour scheme, as `useColorScheme` reports it. */
  datatype Scheme = LightScheme | DarkScheme

  /** `currentTheme === 'auto' ? systemColorScheme || 'light' : currentTheme`;
      `system` is None when the platform reports no scheme. */
  function EffectiveTheme(pref: Stores.ThemePreference, system: Option<Scheme>): (r: Scheme)
    ensures pref == Stores.Light ==> r == LightScheme
    ensures pref == Stores.Dark ==> r == DarkScheme
    ensures pref == Stores.Auto && system.Some? ==> r == system.value
    ensures pref == Stores.Auto && system.None? ==> r == LightScheme
  {
    match pref
    case Auto => system.GetOr(LightScheme)
    case Light => LightScheme
    case Dark => DarkScheme
  }

  /** `isDark`. */
  predicate IsDark(pref: Stores.ThemePreference, system: Option<Scheme>)
  {
    EffectiveTheme(pref, system) == DarkScheme
  }

  /** Dark mode is on exactly when it is chosen, or left to a system that
      reports dark; a system without a scheme gives light. */
  lemma IsDarkIff(pref: Stores.ThemePreference, system: Option<Scheme>)
    ensures IsDark(pref, system) <==> pref == Stores.Dark || (pref == Stores.Auto && system == Some(DarkScheme))
  {
  }

  /** The colours the screens use most: background and text. */
  datatype Palette = Palette(primary: string, background: string, text: string)

  const LightColors := Palette("#6366F1", "#FFFFFF", "#1F2937")
  const DarkColors := Palette("#818CF8", "#0F172A", "#F8FAFC")

  /** `colors`: the dark palette exactly when `isDark`. */
  function Colors(pref: Stores.ThemePreference, system: Option<Scheme>): (r: Palette)
    ensures r == DarkColors <==> IsDark(pref, system)
    ensures r == LightColors <==> !IsDark(pref, system)
  {
    if IsDark(pref, system) then DarkColors else LightColors
  }

  /** One entry of `shadows`; the opacity in hundredths. */
  datatype Shadow = Shadow(color: string, offsetWidth: int, offsetHeight: int, opacity: int, radius: int, elevation: int)

  datatype ShadowScale = ShadowScale(none: Shadow, sm: Shadow, md: Shadow, lg: Shadow, xl: Shadow)

  const BaseShadows := ShadowScale(
    Shadow("transparent", 0, 0, 0, 0, 0),
    Shadow("#000", 0, 1, 5, 2, 1),
    Shadow("#000", 0, 4, 10, 6, 3),
    Shadow("#000", 0, 10, 15, 15, 6),
    Shadow("#000", 0, 20, 25, 25, 10))

  /** The hook's `shadows`: in dark mode sm, md, lg and xl get colour
      '#000' and opacity 0.3, 0.4, 0.5 and 0.6; 'none' is kept. */
  function ThemeShadows(isDark: bool): ShadowScale
  {
    if !isDark then BaseShadows
    else BaseShadows.(
      sm := BaseShadows.sm.(color := "#000", opacity := 30),
      md := BaseShadows.md.(color := "#000", opacity := 40),
      lg := BaseShadows.lg.(color := "#000", opacity := 50),
      xl := BaseShadows.xl.(color := "#000", opacity := 60))
  }

  /** Shadow sizes agree in both modes, only colour and opacity differ,
      dark shadows are stronger at every size, and grow with the size. */
  lemma DarkShadowsOnlyDarken()
    ensures ThemeShadows(false) == BaseShadows
    ensures ThemeShadows(true).none == BaseShadows.none
    ensures var d := ThemeShadows(true);
            && d.sm == BaseShadows.sm.(opacity := d.sm.opacity)
            && d.md == BaseShadows.md.(opacity := d.md.opacity)
            && d.lg == BaseShadows.lg.(opacity := d.lg.opacity)
            && d.xl == BaseShadows.xl.(opacity := d.xl.opacity)
            && BaseShadows.sm.opacity < d.sm.opacity && BaseShadows.md.opacity < d.md.opacity
            && BaseShadows.lg.opacity < d.lg.opacity && BaseShadows.xl.opacity < d.xl.opacity
            && d.sm.opacity < d.md.opacity < d.lg.opacity < d.xl.opacity
  {
  }

  // ---------------------------------------------------------------------
  // Hexadecimal colours
  // ---------------------------------------------------------------------

  /** The value of a base-16 digit, either case; None for any other character. */
  function HexDigitValue(c: char): (r: Option<nat>)
    ensures r.Some? ==> r.value < 16
  {
    if '0' <= c <= '9' then Some(c as int - '0' as int)
    else if 'a' <= c <= 'f' then Some(c as int - 'a' as int + 10)
    else if 'A' <= c <= 'F' then Some(c as int - 'A' as int + 10)
    else None
  }

  /** The number of leading base-16 digits. */
  function HexPrefixLength(s: string): (n: nat)
    ensures n <= |s|
    ensures forall k :: 0 <= k < n ==> HexDigitValue(s[k]).Some?
    ensures n < |s| ==> HexDigitValue(s[n]).None?
  {
    if s == [] || HexDigitValue(s[0]).None? then 0 else 1 + HexPrefixLength(s[1..])
  }

  /** The number the base-16 digits `d` spell, most significant first. */
  function HexValue(d: string): (v: nat)
    requires forall k :: 0 <= k < |d| ==> HexDigitValue(d[k]).Some?
    ensures |d| <= 1 ==> v < 16
    ensures |d| == 2 ==> v < 256
    decreases |d|
  {
    if d == [] then 0
    else
      var init := d[..|d| - 1];
      assert forall k :: 0 <= k < |init| ==> init[k] == d[k];
      HexValue(init) * 16 + HexDigitValue(d[|d| - 1]).value
  }

  /** `parseInt(s, 16)` on an argument without leading space, sign or
      '0x': the value of the leading base-16 digits, and None (NaN) when
      there are none. */
  function ParseHex(s: string): (r: Option<nat>)
    ensures r.None? <==> s == [] || HexDigitValue(s[0]).None?
  {
    var n := HexPrefixLength(s);
    if n == 0 then None else Some(HexValue(s[..n]))
  }

  /** `s.slice(lo, hi)` (and `s.substr(lo, hi - lo)`) for 0 <= lo <= hi:
      the bounds are cut back to the length. */
  function Slice(s: string, lo: nat, hi: nat): (r: string)
    requires lo <= hi
    ensures hi <= |s| ==> r == s[lo..hi]
    ensures |r| <= hi - lo
  {
    var b := if hi < |s| then hi else |s|;
    var a := if lo < b then lo else b;
    s[a..b]
  }

  /** The three channels `hexToRgba` reads from characters 1-2, 3-4 and 5-6. */
  datatype Channels = Channels(r: Option<nat>, g: Option<nat>, b: Option<nat>)

  function RgbaChannels(hex: string): Channels
  {
    Channels(ParseHex(Slice(hex, 1, 3)), ParseHex(Slice(hex, 3, 5)), ParseHex(Slice(hex, 5, 7)))
  }

  /** A channel as the template literal prints it. */
  function ChannelText(c: Option<nat>): string
  {
    if c.Some? then NatToString(c.value) else "NaN"
  }

  /** `hexToRgba(hex, alpha)`, with `alpha` as the text it prints as. */
  function HexToRgba(hex: string, alpha: string): string
  {
    var ch := RgbaChannels(hex);
    "rgba(" + ChannelText(ch.r) + ", " + ChannelText(ch.g) + ", " + ChannelText(ch.b) + ", " + alpha + ")"
  }

  /** An upper-case base-16 digit. */
  function HexDigitChar(v: nat): (c: char)
    requires v < 16
    ensures HexDigitValue(c) == Some(v)
  {
    if v < 10 then ('0' as int + v) as char else ('A' as int + v - 10) as char
  }

  /** A channel as two base-16 digits. */
  function HexByte(v: nat): (r: string)
    requires v < 256
    ensures |r| == 2
  {
    [HexDigitChar(v / 16), HexDigitChar(v % 16)]
  }

  /** Two base-16 digits parse back to their value. */
  lemma ParseHexByte(v: nat)
    requires v < 256
    ensures ParseHex(HexByte(v)) == Some(v)
  {
    var d := HexByte(v);
    assert HexPrefixLength(d[1..]) == 1;
    assert d[..2] == d;
    assert d[..1] == [d[0]];
    assert HexValue([d[0]]) == v / 16 by {
      assert [d[0]][..0] == [];
    }
  }

  /** `#RRGGBB` for three channels. */
  function HexColor(r: nat, g: nat, b: nat): (s: string)
    requires r < 256 && g < 256 && b < 256
    ensures |s| == 7 && s[0] == '#'
  {
    "#" + HexByte(r) + HexByte(g) + HexByte(b)
  }

  /** `hexToRgba` reads back the channels of any `#RRGGBB` colour. */
  lemma RgbaChannelsRoundTrip(r: nat, g: nat, b: nat)
    requires r < 256 && g < 256 && b < 256
    ensures RgbaChannels(HexColor(r, g, b)) == Channels(Some(r), Some(g), Some(b))
  {
    var s := HexColor(r, g, b);
    assert s[1..3] == HexByte(r) && s[3..5] == HexByte(g) && s[5..7] == HexByte(b);
    ParseHexByte(r);
    ParseHexByte(g);
    ParseHexByte(b);
  }

  /** On a `#RRGGBB` colour, `hexToRgba` prints the three channels in
      decimal. */
  lemma HexToRgbaOfHexColor(r: nat, g: nat, b: nat, alpha: string)
    requires r < 256 && g < 256 && b < 256
    ensures HexToRgba(HexColor(r, g, b), alpha)
            == "rgba(" + NatToString(r) + ", " + NatToString(g) + ", " + NatToString(b) + ", " + alpha + ")"
  {
    RgbaChannelsRoundTrip(r, g, b);
  }

  /** `s.replace('#', '')`: the first '#' removed, if any. */
  function RemoveFirstHash(s: string): (r: string)
    ensures '#' !in s ==> r == s
    ensures |s| > 0 && s[0] == '#' ==> r == s[1..]
  {
    if s == [] then []
    else if s[0] == '#' then s[1..]
    else [s[0]] + RemoveFirstHash(s[1..])
  }

  /** The channels `getContrastColor` reads: characters 0-1, 2-3 and 4-5
      once the '#' is gone. */
  function ContrastChannels(backgroundColor: string): Channels
  {
    var hex := RemoveFirstHash(backgroundColor);
    Channels(ParseHex(Slice(hex, 0, 2)), ParseHex(Slice(hex, 2, 4)), ParseHex(Slice(hex, 4, 6)))
  }

  /** The luminance test `(0.299 r + 0.587 g + 0.114 b) / 255 > 0.5` of
      `getContrastColor`, in double-precision arithmetic, on byte channels.
      It is the integer comparison `299 r + 587 g + 114 b > 127500` except
      at (218, 58, 248): the weighted sum is exactly 127500 there, but the
      rounded products add up to slightly more than 127.5. */
  predicate LuminanceAboveHalf(r: nat, g: nat, b: nat)
  {
    299 * r + 587 * g + 114 * b > 127500 || (r, g, b) == (218, 58, 248)
  }

  /** `getContrastColor`: black on a light background, white otherwise; a
      NaN channel makes the comparison false. */
  function ContrastColor(backgroundColor: string): (r: string)
    ensures r == "#000000" || r == "#FFFFFF"
    ensures var ch := ContrastChannels(backgroundColor);
            r == "#000000" <==> ch.r.Some? && ch.g.Some? && ch.b.Some? && LuminanceAboveHalf(ch.r.value, ch.g.value, ch.b.value)
  {
    var ch := ContrastChannels(backgroundColor);
    if ch.r.Some? && ch.g.Some? && ch.b.Some? && LuminanceAboveHalf(ch.r.value, ch.g.value, ch.b.value)
    then "#000000" else "#FFFFFF"
  }

  /** On a `#RRGGBB` colour both helpers read the same channels, and the
      contrast colour is black exactly when the weighted brightness is
      above half, or at the one colour where rounding tips it over. */
  lemma ContrastOfHexColor(r: nat, g: nat, b: nat)
    requires r < 256 && g < 256 && b < 256
    ensures ContrastChannels(HexColor(r, g, b)) == RgbaChannels(HexColor(r, g, b))
    ensures ContrastColor(HexColor(r, g, b)) == "#000000" <==>
              299 * r + 587 * g + 114 * b > 127500 || (r, g, b) == (218, 58, 248)
  {
    var s := HexColor(r, g, b);
    var hex := RemoveFirstHash(s);
    assert hex == s[1..];
    assert hex[0..2] == s[1..3] && hex[2..4] == s[3..5] && hex[4..6] == s[5..7];
    RgbaChannelsRoundTrip(r, g, b);
  }

  /** Brighter never gives white where darker gives black: raising any
      channel can only turn white text into black. */
  lemma ContrastMonotone(r: nat, g: nat, b: nat, r2: nat, g2: nat, b2: nat)
    requires r <= r2 < 256 && g <= g2 < 256 && b <= b2 < 256
    ensures ContrastColor(HexColor(r, g, b)) == "#000000" ==> ContrastColor(HexColor(r2, g2, b2)) == "#000000"
  {
    ContrastOfHexColor(r, g, b);
    ContrastOfHexColor(r2, g2, b2);
    LuminanceMonotone(r, g, b, r2, g2, b2);
  }

  /** The luminance test is monotone in every channel, the rounding
      exception included: any brighter colour is strictly above half. */
  lemma LuminanceMonotone(r: nat, g: nat, b: nat, r2: nat, g2: nat, b2: nat)
    requires r <= r2 && g <= g2 && b <= b2
    ensures LuminanceAboveHalf(r, g, b) ==> LuminanceAboveHalf(r2, g2, b2)
  {
    if (r, g, b) == (218, 58, 248) && (r2, g2, b2) != (218, 58, 248) {
      assert r < r2 || g < g2 || b < b2;
    }
  }

  /** The helper agrees with the palettes: it picks dark text on the light
      background and light text on the dark one. */
  lemma ContrastOnLightBackground()
    ensures ContrastColor(LightColors.background) == "#000000"
  {
    assert HexByte(255) == "FF";
    assert LightColors.background == HexColor(255, 255, 255);
    ContrastOfHexColor(255, 255, 255);
  }

  lemma ContrastOnDarkBackground()
    ensures ContrastColor(DarkColors.background) == "#FFFFFF"
  {
    assert HexByte(15) == "0F" && HexByte(23) == "17" && HexByte(42) == "2A";
    assert DarkColors.background == HexColor(15, 23, 42);
    ContrastOfHexColor(15, 23, 42);
  }
}
