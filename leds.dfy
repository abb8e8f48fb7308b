/**
 * ultimonitor/leds.py: the Bob Ross palette the case LEDs are painted from,
 * and the check that decides whether the LED strip has to be repainted.
 * The palette here stops at RGB: the HSV conversion and its rounding are
 * floating point and are not part of this model.
 */
module Leds {
  import opened Wrappers
  import Text

  /** The palette, name -> "#RRGGBB". */
  const HappyColors: map<string, string> := map[
    "SapGreen" := "#22B338",
    "AlizarinCrimson" := "#B33000",
    "VanDykeBrown" := "#B38F6F",
    "DarkSienna" := "#B3573B",
    "MidnightBlack" := "#000000",
    "PrussianBlue" := "#054EB3",
    "PhthaloBlue" := "#2100B3",
    "PhthaloGreen" := "#308AB3",
    "CadmiumYellow" := "#FFEC00",
    "YellowOchre" := "#C79B00",
    "IndianYellow" := "#FFB800",
    "BrightRed" := "#B30000",
    "BrightGreen" := "#00B300",
    "BrightBlue" := "#0000B3",
    "TitaniumWhite" := "#FFFFFF"]

  /** The palette's names in the order the conversion loop visits them. */
  const PaletteNames: seq<string> := [
    "SapGreen", "AlizarinCrimson", "VanDykeBrown", "DarkSienna", "MidnightBlack",
    "PrussianBlue", "PhthaloBlue", "PhthaloGreen", "CadmiumYellow", "YellowOchre",
    "IndianYellow", "BrightRed", "BrightGreen", "BrightBlue", "TitaniumWhite"]

  predicate IsHexDigit(c: char) {
    '0' <= c <= '9' || 'a' <= c <= 'f' || 'A' <= c <= 'F'
  }

  predicate AllHex(s: string) {
    forall i :: 0 <= i < |s| ==> IsHexDigit(s[i])
  }

  function HexDigitValue(c: char): (d: nat)
    requires IsHexDigit(c)
    ensures d < 16
  {
    if '0' <= c <= '9' then c as int - '0' as int
    else if 'a' <= c <= 'f' then c as int - 'a' as int + 10
    else c as int - 'A' as int + 10
  }

  /** The value of a string of hex digits, most significant first. */
  function HexValue(s: string): (r: nat)
    requires AllHex(s)
    ensures |s| <= 1 ==> r < 16
    ensures |s| <= 2 ==> r < 256
  {
    if s == [] then 0 else HexValue(s[..|s| - 1]) * 16 + HexDigitValue(s[|s| - 1])
  }

  /**
   * Python's `int(s, 16)`: surrounding white space, one optional sign and at
   * least one hex digit; anything else raises ValueError, which is None here.
   */
  function ParseHexInt(s: string): Option<int>
  {
    var t := Text.Strip(s);
    if t == [] then None
    else if t[0] == '-' || t[0] == '+' then
      var d := t[1..];
      if d != [] && AllHex(d) then
        Some(if t[0] == '-' then -(HexValue(d) as int) else HexValue(d))
      else None
    else if AllHex(t) then Some(HexValue(t))
    else None
  }

  /** A plain run of hex digits reads as its value. */
  lemma ParseHexDigits(s: string)
    requires AllHex(s) && s != []
    ensures ParseHexInt(s) == Some(HexValue(s))
  {
    assert !Text.IsSpace(s[0]) && !Text.IsSpace(s[|s| - 1]);
    Text.StripUntouched(s);
  }

  /**
   * `[int(colHex[i:i+2], 16) for i in range(0, len(colHex), 2)]`: the
   * consecutive two-character chunks (the last may be one character), each
   * read as hex; one bad chunk makes the whole list fail.
   */
  function HexChunks(s: string): (r: Option<seq<int>>)
    ensures r.Some? ==> |r.value| == (|s| + 1) / 2
    ensures AllHex(s) ==> r.Some?
    ensures AllHex(s) ==> forall k :: 0 <= k < |r.value| ==> 0 <= r.value[k] < 256
    decreases |s|
  {
    if s == [] then Some([])
    else
      var k := if |s| >= 2 then 2 else 1;
      assert AllHex(s) ==> AllHex(s[..k]) && AllHex(s[k..]);
      assert AllHex(s) ==> ParseHexInt(s[..k]) == Some(HexValue(s[..k])) by {
        if AllHex(s) { ParseHexDigits(s[..k]); }
      }
      match ParseHexInt(s[..k])
      case None => None
      case Some(v) =>
        match HexChunks(s[k..])
        case None => None
        case Some(rest) => Some([v] + rest)
  }

  /**
   * The RGB triple of one palette entry: drop the leading character, chunk
   * the rest, keep the first three values. A bad chunk (ValueError) or fewer
   * than three chunks (IndexError) is None.
   */
  function ParseRgb(color: string): (r: Option<seq<int>>)
    ensures r.Some? ==> |r.value| == 3
  {
    var colHex := if color == [] then [] else color[1..];
    match HexChunks(colHex)
    case None => None
    case Some(c) => if |c| < 3 then None else Some(c[..3])
  }

  /** A leading pair of hex digits contributes its value as the first chunk. */
  lemma HexChunksPair(s: string)
    requires |s| >= 2 && AllHex(s)
    ensures AllHex(s[..2]) && AllHex(s[2..])
    ensures HexChunks(s) == Some([HexValue(s[..2])] + HexChunks(s[2..]).value)
  {
    assert AllHex(s[..2]) && AllHex(s[2..]);
    ParseHexDigits(s[..2]);
  }

  /** A well-formed "#RRGGBB" yields three values in 0..255, one per two-digit chunk. */
  lemma ParseHexColor(color: string)
    requires |color| == 7 && AllHex(color[1..])
    ensures AllHex(color[1..3]) && AllHex(color[3..5]) && AllHex(color[5..7])
    ensures ParseRgb(color).Some?
    ensures var c := ParseRgb(color).value;
      && (forall k :: 0 <= k < 3 ==> 0 <= c[k] < 256)
      && c[0] == HexValue(color[1..3])
      && c[1] == HexValue(color[3..5])
      && c[2] == HexValue(color[5..7])
  {
    var s := color[1..];
    var s2 := s[2..];
    var s4 := s2[2..];
    assert s[..2] == color[1..3] && s2[..2] == color[3..5] && s4[..2] == color[5..7];
    assert AllHex(s[..2]) && AllHex(s2[..2]) && AllHex(s4[..2]);
    var v0, v1, v2 := HexValue(color[1..3]), HexValue(color[3..5]), HexValue(color[5..7]);
    HexChunksPair(s4);
    assert s4[2..] == [];
    assert HexChunks(s4[2..]) == Some([]);
    assert [v2] + [] == [v2];
    assert HexChunks(s4) == Some([v2]);
    HexChunksPair(s2);
    assert [v1] + [v2] == [v1, v2];
    assert HexChunks(s2) == Some([v1, v2]);
    HexChunksPair(s);
    assert [v0] + [v1, v2] == [v0, v1, v2];
    assert HexChunks(s) == Some([v0, v1, v2]);
    assert [v0, v1, v2][..3] == [v0, v1, v2];
    assert ParseRgb(color) == Some([v0, v1, v2]);
  }

  /** One upper-case hex digit. */
  function HexChar(d: nat): (c: char)
    requires d < 16
    ensures IsHexDigit(c) && HexDigitValue(c) == d
  {
    if d < 10 then ('0' as int + d) as char else ('A' as int + d - 10) as char
  }

  /** Two upper-case hex digits for one channel value. */
  function HexPair(b: int): (p: string)
    requires 0 <= b < 256
    ensures |p| == 2 && AllHex(p) && HexValue(p) == b
  {
    var p := [HexChar(b / 16), HexChar(b % 16)];
    assert p[..1] == [p[0]] && p[..1][..0] == [];
    p
  }

  /** The "#RRGGBB" spelling of an RGB triple, the palette's own notation. */
  function RenderHex(rgb: seq<int>): (r: string)
    requires |rgb| == 3 && forall k :: 0 <= k < 3 ==> 0 <= rgb[k] < 256
    ensures |r| == 7 && r[0] == '#' && AllHex(r[1..])
    ensures HexValue(r[1..3]) == rgb[0] && HexValue(r[3..5]) == rgb[1] && HexValue(r[5..7]) == rgb[2]
  {
    var p0, p1, p2 := HexPair(rgb[0]), HexPair(rgb[1]), HexPair(rgb[2]);
    var digits := p0 + p1 + p2;
    var r := "#" + digits;
    assert r[1..] == digits;
    assert forall i :: 0 <= i < |digits| ==> IsHexDigit(digits[i]) by {
      assert AllHex(p0) && AllHex(p1) && AllHex(p2);
    }
    assert r[1..3] == p0 && r[3..5] == p1 && r[5..7] == p2;
    r
  }

  /** Reading back a rendered colour gives the triple it was rendered from. */
  lemma ParseRenderHex(rgb: seq<int>)
    requires |rgb| == 3 && forall k :: 0 <= k < 3 ==> 0 <= rgb[k] < 256
    ensures ParseRgb(RenderHex(rgb)) == Some(rgb)
  {
    ParseHexTriple(RenderHex(rgb), rgb);
  }

  lemma ParseHexTriple(color: string, rgb: seq<int>)
    requires |color| == 7 && AllHex(color[1..]) && |rgb| == 3
    requires HexValue(color[1..3]) == rgb[0] && HexValue(color[3..5]) == rgb[1] && HexValue(color[5..7]) == rgb[2]
    ensures ParseRgb(color) == Some(rgb)
  {
    ParseHexColor(color);
    var c := ParseRgb(color).value;
    assert c[0] == rgb[0] && c[1] == rgb[1] && c[2] == rgb[2];
    assert c == rgb;
  }

  /** The names the loop visits are exactly the palette's names, each once. */
  lemma PaletteNamesAreKeys()
    ensures |PaletteNames| == 15
    ensures forall i, j :: 0 <= i < j < |PaletteNames| ==> PaletteNames[i] != PaletteNames[j]
    ensures forall k :: k in HappyColors <==> k in PaletteNames
  {
  }

  /** The palette entries SapGreen to MidnightBlack are "#" and six hex digits. */
  lemma WellFormedFirst(name: string)
    requires name in {"SapGreen", "AlizarinCrimson", "VanDykeBrown", "DarkSienna", "MidnightBlack"}
    ensures |HappyColors[name]| == 7 && AllHex(HappyColors[name][1..])
  {
  }

  /** The palette entries PrussianBlue to YellowOchre are "#" and six hex digits. */
  lemma WellFormedSecond(name: string)
    requires name in {"PrussianBlue", "PhthaloBlue", "PhthaloGreen", "CadmiumYellow", "YellowOchre"}
    ensures |HappyColors[name]| == 7 && AllHex(HappyColors[name][1..])
  {
  }

  /** The palette entries IndianYellow to TitaniumWhite are "#" and six hex digits. */
  lemma WellFormedThird(name: string)
    requires name in {"IndianYellow", "BrightRed", "BrightGreen", "BrightBlue", "TitaniumWhite"}
    ensures |HappyColors[name]| == 7 && AllHex(HappyColors[name][1..])
  {
  }

  /** Every palette entry is a well-formed "#RRGGBB", so the conversion never raises. */
  lemma HappyColorsParse(name: string)
    requires name in HappyColors
    ensures ParseRgb(HappyColors[name]).Some?
    ensures forall k :: 0 <= k < 3 ==> 0 <= ParseRgb(HappyColors[name]).value[k] < 256
  {
    if name in {"SapGreen", "AlizarinCrimson", "VanDykeBrown", "DarkSienna", "MidnightBlack"} {
      WellFormedFirst(name);
    } else if name in {"PrussianBlue", "PhthaloBlue", "PhthaloGreen", "CadmiumYellow", "YellowOchre"} {
      WellFormedSecond(name);
    } else {
      WellFormedThird(name);
    }
    ParseHexColor(HappyColors[name]);
  }

  /**
   * `pallettBobRoss`, up to RGB: one entry per palette name, each the parsed
   * triple of its hex spelling. A colour that does not parse stops the loop
   * (the source raises), which is None here.
   */
  method Palette() returns (r: Option<map<string, seq<int>>>)
    ensures r.Some? <==> forall k :: k in HappyColors ==> ParseRgb(HappyColors[k]).Some?
    ensures r.Some? ==> r.value.Keys == HappyColors.Keys
    ensures r.Some? ==> forall k :: k in r.value ==> Some(r.value[k]) == ParseRgb(HappyColors[k])
  {
    PaletteNamesAreKeys();
    r := ConvertAll(PaletteNames, HappyColors);
  }

  /** The conversion loop over the names of a palette, in the order given. */
  method ConvertAll(names: seq<string>, colors: map<string, string>) returns (r: Option<map<string, seq<int>>>)
    requires forall k :: k in colors <==> k in names
    ensures r.Some? <==> forall k :: k in colors ==> ParseRgb(colors[k]).Some?
    ensures r.Some? ==> r.value.Keys == colors.Keys
    ensures r.Some? ==> forall k :: k in r.value ==> Some(r.value[k]) == ParseRgb(colors[k])
  {
    var acc: map<string, seq<int>> := map[];
    var i := 0;
    while i < |names|
      invariant 0 <= i <= |names|
      invariant forall k :: k in acc <==> k in names[..i]
      invariant forall k :: k in acc ==> k in colors && Some(acc[k]) == ParseRgb(colors[k])
    {
      var name := names[i];
      var rgb := ParseRgb(colors[name]);
      if rgb.None? {
        return None;
      }
      acc := acc[name := rgb.value];
      assert names[..i + 1] == names[..i] + [name];
      i := i + 1;
    }
    assert names[..i] == names;
    r := Some(acc);
  }

  /** The palette conversion always succeeds, with three channel values in 0..255 per colour. */
  lemma PaletteComplete()
    ensures forall k :: k in HappyColors ==> ParseRgb(HappyColors[k]).Some?
    ensures forall k :: k in HappyColors ==>
      forall c :: 0 <= c < 3 ==> 0 <= ParseRgb(HappyColors[k]).value[c] < 256
  {
    forall k | k in HappyColors
      ensures ParseRgb(HappyColors[k]).Some?
      ensures forall c :: 0 <= c < 3 ==> 0 <= ParseRgb(HappyColors[k]).value[c] < 256
    {
      HappyColorsParse(k);
    }
  }

  // ---------------------------------------------------------------- ledCheck

  /** One LED property as read back from the printer, in the reply's order. */
  type Reading = seq<(string, real)>

  datatype LedError =
    | NoColorForStatus(status: string)      // statusColors[statusStr] raises KeyError
    | NoPaletteEntry(color: string)         // hsvColors[...] raises KeyError
    | MissingProperty(prop: string)         // desiredLED[cprop] raises KeyError

  /** A property that needs no change: 'blink', or one whose desired value it already has. */
  predicate Agrees(p: (string, real), desired: map<string, real>) {
    p.0 == "blink" || (p.0 in desired && p.1 == desired[p.0])
  }

  /** The position of the first property that does not agree, from `i` on. */
  function FirstOffense(actual: Reading, desired: map<string, real>, i: nat): (r: Option<nat>)
    requires i <= |actual|
    ensures r.Some? ==> i <= r.value < |actual| && !Agrees(actual[r.value], desired)
    ensures r.Some? ==> forall j :: i <= j < r.value ==> Agrees(actual[j], desired)
    ensures r.None? ==> forall j :: i <= j < |actual| ==> Agrees(actual[j], desired)
    decreases |actual| - i
  {
    if i == |actual| then None
    else if !Agrees(actual[i], desired) then Some(i)
    else FirstOffense(actual, desired, i + 1)
  }

  /**
   * What the scan concludes: change when the first disagreeing property has
   * a desired value, KeyError when it has none, no change when all agree.
   */
  function Verdict(actual: Reading, desired: map<string, real>): Result<bool, LedError>
  {
    match FirstOffense(actual, desired, 0)
    case None => Ok(false)
    case Some(i) => if actual[i].0 in desired then Ok(true) else Err(MissingProperty(actual[i].0))
  }

  /**
   * `ledCheck`: look up the status's colour and its palette value, scan the
   * reading, and PUT the desired value (returned here) at most once, only
   * when some compared property differs.
   */
  method LedCheck(actual: Reading, hsvColors: map<string, map<string, real>>,
                  statusColors: map<string, string>, statusStr: string)
    returns (r: Result<Option<map<string, real>>, LedError>)
    ensures statusStr !in statusColors ==> r == Err(NoColorForStatus(statusStr))
    ensures statusStr in statusColors && statusColors[statusStr] !in hsvColors ==>
      r == Err(NoPaletteEntry(statusColors[statusStr]))
    ensures statusStr in statusColors && statusColors[statusStr] in hsvColors ==>
      var desired := hsvColors[statusColors[statusStr]];
      match Verdict(actual, desired)
      case Ok(change) => r == Ok(if change then Some(desired) else None)
      case Err(e) => r == Err(e)
  {
    if statusStr !in statusColors {
      return Err(NoColorForStatus(statusStr));
    }
    if statusColors[statusStr] !in hsvColors {
      return Err(NoPaletteEntry(statusColors[statusStr]));
    }
    var desired := hsvColors[statusColors[statusStr]];
    var ledChange := false;
    var i := 0;
    while i < |actual|
      invariant 0 <= i <= |actual|
      invariant !ledChange
      invariant forall j :: 0 <= j < i ==> Agrees(actual[j], desired)
    {
      var (cprop, value) := actual[i];
      if cprop != "blink" {
        if cprop !in desired {
          return Err(MissingProperty(cprop));
        }
        if value != desired[cprop] {
          ledChange := true;
          break;
        }
      }
      i := i + 1;
    }
    if ledChange {
      r := Ok(Some(desired));
    } else {
      r := Ok(None);
    }
  }

  /**
   * With every compared property present in the desired value, the check
   * asks for a change exactly when some property other than 'blink' differs.
   */
  lemma ChangeIffSomeDiffers(actual: Reading, desired: map<string, real>)
    requires forall j :: 0 <= j < |actual| && actual[j].0 != "blink" ==> actual[j].0 in desired
    ensures Verdict(actual, desired).Ok?
    ensures Verdict(actual, desired) == Ok(true) <==>
      exists j :: 0 <= j < |actual| && actual[j].0 != "blink" && actual[j].1 != desired[actual[j].0]
  {
    var f := FirstOffense(actual, desired, 0);
    if f.None? {
      forall j | 0 <= j < |actual| && actual[j].0 != "blink"
        ensures actual[j].1 == desired[actual[j].0]
      {
        assert Agrees(actual[j], desired);
      }
    }
  }

  /** An empty reading (the printer did not answer) never asks for a change. */
  lemma EmptyReadingNoChange(desired: map<string, real>)
    ensures Verdict([], desired) == Ok(false)
  {
  }

  /** A different 'blink' value never changes the verdict: that property is not compared. */
  lemma {:induction false} BlinkIgnored(actual: Reading, desired: map<string, real>, i: nat, v: real)
    requires i < |actual| && actual[i].0 == "blink"
    ensures Verdict(actual[i := ("blink", v)], desired) == Verdict(actual, desired)
  {
    var other := actual[i := ("blink", v)];
    assert forall j :: 0 <= j < |actual| ==> (Agrees(actual[j], desired) <==> Agrees(other[j], desired));
    FirstOffenseAgree(actual, other, desired, 0);
  }

  /** Two readings that agree at the same positions, with the same keys, have the same first offense. */
  lemma {:induction false} FirstOffenseAgree(a: Reading, b: Reading, desired: map<string, real>, i: nat)
    requires |a| == |b| && i <= |a|
    requires forall j :: 0 <= j < |a| ==> (Agrees(a[j], desired) <==> Agrees(b[j], desired))
    ensures FirstOffense(a, desired, i) == FirstOffense(b, desired, i)
    decreases |a| - i
  {
    if i < |a| && Agrees(a[i], desired) {
      FirstOffenseAgree(a, b, desired, i + 1);
    }
  }
}
