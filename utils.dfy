/**
 * The helpers of utils.c: the error-message table, the warm/cool white
 * interpolation and the "#RRGGBB" parser.
 */
module Utils {
  import opened Wrappers
  import opened CText
  import opened Cwiz

  // -------------------------------------------------------- error messages

  const UnknownError := "Unknown error"

  /** wiz_strerror: the fixed message of each code, "Unknown error" for any other integer. */
  function StrError(error: int): string
  {
    if error == 0 then "Success"
    else if error == -1 then "Socket error"
    else if error == -2 then "Timeout"
    else if error == -3 then "Invalid parameter"
    else if error == -4 then "JSON parse error"
    else if error == -5 then "No response from bulb"
    else if error == -6 then "Memory allocation failed"
    else if error == -7 then "Connection error"
    else UnknownError
  }

  /** The message is "Unknown error" exactly for integers that are no status code. */
  lemma StrErrorKnownCodes(error: int)
    ensures StrError(error) == UnknownError <==> StatusOf(error).None?
  {
  }

  /** Distinct statuses have distinct messages. */
  lemma StrErrorInjective(a: Status, b: Status)
    requires StrError(a.Code()) == StrError(b.Code())
    ensures a == b
  {
    var x, y := StrError(a.Code()), StrError(b.Code());
    assert |x| == |y| && (|x| > 0 ==> x[0] == y[0]);
    CodeInjectiveByMessage(a.Code(), b.Code());
    CodeInjective(a, b);
  }

  /** Messages of two codes agree in length and first letter only when the codes agree. */
  lemma CodeInjectiveByMessage(c: int, d: int)
    requires StatusOf(c).Some? && StatusOf(d).Some?
    requires |StrError(c)| == |StrError(d)| && StrError(c)[0] == StrError(d)[0]
    ensures c == d
  {
  }

  // ------------------------------------------------------------ rgb to rgbcw

  /** The cool-white share of a colour temperature: 0 at or below TempMin, 255 at or above TempMax. */
  function CoolOf(temp: U16): (c: U8)
  {
    if temp <= TempMin then 0
    else if temp >= TempMax then 255
    else ToU8(((temp - TempMin) * 255) / (TempMax - TempMin))
  }

  /** wiz_rgb_to_rgbcw: the colour copied, cool and warm white split by temperature. */
  function RgbToRgbcw(rgb: Rgb, temp: U16): (x: Rgbcw)
    ensures x.r == rgb.r && x.g == rgb.g && x.b == rgb.b
    ensures x.c + x.w == 255
  {
    var c := CoolOf(temp);
    Rgbcw(rgb.r, rgb.g, rgb.b, c, 255 - c)
  }

  /** The out-pointer form: a NULL rgbcw (None) is left alone, anything else is overwritten. */
  function WriteRgbcw(rgb: Rgb, temp: U16, rgbcw: Option<Rgbcw>): (r: Option<Rgbcw>)
    ensures rgbcw.None? <==> r.None?
  {
    if rgbcw.None? then None else Some(RgbToRgbcw(rgb, temp))
  }

  /** The cast to uint8_t never wraps: the quotient is below 255 strictly between the limits. */
  lemma CoolFloor(temp: U16)
    requires TempMin < temp < TempMax
    ensures ((temp - TempMin) * 255) / (TempMax - TempMin) < 255
    ensures CoolOf(temp) == ((temp - TempMin) * 255) / (TempMax - TempMin)
    ensures CoolOf(temp) * (TempMax - TempMin) <= (temp - TempMin) * 255 < (CoolOf(temp) + 1) * (TempMax - TempMin)
  {
    var v := (temp - TempMin) * 255;
    assert v < 255 * 4300;
    DivBelow(v, 4300, 255);
  }

  lemma DivBelow(v: nat, d: nat, k: nat)
    requires d > 0 && v < k * d
    ensures v / d < k
  {
  }

  /** The ends of the range: all warm at or below TempMin, all cool at or above TempMax. */
  lemma RgbcwEnds(rgb: Rgb, temp: U16)
    ensures temp <= TempMin ==> RgbToRgbcw(rgb, temp).w == 255 && RgbToRgbcw(rgb, temp).c == 0
    ensures temp >= TempMax ==> RgbToRgbcw(rgb, temp).w == 0 && RgbToRgbcw(rgb, temp).c == 255
  {
  }

  /** 4350 K, halfway, floors to c = 127 and w = 128. */
  lemma RgbcwHalfway(rgb: Rgb)
    ensures RgbToRgbcw(rgb, 4350).c == 127 && RgbToRgbcw(rgb, 4350).w == 128
  {
    assert (4350 - TempMin) * 255 == 548250;
    assert 548250 / 4300 == 127;
  }

  /** A hotter temperature never gives less cool white. */
  lemma CoolMonotonic(t1: U16, t2: U16)
    requires t1 <= t2
    ensures CoolOf(t1) <= CoolOf(t2)
  {
    if TempMin < t1 && t2 < TempMax {
      CoolFloor(t1);
      CoolFloor(t2);
    } else if TempMin < t1 < TempMax {
      CoolFloor(t1);
    } else if TempMin < t2 < TempMax {
      CoolFloor(t2);
    }
  }

  // ------------------------------------------------------------ hex colours

  /** The colour text after at most one leading '#'. */
  function StripHash(s: string): string
  {
    if |s| > 0 && s[0] == '#' then s[1..] else s
  }

  /** The byte two hex digits at i spell, as %02x reads them. */
  function HexByte(t: string, i: nat): (v: U8)
    requires i + 1 < |t| && IsHexDigit(t[i]) && IsHexDigit(t[i + 1])
  {
    HexValue(t[i]) * 16 + HexValue(t[i + 1])
  }

  predicate AllHex(t: string)
  {
    forall i :: 0 <= i < |t| ==> IsHexDigit(t[i])
  }

  /** The colour a text spells: exactly six hex digits after an optional '#', in either case. */
  function HexDecode(s: string): (r: Option<Rgb>)
    ensures r.Some? <==> |StripHash(s)| == 6 && AllHex(StripHash(s))
  {
    var t := StripHash(s);
    if |t| == 6 && AllHex(t) then Some(Rgb(HexByte(t, 0), HexByte(t, 2), HexByte(t, 4))) else None
  }

  /**
   * wiz_hex_to_rgb. A NULL text or a NULL rgb (hasOut false) is refused;
   * the output is written only on success.
   */
  method HexToRgb(hex: Option<CString>, hasOut: bool, rgb: Rgb) returns (ret: Status, rgb': Rgb)
    ensures hex.None? || !hasOut ==> ret == ErrInvalidParam && rgb' == rgb
    ensures hex.Some? && hasOut ==>
              (ret == Ok <==> HexDecode(hex.value).Some?) &&
              (ret == Ok ==> rgb' == HexDecode(hex.value).value) &&
              (ret != Ok ==> ret == ErrInvalidParam && rgb' == rgb)
  {
    if hex.None? || !hasOut {
      return ErrInvalidParam, rgb;
    }
    var t := hex.value;
    if |t| > 0 && t[0] == '#' {
      t := t[1..];
    }
    if |t| != 6 {
      return ErrInvalidParam, rgb;
    }
    for i := 0 to 6
      invariant forall j :: 0 <= j < i ==> IsHexDigit(t[j])
    {
      if !IsHexDigit(t[i]) {
        return ErrInvalidParam, rgb;
      }
    }
    var r := HexValue(t[0]) * 16 + HexValue(t[1]);
    var g := HexValue(t[2]) * 16 + HexValue(t[3]);
    var b := HexValue(t[4]) * 16 + HexValue(t[5]);
    return Ok, Rgb(r, g, b);
  }

  /** The upper-case "#RRGGBB" text of a colour. */
  function HexEncode(c: Rgb): (s: string)
    ensures |s| == 7 && s[0] == '#'
  {
    "#" + [HexChar(c.r / 16), HexChar(c.r % 16), HexChar(c.g / 16), HexChar(c.g % 16),
           HexChar(c.b / 16), HexChar(c.b % 16)]
  }

  /** Parsing is the inverse of encoding, with or without the '#'. */
  lemma HexRoundTrip(c: Rgb)
    ensures HexDecode(HexEncode(c)) == Some(c)
    ensures HexDecode(HexEncode(c)[1..]) == Some(c)
  {
    var s := HexEncode(c);
    var t := s[1..];
    assert StripHash(s) == t;
    assert StripHash(t) == t;
    assert AllHex(t);
  }

  /** ASCII lower-casing. */
  function Lower(ch: char): char
  {
    if 'A' <= ch <= 'Z' then ((ch as int) - ('A' as int) + ('a' as int)) as char else ch
  }

  function LowerAll(s: string): (r: string)
    ensures |r| == |s| && forall i :: 0 <= i < |s| ==> r[i] == Lower(s[i])
  {
    seq(|s|, i requires 0 <= i < |s| => Lower(s[i]))
  }

  /** Parsing ignores the case of the hex digits. */
  lemma HexCaseInsensitive(s: string)
    ensures HexDecode(LowerAll(s)) == HexDecode(s)
  {
    var t, u := StripHash(s), StripHash(LowerAll(s));
    assert u == LowerAll(t);
    assert forall i :: 0 <= i < |t| ==> (IsHexDigit(t[i]) <==> IsHexDigit(u[i]));
    assert forall i :: 0 <= i < |t| && IsHexDigit(t[i]) ==> HexValue(u[i]) == HexValue(t[i]);
  }

  /** "#FF8000" and "ff8000" both spell (255, 128, 0). */
  lemma OrangeExample(a: string, b: string)
    requires a == "#FF8000" && b == "ff8000"
    ensures HexDecode(a) == HexDecode(b) == Some(Rgb(255, 128, 0))
  {
    assert StripHash(a) == "FF8000";
    assert StripHash(b) == b;
    assert AllHex("FF8000") && AllHex(b);
  }

  /** Only one '#' is stripped. */
  lemma DoubleHashRejected(s: string)
    requires s == "##FF8000"
    ensures HexDecode(s) == None
  {
    assert StripHash(s) == "#FF8000";
  }
}
