/**
 * The C library routines the client relies on, re-specified on Dafny strings:
 * C strings and pointer reads, strstr, isspace, atoi, the %d and %x
 * conversions, and sscanf's "%N[^\"]" conversion.
 */
module CText {
  import opened Wrappers

  /** A NUL-terminated C string, without its terminator. */
  type CString = s: string | '\0' !in s

  /** The C string a buffer holds: everything before its first NUL. */
  function CStr(buf: string): (s: CString)
    ensures |s| <= |buf| && s == buf[..|s|]
    ensures |s| < |buf| ==> buf[|s|] == '\0'
  {
    if buf == [] || buf[0] == '\0' then [] else [buf[0]] + CStr(buf[1..])
  }

  lemma {:induction false} CStrOfCString(s: CString)
    ensures CStr(s) == s
  {
    if s != [] {
      assert s[0] in s;
      var t: CString := s[1..];
      CStrOfCString(t);
    }
  }

  /** The character a pointer to index i of buffer b reads; NUL past the end. */
  function At(b: string, i: nat): char
  {
    if i < |b| then b[i] else '\0'
  }

  function Min(a: int, b: int): int { if a <= b then a else b }

  // ---------------------------------------------------------------- strstr

  /** pat occurs in s starting at index i. */
  predicate MatchAt(s: string, pat: string, i: nat)
  {
    i + |pat| <= |s| && s[i..i + |pat|] == pat
  }

  /** strstr(s + from, pat): the first occurrence of pat at or after from. */
  function Find(s: string, pat: string, from: nat): (r: Option<nat>)
    decreases |s| - from
    ensures r.Some? ==> from <= r.value && MatchAt(s, pat, r.value)
    ensures r.Some? ==> forall j :: from <= j < r.value ==> !MatchAt(s, pat, j)
    ensures r.None? ==> forall j :: from <= j ==> !MatchAt(s, pat, j)
  {
    if from + |pat| > |s| then None
    else if s[from..from + |pat|] == pat then Some(from)
    else Find(s, pat, from + 1)
  }

  /** strncpy into a field of width + 1 bytes whose last byte is left or set to NUL. */
  function Truncate(s: string, width: nat): (r: string)
    ensures |r| <= width && |r| <= |s| && r == s[..|r|]
    ensures |s| <= width ==> r == s
  {
    if |s| <= width then s else s[..width]
  }

  /** A pattern holding a character that the text lacks is nowhere in the text. */
  lemma FindAbsent(s: string, pat: string, from: nat, c: char)
    requires c in pat && c !in s
    ensures Find(s, pat, from) == None
  {
  }

  /** The middle part of a three-way concatenation is the slice at its offset. */
  lemma SliceMid(a: string, p: string, b: string)
    ensures (a + p + b)[|a|..|a| + |p|] == p
  {
  }

  /** No occurrence starts in [from, e) when the pattern's i-th character is missing from the window those starts would cover. */
  lemma FindAfterGap(s: string, pat: string, from: nat, e: nat, i: nat)
    requires from <= e && MatchAt(s, pat, e) && i < |pat|
    requires pat[i] !in s[from + i..e + i]
    ensures Find(s, pat, from) == Some(e)
  {
    forall k | from <= k < e
      ensures !MatchAt(s, pat, k)
    {
      if k + |pat| <= |s| {
        assert s[k..k + |pat|][i] == s[from + i..e + i][k - from];
      }
    }
  }

  /** An occurrence one past a character that cannot start the pattern is the first one. */
  lemma FindAfterOne(s: string, pat: string, from: nat)
    requires MatchAt(s, pat, from + 1) && |pat| > 0 && s[from] != pat[0]
    ensures Find(s, pat, from) == Some(from + 1)
  {
    if from + |pat| <= |s| {
      assert s[from..from + |pat|][0] == s[from];
    }
  }

  // ------------------------------------------------------ character classes

  /** The blanks the JSON extractor skips on its own: space, tab, LF, CR. */
  predicate IsJsonSpace(c: char)
  {
    c == ' ' || c == '\t' || c == '\n' || c == '\r'
  }

  /** isspace in the C locale. */
  predicate IsSpace(c: char)
  {
    IsJsonSpace(c) || c == '\U{000B}' || c == '\U{000C}'
  }

  predicate IsDigit(c: char)
  {
    '0' <= c <= '9'
  }

  function DigitValue(c: char): nat
    requires IsDigit(c)
  {
    (c as int) - ('0' as int)
  }

  function DigitChar(d: nat): (c: char)
    requires d < 10
    ensures IsDigit(c) && DigitValue(c) == d
  {
    (('0' as int) + d) as char
  }

  /** isxdigit in the C locale. */
  predicate IsHexDigit(c: char)
  {
    IsDigit(c) || 'a' <= c <= 'f' || 'A' <= c <= 'F'
  }

  function HexValue(c: char): (v: nat)
    requires IsHexDigit(c)
    ensures v < 16
  {
    if IsDigit(c) then DigitValue(c)
    else if 'a' <= c <= 'f' then (c as int) - ('a' as int) + 10
    else (c as int) - ('A' as int) + 10
  }

  /** The upper-case hex digit for a value below 16. */
  function HexChar(v: nat): (c: char)
    requires v < 16
    ensures IsHexDigit(c) && HexValue(c) == v
  {
    if v < 10 then DigitChar(v) else (('A' as int) + v - 10) as char
  }

  // ----------------------------------------------------------------- skips

  /** The first index at or after i whose character is not blank (isspace). */
  function SkipSpaces(s: string, i: nat): (r: nat)
    requires i <= |s|
    decreases |s| - i
    ensures i <= r <= |s| && (r < |s| ==> !IsSpace(s[r]))
    ensures forall k :: i <= k < r ==> IsSpace(s[k])
  {
    if i < |s| && IsSpace(s[i]) then SkipSpaces(s, i + 1) else i
  }

  /** The first index at or after i whose character is not a JSON blank. */
  function SkipJsonSpaces(s: string, i: nat): (r: nat)
    requires i <= |s|
    decreases |s| - i
    ensures i <= r <= |s| && (r < |s| ==> !IsJsonSpace(s[r]))
    ensures forall k :: i <= k < r ==> IsJsonSpace(s[k])
  {
    if i < |s| && IsJsonSpace(s[i]) then SkipJsonSpaces(s, i + 1) else i
  }

  /** The first index at or after i whose character is not a decimal digit. */
  function DigitsEnd(s: string, i: nat): (r: nat)
    requires i <= |s|
    decreases |s| - i
    ensures i <= r <= |s| && (r < |s| ==> !IsDigit(s[r]))
    ensures forall k :: i <= k < r ==> IsDigit(s[k])
  {
    if i < |s| && IsDigit(s[i]) then DigitsEnd(s, i + 1) else i
  }

  // ------------------------------------------------------------ atoi and %d

  predicate AllDigits(d: string)
  {
    forall k :: 0 <= k < |d| ==> IsDigit(d[k])
  }

  /** The value of a run of decimal digits, most significant first. */
  function Num(d: string): nat
    requires AllDigits(d)
  {
    if d == [] then 0 else Num(d[..|d| - 1]) * 10 + DigitValue(d[|d| - 1])
  }

  /**
   * atoi(s + i): leading blanks, an optional sign, then the longest run of
   * digits; 0 when there are none. The value is unbounded here: the C
   * conversion's overflow is undefined behaviour and is not modelled.
   */
  function Atoi(s: string, i: nat): int
    requires i <= |s|
  {
    var j := SkipSpaces(s, i);
    if j < |s| && (s[j] == '-' || s[j] == '+') then
      var v: int := Num(s[j + 1..DigitsEnd(s, j + 1)]);
      if s[j] == '-' then -v else v
    else
      Num(s[j..DigitsEnd(s, j)])
  }

  /** "%d" of a non-negative value. */
  function Dec(n: nat): (r: string)
    ensures 1 <= |r| && AllDigits(r)
  {
    if n < 10 then [DigitChar(n)] else Dec(n / 10) + [DigitChar(n % 10)]
  }

  function Pow10(k: nat): nat
  {
    if k == 0 then 1 else 10 * Pow10(k - 1)
  }

  /** "%d" of a value below 10^k takes at most k characters. */
  lemma {:induction false} DecLength(n: nat, k: nat)
    requires 1 <= k && n < Pow10(k)
    ensures |Dec(n)| <= k
  {
    if n >= 10 {
      assert n / 10 < Pow10(k - 1);
      DecLength(n / 10, k - 1);
    }
  }

  /** Reading back what "%d" wrote gives the value. */
  lemma {:induction false} NumDec(n: nat)
    ensures Num(Dec(n)) == n
  {
    if n >= 10 {
      var d := Dec(n);
      assert d[..|d| - 1] == Dec(n / 10);
      NumDec(n / 10);
    }
  }

  /** atoi at a place holding "%d" of n, followed by a non-digit or the end, reads n. */
  lemma AtoiDecAt(s: string, i: nat, n: nat)
    requires i + |Dec(n)| <= |s| && s[i..i + |Dec(n)|] == Dec(n)
    requires i + |Dec(n)| == |s| || !IsDigit(s[i + |Dec(n)|])
    ensures Atoi(s, i) == n
  {
    var d := Dec(n);
    assert forall k :: 0 <= k < |d| ==> s[i + k] == d[k];
    assert s[i] == d[0];
    assert SkipSpaces(s, i) == i;
    DigitsEndAt(s, i, i + |d|);
    NumDec(n);
  }

  lemma DigitsEndAt(s: string, i: nat, e: nat)
    requires i <= e <= |s|
    requires forall k :: i <= k < e ==> IsDigit(s[k])
    requires e == |s| || !IsDigit(s[e])
    ensures DigitsEnd(s, i) == e
    decreases e - i
  {
    if i < e { DigitsEndAt(s, i + 1, e); }
  }

  // ------------------------------------------------------------ sscanf %N[^"]

  /** The first index at or after i, within width characters, that holds a quote or the terminator. */
  function ScanEnd(b: string, i: nat, width: nat): (r: nat)
    requires i <= |b|
    decreases width
    ensures i <= r <= |b| && r <= i + width
    ensures forall k :: i <= k < r ==> b[k] != '"' && b[k] != '\0'
  {
    if width == 0 || At(b, i) == '\0' || At(b, i) == '"' then i else ScanEnd(b, i + 1, width - 1)
  }

  /** The end of a scan of characters that are neither quotes nor terminators, stopped by one or by the width. */
  lemma ScanEndAt(b: string, i: nat, width: nat, e: nat)
    requires i <= e <= |b| && e - i <= width
    requires forall k :: i <= k < e ==> b[k] != '"' && b[k] != '\0'
    requires e - i == width || At(b, e) == '\0' || At(b, e) == '"'
    ensures ScanEnd(b, i, width) == e
    decreases e - i
  {
    if i < e { ScanEndAt(b, i + 1, width - 1, e); }
  }

  /** The first index at or after i that is neither a space nor a quote. */
  function SkipSpaceQuote(b: string, i: nat): (r: nat)
    requires i <= |b|
    decreases |b| - i
    ensures i <= r <= |b| && At(b, r) != ' ' && At(b, r) != '"'
    ensures forall k :: i <= k < r ==> b[k] == ' ' || b[k] == '"'
  {
    if At(b, i) == ' ' || At(b, i) == '"' then SkipSpaceQuote(b, i + 1) else i
  }
}
