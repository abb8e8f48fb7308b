/**
 * The handful of Python `str` operations the monitor relies on, stated over
 * `seq<char>`: `lower()`, `strip()`, `startswith()`, `split("-")[0]`, `int()`
 * on a decimal string, `%d` and `%02d` rendering, and `sep.join(...)`.
 * Case folding and white space are ASCII-only (see README).
 */
module Text {
  import opened Wrappers

  predicate IsUpper(c: char) { 'A' <= c <= 'Z' }

  function LowerChar(c: char): (r: char)
    ensures !IsUpper(r)
    ensures IsUpper(c) ==> r as int == c as int + 32
    ensures !IsUpper(c) ==> r == c
  {
    if IsUpper(c) then (c as int + 32) as char else c
  }

  /** Python's `s.lower()`, restricted to ASCII letters. */
  function Lower(s: string): (r: string)
    ensures |r| == |s|
    ensures forall i :: 0 <= i < |s| ==> r[i] == LowerChar(s[i])
  {
    if s == [] then [] else [LowerChar(s[0])] + Lower(s[1..])
  }

  predicate IsLowerCase(s: string) {
    forall i :: 0 <= i < |s| ==> !IsUpper(s[i])
  }

  /** Lowering a string that has no upper-case letter leaves it as it is. */
  lemma LowerOfLowerCase(s: string)
    requires IsLowerCase(s)
    ensures Lower(s) == s
  {
  }

  /** Lowering is idempotent. */
  lemma LowerIdempotent(s: string)
    ensures Lower(Lower(s)) == Lower(s)
  {
    LowerOfLowerCase(Lower(s));
  }

  /** Python's `s.startswith(p)`. */
  predicate StartsWith(s: string, p: string) {
    |p| <= |s| && s[..|p|] == p
  }

  lemma PrefixStartsWith(p: string, rest: string)
    ensures StartsWith(p + rest, p)
  {
    assert (p + rest)[..|p|] == p;
  }

  lemma StartsWithAppend(s: string, p: string, t: string)
    requires StartsWith(s, p)
    ensures StartsWith(s + t, p)
  {
    assert (s + t)[..|p|] == s[..|p|];
  }

  /** The white space `str.strip()` removes, restricted to ASCII: tab to carriage return, the four separators 0x1c-0x1f, and space. */
  predicate IsSpace(c: char) {
    9 <= c as int <= 13 || 0x1c <= c as int <= 0x20
  }

  function TrimLeft(s: string): (r: string)
    ensures |r| <= |s|
    ensures r == [] || !IsSpace(r[0])
  {
    if s != [] && IsSpace(s[0]) then TrimLeft(s[1..]) else s
  }

  function TrimRight(s: string): (r: string)
    ensures |r| <= |s| && r == s[..|r|]
    ensures r == [] || !IsSpace(r[|r| - 1])
  {
    if s != [] && IsSpace(s[|s| - 1]) then TrimRight(s[..|s| - 1]) else s
  }

  /** `lstrip` drops a prefix made only of white space. */
  lemma {:induction false} TrimLeftDropsSpace(s: string)
    ensures var r := TrimLeft(s);
      && r == s[|s| - |r|..]
      && forall k :: 0 <= k < |s| - |r| ==> IsSpace(s[k])
  {
    if s != [] && IsSpace(s[0]) {
      TrimLeftDropsSpace(s[1..]);
    }
  }

  /** `rstrip` drops a suffix made only of white space. */
  lemma {:induction false} TrimRightDropsSpace(s: string)
    ensures var r := TrimRight(s);
      forall k :: |r| <= k < |s| ==> IsSpace(s[k])
  {
    if s != [] && IsSpace(s[|s| - 1]) {
      TrimRightDropsSpace(s[..|s| - 1]);
    }
  }

  /** Python's `s.strip()`: the longest infix with no white space at either end. */
  function Strip(s: string): (r: string)
    ensures |r| <= |s|
    ensures r == [] || (!IsSpace(r[0]) && !IsSpace(r[|r| - 1]))
  {
    TrimRight(TrimLeft(s))
  }

  /** A string that neither starts nor ends with white space is its own strip. */
  lemma StripUntouched(s: string)
    requires s == [] || (!IsSpace(s[0]) && !IsSpace(s[|s| - 1]))
    ensures Strip(s) == s
  {
  }

  lemma StripIdempotent(s: string)
    ensures Strip(Strip(s)) == Strip(s)
  {
    StripUntouched(Strip(s));
  }

  /** `s.split(sep)[0]`: everything before the first `sep`, or all of `s`. */
  function BeforeFirst(s: string, sep: char): (r: string)
    ensures r <= s
    ensures sep !in r
    ensures |r| < |s| ==> s[|r|] == sep
  {
    if s == [] || s[0] == sep then [] else [s[0]] + BeforeFirst(s[1..], sep)
  }

  predicate IsDigit(c: char) { '0' <= c <= '9' }

  predicate AllDigits(s: string) {
    forall i :: 0 <= i < |s| ==> IsDigit(s[i])
  }

  function DigitChar(d: nat): (c: char)
    requires d < 10
    ensures IsDigit(c) && c as int - '0' as int == d
  {
    ('0' as int + d) as char
  }

  function DigitValue(c: char): (d: nat)
    requires IsDigit(c)
    ensures d < 10
  {
    c as int - '0' as int
  }

  /** Decimal rendering of a natural number, as `%d` does. */
  function NatToString(n: nat): (r: string)
    ensures |r| >= 1 && AllDigits(r)
    ensures n >= 10 ==> r[0] != '0'
    decreases n
  {
    if n < 10 then [DigitChar(n)] else NatToString(n / 10) + [DigitChar(n % 10)]
  }

  /** `%d` of an integer. */
  function IntToString(i: int): (r: string)
    ensures |r| >= 1
    ensures i < 0 <==> r[0] == '-'
  {
    if i < 0 then "-" + NatToString(-i) else NatToString(i)
  }

  /** The value of a string of decimal digits, most significant first. */
  function DigitsValue(s: string): nat
    requires AllDigits(s)
  {
    if s == [] then 0 else DigitsValue(s[..|s| - 1]) * 10 + DigitValue(s[|s| - 1])
  }

  lemma {:induction false} DigitsOfNat(n: nat)
    ensures DigitsValue(NatToString(n)) == n
    decreases n
  {
    if n >= 10 {
      var s := NatToString(n);
      assert s[..|s| - 1] == NatToString(n / 10);
      DigitsOfNat(n / 10);
    }
  }

  /** A leading zero does not change the value of a digit string. */
  lemma LeadingZero(s: string)
    requires AllDigits(s)
    ensures DigitsValue("0" + s) == DigitsValue(s)
    decreases |s|
  {
    if s != [] {
      assert ("0" + s)[..|"0" + s| - 1] == "0" + s[..|s| - 1];
      LeadingZero(s[..|s| - 1]);
    }
  }

  /**
   * Python's `int(s)` for a decimal string: surrounding white space, one
   * optional sign and at least one digit; anything else raises ValueError,
   * which is None here.
   */
  function ParseInt(s: string): (r: Option<int>)
    ensures r.Some? ==> Strip(s) != []
  {
    var t := Strip(s);
    if t == [] then None
    else if t[0] == '-' || t[0] == '+' then
      var d := t[1..];
      if d != [] && AllDigits(d) then
        Some(if t[0] == '-' then -(DigitsValue(d) as int) else DigitsValue(d))
      else None
    else if AllDigits(t) then Some(DigitsValue(t))
    else None
  }

  /** Rendering an integer with `%d` and parsing it back with `int()` is the identity. */
  lemma {:induction false} ParseIntOfIntToString(n: int)
    ensures ParseInt(IntToString(n)) == Some(n)
  {
    var s := IntToString(n);
    var m: nat := if n < 0 then -n else n;
    var digits := NatToString(m);
    DigitsOfNat(m);
    assert IsDigit(digits[|digits| - 1]);
    StripUntouched(s);
    if n < 0 {
      assert s == "-" + digits && s[1..] == digits;
      assert ParseInt(s) == Some(-(DigitsValue(digits) as int));
    } else {
      assert s == digits && IsDigit(s[0]);
      assert ParseInt(s) == Some(DigitsValue(digits));
    }
  }

  /** `%02d`: the decimal rendering, zero-padded to at least two characters. */
  function Pad2(n: int): (r: string)
    ensures |r| >= 2
  {
    var s := IntToString(n);
    if |s| < 2 then "0" + s else s
  }

  /** Zero padding never changes the number the text denotes. */
  lemma {:induction false} ParseIntOfPad2(n: int)
    ensures ParseInt(Pad2(n)) == Some(n)
  {
    ParseIntOfIntToString(n);
    if 0 <= n < 10 {
      var p := Pad2(n);
      var s := NatToString(n);
      assert p == "0" + s;
      StripUntouched(p);
      LeadingZero(s);
      DigitsOfNat(n);
    }
  }

  /** `sep.join(parts)`. */
  function Join(parts: seq<string>, sep: string): string
  {
    if |parts| == 0 then ""
    else if |parts| == 1 then parts[0]
    else Join(parts[..|parts| - 1], sep) + sep + parts[|parts| - 1]
  }

  /** The first `n` parts, each followed by `sep` unless it is the last of all the parts. */
  function SepUpTo(parts: seq<string>, sep: string, n: nat): string
    requires n <= |parts|
  {
    if n == 0 then "" else SepUpTo(parts, sep, n - 1) + parts[n - 1] + (if n - 1 != |parts| - 1 then sep else "")
  }

  /** Writing the parts one by one with separators between them is `sep.join`. */
  lemma {:induction false} SepUpToJoin(parts: seq<string>, sep: string, n: nat)
    requires 0 < n <= |parts|
    ensures SepUpTo(parts, sep, n) == Join(parts[..n], sep) + (if n != |parts| then sep else "")
  {
    var last := parts[n - 1];
    var tail := if n != |parts| then sep else "";
    if n == 1 {
      assert Join(parts[..n], sep) == last;
      assert SepUpTo(parts, sep, n) == "" + last + tail;
      assert "" + last == last;
    } else {
      SepUpToJoin(parts, sep, n - 1);
      var earlier := Join(parts[..n - 1], sep);
      assert SepUpTo(parts, sep, n - 1) == earlier + sep;
      assert parts[..n][..n - 1] == parts[..n - 1];
      assert Join(parts[..n], sep) == earlier + sep + last;
    }
  }
}
